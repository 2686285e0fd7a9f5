# STIG checklist and CCI mapping core, in Dafny

This project models the compliance-mapping core of a desktop tool for DISA STIG checklists:

- **`parse_cci_list`** reads the DISA CCI list (`cci_item` records with their NIST SP 800-53 references).
- **`parse_stig_checklist`** reads a STIG Viewer `.ckl` checklist (ASSET, STIG_INFO, VULN blocks).
- **`parse_and_merge_stig_checklists`** merges several checklists into one.
- **`map_stig_to_nist_controls`** aggregates vulnerabilities into one record per NIST control, with the worst compliance verdict and the highest risk.
- **`create_mapping_result`** counts the summary.
- **`generate_ckl_xml`** writes a checklist back out, escaping text with `escape_xml` and `add_stig_data`.
- **`normalize_date_format`** brings dates to `YYYY-MM-DD`.

The two parsers are streaming loops over the events of an XML pull tokenizer.

- **Input.** Each parser takes the tokenizer's event sequence (`XmlEvents.Event`). Text events carry the raw, still-escaped text, and the parser unescapes it with the five predefined entities of XML 1.0, section 4.6.
- **Step functions.** Each parser is specified by a step function on its loop state (`CciParser.Step`, `CklParser.Step`) and a run function that stops at the first end-of-file or tokenizer error.
- **Loop methods.** Each parser is implemented by a `while` loop method whose result equals the run function. Each arm of the loop is its own method, proved equal to its step case.
- **Writer.** The checklist writer is modelled by the event sequence of the generated document. Indentation and newlines between tags produce no events, as under `trim_text(true)`. An element's text becomes one text event holding the escaped value as written, untrimmed; the tokenizer would trim it first and drop it when only white space is left (see Left out).

## Results

The central results:

1. **Checklist round trip.** Writing a checklist and parsing it back gives `Canon(c)`, the checklist as the parser would have stored it: text trimmed, at most the last CCI reference, `stig_id` equal to `rule_ver`, and empty overrides as `None` (`ChecklistReadBack.ReadBackChecklist`).
   - On checklists already in that form the round trip is exact (`ChecklistReadBack.RoundTrip`).
   - Every parsed checklist is in that form (`CklParser.ParsedChecklistIsCanonical`).
2. **Control aggregation.** `map_stig_to_nist_controls` returns strictly ascending, hence distinct, control ids. Each id is reachable from a CCI reference of some vulnerability through the catalog.
   - Each control's CCI list is duplicate-free and holds exactly the CCIs that reach it.
   - Its vulnerabilities have distinct `vuln_num`s and cover every `vuln_num` that reaches it.
   - Its verdicts are the worst status and the highest severity over the vulnerabilities that reach it. They therefore do not depend on vulnerability order (`ControlMapping.VerdictsIgnoreOrder`).
3. **CCI parsing.** Every parsed CCI record has a non-empty id and a title equal to its definition up to the first `.`.
   - Its controls are distinct, trimmed and non-empty.
   - Each control comes from a `reference` element whose title names NIST SP 800-53 (`CciParser.ParsedControlsSourced`).
   - Conversely, one `cci_item` element yields a record whose controls are exactly the distinct controls of the `reference` elements inside its `references` (`CciParser.ItemControls`).
4. **Escaping.** `escape_xml`'s chain of replacements equals per-character escaping. It is inverted by unescaping, is injective, and leaves no raw markup character.
5. **Record counts.** When VULN elements do not nest, a checklist has exactly one vulnerability per `<VULN>` start tag (`CklParser.ParsedVulnElements`). When `cci_item` elements do not nest, the CCI list has one record per item with a non-empty id, in document order (`CciParser.ParsedCciItems`).

## Model

| member | source | states |
|---|---|---|
| Strings.Trim | src-tauri/src/stig.rs:333 | `trim` as a function with no contract of its own; `TrimIsTrimmed` states that the result is trimmed and no longer than the input, `TrimSlice` that only white space at the ends is removed |
| Strings.TrimSlice | src-tauri/src/stig.rs:333 | `trim` gives the slice of its input between a leading and a trailing run of white space, which are all it removes |
| Strings.TrimIsTrimmed | src-tauri/src/stig.rs:333 | `trim` leaves no leading or trailing white space and never lengthens its input |
| Strings.TrimIdempotent | src-tauri/src/stig.rs:333 | trimming twice is trimming once |
| Strings.Lower | src-tauri/src/stig.rs:520 | lower-casing keeps the length of the string |
| Strings.Split | src-tauri/src/date_utils.rs:63-65 | `split` gives one more part than there are separators, and no part holds the separator |
| Strings.JoinSplit | src-tauri/src/date_utils.rs:63-65 | joining the parts of a split with the separator gives back the string |
| Strings.SplitJoin | src-tauri/src/date_utils.rs:63-65 | splitting a join of separator-free parts gives back the parts |
| Strings.BeforeFirst | src-tauri/src/date_utils.rs:48 | `split(c).next()` is the longest prefix without `c`, followed by `c` when shorter than the string |
| XmlEvents.FirstAttr | src-tauri/src/stig.rs:156-163 | the value of the first attribute with the key, and None exactly when no attribute has it |
| CciParser.TitleOf | src-tauri/src/stig.rs:206-211 | the title is a '.'-free prefix of the definition, either all of it or the part before its first '.' |
| CciParser.NistControlOf | src-tauri/src/stig.rs:177-193 | a reference yields a control exactly when its title contains "NIST SP 800-53" and its trimmed index is not empty; the control is trimmed and not empty |
| CciParser.Open | src-tauri/src/stig.rs:140-168 | the start-tag case: a `cci_item` starts a record with its id attribute, `references` opens the reference list, and every start tag becomes the field target; its properties are stated by `StepKeepsInvariant` and `StepsItem` |
| CciParser.AddReference | src-tauri/src/stig.rs:173-197 | the self-closing `reference` case, whose effect `AddReferenceKeepsControls` states |
| CciParser.StoreField | src-tauri/src/stig.rs:204-217 | stores the trimmed text into the field named by the last start tag, deriving the title from a definition; `ParsedCcisWellFormed` and `StaleFieldCleared` state the consequences |
| CciParser.Close | src-tauri/src/stig.rs:219-231 | the end-tag case: `</cci_item>` keeps a record with a non-empty id, `</references>` closes the list; `StepsItem` states the effect |
| CciParser.Step | src-tauri/src/stig.rs:137-237 | one loop iteration as a function of the state and the event, kept well formed by `StepKeepsInvariant` |
| CciParser.ReferenceArm | src-tauri/src/stig.rs:173-197 | the self-closing `reference` arm adds the reference's control as `AddReference` does |
| CciParser.StoreFieldArm | src-tauri/src/stig.rs:204-217 | the end-tag arm stores the trimmed text into the field of the last start tag, as `StoreField` does |
| CciParser.CloseArm | src-tauri/src/stig.rs:201-231 | the whole end-tag arm, including keeping a finished record with a non-empty id, equals `Close` |
| CciParser.ParseCciList | src-tauri/src/stig.rs:122-240 | the event loop returns what the step specification `ParseCci` returns |
| CciParser.AddReferenceKeepsControls | src-tauri/src/stig.rs:189-193 | a control is appended exactly when it is new, nothing else in the record changes, and the list stays distinct, trimmed and non-empty |
| CciParser.StepKeepsInvariant | src-tauri/src/stig.rs:137-237 | every loop iteration keeps kept records and the open record well formed |
| CciParser.ParsedCcisWellFormed | src-tauri/src/stig.rs:204-224 | every returned record has a non-empty id, trimmed text, the title derived from the definition and well-formed controls |
| CciParser.ParsedControlsSourced | src-tauri/src/stig.rs:173-197 | every returned control is the trimmed index of a NIST SP 800-53 `reference` element of the input |
| CciParser.ParseCciFails | src-tauri/src/stig.rs:232-233 | parsing fails exactly when a tokenizer error comes before any end of file, and then reports that error's detail |
| CciParser.ParsedPrefixKept | src-tauri/src/stig.rs:219-224 | records are only appended, so those of a prefix of the document lead those of the whole |
| CciParser.StepsItem | src-tauri/src/stig.rs:143-165 | one `cci_item` adds exactly one record carrying its id attribute at the end when the id is not empty, and nothing otherwise |
| CciParser.AppendNewMembers | src-tauri/src/stig.rs:189-193 | appending only controls not yet present keeps the list distinct and holds exactly the old controls and the new ones |
| CciParser.ReferencedControlsMembers | src-tauri/src/stig.rs:173-197 | a control is among a body's referenced controls exactly when some self-closing `reference` element after an open `references` tag names it |
| CciParser.StepsInsideItemControls | src-tauri/src/stig.rs:173-197 | inside an item, the open record's controls grow by the new controls of the body's NIST references, in order |
| CciParser.ItemRecordControls | src-tauri/src/stig.rs:143-224 | one `cci_item` with a non-empty id adds one record whose controls are the body's referenced controls without repeats |
| CciParser.ItemControls | src-tauri/src/stig.rs:143-224 | that record's controls are distinct and are exactly the controls of the NIST references inside the item's `references` |
| CciParser.IdsAppend | src-tauri/src/stig.rs:222 | the ids of appended records are the ids of both parts, in order |
| CciParser.StepsOutsideItems | src-tauri/src/stig.rs:137-237 | events that are no `cci_item` tag leave the kept records alone |
| CciParser.SegmentIds | src-tauri/src/stig.rs:143-231 | one piece of the document appends the id of its item when that id is not empty, and nothing otherwise |
| CciParser.StepsItemSegments | src-tauri/src/stig.rs:137-237 | a run of such pieces appends the kept ids in document order |
| CciParser.ParsedCciItems | src-tauri/src/stig.rs:122-240 | when `cci_item` elements do not nest, parsing succeeds with one record per item with a non-empty id, carrying that id, in document order |
| CciParser.StaleFieldCleared | src-tauri/src/stig.rs:204-216 | fields are dispatched on the last start tag, so a `type` child that ends its item is emptied by `</cci_item>` |
| CklParser.Open | src-tauri/src/stig.rs:294-327 | the start-tag case: STIG_INFO only sets its flag and keeps the pairs collected so far; VULN opens a fresh record with an empty pair map; `StepsVulnElement`, `EmptyVulnBlock` and `StigInfoKeepsEarlierPairs` state its effect |
| CklParser.StoreText | src-tauri/src/stig.rs:331-394 | stores trimmed text into the asset field, the open vulnerability's review field or the STIG_DATA pair being read; `StepKeepsInvariant` states that stored text stays trimmed |
| CklParser.ProjectStigInfo | src-tauri/src/stig.rs:399-413 | the STIG information read from the SI_DATA pairs, empty where a name is missing; `StigInfoReadBack.ProjectPairMap` states the read-back |
| CklParser.ProjectVuln | src-tauri/src/stig.rs:414-447 | the vulnerability completed from its STIG_DATA pairs, with `stig_id` equal to `rule_ver` and the CCI reference kept only when not empty; `VulnReadBack.ProjectVulnOf` and `ParsedChecklistIsCanonical` state it |
| CklParser.CloseBlock | src-tauri/src/stig.rs:396-452 | the block-closing case: `</STIG_INFO>` stores the STIG information and `</VULN>` appends the completed vulnerability; `StepsVulnElement` states it |
| CklParser.Step | src-tauri/src/stig.rs:292-461 | one loop iteration as a function of the state and the event, kept canonical by `StepKeepsInvariant` |
| CklParser.OpenArm | src-tauri/src/stig.rs:294-327 | the start-tag arm equals the step case `Open` |
| CklParser.StoreTextArm | src-tauri/src/stig.rs:331-394 | the first match of the end-tag arm stores the trimmed text as `StoreText` does |
| CklParser.CloseBlockArm | src-tauri/src/stig.rs:396-452 | the second match of the end-tag arm, which completes STIG_INFO and VULN blocks, equals `CloseBlock` |
| CklParser.ParseStigChecklist | src-tauri/src/stig.rs:242-468 | the event loop returns what the step specification `ParseChecklist` returns |
| CklParser.StepKeepsInvariant | src-tauri/src/stig.rs:292-461 | every loop iteration keeps the asset, STIG information, completed vulnerabilities and collected maps trimmed and canonical |
| CklParser.ParsedChecklistIsCanonical | src-tauri/src/stig.rs:333-447 | every parsed vulnerability has trimmed text, `stig_id == rule_ver`, at most one non-empty CCI reference and no empty override |
| CklParser.ParseFails | src-tauri/src/stig.rs:456-457 | parsing fails exactly when a tokenizer error comes before any end of file, and then reports that error's detail |
| CklParser.ParsedPrefixKept | src-tauri/src/stig.rs:447 | vulnerabilities are only appended, in document order |
| CklParser.ParsedVulnCount | src-tauri/src/stig.rs:301-323 | any document yields at most one vulnerability per VULN start tag; nested VULN blocks yield fewer |
| CklParser.StepNoVulnTag | src-tauri/src/stig.rs:292-461 | an event that is not a VULN tag keeps the completed vulnerabilities and the open record |
| CklParser.StepsNoVulnTags | src-tauri/src/stig.rs:292-461 | so does a run of such events |
| CklParser.StepsVulnElement | src-tauri/src/stig.rs:301-447 | one VULN element appends exactly one vulnerability, the record its children built completed from its STIG_DATA pairs, and closes the block |
| CklParser.StepsSegments | src-tauri/src/stig.rs:292-461 | a run of VULN elements and VULN-free events appends one vulnerability per element and keeps those before |
| CklParser.ParsedVulnElements | src-tauri/src/stig.rs:242-468 | when VULN elements do not nest, parsing succeeds with exactly one vulnerability per `<VULN>` start tag |
| CklParser.EmptyVulnBlock | src-tauri/src/stig.rs:304-321 | an empty VULN block yields one vulnerability with all defaults: empty fields, no CCI reference and no override |
| CklParser.StigInfoKeepsEarlierPairs | src-tauri/src/stig.rs:300-413 | an empty STIG_INFO block keeps the pairs collected before it and reports the STIG information they give |
| CklParser.TagOfVuln | src-tauri/src/stig.rs:301 | only the name "VULN" opens a vulnerability block |
| ControlMapping.BelowTransitive | src-tauri/src/stig.rs:533 | the lexicographic order `String::cmp` sorts by is transitive |
| ControlMapping.BelowTotal | src-tauri/src/stig.rs:533 | any two distinct ids are ordered one way or the other |
| ControlMapping.CatalogMapLastWins | src-tauri/src/stig.rs:477-480 | the lookup map holds exactly the catalog's ids, each with the controls of its last record |
| ControlMapping.CatalogMap | src-tauri/src/stig.rs:477-480 | the id-to-controls lookup built in catalog order, so a later record with the same id replaces an earlier one (`CatalogMapLastWins`) |
| ControlMapping.NextCompliance | src-tauri/src/stig.rs:507-517 | the verdict update for one vulnerability status; `AggregateVerdicts` and `MappedCompliance` state its cumulative effect |
| ControlMapping.NextRisk | src-tauri/src/stig.rs:519-526 | the risk update for one severity, compared after lower-casing; `MappedRisk` states its cumulative effect |
| ControlMapping.Record | src-tauri/src/stig.rs:497-526 | one hit on a control's record: CCI and vulnerability added when new, verdicts updated; `RecordStigs` states what it keeps |
| ControlMapping.Update | src-tauri/src/stig.rs:487-526 | one hit on the control map, creating the record on first sight as `or_insert_with` does |
| ControlMapping.ControlMap | src-tauri/src/stig.rs:483-530 | the control map after every hit in loop order; `MappedControlsReachable`, `MappedCcis`, `MappedStigs`, `MappedCompliance` and `MappedRisk` state its contents |
| ControlMapping.HitsMembers | src-tauri/src/stig.rs:483-486 | the (vulnerability, CCI, control) triples the loops visit are exactly those linked through the lookup map |
| ControlMapping.AggregateVerdicts | src-tauri/src/stig.rs:507-526 | after any sequence of hits, a control's verdicts are the worst status and highest severity among its hits |
| ControlMapping.InsertControl | src-tauri/src/stig.rs:533 | insertion adds exactly one element to the multiset |
| ControlMapping.SortByControl | src-tauri/src/stig.rs:533 | the sort is a permutation |
| ControlMapping.SortByControlAscending | src-tauri/src/stig.rs:533 | the sort of controls with distinct ids is strictly ascending |
| ControlMapping.AscendingUnique | src-tauri/src/stig.rs:532-533 | two strictly ascending lists with the same elements are equal, so the result does not depend on the map's iteration order |
| ControlMapping.AscendingDistinct | src-tauri/src/stig.rs:532-533 | a strictly ascending list has distinct control ids |
| ControlMapping.MappedControlsReachable | src-tauri/src/stig.rs:483-495 | a control is mapped exactly when some vulnerability reaches it through a CCI reference, and its record carries its id |
| ControlMapping.MappedCcis | src-tauri/src/stig.rs:497-500 | a control's CCI list has no repeats and holds exactly the CCI references that reach it |
| ControlMapping.MappedStigs | src-tauri/src/stig.rs:502-505 | a control's vulnerabilities reach it, have distinct `vuln_num`s and cover the `vuln_num` of every vulnerability that reaches it |
| ControlMapping.MappedCompliance | src-tauri/src/stig.rs:507-517 | a control's status is non-compliant if any reaching vulnerability is Open, else compliant if one is NotAFinding, else not-applicable if one is NotApplicable, else not-reviewed |
| ControlMapping.MappedRisk | src-tauri/src/stig.rs:519-526 | a control's risk is high if any reaching severity lower-cases to "high", else medium if one is "medium", else low |
| ControlMapping.VerdictsIgnoreOrder | src-tauri/src/stig.rs:483-526 | vulnerability lists with the same members map the same controls with the same verdicts |
| ControlMapping.BuildCatalogMap | src-tauri/src/stig.rs:477-480 | the loop builds the lookup map `CatalogMap` |
| ControlMapping.RecordStigs | src-tauri/src/stig.rs:502-505 | recording a hit keeps the `vuln_num`s distinct, adds only its own vulnerability and represents it |
| ControlMapping.RecordHit | src-tauri/src/stig.rs:487-526 | one innermost iteration creates or updates one control's entry as `Update` does |
| ControlMapping.AddControlHits | src-tauri/src/stig.rs:486-527 | the loop over one CCI's controls aggregates those hits after the earlier ones |
| ControlMapping.AddRefHit | src-tauri/src/stig.rs:485-528 | a CCI reference unknown to the catalog adds nothing, and a known one adds its controls' hits |
| ControlMapping.AddRefHits | src-tauri/src/stig.rs:484-529 | the loop over a vulnerability's CCI references aggregates their hits |
| ControlMapping.FillControlMap | src-tauri/src/stig.rs:483-530 | the nested loops build the control map `ControlMap` |
| ControlMapping.CollectValues | src-tauri/src/stig.rs:532 | `into_values` gives exactly the map's values, with distinct control ids |
| ControlMapping.MapStigToNistControls | src-tauri/src/stig.rs:470-535 | the result is strictly ascending by control id and holds exactly the records of the control map |
| MappingSummaryCounts.Summarize | src-tauri/src/stig.rs:565-573 | the eight summary counts; `StatusCountsAddUp`, `FindingsWithinOpen` and `FindingsCoverOpen` state how they relate |
| MappingSummaryCounts.CountStatus | src-tauri/src/stig.rs:566-569 | a verdict count is at most the number of controls, and zero exactly when no control has that verdict |
| MappingSummaryCounts.CountFindings | src-tauri/src/stig.rs:570-572 | a risk count is at most the number of vulnerabilities, and zero exactly when none is an Open finding of that severity |
| MappingSummaryCounts.StatusCountsAddUp | src-tauri/src/stig.rs:565-569 | the four verdict counts add up to the number of controls |
| MappingSummaryCounts.FindingsWithinOpen | src-tauri/src/stig.rs:570-572 | the three risk counts add up to at most the number of Open vulnerabilities |
| MappingSummaryCounts.FindingsCoverOpen | src-tauri/src/stig.rs:570-572 | they add up to exactly that number when every Open severity is high, medium or low in any case |
| MappingSummaryCounts.ControlCount | src-tauri/src/stig.rs:565 | the mapped list has one entry per key of the control map |
| MappingSummaryCounts.CreateMappingResult | src-tauri/src/stig.rs:557-581 | the result keeps its inputs, holds the ascending mapped controls, counts the distinct reachable controls, and its four verdict counts sum to the total |
| CklMerge.MergeAll | src-tauri/src/stig.rs:542-552 | the fold over a non-empty list of documents: the first parse failure, or the first checklist with every later checklist's vulnerabilities appended |
| CklMerge.Merge | src-tauri/src/stig.rs:537-555 | InvalidFormat for an empty list, `MergeAll` otherwise |
| CklMerge.MergeAllParsed | src-tauri/src/stig.rs:542-552 | when every document parses, the merge keeps the first checklist's asset and STIG information and all vulnerabilities in document order |
| CklMerge.MergeAllStep | src-tauri/src/stig.rs:547-551 | each further checklist's vulnerabilities are appended to the merged ones |
| CklMerge.MergeAllFails | src-tauri/src/stig.rs:544-545 | the first document that fails to parse decides the error |
| CklMerge.FirstFailure | src-tauri/src/stig.rs:544-545 | when not all documents parse there is a first failing one, and all before it parse |
| CklMerge.MergeOkOnlyIfAllParse | src-tauri/src/stig.rs:537-554 | a successful merge had a non-empty list of documents that all parse |
| CklMerge.PrefixFailureIsFinal | src-tauri/src/stig.rs:545 | after a failing document, later documents do not change the result |
| CklMerge.ParseAndMergeStigChecklists | src-tauri/src/stig.rs:537-555 | the loop returns `Merge`: InvalidFormat for no documents, the first failure, or the merge |
| XmlEscape.EscapeXml | src-tauri/src/stig.rs:726-732 | the five replacements in the source's order; their meaning is stated by `EscapeXmlIsEscape`, `UnescapeEscape`, `EscapeInjective` and `EscapeNoMarkup` |
| XmlEscape.Unescape | src-tauri/src/stig.rs:199 | `unescape` of a text event with the five predefined entities, failing on an unknown or unterminated entity; it inverts escaping (`UnescapeEscape`) |
| XmlEscape.ReplaceChar | src-tauri/src/stig.rs:727-731 | replacing a character that does not occur changes nothing |
| XmlEscape.ReplaceCharAppend | src-tauri/src/stig.rs:727-731 | replacement distributes over concatenation |
| XmlEscape.EscapeXmlAppend | src-tauri/src/stig.rs:726-732 | escaping distributes over concatenation |
| XmlEscape.EscapeXmlSingle | src-tauri/src/stig.rs:726-732 | the replacement chain turns one character into its entity or leaves it alone; replacing `&` first means no entity is escaped twice |
| XmlEscape.EscapeXmlIsPerChar | src-tauri/src/stig.rs:726-732 | the chain of five replacements equals escaping each character on its own |
| XmlEscape.EscapeXmlIsEscape | src-tauri/src/stig.rs:726-732 | the chain equals the concatenation of the characters' escapes |
| XmlEscape.UnescapeEscapeChar | src-tauri/src/stig.rs:726-732 | unescaping reads one escaped character back and continues after it |
| XmlEscape.UnescapeEscape | src-tauri/src/stig.rs:726-732 | unescaping an escaped string gives it back |
| XmlEscape.EscapeInjective | src-tauri/src/stig.rs:726-732 | different strings have different escapes |
| XmlEscape.EscapeNoMarkup | src-tauri/src/stig.rs:726-732 | an escaped string contains no raw `<`, `>`, `"` or `'` |
| CklWriter.StigRef | src-tauri/src/stig.rs:698 | the STIGRef value, the STIG's title and release joined by " :: " |
| CklWriter.FixedEntries | src-tauri/src/stig.rs:676-701 | the 26 fixed STIG_DATA entries of a VULN block in the order written; `VulnReadBack.FixedAttrsDistinct` and `VulnReadBack.FixedLookup` state them |
| CklWriter.WriteVuln | src-tauri/src/stig.rs:672-716 | one VULN block appended to the document; `VulnReadBack.StepsVuln` states what it reads back as |
| CklWriter.CklEvents | src-tauri/src/stig.rs:583-724 | the events of the whole generated document; `ChecklistReadBack.ReadBackChecklist` states what it parses back to |
| CklWriter.AddStigData | src-tauri/src/stig.rs:734-739 | appends one STIG_DATA element with the escaped attribute and value |
| CklWriter.AddVuln | src-tauri/src/stig.rs:672-716 | one VULN block: the 26 fixed entries, one CCI_REF entry per reference, then the five review elements |
| CklWriter.AddVulns | src-tauri/src/stig.rs:672-716 | one VULN block per vulnerability, in order |
| CklWriter.GenerateCklXml | src-tauri/src/stig.rs:583-724 | always succeeds with the document `CklEvents` |
| CklRoundTrip.ReadBackEscape | src-tauri/src/stig.rs:593-605 | an escaped value written as element text is read back trimmed |
| CklRoundTrip.BoolReadBack | src-tauri/src/stig.rs:603 | the written `true`/`false` of WEB_OR_DATABASE reads back unchanged |
| CklRoundTrip.WriteAssetElements | src-tauri/src/stig.rs:592-606 | the ASSET block is the 13 asset elements in the order written |
| CklRoundTrip.StepsAsset | src-tauri/src/stig.rs:592-606 | reading the written ASSET block stores the trimmed asset and changes nothing else |
| StigInfoReadBack.SiNamesDistinct | src-tauri/src/stig.rs:615-665 | the eleven SID_NAMEs written are distinct |
| StigInfoReadBack.WriteStigInfoElements | src-tauri/src/stig.rs:613-669 | the STIG_INFO block is eleven SI_DATA pairs in the order written |
| StigInfoReadBack.ProjectPairMap | src-tauri/src/stig.rs:399-413 | the collected SI_DATA pairs give back every STIG information field, trimmed |
| StigInfoReadBack.StepsStigInfo | src-tauri/src/stig.rs:613-669 | reading the written STIG_INFO block stores the trimmed STIG information |
| VulnReadBack.VulnEntriesCount | src-tauri/src/stig.rs:676-706 | a VULN block has 26 fixed STIG_DATA entries plus one per CCI reference |
| VulnReadBack.FixedAttrsDistinct | src-tauri/src/stig.rs:676-701 | the 26 fixed attribute names are distinct |
| VulnReadBack.FixedLookup | src-tauri/src/stig.rs:676-701 | each fixed attribute reads back as its trimmed written value |
| VulnReadBack.RefsLast | src-tauri/src/stig.rs:364 | after several CCI_REF entries the map holds only the last value |
| VulnReadBack.CciLookup | src-tauri/src/stig.rs:437-442 | the written CCI references read back as the last one, when its trim is not empty, and as none otherwise |
| VulnReadBack.ProjectVulnOf | src-tauri/src/stig.rs:414-447 | completing the read-back block gives the trimmed vulnerability with `stig_id == rule_ver` |
| VulnReadBack.StepsVuln | src-tauri/src/stig.rs:672-716 | reading one written VULN block appends its read-back vulnerability and leaves the parser quiet |
| VulnReadBack.StepsVulns | src-tauri/src/stig.rs:672-716 | reading all written VULN blocks appends their read-backs in order and keeps asset and STIG information |
| ChecklistReadBack.NoTerminalEvents | src-tauri/src/stig.rs:583-724 | the written document contains no end-of-file marker and no tokenizer error |
| ChecklistReadBack.StepsHeader | src-tauri/src/stig.rs:587-589 | the declaration, comment and CHECKLIST tag leave the parser in its initial state |
| ChecklistReadBack.StepsFooter | src-tauri/src/stig.rs:719-721 | the closing tags change nothing |
| ChecklistReadBack.StepsDocument | src-tauri/src/stig.rs:583-724 | reading the whole written document gives the canonical form of the checklist |
| ChecklistReadBack.ReadBackChecklist | src-tauri/src/stig.rs:583-724 | parsing the written checklist succeeds with its canonical form |
| ChecklistReadBack.CanonOfCanonical | src-tauri/src/stig.rs:333-447 | the canonical form of a checklist the parser could return is itself |
| ChecklistReadBack.RoundTrip | src-tauri/src/stig.rs:583-724 | parsing a written canonical checklist gives back exactly that checklist |
| ChecklistReadBack.ParsedRoundTrip | src-tauri/src/stig.rs:242-468 | writing a parsed checklist and parsing it again gives the same result |
| ChecklistReadBack.CanonIdempotent | src-tauri/src/stig.rs:333-447 | the canonical form is canonical, and canonicalising twice is canonicalising once |
| DateUtils.ParseU32 | src-tauri/src/date_utils.rs:15 | `parse::<u32>` succeeds only with a value that fits 32 unsigned bits |
| DateUtils.ParseI32 | src-tauri/src/date_utils.rs:19 | `parse::<i32>` succeeds only with a value that fits 32 signed bits |
| DateUtils.Digits | src-tauri/src/date_utils.rs:22 | the decimal digits of a number denote it, with no leading zero |
| DateUtils.ZeroPad | src-tauri/src/date_utils.rs:22 | `{:0N}` denotes the number and is as wide as its digits or the width, whichever is more |
| DateUtils.ParseDateSlashes | src-tauri/src/date_utils.rs:60-74 | there is a result exactly when the string has two `/`, or has no `/` and two `-`; its three parts join back to the string |
| DateUtils.MonthFirst | src-tauri/src/date_utils.rs:12-26 | a month-first reading, when there is one, is a formatted date |
| DateUtils.DayFirst | src-tauri/src/date_utils.rs:29-43 | a day-first reading, when there is one, is a formatted date |
| DateUtils.NormalizeDateFormat | src-tauri/src/date_utils.rs:4-57 | an ISO-looking input gives its first ten characters; any other gives itself, a formatted date or an ISO-looking date |
| DateUtils.NormalizeUnreadable | src-tauri/src/date_utils.rs:55-56 | an input that is not ISO-looking and has neither a month-first nor a day-first reading is returned exactly as given |
| DateUtils.NormalizeChangedHasReading | src-tauri/src/date_utils.rs:4-57 | an input that is not ISO-looking and comes back changed had a month-first or a day-first reading |
| DateUtils.NormalizeMonthFirst | src-tauri/src/date_utils.rs:12-24 | month, day and year in range give `YYYY-MM-DD` from the month-first reading |
| DateUtils.NormalizeDayFirst | src-tauri/src/date_utils.rs:29-41 | when the first part is not a month, a valid day-first reading is formatted |
| DateUtils.TimestampBranchUnreachable | src-tauri/src/date_utils.rs:45-53 | whenever the RFC 3339 branch's condition holds, the first branch has already returned the same ten characters |
| DateUtils.ShortYearLooksIso | src-tauri/src/date_utils.rs:22 | a formatted date with a year below 10000 has ten characters and looks ISO |
| DateUtils.LongYearUnreadable | src-tauri/src/date_utils.rs:6-43 | a formatted date with a five-digit or longer year is not ISO-looking and has neither a month-first nor a day-first reading |
| DateUtils.LongYearIsKept | src-tauri/src/date_utils.rs:4-57 | a formatted date with a five-digit or longer year is returned unchanged |
| DateUtils.NormalizeIdempotent | src-tauri/src/date_utils.rs:4-57 | normalising twice is normalising once |
| DateUtils.SlashedParts | src-tauri/src/date_utils.rs:60-74 | three digit runs joined by `/` split back into those runs |
| DateUtils.NormalizeUsDate | src-tauri/src/date_utils.rs:12-24 | a zero-padded month/day/year gives `YYYY-MM-DD` |
| DateUtils.NormalizeEuropeanDate | src-tauri/src/date_utils.rs:29-41 | a zero-padded day/month/year whose day exceeds 12 gives `YYYY-MM-DD` |
| DateUtils.MonthFirstExample | src-tauri/src/date_utils.rs:12-24 | "01/02/2020" is read month first as "2020-01-02" |
| DateUtils.DayFirstExample | src-tauri/src/date_utils.rs:29-41 | "13/02/2020" is read day first as "2020-02-13" |
| DateUtils.NoCalendarCheckExample | src-tauri/src/date_utils.rs:21-22 | "31/02/2020" gives "2020-02-31", since only day ranges 1 to 31 are checked |

## Behaviour worth knowing

These are modelled as written and exhibited by lemmas.

- **CCI fields follow the last start tag.** The CCI parser stores text into the field of the last *start* tag it saw, not the tag that ends. A `definition`, `type`, `status` or `publishdate` child that directly precedes `</cci_item>` is therefore overwritten with empty text (`CciParser.StaleFieldCleared`).
- **Only the last CCI_REF survives.** The CKL parser collects STIG_DATA in a map keyed by attribute. A vulnerability therefore keeps only its LAST `CCI_REF` entry, and only when that entry is not empty (`VulnReadBack.RefsLast`, `VulnReadBack.CciLookup`). This is although the writer emits one `CCI_REF` per reference. A checklist with two CCI references does not survive a write-and-read cycle, and `ChecklistReadBack.ReadBackChecklist` states exactly what is kept.
- **STIG_INFO pairs carry over.** A `<STIG_INFO>` start tag only sets its flag: unlike `<VULN>`, it does not clear the pairs collected so far. In a checklist with several `iSTIG` blocks, a field a later STIG_INFO block omits keeps the value of an earlier block (`CklParser.StigInfoKeepsEarlierPairs`).
- **The timestamp branch is unreachable.** Any input that reaches the RFC 3339 branch of `normalize_date_format` and would be changed by it is caught by the first branch (`DateUtils.TimestampBranchUnreachable`).

## Left out

- **File and console I/O.** Reading files (`fs::read_to_string`) and all `println!` output are not modelled. The parsers take the tokenizer's events and the writer returns events.
- **The XML tokenizer.** quick-xml is not part of this model: its events are the input, and any tokenizer error is one `Malformed` event. The text of the error message, with its byte position, is reduced to the tokenizer's error detail.
- **Byte layout of the written document.** Indentation and newlines produce no events under `trim_text(true)`, so they are not modelled.
- **Text trimming by the tokenizer.** Under `trim_text(true)` the tokenizer trims XML white space from each text event and drops one left empty. The writer's model keeps the escaped value untrimmed and emits it whenever it is not empty. Both parsers trim the collected text with Rust's `trim`, which removes every character the tokenizer would, and the only entities the writer emits are the five predefined ones, none of which decodes to white space, so the parsed results agree.
- **Character references.** quick-xml's `unescape` also decodes numeric character references (`&#38;`, `&#x26;`). The model decodes only the five predefined entities, so text holding a character reference reads as empty in the model (the `unwrap_or_default` of a failed unescape), where the source decodes it.
- CklWriter.AddStigData: its two ghost parameters (the document so far and the entries written so far) only state where the element lands. The Rust function has neither.
- **Hash map iteration order.** The order of `HashMap` iteration is not modelled. Each loop that iterates a map either has an order-independent result, or the model reads the map directly, because the source's effect does not depend on that order.
- **Byte offsets in date_utils.** `normalize_date_format` slices and measures by bytes, and panics on a non-character boundary. The model indexes by characters, which agrees on ASCII input, and does not model the panic on multi-byte input.
- CciParser.TitleOf: the `unwrap_or` fallback of the title (the first 100 bytes of the definition) cannot be reached, because `split('.').next()` always yields a part. It is not modelled. Its argument `&definition[..min(100, len)]` is evaluated eagerly, though, and panics when byte 100 falls inside a multi-byte character; the model does not capture that panic.
- **Unicode case mapping.** `to_lowercase` is modelled for ASCII letters only. That decides every comparison with "high", "medium" and "low" the same way. The only other character Rust lower-cases into ASCII is the Kelvin sign, and it becomes `k`, which none of the three contains.
- **Serialisation.** The serde attributes and derives of the record types are not modelled.
