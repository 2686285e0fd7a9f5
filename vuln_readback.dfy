/**
 * Reading back one VULN block `generate_ckl_xml` writes: the 26 fixed
 * STIG_DATA pairs and the CCI_REF pairs fill the parser's attribute map,
 * the five review elements set the vulnerability in progress, and `</VULN>`
 * projects the map onto the record.
 */
module VulnReadBack {
  import opened Wrappers
  import opened Strings
  import opened XmlEscape
  import opened XmlEvents
  import opened StigTypes
  import opened CklParser
  import opened CklWriter
  import opened CklRoundTrip

  /** The attribute names of the fixed pairs, in the order the writer writes them. */
  const FIXED_ATTRS: seq<String> := ["Vuln_Num", "Severity", "Group_Title", "Rule_ID", "Rule_Ver",
    "Rule_Title", "Vuln_Discuss", "IA_Controls", "Check_Content", "Fix_Text", "False_Positives",
    "False_Negatives", "Documentable", "Mitigations", "Potential_Impact", "Third_Party_Tools",
    "Mitigation_Control", "Responsibility", "Security_Override_Guidance", "Check_Content_Ref",
    "Weight", "Class", "STIGRef", "TargetKey", "STIG_UUID", "LEGACY_ID"]

  /** The values of the fixed pairs, in the same order. */
  function FixedValues(v: StigVulnerability, c: StigChecklist): (vals: seq<String>)
    ensures |vals| == 26
  {
    [v.vulnNum, v.severity, v.groupTitle, v.ruleId, v.ruleVer, v.ruleTitle, v.vulnDiscuss, "",
     v.checkContent, v.fixText, "", "", "false", "", "", "", "", "", "", "M", "10.0", "Unclass",
     StigRef(c.stigInfo), c.asset.targetKey, "", ""]
  }

  /** The first `n` pairs of `names` and `vals` as entries. */
  function EntriesOf(names: seq<String>, vals: seq<String>, n: nat): Entries
    requires n <= |names| && n <= |vals|
  {
    if n == 0 then NoEntries else EntriesOf(names, vals, n - 1).Add(names[n - 1], vals[n - 1])
  }

  lemma EntriesChild(names: seq<String>, vals: seq<String>, k: nat)
    requires k < |names| && k < |vals|
    ensures EntriesOf(names, vals, k + 1) == EntriesOf(names, vals, k).Add(names[k], vals[k])
  {
  }

  /** The writer's fixed entries are the table's pairs. */
  lemma FixedEntriesTable(v: StigVulnerability, c: StigChecklist)
    ensures FixedEntries(v, c) == EntriesOf(FIXED_ATTRS, FixedValues(v, c), 26)
  {
    var vals := FixedValues(v, c);
    EntriesChild(FIXED_ATTRS, vals, 0);
    EntriesChild(FIXED_ATTRS, vals, 1);
    EntriesChild(FIXED_ATTRS, vals, 2);
    EntriesChild(FIXED_ATTRS, vals, 3);
    EntriesChild(FIXED_ATTRS, vals, 4);
    EntriesChild(FIXED_ATTRS, vals, 5);
    EntriesChild(FIXED_ATTRS, vals, 6);
    EntriesChild(FIXED_ATTRS, vals, 7);
    EntriesChild(FIXED_ATTRS, vals, 8);
    EntriesChild(FIXED_ATTRS, vals, 9);
    EntriesChild(FIXED_ATTRS, vals, 10);
    EntriesChild(FIXED_ATTRS, vals, 11);
    EntriesChild(FIXED_ATTRS, vals, 12);
    EntriesChild(FIXED_ATTRS, vals, 13);
    EntriesChild(FIXED_ATTRS, vals, 14);
    EntriesChild(FIXED_ATTRS, vals, 15);
    EntriesChild(FIXED_ATTRS, vals, 16);
    EntriesChild(FIXED_ATTRS, vals, 17);
    EntriesChild(FIXED_ATTRS, vals, 18);
    EntriesChild(FIXED_ATTRS, vals, 19);
    EntriesChild(FIXED_ATTRS, vals, 20);
    EntriesChild(FIXED_ATTRS, vals, 21);
    EntriesChild(FIXED_ATTRS, vals, 22);
    EntriesChild(FIXED_ATTRS, vals, 23);
    EntriesChild(FIXED_ATTRS, vals, 24);
    EntriesChild(FIXED_ATTRS, vals, 25);
  }

  lemma {:induction false} EntriesOfLength(names: seq<String>, vals: seq<String>, n: nat)
    requires n <= |names| && n <= |vals|
    ensures EntriesOf(names, vals, n).Length() == n
  {
    if n > 0 {
      EntriesOfLength(names, vals, n - 1);
    }
  }

  lemma {:induction false} AddCciRefsLength(es: Entries, refs: seq<String>)
    ensures AddCciRefs(es, refs).Length() == es.Length() + |refs|
    decreases |refs|
  {
    if refs != [] {
      AddCciRefsLength(es, refs[..|refs| - 1]);
    }
  }

  /** Every VULN block carries the 26 fixed STIG_DATA pairs and one more per CCI reference. */
  lemma VulnEntriesCount(v: StigVulnerability, c: StigChecklist)
    ensures VulnEntries(v, c).Length() == 26 + |v.cciRefs|
  {
    FixedEntriesTable(v, c);
    EntriesOfLength(FIXED_ATTRS, FixedValues(v, c), 26);
    AddCciRefsLength(FixedEntries(v, c), v.cciRefs);
  }

  lemma FixedAttrsTrimmed()
    ensures |FIXED_ATTRS| == 26
    ensures forall j :: 0 <= j < |FIXED_ATTRS| ==> IsTrimmed(FIXED_ATTRS[j])
  {
    FixedAttrsTrimmedBelow(13);
    FixedAttrsTrimmedFrom(13);
  }

  lemma FixedAttrsTrimmedBelow(n: nat)
    requires n == 13
    ensures forall j :: 0 <= j < n ==> IsTrimmed(FIXED_ATTRS[j])
  {
  }

  lemma FixedAttrsTrimmedFrom(n: nat)
    requires n == 13
    ensures forall j :: n <= j < 26 ==> IsTrimmed(FIXED_ATTRS[j])
  {
  }

  lemma FixedAttrsDistinct()
    ensures NoDuplicates(FIXED_ATTRS)
  {
  }

  lemma CciRefNotFixed()
    ensures forall j :: 0 <= j < |FIXED_ATTRS| ==> FIXED_ATTRS[j] != "CCI_REF"
  {
  }

  /** The attribute map after reading the pairs of `es` over `m`: each value trimmed under its trimmed name. */
  function ReadEntries(m: map<String, String>, es: Entries): map<String, String> {
    match es
    case NoEntries => m
    case Then(init, attribute, value) => ReadEntries(m, init)[Trim(attribute) := Trim(value)]
  }

  /** The attribute name the parser remembers after the pairs of `es`. */
  function LastAttribute(name: String, es: Entries): String {
    match es
    case NoEntries => name
    case Then(_, attribute, _) => Trim(attribute)
  }

  /** With trimmed names, reading the table's pairs stores them as the pair map does. */
  lemma {:induction false} ReadEntriesOf(m: map<String, String>, names: seq<String>, vals: seq<String>, n: nat)
    requires n <= |names| && n <= |vals|
    requires forall j :: 0 <= j < n ==> IsTrimmed(names[j])
    ensures ReadEntries(m, EntriesOf(names, vals, n)) == PairMap(m, names, vals, n)
  {
    if n > 0 {
      ReadEntriesOf(m, names, vals, n - 1);
      TrimTrimmed(names[n - 1]);
    }
  }

  lemma TagOfStigData()
    ensures TagOf("STIG_DATA") == OtherTag
  {
  }

  lemma TagOfVulnAttribute()
    ensures TagOf("VULN_ATTRIBUTE") == VulnAttributeTag
  {
  }

  lemma TagOfAttributeData()
    ensures TagOf("ATTRIBUTE_DATA") == AttributeDataTag
  {
  }

  /** `<STIG_DATA>` changes nothing. */
  lemma OpenStigData(st: CklState, xml: seq<Event>)
    requires Steps(st, xml).text == ""
    ensures Steps(st, xml + [Start("STIG_DATA", [])]) == Steps(st, xml)
  {
    StepsTag(st, xml, Start("STIG_DATA", []));
    TagOfStigData();
  }

  /** `</STIG_DATA>` changes nothing once the pair's text is stored. */
  lemma CloseStigData(st: CklState, xml: seq<Event>)
    requires Steps(st, xml).text == ""
    ensures Steps(st, xml + [End("STIG_DATA")]) == Steps(st, xml)
  {
    StepsTag(st, xml, End("STIG_DATA"));
    TagOfStigData();
  }

  /** `<VULN_ATTRIBUTE>` remembers the trimmed name. */
  lemma StepsVulnAttribute(st: CklState, xml: seq<Event>, attribute: String)
    requires Steps(st, xml).inVuln
    ensures Steps(st, xml + Element("VULN_ATTRIBUTE", attribute)) == Steps(st, xml).(vulnAttribute := Trim(attribute), text := "")
  {
    TagOfVulnAttribute();
    StepsAppend(st, xml, RawElement("VULN_ATTRIBUTE", Escape(attribute)));
    StepsRawElement(Steps(st, xml), "VULN_ATTRIBUTE", Escape(attribute));
    ReadBackEscape(attribute);
  }

  /** `<ATTRIBUTE_DATA>` stores the trimmed value under the remembered name. */
  lemma StepsAttributeData(st: CklState, xml: seq<Event>, value: String)
    requires Steps(st, xml).inVuln
    ensures var s := Steps(st, xml);
      Steps(st, xml + Element("ATTRIBUTE_DATA", value)) == s.(stigData := s.stigData[s.vulnAttribute := Trim(value)], text := "")
  {
    TagOfAttributeData();
    StepsAppend(st, xml, RawElement("ATTRIBUTE_DATA", Escape(value)));
    StepsRawElement(Steps(st, xml), "ATTRIBUTE_DATA", Escape(value));
    ReadBackEscape(value);
  }

  lemma StigDataSplit(xml: seq<Event>, attribute: String, value: String)
    ensures xml + StigData(attribute, value) ==
      xml + [Start("STIG_DATA", [])] + Element("VULN_ATTRIBUTE", attribute) + Element("ATTRIBUTE_DATA", value) + [End("STIG_DATA")]
  {
  }

  /** One STIG_DATA pair stores its trimmed value under its trimmed name. */
  lemma StepsStigData(st: CklState, xml: seq<Event>, attribute: String, value: String)
    requires Steps(st, xml).inVuln && Steps(st, xml).text == ""
    ensures var s := Steps(st, xml);
      Steps(st, xml + StigData(attribute, value)) ==
        s.(vulnAttribute := Trim(attribute), stigData := s.stigData[Trim(attribute) := Trim(value)])
  {
    var p1 := xml + [Start("STIG_DATA", [])];
    var p2 := p1 + Element("VULN_ATTRIBUTE", attribute);
    var p3 := p2 + Element("ATTRIBUTE_DATA", value);
    StigDataSplit(xml, attribute, value);
    var s := Steps(st, xml);
    OpenStigData(st, xml);
    StepsVulnAttribute(st, p1, attribute);
    var s2 := s.(vulnAttribute := Trim(attribute));
    assert Steps(st, p2) == s2;
    StepsAttributeData(st, p2, value);
    assert Steps(st, p3) == s2.(stigData := s.stigData[Trim(attribute) := Trim(value)]);
    CloseStigData(st, p3);
  }

  /** The pairs of `es` fill the attribute map and leave the remembered name at the last one. */
  lemma {:induction false} StepsEntries(st: CklState, xml: seq<Event>, es: Entries)
    requires Steps(st, xml).inVuln && Steps(st, xml).text == ""
    ensures var s := Steps(st, xml);
      Steps(st, WriteEntries(xml, es)) ==
        s.(vulnAttribute := LastAttribute(s.vulnAttribute, es), stigData := ReadEntries(s.stigData, es))
  {
    match es
    case NoEntries =>
    case Then(init, attribute, value) =>
      StepsEntries(st, xml, init);
      StepsStigData(st, WriteEntries(xml, init), attribute, value);
  }

  // ---------------------------------------------------------------- the attribute map

  lemma CciRefTrimmed()
    ensures Trim("CCI_REF") == "CCI_REF"
  {
    TrimTrimmed("CCI_REF");
  }

  /** The CCI_REF pairs leave every other attribute as the fixed pairs set it. */
  lemma {:induction false} RefsKeepOthers(m: map<String, String>, es: Entries, refs: seq<String>, key: String)
    requires key != "CCI_REF"
    ensures var r := ReadEntries(m, AddCciRefs(es, refs));
      var r0 := ReadEntries(m, es);
      (key in r <==> key in r0) && (key in r0 ==> r[key] == r0[key])
    decreases |refs|
  {
    if refs != [] {
      RefsKeepOthers(m, es, refs[..|refs| - 1], key);
      CciRefTrimmed();
    }
  }

  /** The last CCI_REF pair decides the CCI_REF attribute. */
  lemma RefsLast(m: map<String, String>, es: Entries, refs: seq<String>)
    requires refs != []
    ensures var r := ReadEntries(m, AddCciRefs(es, refs));
      "CCI_REF" in r && r["CCI_REF"] == Trim(refs[|refs| - 1])
  {
    CciRefTrimmed();
  }

  /** A name the table does not hold is not added by it. */
  lemma {:induction false} PairMapMissing(m0: map<String, String>, names: seq<String>, vals: seq<String>, n: nat, key: String)
    requires n <= |names| && n <= |vals|
    requires key !in m0 && forall j :: 0 <= j < n ==> names[j] != key
    ensures key !in PairMap(m0, names, vals, n)
  {
    if n > 0 {
      PairMapMissing(m0, names, vals, n - 1, key);
    }
  }

  /** The attribute map a VULN block of `v` leaves behind. */
  function AttributeMap(v: StigVulnerability, c: StigChecklist): map<String, String> {
    ReadEntries(map[], VulnEntries(v, c))
  }

  /** The fixed pairs' map is the pair map of the table. */
  lemma FixedMap(v: StigVulnerability, c: StigChecklist)
    ensures ReadEntries(map[], FixedEntries(v, c)) == PairMap(map[], FIXED_ATTRS, FixedValues(v, c), 26)
  {
    FixedEntriesTable(v, c);
    FixedAttrsTrimmed();
    ReadEntriesOf(map[], FIXED_ATTRS, FixedValues(v, c), 26);
  }

  /** Every fixed attribute reads back as its trimmed value. */
  lemma FixedLookup(v: StigVulnerability, c: StigChecklist, j: nat)
    requires j < 26
    ensures Lookup(AttributeMap(v, c), FIXED_ATTRS[j]) == Trim(FixedValues(v, c)[j])
  {
    FixedMap(v, c);
    FixedAttrsDistinct();
    CciRefNotFixed();
    PairMapLookup(map[], FIXED_ATTRS, FixedValues(v, c), 26, j);
    RefsKeepOthers(map[], FixedEntries(v, c), v.cciRefs, FIXED_ATTRS[j]);
  }

  /** The CCI references a VULN block of `v` reads back as: the last one, trimmed, unless it is blank. */
  function RefsOf(refs: seq<String>): seq<String> {
    if refs != [] && Trim(refs[|refs| - 1]) != [] then [Trim(refs[|refs| - 1])] else []
  }

  lemma CciLookup(v: StigVulnerability, c: StigChecklist)
    ensures CciRefsOf(AttributeMap(v, c)) == RefsOf(v.cciRefs)
  {
    if v.cciRefs == [] {
      FixedMap(v, c);
      CciRefNotFixed();
      PairMapMissing(map[], FIXED_ATTRS, FixedValues(v, c), 26, "CCI_REF");
    } else {
      RefsLast(map[], FixedEntries(v, c), v.cciRefs);
    }
  }

  // ---------------------------------------------------------------- the review elements

  lemma TagOfStatus()
    ensures TagOf("STATUS") == VulnFieldTag(Status)
  {
  }

  lemma TagOfFindingDetails()
    ensures TagOf("FINDING_DETAILS") == VulnFieldTag(FindingDetails)
  {
  }

  lemma TagOfComments()
    ensures TagOf("COMMENTS") == VulnFieldTag(Comments)
  {
  }

  lemma TagOfSeverityOverride()
    ensures TagOf("SEVERITY_OVERRIDE") == VulnFieldTag(SeverityOverride)
  {
  }

  lemma TagOfSeverityJustification()
    ensures TagOf("SEVERITY_JUSTIFICATION") == VulnFieldTag(SeverityJustification)
  {
  }

  /** The review element names select the arm that sets the matching field. */
  lemma TagOfVulnField(g: VulnField)
    ensures TagOf(VulnFieldName(g)) == VulnFieldTag(g)
  {
    match g
    case Status => TagOfStatus();
    case FindingDetails => TagOfFindingDetails();
    case Comments => TagOfComments();
    case SeverityOverride => TagOfSeverityOverride();
    case SeverityJustification => TagOfSeverityJustification();
  }

  /** A review element sets its field of the vulnerability in progress from the trimmed value. */
  lemma StepsVulnField(st: CklState, xml: seq<Event>, g: VulnField, value: String)
    requires Steps(st, xml).inVuln && Steps(st, xml).current.Some?
    ensures var s := Steps(st, xml);
      Steps(st, xml + Element(VulnFieldName(g), value)) ==
        s.(current := Some(SetVulnField(s.current.value, g, Trim(value))), text := "")
  {
    TagOfVulnField(g);
    StepsAppend(st, xml, RawElement(VulnFieldName(g), Escape(value)));
    StepsRawElement(Steps(st, xml), VulnFieldName(g), Escape(value));
    ReadBackEscape(value);
  }

  /** The fields the review elements of `v` set on a fresh vulnerability. */
  function ReviewOf(v: StigVulnerability): StigVulnerability {
    NewVulnerability().(
      status := Trim(v.status),
      findingDetails := Trim(v.findingDetails),
      comments := Trim(v.comments),
      severityOverride := NonEmpty(Trim(v.severityOverride.GetOr(""))),
      severityJustification := NonEmpty(Trim(v.severityJustification.GetOr(""))))
  }

  lemma TagOfVulnBlock()
    ensures TagOf("VULN") == VulnTag
  {
  }

  /** `</VULN>` completes the vulnerability in progress from the attribute map. */
  lemma CloseVuln(st: CklState, xml: seq<Event>)
    requires Steps(st, xml).text == "" && Steps(st, xml).current.Some?
    ensures var s := Steps(st, xml);
      Steps(st, xml + [End("VULN")]) ==
        s.(vulns := s.vulns + [ProjectVuln(s.current.value, s.stigData)], current := None, inVuln := false)
  {
    StepsTag(st, xml, End("VULN"));
    TagOfVulnBlock();
  }

  /** The five review elements of `v` appended to `xml`. */
  function ReviewElements(xml: seq<Event>, v: StigVulnerability): seq<Event> {
    xml
    + Element(VulnFieldName(Status), v.status)
    + Element(VulnFieldName(FindingDetails), v.findingDetails)
    + Element(VulnFieldName(Comments), v.comments)
    + Element(VulnFieldName(SeverityOverride), v.severityOverride.GetOr(""))
    + Element(VulnFieldName(SeverityJustification), v.severityJustification.GetOr(""))
  }

  lemma WriteReviewSplit(xml: seq<Event>, v: StigVulnerability)
    ensures WriteReview(xml, v) == ReviewElements(xml, v) + [End("VULN")]
  {
  }

  /** One review element over a state that differs from `s0` only in the vulnerability in progress. */
  lemma ReviewStep(st: CklState, xml: seq<Event>, s0: CklState, r: StigVulnerability, g: VulnField, value: String)
    requires s0.inVuln && Steps(st, xml) == s0.(current := Some(r), text := "")
    ensures Steps(st, xml + Element(VulnFieldName(g), value)) == s0.(current := Some(SetVulnField(r, g, Trim(value))), text := "")
  {
    StepsVulnField(st, xml, g, value);
  }

  /** The review elements set the reviewed fields of a fresh vulnerability. */
  lemma StepsReviewElements(st: CklState, xml: seq<Event>, v: StigVulnerability)
    requires var s := Steps(st, xml); s.inVuln && s.current == Some(NewVulnerability()) && s.text == ""
    ensures Steps(st, ReviewElements(xml, v)) == Steps(st, xml).(current := Some(ReviewOf(v)))
  {
    var s := Steps(st, xml);
    var p1 := xml + Element(VulnFieldName(Status), v.status);
    var p2 := p1 + Element(VulnFieldName(FindingDetails), v.findingDetails);
    var p3 := p2 + Element(VulnFieldName(Comments), v.comments);
    var p4 := p3 + Element(VulnFieldName(SeverityOverride), v.severityOverride.GetOr(""));
    var r1 := SetVulnField(NewVulnerability(), Status, Trim(v.status));
    var r2 := SetVulnField(r1, FindingDetails, Trim(v.findingDetails));
    var r3 := SetVulnField(r2, Comments, Trim(v.comments));
    var r4 := SetVulnField(r3, SeverityOverride, Trim(v.severityOverride.GetOr("")));
    var r5 := SetVulnField(r4, SeverityJustification, Trim(v.severityJustification.GetOr("")));
    ReviewStep(st, xml, s, NewVulnerability(), Status, v.status);
    ReviewStep(st, p1, s, r1, FindingDetails, v.findingDetails);
    ReviewStep(st, p2, s, r2, Comments, v.comments);
    ReviewStep(st, p3, s, r3, SeverityOverride, v.severityOverride.GetOr(""));
    ReviewStep(st, p4, s, r4, SeverityJustification, v.severityJustification.GetOr(""));
    ReviewOfFields(v);
  }

  lemma ReviewOfFields(v: StigVulnerability)
    ensures var r1 := SetVulnField(NewVulnerability(), Status, Trim(v.status));
      var r2 := SetVulnField(r1, FindingDetails, Trim(v.findingDetails));
      var r3 := SetVulnField(r2, Comments, Trim(v.comments));
      var r4 := SetVulnField(r3, SeverityOverride, Trim(v.severityOverride.GetOr("")));
      SetVulnField(r4, SeverityJustification, Trim(v.severityJustification.GetOr(""))) == ReviewOf(v)
  {
  }

  /** The review elements and `</VULN>` of a fresh vulnerability. */
  lemma StepsReview(st: CklState, xml: seq<Event>, v: StigVulnerability)
    requires var s := Steps(st, xml); s.inVuln && s.current == Some(NewVulnerability()) && s.text == ""
    ensures var s := Steps(st, xml);
      Steps(st, WriteReview(xml, v)) ==
        s.(vulns := s.vulns + [ProjectVuln(ReviewOf(v), s.stigData)], current := None, inVuln := false)
  {
    WriteReviewSplit(xml, v);
    StepsReviewElements(st, xml, v);
    CloseVuln(st, ReviewElements(xml, v));
  }

  // ---------------------------------------------------------------- the whole block

  /** The vulnerability as the parser reads its VULN block back. */
  function VulnOf(v: StigVulnerability): StigVulnerability {
    StigVulnerability(
      Trim(v.vulnNum), Trim(v.severity), Trim(v.groupTitle), Trim(v.ruleId), Trim(v.ruleVer),
      Trim(v.ruleTitle), Trim(v.vulnDiscuss), Trim(v.checkContent), Trim(v.fixText),
      RefsOf(v.cciRefs),
      Trim(v.status), Trim(v.findingDetails), Trim(v.comments),
      NonEmpty(Trim(v.severityOverride.GetOr(""))), NonEmpty(Trim(v.severityJustification.GetOr(""))),
      Trim(v.ruleVer))
  }

  /** Where the rule data sits in the table. */
  lemma RuleIdsAt(v: StigVulnerability, c: StigChecklist)
    ensures FIXED_ATTRS[0] == "Vuln_Num" && FixedValues(v, c)[0] == v.vulnNum
    ensures FIXED_ATTRS[1] == "Severity" && FixedValues(v, c)[1] == v.severity
    ensures FIXED_ATTRS[2] == "Group_Title" && FixedValues(v, c)[2] == v.groupTitle
  {
  }

  lemma RuleVersionsAt(v: StigVulnerability, c: StigChecklist)
    ensures FIXED_ATTRS[3] == "Rule_ID" && FixedValues(v, c)[3] == v.ruleId
    ensures FIXED_ATTRS[4] == "Rule_Ver" && FixedValues(v, c)[4] == v.ruleVer
    ensures FIXED_ATTRS[5] == "Rule_Title" && FixedValues(v, c)[5] == v.ruleTitle
  {
  }

  lemma RuleTextsAt(v: StigVulnerability, c: StigChecklist)
    ensures FIXED_ATTRS[6] == "Vuln_Discuss" && FixedValues(v, c)[6] == v.vulnDiscuss
    ensures FIXED_ATTRS[8] == "Check_Content" && FixedValues(v, c)[8] == v.checkContent
    ensures FIXED_ATTRS[9] == "Fix_Text" && FixedValues(v, c)[9] == v.fixText
  {
  }

  /** `</VULN>` projects the block's attribute map onto the reviewed fields as `VulnOf`. */
  lemma ProjectVulnOf(v: StigVulnerability, c: StigChecklist)
    ensures ProjectVuln(ReviewOf(v), AttributeMap(v, c)) == VulnOf(v)
  {
    RuleIdsAt(v, c);
    RuleVersionsAt(v, c);
    RuleTextsAt(v, c);
    FixedLookup(v, c, 0);
    FixedLookup(v, c, 1);
    FixedLookup(v, c, 2);
    FixedLookup(v, c, 3);
    FixedLookup(v, c, 4);
    FixedLookup(v, c, 5);
    FixedLookup(v, c, 6);
    FixedLookup(v, c, 8);
    FixedLookup(v, c, 9);
    CciLookup(v, c);
  }

  /** `<VULN>` between blocks starts a fresh vulnerability with an empty attribute map. */
  lemma OpenVuln(st: CklState, xml: seq<Event>)
    requires Quiet(Steps(st, xml))
    ensures Steps(st, xml + [Start("VULN", [])]) ==
      Steps(st, xml).(inVuln := true, current := Some(NewVulnerability()), stigData := map[])
  {
    StepsTag(st, xml, Start("VULN", []));
    TagOfVulnBlock();
  }

  /** A VULN block appends the vulnerability as read back and leaves the parser between blocks. */
  lemma StepsVuln(st: CklState, xml: seq<Event>, v: StigVulnerability, c: StigChecklist)
    requires Quiet(Steps(st, xml))
    ensures var s := Steps(st, xml);
      Steps(st, WriteVuln(xml, v, c)) ==
        s.(vulns := s.vulns + [VulnOf(v)], stigData := AttributeMap(v, c),
           vulnAttribute := LastAttribute(s.vulnAttribute, VulnEntries(v, c)))
  {
    var s := Steps(st, xml);
    var p := xml + [Start("VULN", [])];
    var q := WriteEntries(p, VulnEntries(v, c));
    OpenVuln(st, xml);
    StepsEntries(st, p, VulnEntries(v, c));
    var s2 := s.(inVuln := true, current := Some(NewVulnerability()), stigData := AttributeMap(v, c),
                 vulnAttribute := LastAttribute(s.vulnAttribute, VulnEntries(v, c)));
    assert Steps(st, q) == s2;
    StepsReview(st, q, v);
    ProjectVulnOf(v, c);
  }

  /** What a VULN block leaves for the rest of the document. */
  lemma VulnBlock(st: CklState, xml: seq<Event>, v: StigVulnerability, c: StigChecklist)
    requires Quiet(Steps(st, xml))
    ensures var s := Steps(st, xml);
      var s' := Steps(st, WriteVuln(xml, v, c));
      Quiet(s') && s'.asset == s.asset && s'.stigInfo == s.stigInfo && s'.vulns == s.vulns + [VulnOf(v)]
  {
    StepsVuln(st, xml, v, c);
  }

  /** The vulnerabilities as the parser reads their VULN blocks back, in order. */
  function VulnsOf(vs: seq<StigVulnerability>): (r: seq<StigVulnerability>)
    ensures |r| == |vs|
  {
    if vs == [] then [] else VulnsOf(vs[..|vs| - 1]) + [VulnOf(vs[|vs| - 1])]
  }

  /** Each vulnerability is read back on its own, at its own position. */
  lemma {:induction false} VulnsOfAt(vs: seq<StigVulnerability>, k: nat)
    requires k < |vs|
    ensures VulnsOf(vs)[k] == VulnOf(vs[k])
    decreases |vs|
  {
    if k < |vs| - 1 {
      VulnsOfAt(vs[..|vs| - 1], k);
    }
  }

  /** The VULN blocks append one vulnerability each, in order, and leave asset and STIG information alone. */
  lemma {:induction false} StepsVulns(st: CklState, xml: seq<Event>, vs: seq<StigVulnerability>, c: StigChecklist)
    requires Quiet(Steps(st, xml))
    ensures Quiet(Steps(st, WriteVulns(xml, vs, c)))
    ensures Steps(st, WriteVulns(xml, vs, c)).asset == Steps(st, xml).asset
    ensures Steps(st, WriteVulns(xml, vs, c)).stigInfo == Steps(st, xml).stigInfo
    ensures Steps(st, WriteVulns(xml, vs, c)).vulns == Steps(st, xml).vulns + VulnsOf(vs)
    decreases |vs|
  {
    if vs == [] {
      assert Steps(st, xml).vulns + VulnsOf(vs) == Steps(st, xml).vulns;
    } else {
      var s := Steps(st, xml);
      var init, v := vs[..|vs| - 1], vs[|vs| - 1];
      var p := WriteVulns(xml, init, c);
      assert WriteVulns(xml, vs, c) == WriteVuln(p, v, c);
      assert VulnsOf(vs) == VulnsOf(init) + [VulnOf(v)];
      StepsVulns(st, xml, init, c);
      VulnBlock(st, p, v, c);
      AppendAssoc(s.vulns, VulnsOf(init), [VulnOf(v)]);
    }
  }

  lemma AppendAssoc<T>(a: seq<T>, b: seq<T>, c: seq<T>)
    ensures a + b + c == a + (b + c)
  {
  }
}
