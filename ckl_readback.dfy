/**
 * The whole round trip: `parse_stig_checklist` on what `generate_ckl_xml`
 * writes for `c` returns `c` with every text field trimmed, `stig_id` set
 * to `rule_ver`, each vulnerability's CCI references cut down to the last
 * non-blank one and blank overrides dropped; a checklist the parser itself
 * returned comes back unchanged.
 */
module ChecklistReadBack {
  import opened Wrappers
  import opened Strings
  import opened XmlEscape
  import opened XmlEvents
  import opened StigTypes
  import opened CklParser
  import opened CklWriter
  import opened CklRoundTrip
  import opened StigInfoReadBack
  import opened VulnReadBack

  // ---------------------------------------------------------------- no event stops the loop

  lemma NoTerminalAppend(a: seq<Event>, b: seq<Event>)
    requires NoTerminal(a) && NoTerminal(b)
    ensures NoTerminal(a + b)
  {
    forall i | 0 <= i < |a + b| ensures !IsTerminal((a + b)[i]) {
      if i >= |a| {
        assert (a + b)[i] == b[i - |a|];
      }
    }
  }

  lemma NoTerminalElement(xml: seq<Event>, name: String, raw: String)
    requires NoTerminal(xml)
    ensures NoTerminal(xml + RawElement(name, raw))
  {
    NoTerminalAppend(xml, RawElement(name, raw));
  }

  lemma NoTerminalTag(xml: seq<Event>, e: Event)
    requires NoTerminal(xml) && !IsTerminal(e)
    ensures NoTerminal(xml + [e])
  {
    NoTerminalAppend(xml, [e]);
  }

  lemma {:induction false} NoTerminalAssetElements(xml: seq<Event>, a: AssetInfo, n: nat)
    requires n <= 13 && NoTerminal(xml)
    ensures NoTerminal(AssetElements(xml, a, n))
  {
    if n > 0 {
      NoTerminalAssetElements(xml, a, n - 1);
      NoTerminalElement(AssetElements(xml, a, n - 1), AssetFieldName(AssetFieldAt(n - 1)), AssetRaw(a, AssetFieldAt(n - 1)));
    }
  }

  lemma NoTerminalAsset(xml: seq<Event>, a: AssetInfo)
    requires NoTerminal(xml)
    ensures NoTerminal(WriteAsset(xml, a))
  {
    var p := xml + [Start("ASSET", [])];
    NoTerminalTag(xml, Start("ASSET", []));
    NoTerminalAssetElements(p, a, 13);
    NoTerminalTag(AssetElements(p, a, 13), End("ASSET"));
    WriteAssetElements(xml, a);
  }

  lemma NoTerminalSiData(xml: seq<Event>, name: String, value: String)
    requires NoTerminal(xml)
    ensures NoTerminal(xml + SiData(name, value))
  {
    var p1 := xml + [Start("SI_DATA", [])];
    var p2 := p1 + RawElement("SID_NAME", name);
    var p3 := p2 + Element("SID_DATA", value);
    NoTerminalTag(xml, Start("SI_DATA", []));
    NoTerminalElement(p1, "SID_NAME", name);
    NoTerminalElement(p2, "SID_DATA", Escape(value));
    NoTerminalTag(p3, End("SI_DATA"));
    SiDataSplit(xml, name, value);
  }

  lemma {:induction false} NoTerminalSiElements(xml: seq<Event>, i: StigInfo, n: nat)
    requires n <= 11 && NoTerminal(xml)
    ensures NoTerminal(SiElements(xml, i, n))
  {
    if n > 0 {
      NoTerminalSiElements(xml, i, n - 1);
      NoTerminalSiData(SiElements(xml, i, n - 1), SI_NAMES[n - 1], SiValues(i)[n - 1]);
    }
  }

  lemma NoTerminalStigInfo(xml: seq<Event>, i: StigInfo)
    requires NoTerminal(xml)
    ensures NoTerminal(WriteStigInfo(xml, i))
  {
    var p1 := xml + [Start("STIGS", [])];
    var p2 := p1 + [Start("iSTIG", [])];
    var p := p2 + [Start("STIG_INFO", [])];
    NoTerminalTag(xml, Start("STIGS", []));
    NoTerminalTag(p1, Start("iSTIG", []));
    NoTerminalTag(p2, Start("STIG_INFO", []));
    NoTerminalSiElements(p, i, 11);
    NoTerminalTag(SiElements(p, i, 11), End("STIG_INFO"));
    WriteStigInfoElements(xml, i);
  }

  lemma NoTerminalStigData(xml: seq<Event>, attribute: String, value: String)
    requires NoTerminal(xml)
    ensures NoTerminal(xml + StigData(attribute, value))
  {
    var p1 := xml + [Start("STIG_DATA", [])];
    var p2 := p1 + Element("VULN_ATTRIBUTE", attribute);
    var p3 := p2 + Element("ATTRIBUTE_DATA", value);
    NoTerminalTag(xml, Start("STIG_DATA", []));
    NoTerminalElement(p1, "VULN_ATTRIBUTE", Escape(attribute));
    NoTerminalElement(p2, "ATTRIBUTE_DATA", Escape(value));
    NoTerminalTag(p3, End("STIG_DATA"));
    StigDataSplit(xml, attribute, value);
  }

  lemma {:induction false} NoTerminalEntries(xml: seq<Event>, es: Entries)
    requires NoTerminal(xml)
    ensures NoTerminal(WriteEntries(xml, es))
  {
    match es
    case NoEntries =>
    case Then(init, attribute, value) =>
      NoTerminalEntries(xml, init);
      NoTerminalStigData(WriteEntries(xml, init), attribute, value);
  }

  lemma NoTerminalReview(xml: seq<Event>, v: StigVulnerability)
    requires NoTerminal(xml)
    ensures NoTerminal(WriteReview(xml, v))
  {
    var p1 := xml + Element(VulnFieldName(Status), v.status);
    var p2 := p1 + Element(VulnFieldName(FindingDetails), v.findingDetails);
    var p3 := p2 + Element(VulnFieldName(Comments), v.comments);
    var p4 := p3 + Element(VulnFieldName(SeverityOverride), v.severityOverride.GetOr(""));
    NoTerminalElement(xml, VulnFieldName(Status), Escape(v.status));
    NoTerminalElement(p1, VulnFieldName(FindingDetails), Escape(v.findingDetails));
    NoTerminalElement(p2, VulnFieldName(Comments), Escape(v.comments));
    NoTerminalElement(p3, VulnFieldName(SeverityOverride), Escape(v.severityOverride.GetOr("")));
    NoTerminalElement(p4, VulnFieldName(SeverityJustification), Escape(v.severityJustification.GetOr("")));
    NoTerminalTag(ReviewElements(xml, v), End("VULN"));
    WriteReviewSplit(xml, v);
  }

  lemma {:induction false} NoTerminalVulns(xml: seq<Event>, vs: seq<StigVulnerability>, c: StigChecklist)
    requires NoTerminal(xml)
    ensures NoTerminal(WriteVulns(xml, vs, c))
    decreases |vs|
  {
    if vs != [] {
      var p := WriteVulns(xml, vs[..|vs| - 1], c);
      NoTerminalVulns(xml, vs[..|vs| - 1], c);
      NoTerminalTag(p, Start("VULN", []));
      NoTerminalEntries(p + [Start("VULN", [])], VulnEntries(vs[|vs| - 1], c));
      NoTerminalReview(WriteEntries(p + [Start("VULN", [])], VulnEntries(vs[|vs| - 1], c)), vs[|vs| - 1]);
    }
  }

  lemma NoTerminalHeader()
    ensures NoTerminal(WriteHeader([]))
  {
    var h1 := [] + [Decl];
    var h2 := h1 + [Comment(VIEWER_COMMENT)];
    NoTerminalTag([], Decl);
    NoTerminalTag(h1, Comment(VIEWER_COMMENT));
    NoTerminalTag(h2, Start("CHECKLIST", []));
  }

  lemma NoTerminalFooter(xml: seq<Event>)
    requires NoTerminal(xml)
    ensures NoTerminal(WriteFooter(xml))
  {
    NoTerminalTag(xml, End("iSTIG"));
    NoTerminalTag(xml + [End("iSTIG")], End("STIGS"));
    NoTerminalTag(xml + [End("iSTIG")] + [End("STIGS")], End("CHECKLIST"));
  }

  /** Nothing `generate_ckl_xml` writes ends the parser's loop early. */
  lemma NoTerminalEvents(c: StigChecklist)
    ensures NoTerminal(CklEvents(c))
  {
    var h := WriteHeader([]);
    var a := WriteAsset(h, c.asset);
    var i := WriteStigInfo(a, c.stigInfo);
    NoTerminalHeader();
    NoTerminalAsset(h, c.asset);
    NoTerminalStigInfo(a, c.stigInfo);
    NoTerminalVulns(i, c.vulnerabilities, c);
    NoTerminalFooter(WriteVulns(i, c.vulnerabilities, c));
  }

  // ---------------------------------------------------------------- the parser's walk over the document

  lemma TagOfChecklist()
    ensures TagOf("CHECKLIST") == OtherTag
  {
  }

  /** The declaration, the comment and `<CHECKLIST>` leave the initial state as it is. */
  lemma StepsHeader()
    ensures Steps(InitialState(), WriteHeader([])) == InitialState()
  {
    var st := InitialState();
    var h1 := [] + [Decl];
    var h2 := h1 + [Comment(VIEWER_COMMENT)];
    StepsTag(st, [], Decl);
    assert Steps(st, h1) == st;
    StepsTag(st, h1, Comment(VIEWER_COMMENT));
    TagOfChecklist();
    StepsTag(st, h2, Start("CHECKLIST", []));
  }

  /** An end tag the parser ignores changes nothing between blocks. */
  lemma CloseOther(st: CklState, xml: seq<Event>, name: String)
    requires Steps(st, xml).text == "" && TagOf(name) == OtherTag
    ensures Steps(st, xml + [End(name)]) == Steps(st, xml)
  {
    StepsTag(st, xml, End(name));
  }

  lemma StepsFooter(st: CklState, xml: seq<Event>)
    requires Steps(st, xml).text == ""
    ensures Steps(st, WriteFooter(xml)) == Steps(st, xml)
  {
    TagOfIStig();
    CloseOther(st, xml, "iSTIG");
    TagOfStigs();
    CloseOther(st, xml + [End("iSTIG")], "STIGS");
    TagOfChecklist();
    CloseOther(st, xml + [End("iSTIG")] + [End("STIGS")], "CHECKLIST");
  }

  /** The checklist as the parser reads back what the writer wrote for `c`. */
  function Canon(c: StigChecklist): StigChecklist {
    StigChecklist(AssetOf(c.asset), StigInfoOf(c.stigInfo), VulnsOf(c.vulnerabilities))
  }

  /** The events before the first VULN block: the header, the ASSET block and the STIG_INFO block. */
  function Preamble(c: StigChecklist): seq<Event> {
    WriteStigInfo(WriteAsset(WriteHeader([]), c.asset), c.stigInfo)
  }

  /** After the preamble the parser is between blocks, with the asset and STIG information read back and no vulnerability. */
  lemma StepsPreamble(c: StigChecklist)
    ensures var s := Steps(InitialState(), Preamble(c));
      Quiet(s) && s.asset == AssetOf(c.asset) && s.stigInfo == StigInfoOf(c.stigInfo) && s.vulns == []
  {
    var st := InitialState();
    var h := WriteHeader([]);
    var a := WriteAsset(h, c.asset);
    StepsHeader();
    StepsAsset(st, h, c.asset);
    var sa := st.(asset := AssetOf(c.asset));
    assert Steps(st, a) == sa;
    StepsStigInfo(st, a, c.stigInfo);
  }

  /** The parser's state after the whole document holds the read-back checklist. */
  lemma StepsDocument(c: StigChecklist)
    ensures Finish(Steps(InitialState(), CklEvents(c))) == Canon(c)
  {
    var st := InitialState();
    var w := WriteVulns(Preamble(c), c.vulnerabilities, c);
    StepsPreamble(c);
    StepsVulns(st, Preamble(c), c.vulnerabilities, c);
    StepsFooter(st, w);
    assert [] + VulnsOf(c.vulnerabilities) == VulnsOf(c.vulnerabilities);
  }

  /**
   * Parsing the written checklist succeeds and yields its asset, STIG
   * information and vulnerabilities, each as the parser reads it back.
   */
  lemma ReadBackChecklist(c: StigChecklist)
    ensures ParseChecklist(CklEvents(c)) == Ok(Canon(c))
  {
    StepsDocument(c);
    NoTerminalEvents(c);
    ParseAll(CklEvents(c));
  }

  // ---------------------------------------------------------------- canonical checklists are fixed points

  lemma AssetOfCanonical(a: AssetInfo)
    requires CanonicalAsset(a)
    ensures AssetOf(a) == a
  {
    TrimTrimmed(a.role);
    TrimTrimmed(a.assetType);
    TrimTrimmed(a.marking);
    TrimTrimmed(a.hostName);
    TrimTrimmed(a.hostIp);
    TrimTrimmed(a.hostMac);
    TrimTrimmed(a.hostFqdn);
    TrimTrimmed(a.targetComment);
    TrimTrimmed(a.techArea);
    TrimTrimmed(a.targetKey);
    TrimTrimmed(a.webDbSite);
    TrimTrimmed(a.webDbInstance);
  }

  lemma StigInfoOfCanonical(i: StigInfo)
    requires CanonicalStigInfo(i)
    ensures StigInfoOf(i) == i
  {
    TrimTrimmed(i.version);
    TrimTrimmed(i.classification);
    TrimTrimmed(i.customName);
    TrimTrimmed(i.stigId);
    TrimTrimmed(i.description);
    TrimTrimmed(i.fileName);
    TrimTrimmed(i.releaseInfo);
    TrimTrimmed(i.title);
    TrimTrimmed(i.uuid);
    TrimTrimmed(i.notice);
    TrimTrimmed(i.source);
  }

  /** An override the parser could have produced is written and read back as it is. */
  lemma OverrideCanonical(o: Option<String>)
    requires o.Some? ==> o.value != [] && IsTrimmed(o.value)
    ensures NonEmpty(Trim(o.GetOr(""))) == o
  {
    TrimTrimmed(o.GetOr(""));
  }

  lemma RefsOfCanonical(refs: seq<String>)
    requires |refs| <= 1 && forall k :: 0 <= k < |refs| ==> refs[k] != [] && IsTrimmed(refs[k])
    ensures RefsOf(refs) == refs
  {
    if refs != [] {
      TrimTrimmed(refs[0]);
    }
  }

  lemma VulnOfCanonical(v: StigVulnerability)
    requires CanonicalVuln(v)
    ensures VulnOf(v) == v
  {
    TrimTrimmed(v.vulnNum);
    TrimTrimmed(v.severity);
    TrimTrimmed(v.groupTitle);
    TrimTrimmed(v.ruleId);
    TrimTrimmed(v.ruleVer);
    TrimTrimmed(v.ruleTitle);
    TrimTrimmed(v.vulnDiscuss);
    TrimTrimmed(v.checkContent);
    TrimTrimmed(v.fixText);
    TrimTrimmed(v.status);
    TrimTrimmed(v.findingDetails);
    TrimTrimmed(v.comments);
    RefsOfCanonical(v.cciRefs);
    OverrideCanonical(v.severityOverride);
    OverrideCanonical(v.severityJustification);
  }

  lemma VulnsOfCanonical(vs: seq<StigVulnerability>)
    requires forall k :: 0 <= k < |vs| ==> CanonicalVuln(vs[k])
    ensures VulnsOf(vs) == vs
  {
    forall k | 0 <= k < |vs| ensures VulnsOf(vs)[k] == vs[k] {
      VulnsOfAt(vs, k);
      VulnOfCanonical(vs[k]);
    }
  }

  /** The read-back form of a canonical checklist is the checklist itself. */
  lemma CanonOfCanonical(c: StigChecklist)
    requires CanonicalChecklist(c)
    ensures Canon(c) == c
  {
    AssetOfCanonical(c.asset);
    StigInfoOfCanonical(c.stigInfo);
    VulnsOfCanonical(c.vulnerabilities);
  }

  /** Writing a canonical checklist and parsing it gives the same checklist back. */
  lemma RoundTrip(c: StigChecklist)
    requires CanonicalChecklist(c)
    ensures ParseChecklist(CklEvents(c)) == Ok(c)
  {
    ReadBackChecklist(c);
    CanonOfCanonical(c);
  }

  /** Whatever the parser returned, written out and parsed again, is returned unchanged. */
  lemma ParsedRoundTrip(evs: seq<Event>)
    requires ParseChecklist(evs).Ok?
    ensures ParseChecklist(CklEvents(ParseChecklist(evs).value)) == ParseChecklist(evs)
  {
    ParsedChecklistIsCanonical(evs);
    RoundTrip(ParseChecklist(evs).value);
  }

  /** Reading back is idempotent: the read-back form is canonical and reads back as itself. */
  lemma CanonIdempotent(c: StigChecklist)
    ensures CanonicalChecklist(Canon(c)) && Canon(Canon(c)) == Canon(c)
  {
    ReadBackChecklist(c);
    ParsedChecklistIsCanonical(CklEvents(c));
    CanonOfCanonical(Canon(c));
  }
}
