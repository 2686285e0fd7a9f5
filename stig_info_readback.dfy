/**
 * Reading back the STIG_INFO block `generate_ckl_xml` writes: the eleven
 * SI_DATA pairs fill the parser's name/value map, and `</STIG_INFO>`
 * projects it into the record with every value trimmed.
 */
module StigInfoReadBack {
  import opened Wrappers
  import opened Strings
  import opened XmlEscape
  import opened XmlEvents
  import opened StigTypes
  import opened CklParser
  import opened CklWriter
  import opened CklRoundTrip

  /** The SID_NAMEs of the pairs, in the order the writer writes them. */
  const SI_NAMES: seq<String> := ["version", "classification", "customname", "stigid", "description",
    "filename", "releaseinfo", "title", "uuid", "notice", "source"]

  /** The values of the pairs, in the same order. */
  function SiValues(i: StigInfo): (vals: seq<String>)
    ensures |vals| == 11
  {
    [i.version, i.classification, i.customName, i.stigId, i.description, i.fileName,
     i.releaseInfo, i.title, i.uuid, i.notice, i.source]
  }

  lemma SiNamesDistinct()
    ensures |SI_NAMES| == 11 && NoDuplicates(SI_NAMES)
  {
  }

  /** The names are written as they are and read back unchanged. */
  lemma SiNamesReadBack()
    ensures forall j :: 0 <= j < |SI_NAMES| ==> ReadBack(SI_NAMES[j]) == SI_NAMES[j]
  {
    assert forall j :: 0 <= j < |SI_NAMES| ==> NoAmp(SI_NAMES[j]);
    assert forall j :: 0 <= j < |SI_NAMES| ==> IsTrimmed(SI_NAMES[j]);
    forall j | 0 <= j < |SI_NAMES| ensures ReadBack(SI_NAMES[j]) == SI_NAMES[j] {
      PlainReadBack(SI_NAMES[j]);
    }
  }

  /** The first `n` SI_DATA pairs the writer appends to `xml`. */
  function SiElements(xml: seq<Event>, i: StigInfo, n: nat): seq<Event>
    requires n <= 11
  {
    if n == 0 then xml else SiElements(xml, i, n - 1) + SiData(SI_NAMES[n - 1], SiValues(i)[n - 1])
  }

  /** One more pair of the fold is the writer's next SI_DATA line. */
  lemma SiChild(p: seq<Event>, i: StigInfo, k: nat)
    requires k < 11
    ensures SiElements(p, i, k + 1) == SiElements(p, i, k) + SiData(SI_NAMES[k], SiValues(i)[k])
  {
  }

  /** The tags that open the STIG_INFO block. */
  function StigInfoOpening(xml: seq<Event>): seq<Event> {
    xml + [Start("STIGS", [])] + [Start("iSTIG", [])] + [Start("STIG_INFO", [])]
  }

  /** The writer's STIG_INFO block is the fold over the eleven pairs. */
  lemma WriteStigInfoElements(xml: seq<Event>, i: StigInfo)
    ensures WriteStigInfo(xml, i) == SiElements(StigInfoOpening(xml), i, 11) + [End("STIG_INFO")]
  {
    var p := StigInfoOpening(xml);
    SiChild(p, i, 0);
    SiChild(p, i, 1);
    SiChild(p, i, 2);
    SiChild(p, i, 3);
    SiChild(p, i, 4);
    SiChild(p, i, 5);
    SiChild(p, i, 6);
    SiChild(p, i, 7);
    SiChild(p, i, 8);
    SiChild(p, i, 9);
    SiChild(p, i, 10);
  }

  lemma TagOfSiData()
    ensures TagOf("SI_DATA") == OtherTag
  {
  }

  lemma TagOfSidName()
    ensures TagOf("SID_NAME") == SidNameTag
  {
  }

  lemma TagOfSidData()
    ensures TagOf("SID_DATA") == SidDataTag
  {
  }

  /** `<SI_DATA>` changes nothing. */
  lemma OpenSiData(st: CklState, xml: seq<Event>)
    requires Steps(st, xml).text == ""
    ensures Steps(st, xml + [Start("SI_DATA", [])]) == Steps(st, xml)
  {
    StepsTag(st, xml, Start("SI_DATA", []));
    TagOfSiData();
  }

  /** `</SI_DATA>` changes nothing once the pair's text is stored. */
  lemma CloseSiData(st: CklState, xml: seq<Event>)
    requires Steps(st, xml).text == ""
    ensures Steps(st, xml + [End("SI_DATA")]) == Steps(st, xml)
  {
    StepsTag(st, xml, End("SI_DATA"));
    TagOfSiData();
  }

  /** `<SID_NAME>` remembers the name. */
  lemma StepsSidName(st: CklState, xml: seq<Event>, name: String)
    requires Steps(st, xml).inStigInfo
    ensures Steps(st, xml + RawElement("SID_NAME", name)) == Steps(st, xml).(sidName := ReadBack(name), text := "")
  {
    TagOfSidName();
    StepsAppend(st, xml, RawElement("SID_NAME", name));
    StepsRawElement(Steps(st, xml), "SID_NAME", name);
  }

  /** `<SID_DATA>` stores the trimmed value under the remembered name. */
  lemma StepsSidData(st: CklState, xml: seq<Event>, value: String)
    requires Steps(st, xml).inStigInfo
    ensures var s := Steps(st, xml);
      Steps(st, xml + Element("SID_DATA", value)) == s.(siData := s.siData[s.sidName := Trim(value)], text := "")
  {
    TagOfSidData();
    StepsAppend(st, xml, RawElement("SID_DATA", Escape(value)));
    StepsRawElement(Steps(st, xml), "SID_DATA", Escape(value));
    ReadBackEscape(value);
  }

  /** One SI_DATA pair whose name reads back unchanged stores its trimmed value under that name. */
  lemma StepsSiData(st: CklState, xml: seq<Event>, name: String, value: String)
    requires Steps(st, xml).inStigInfo && Steps(st, xml).text == ""
    requires ReadBack(name) == name
    ensures var s := Steps(st, xml);
      Steps(st, xml + SiData(name, value)) == s.(sidName := name, siData := s.siData[name := Trim(value)])
  {
    var p1 := xml + [Start("SI_DATA", [])];
    var p2 := p1 + RawElement("SID_NAME", name);
    var p3 := p2 + Element("SID_DATA", value);
    SiDataSplit(xml, name, value);
    var s := Steps(st, xml);
    OpenSiData(st, xml);
    StepsSidName(st, p1, name);
    var s2 := s.(sidName := name);
    assert Steps(st, p2) == s2;
    StepsSidData(st, p2, value);
    assert Steps(st, p3) == s2.(siData := s.siData[name := Trim(value)]);
    CloseSiData(st, p3);
  }

  lemma SiDataSplit(xml: seq<Event>, name: String, value: String)
    ensures xml + SiData(name, value) ==
      xml + [Start("SI_DATA", [])] + RawElement("SID_NAME", name) + Element("SID_DATA", value) + [End("SI_DATA")]
  {
  }

  lemma {:induction false} StepsSiElements(st: CklState, xml: seq<Event>, i: StigInfo, n: nat)
    requires n <= 11
    requires Steps(st, xml).inStigInfo && Steps(st, xml).text == ""
    ensures var s := Steps(st, xml);
      Steps(st, SiElements(xml, i, n)) ==
        s.(sidName := if n == 0 then s.sidName else SI_NAMES[n - 1], siData := PairMap(s.siData, SI_NAMES, SiValues(i), n))
  {
    if n > 0 {
      StepsSiElements(st, xml, i, n - 1);
      SiNamesReadBack();
      StepsSiData(st, SiElements(xml, i, n - 1), SI_NAMES[n - 1], SiValues(i)[n - 1]);
    }
  }

  /** The STIG information as the parser reads it back: every field trimmed. */
  function StigInfoOf(i: StigInfo): StigInfo {
    StigInfo(Trim(i.version), Trim(i.classification), Trim(i.customName), Trim(i.stigId),
             Trim(i.description), Trim(i.fileName), Trim(i.releaseInfo), Trim(i.title),
             Trim(i.uuid), Trim(i.notice), Trim(i.source))
  }

  /** `</STIG_INFO>` over the eleven pairs projects exactly the trimmed fields. */
  lemma ProjectPairMap(m0: map<String, String>, i: StigInfo)
    ensures ProjectStigInfo(PairMap(m0, SI_NAMES, SiValues(i), 11)) == StigInfoOf(i)
  {
    var vals := SiValues(i);
    SiNamesDistinct();
    PairMapLookup(m0, SI_NAMES, vals, 11, 0);
    PairMapLookup(m0, SI_NAMES, vals, 11, 1);
    PairMapLookup(m0, SI_NAMES, vals, 11, 2);
    PairMapLookup(m0, SI_NAMES, vals, 11, 3);
    PairMapLookup(m0, SI_NAMES, vals, 11, 4);
    PairMapLookup(m0, SI_NAMES, vals, 11, 5);
    PairMapLookup(m0, SI_NAMES, vals, 11, 6);
    PairMapLookup(m0, SI_NAMES, vals, 11, 7);
    PairMapLookup(m0, SI_NAMES, vals, 11, 8);
    PairMapLookup(m0, SI_NAMES, vals, 11, 9);
    PairMapLookup(m0, SI_NAMES, vals, 11, 10);
  }

  lemma TagOfStigs()
    ensures TagOf("STIGS") == OtherTag
  {
  }

  lemma TagOfIStig()
    ensures TagOf("iSTIG") == OtherTag
  {
  }

  lemma TagOfStigInfo()
    ensures TagOf("STIG_INFO") == StigInfoTag
  {
  }

  /** A start tag the parser ignores changes nothing between blocks. */
  lemma OpenOther(st: CklState, xml: seq<Event>, name: String)
    requires Steps(st, xml).text == "" && TagOf(name) == OtherTag
    ensures Steps(st, xml + [Start(name, [])]) == Steps(st, xml)
  {
    StepsTag(st, xml, Start(name, []));
  }

  /** `<STIGS><iSTIG><STIG_INFO>` only enters the STIG_INFO block. */
  lemma StepsStigInfoOpening(st: CklState, xml: seq<Event>)
    requires Quiet(Steps(st, xml))
    ensures Steps(st, StigInfoOpening(xml)) == Steps(st, xml).(inStigInfo := true)
  {
    var p1 := xml + [Start("STIGS", [])];
    var p2 := p1 + [Start("iSTIG", [])];
    TagOfStigs();
    OpenOther(st, xml, "STIGS");
    TagOfIStig();
    OpenOther(st, p1, "iSTIG");
    TagOfStigInfo();
    StepsTag(st, p2, Start("STIG_INFO", []));
  }

  lemma CloseStigInfo(st: CklState, xml: seq<Event>)
    requires Steps(st, xml).text == ""
    ensures var s := Steps(st, xml);
      Steps(st, xml + [End("STIG_INFO")]) == s.(inStigInfo := false, stigInfo := ProjectStigInfo(s.siData))
  {
    StepsTag(st, xml, End("STIG_INFO"));
    TagOfStigInfo();
  }

  /**
   * The STIG_INFO block sets the STIG information to the written one,
   * trimmed, and leaves the parser between blocks again.
   */
  lemma StepsStigInfo(st: CklState, xml: seq<Event>, i: StigInfo)
    requires Quiet(Steps(st, xml))
    ensures var s := Steps(st, xml);
      Steps(st, WriteStigInfo(xml, i)) == s.(stigInfo := StigInfoOf(i), sidName := "source", siData := PairMap(s.siData, SI_NAMES, SiValues(i), 11))
  {
    var s := Steps(st, xml);
    var p := StigInfoOpening(xml);
    var q := SiElements(p, i, 11);
    StepsStigInfoOpening(st, xml);
    StepsSiElements(st, p, i, 11);
    var s2 := Steps(st, q);
    assert s2 == s.(inStigInfo := true, sidName := "source", siData := PairMap(s.siData, SI_NAMES, SiValues(i), 11));
    CloseStigInfo(st, q);
    ProjectPairMap(s.siData, i);
    WriteStigInfoElements(xml, i);
  }
}
