/**
 * `parse_stig_checklist`: the single pass over a CKL checklist's events.
 * Three independent flags say whether the parser is inside ASSET, STIG_INFO
 * or a VULN; the text of each element is collected, trimmed at its end tag
 * and stored according to the tag's name. STIG_INFO's name/data pairs and a
 * VULN's attribute/data pairs go into maps, which are projected onto the
 * records when the block closes.
 */
module CklParser {
  import opened Wrappers
  import opened Strings
  import opened XmlEscape
  import opened XmlEvents
  import opened StigTypes

  /** Everything the parser's loop carries from one event to the next. */
  datatype CklState = CklState(
    asset: AssetInfo,
    stigInfo: StigInfo,
    vulns: seq<StigVulnerability>,
    text: String,
    inAsset: bool,
    inStigInfo: bool,
    inVuln: bool,
    current: Option<StigVulnerability>,
    stigData: map<String, String>,
    siData: map<String, String>,
    vulnAttribute: String,
    sidName: String)

  function InitialState(): CklState {
    CklState(NewAsset(), NewStigInfo(), [], "", false, false, false, None, map[], map[], "", "")
  }

  /** `map.get(key).unwrap_or(&String::new())` */
  function Lookup(m: map<String, String>, key: String): String {
    if key in m then m[key] else ""
  }

  /** An empty override or justification is no override at all. */
  function NonEmpty(t: String): Option<String> {
    if t == [] then None else Some(t)
  }

  /** The ASSET children the parser stores. */
  datatype AssetField =
    | Role | AssetType | Marking | HostName | HostIp | HostMac | HostFqdn
    | TargetComment | TechArea | TargetKey | WebOrDatabase | WebDbSite | WebDbInstance

  /** The VULN children the parser stores directly, outside the STIG_DATA pairs. */
  datatype VulnField = Status | FindingDetails | Comments | SeverityOverride | SeverityJustification

  /** The tag names the two `match`es of the loop tell apart; every other name is `OtherTag`. */
  datatype Tag =
    | AssetTag | StigInfoTag | VulnTag
    | AssetFieldTag(assetField: AssetField)
    | SidNameTag | SidDataTag | VulnAttributeTag | AttributeDataTag
    | VulnFieldTag(vulnField: VulnField)
    | OtherTag

  function AssetFieldName(f: AssetField): String {
    match f
    case Role => "ROLE"
    case AssetType => "ASSET_TYPE"
    case Marking => "MARKING"
    case HostName => "HOST_NAME"
    case HostIp => "HOST_IP"
    case HostMac => "HOST_MAC"
    case HostFqdn => "HOST_FQDN"
    case TargetComment => "TARGET_COMMENT"
    case TechArea => "TECH_AREA"
    case TargetKey => "TARGET_KEY"
    case WebOrDatabase => "WEB_OR_DATABASE"
    case WebDbSite => "WEB_DB_SITE"
    case WebDbInstance => "WEB_DB_INSTANCE"
  }

  function VulnFieldName(g: VulnField): String {
    match g
    case Status => "STATUS"
    case FindingDetails => "FINDING_DETAILS"
    case Comments => "COMMENTS"
    case SeverityOverride => "SEVERITY_OVERRIDE"
    case SeverityJustification => "SEVERITY_JUSTIFICATION"
  }

  /** The arm of the loop's `match name.as_str()` a tag name selects. */
  function TagOf(name: String): Tag {
    if name == "ASSET" then AssetTag
    else if name == "STIG_INFO" then StigInfoTag
    else if name == "VULN" then VulnTag
    else if name == "SID_NAME" then SidNameTag
    else if name == "SID_DATA" then SidDataTag
    else if name == "VULN_ATTRIBUTE" then VulnAttributeTag
    else if name == "ATTRIBUTE_DATA" then AttributeDataTag
    else if name == "ROLE" then AssetFieldTag(Role)
    else if name == "ASSET_TYPE" then AssetFieldTag(AssetType)
    else if name == "MARKING" then AssetFieldTag(Marking)
    else if name == "HOST_NAME" then AssetFieldTag(HostName)
    else if name == "HOST_IP" then AssetFieldTag(HostIp)
    else if name == "HOST_MAC" then AssetFieldTag(HostMac)
    else if name == "HOST_FQDN" then AssetFieldTag(HostFqdn)
    else if name == "TARGET_COMMENT" then AssetFieldTag(TargetComment)
    else if name == "TECH_AREA" then AssetFieldTag(TechArea)
    else if name == "TARGET_KEY" then AssetFieldTag(TargetKey)
    else if name == "WEB_OR_DATABASE" then AssetFieldTag(WebOrDatabase)
    else if name == "WEB_DB_SITE" then AssetFieldTag(WebDbSite)
    else if name == "WEB_DB_INSTANCE" then AssetFieldTag(WebDbInstance)
    else if name == "STATUS" then VulnFieldTag(Status)
    else if name == "FINDING_DETAILS" then VulnFieldTag(FindingDetails)
    else if name == "COMMENTS" then VulnFieldTag(Comments)
    else if name == "SEVERITY_OVERRIDE" then VulnFieldTag(SeverityOverride)
    else if name == "SEVERITY_JUSTIFICATION" then VulnFieldTag(SeverityJustification)
    else OtherTag
  }

  /** The asset field a tag names, set to the trimmed text; WEB_OR_DATABASE is true only for the text "true". */
  function SetAssetField(a: AssetInfo, f: AssetField, t: String): AssetInfo {
    match f
    case Role => a.(role := t)
    case AssetType => a.(assetType := t)
    case Marking => a.(marking := t)
    case HostName => a.(hostName := t)
    case HostIp => a.(hostIp := t)
    case HostMac => a.(hostMac := t)
    case HostFqdn => a.(hostFqdn := t)
    case TargetComment => a.(targetComment := t)
    case TechArea => a.(techArea := t)
    case TargetKey => a.(targetKey := t)
    case WebOrDatabase => a.(webOrDatabase := t == "true")
    case WebDbSite => a.(webDbSite := t)
    case WebDbInstance => a.(webDbInstance := t)
  }

  /** The vulnerability field a tag names, set from the trimmed text. */
  function SetVulnField(v: StigVulnerability, g: VulnField, t: String): StigVulnerability {
    match g
    case Status => v.(status := t)
    case FindingDetails => v.(findingDetails := t)
    case Comments => v.(comments := t)
    case SeverityOverride => v.(severityOverride := NonEmpty(t))
    case SeverityJustification => v.(severityJustification := NonEmpty(t))
  }

  /** STIG_INFO's fields, read from the SID_NAME/SID_DATA pairs seen so far. */
  function ProjectStigInfo(m: map<String, String>): StigInfo {
    StigInfo(Lookup(m, "version"), Lookup(m, "classification"), Lookup(m, "customname"),
             Lookup(m, "stigid"), Lookup(m, "description"), Lookup(m, "filename"),
             Lookup(m, "releaseinfo"), Lookup(m, "title"), Lookup(m, "uuid"),
             Lookup(m, "notice"), Lookup(m, "source"))
  }

  /**
   * The CCI references a VULN block contributes: the map keeps one value per
   * attribute name, so at most the one CCI_REF value written last, and only
   * when it is not empty.
   */
  function CciRefsOf(m: map<String, String>): seq<String> {
    if "CCI_REF" in m && m["CCI_REF"] != [] then [m["CCI_REF"]] else []
  }

  /** The vulnerability completed at `</VULN>`, its rule data read from the STIG_DATA pairs. */
  function ProjectVuln(v: StigVulnerability, m: map<String, String>): StigVulnerability {
    v.(vulnNum := Lookup(m, "Vuln_Num"),
       severity := Lookup(m, "Severity"),
       groupTitle := Lookup(m, "Group_Title"),
       ruleId := Lookup(m, "Rule_ID"),
       ruleVer := Lookup(m, "Rule_Ver"),
       ruleTitle := Lookup(m, "Rule_Title"),
       vulnDiscuss := Lookup(m, "Vuln_Discuss"),
       checkContent := Lookup(m, "Check_Content"),
       fixText := Lookup(m, "Fix_Text"),
       stigId := Lookup(m, "Rule_Ver"),
       cciRefs := v.cciRefs + CciRefsOf(m))
  }

  /** The first `match` at an end tag: store the trimmed text `t` where the tag and the flags say. */
  function StoreText(st: CklState, tag: Tag, t: String): CklState {
    match tag
    case AssetFieldTag(f) => if st.inAsset then st.(asset := SetAssetField(st.asset, f, t)) else st
    case SidNameTag => if st.inStigInfo then st.(sidName := t) else st
    case SidDataTag => if st.inStigInfo then st.(siData := st.siData[st.sidName := t]) else st
    case VulnAttributeTag => if st.inVuln then st.(vulnAttribute := t) else st
    case AttributeDataTag => if st.inVuln then st.(stigData := st.stigData[st.vulnAttribute := t]) else st
    case VulnFieldTag(g) =>
      if st.inVuln && st.current.Some? then st.(current := Some(SetVulnField(st.current.value, g, t))) else st
    case _ => st
  }

  /** The second `match` at an end tag: leave a block, projecting its maps. */
  function CloseBlock(st: CklState, tag: Tag): CklState {
    match tag
    case AssetTag => st.(inAsset := false)
    case StigInfoTag => st.(inStigInfo := false, stigInfo := ProjectStigInfo(st.siData))
    case VulnTag =>
      if st.current.Some? then
        st.(vulns := st.vulns + [ProjectVuln(st.current.value, st.stigData)], current := None, inVuln := false)
      else st.(inVuln := false)
    case _ => st
  }

  /** A start tag: enter the block it opens. */
  function Open(st: CklState, tag: Tag): CklState {
    match tag
    case AssetTag => st.(inAsset := true)
    case StigInfoTag => st.(inStigInfo := true)
    case VulnTag => st.(inVuln := true, current := Some(NewVulnerability()), stigData := map[])
    case _ => st
  }

  /** One event that does not end the loop. */
  function Step(st: CklState, ev: Event): CklState {
    match ev
    case Start(name, _) => Open(st, TagOf(name)).(text := "")
    case Text(raw) => st.(text := st.text + Unescape(raw).GetOr(""))
    case End(name) => CloseBlock(StoreText(st, TagOf(name), Trim(st.text)), TagOf(name)).(text := "")
    case _ => st
  }

  function Finish(st: CklState): StigChecklist {
    StigChecklist(st.asset, st.stigInfo, st.vulns)
  }

  /** The rest of the loop from event `i` in state `st`: stop at `Eof` or at the end, fail on a tokenizer error. */
  function Run(st: CklState, evs: seq<Event>, i: nat): Result<StigChecklist, StigError>
    requires i <= |evs|
    decreases |evs| - i
  {
    if i == |evs| || evs[i].Eof? then Ok(Finish(st))
    else if evs[i].Malformed? then Err(XmlParsing(evs[i].detail))
    else Run(Step(st, evs[i]), evs, i + 1)
  }

  /** The state after the events `evs`, none of which ends the loop. */
  function Steps(st: CklState, evs: seq<Event>): CklState
    decreases |evs|
  {
    if evs == [] then st else Steps(Step(st, evs[0]), evs[1..])
  }

  /** What `parse_stig_checklist` returns for a document with events `evs`. */
  function ParseChecklist(evs: seq<Event>): Result<StigChecklist, StigError> {
    Run(InitialState(), evs, 0)
  }

  /** The start-tag arm: enter the block the tag opens. */
  method OpenArm(st0: CklState, tag: Tag) returns (st: CklState)
    ensures st == Open(st0, tag)
  {
    st := st0;
    if tag == AssetTag {
      st := st.(inAsset := true);
    } else if tag == StigInfoTag {
      st := st.(inStigInfo := true);
    } else if tag == VulnTag {
      st := st.(inVuln := true, current := Some(NewVulnerability()), stigData := map[]);
    }
  }

  /** The first `match` of the end-tag arm: store the trimmed text where the tag and the flags say. */
  method StoreTextArm(st0: CklState, tag: Tag, text: String) returns (st: CklState)
    ensures st == StoreText(st0, tag, text)
  {
    st := st0;
    match tag {
      case AssetFieldTag(f) =>
        if st.inAsset {
          st := st.(asset := SetAssetField(st.asset, f, text));
        }
      case SidNameTag =>
        if st.inStigInfo {
          st := st.(sidName := text);
        }
      case SidDataTag =>
        if st.inStigInfo {
          st := st.(siData := st.siData[st.sidName := text]);
        }
      case VulnAttributeTag =>
        if st.inVuln {
          st := st.(vulnAttribute := text);
        }
      case AttributeDataTag =>
        if st.inVuln {
          st := st.(stigData := st.stigData[st.vulnAttribute := text]);
        }
      case VulnFieldTag(g) =>
        if st.inVuln && st.current.Some? {
          st := st.(current := Some(SetVulnField(st.current.value, g, text)));
        }
      case _ =>
    }
  }

  /** The second `match` of the end-tag arm: leave the block the tag closes. */
  method CloseBlockArm(st0: CklState, tag: Tag) returns (st: CklState)
    ensures st == CloseBlock(st0, tag)
  {
    st := st0;
    match tag {
      case AssetTag =>
        st := st.(inAsset := false);
      case StigInfoTag =>
        st := st.(inStigInfo := false, stigInfo := ProjectStigInfo(st.siData));
      case VulnTag =>
        if st.current.Some? {
          st := st.(vulns := st.vulns + [ProjectVuln(st.current.value, st.stigData)], current := None);
        }
        st := st.(inVuln := false);
      case _ =>
    }
  }

  /**
   * `parse_stig_checklist`, with the file's events in place of its path. The
   * loop's locals are the fields of `st`; each arm updates the ones the
   * source's arm assigns.
   */
  method ParseStigChecklist(evs: seq<Event>) returns (r: Result<StigChecklist, StigError>)
    ensures r == ParseChecklist(evs)
  {
    var st := InitialState();
    var i := 0;
    while i < |evs|
      invariant 0 <= i <= |evs|
      invariant Run(st, evs, i) == ParseChecklist(evs)
    {
      match evs[i] {
        case Start(name, _) =>
          st := OpenArm(st, TagOf(name));
          st := st.(text := "");
        case Text(raw) =>
          st := st.(text := st.text + Unescape(raw).GetOr(""));
        case End(name) =>
          var text := Trim(st.text);
          var tag := TagOf(name);
          st := StoreTextArm(st, tag, text);
          st := CloseBlockArm(st, tag);
          st := st.(text := "");
        case Eof =>
          break;
        case Malformed(detail) =>
          return Err(XmlParsing(detail));
        case _ =>
      }
      i := i + 1;
    }
    r := Ok(Finish(st));
  }

  /** A vulnerability as the parser completes it: trimmed text, `stig_id` equal to `rule_ver`, at most one non-empty CCI reference, and no empty override. */
  predicate CanonicalVuln(v: StigVulnerability) {
    && IsTrimmed(v.vulnNum) && IsTrimmed(v.severity) && IsTrimmed(v.groupTitle) && IsTrimmed(v.ruleId)
    && IsTrimmed(v.ruleVer) && IsTrimmed(v.ruleTitle) && IsTrimmed(v.vulnDiscuss)
    && IsTrimmed(v.checkContent) && IsTrimmed(v.fixText)
    && |v.cciRefs| <= 1 && (forall k :: 0 <= k < |v.cciRefs| ==> v.cciRefs[k] != [] && IsTrimmed(v.cciRefs[k]))
    && IsTrimmed(v.status) && IsTrimmed(v.findingDetails) && IsTrimmed(v.comments)
    && (v.severityOverride.Some? ==> v.severityOverride.value != [] && IsTrimmed(v.severityOverride.value))
    && (v.severityJustification.Some? ==> v.severityJustification.value != [] && IsTrimmed(v.severityJustification.value))
    && v.stigId == v.ruleVer
  }

  predicate CanonicalAsset(a: AssetInfo) {
    && IsTrimmed(a.role) && IsTrimmed(a.assetType) && IsTrimmed(a.marking) && IsTrimmed(a.hostName)
    && IsTrimmed(a.hostIp) && IsTrimmed(a.hostMac) && IsTrimmed(a.hostFqdn) && IsTrimmed(a.targetComment)
    && IsTrimmed(a.techArea) && IsTrimmed(a.targetKey) && IsTrimmed(a.webDbSite) && IsTrimmed(a.webDbInstance)
  }

  predicate CanonicalStigInfo(i: StigInfo) {
    && IsTrimmed(i.version) && IsTrimmed(i.classification) && IsTrimmed(i.customName) && IsTrimmed(i.stigId)
    && IsTrimmed(i.description) && IsTrimmed(i.fileName) && IsTrimmed(i.releaseInfo) && IsTrimmed(i.title)
    && IsTrimmed(i.uuid) && IsTrimmed(i.notice) && IsTrimmed(i.source)
  }

  /** A checklist as the parser returns it. */
  predicate CanonicalChecklist(c: StigChecklist) {
    && CanonicalAsset(c.asset)
    && CanonicalStigInfo(c.stigInfo)
    && forall k :: 0 <= k < |c.vulnerabilities| ==> CanonicalVuln(c.vulnerabilities[k])
  }

  predicate TrimmedValues(m: map<String, String>) {
    forall key :: key in m ==> IsTrimmed(m[key])
  }

  /** The vulnerability of an open VULN block: its directly stored fields are canonical and it has no CCI reference yet. */
  predicate InProgress(v: StigVulnerability) {
    && v.cciRefs == []
    && IsTrimmed(v.status) && IsTrimmed(v.findingDetails) && IsTrimmed(v.comments)
    && (v.severityOverride.Some? ==> v.severityOverride.value != [] && IsTrimmed(v.severityOverride.value))
    && (v.severityJustification.Some? ==> v.severityJustification.value != [] && IsTrimmed(v.severityJustification.value))
  }

  /** What holds of the loop's state between any two events. */
  predicate StateInvariant(st: CklState) {
    && CanonicalAsset(st.asset)
    && CanonicalStigInfo(st.stigInfo)
    && (forall k :: 0 <= k < |st.vulns| ==> CanonicalVuln(st.vulns[k]))
    && TrimmedValues(st.stigData)
    && TrimmedValues(st.siData)
    && (st.current.Some? ==> InProgress(st.current.value))
  }

  lemma SetAssetFieldKeepsCanonical(a: AssetInfo, f: AssetField, t: String)
    requires CanonicalAsset(a) && IsTrimmed(t)
    ensures CanonicalAsset(SetAssetField(a, f, t))
  {
    match f
    case Role =>
    case AssetType =>
    case Marking =>
    case HostName =>
    case HostIp =>
    case HostMac =>
    case HostFqdn =>
    case TargetComment =>
    case TechArea =>
    case TargetKey =>
    case WebOrDatabase =>
    case WebDbSite =>
    case WebDbInstance =>
  }

  lemma SetVulnFieldKeepsInProgress(v: StigVulnerability, g: VulnField, t: String)
    requires InProgress(v) && IsTrimmed(t)
    ensures InProgress(SetVulnField(v, g, t))
  {
    match g
    case Status =>
    case FindingDetails =>
    case Comments =>
    case SeverityOverride =>
    case SeverityJustification =>
  }

  lemma StoreTextKeepsInvariant(st: CklState, tag: Tag, t: String)
    requires StateInvariant(st) && IsTrimmed(t)
    ensures StateInvariant(StoreText(st, tag, t))
  {
    match tag
    case AssetFieldTag(f) =>
      if st.inAsset {
        SetAssetFieldKeepsCanonical(st.asset, f, t);
      }
    case VulnFieldTag(g) =>
      if st.inVuln && st.current.Some? {
        SetVulnFieldKeepsInProgress(st.current.value, g, t);
      }
    case SidDataTag =>
    case AttributeDataTag =>
    case _ =>
  }

  /** Storing text completes no vulnerability and neither opens nor drops one. */
  lemma StoreTextKeepsVulns(st: CklState, tag: Tag, t: String)
    ensures StoreText(st, tag, t).vulns == st.vulns
    ensures StoreText(st, tag, t).current.Some? == st.current.Some?
  {
    match tag
    case AssetFieldTag(f) =>
    case VulnFieldTag(g) =>
    case _ =>
  }

  lemma CloseBlockKeepsInvariant(st: CklState, tag: Tag)
    requires StateInvariant(st)
    ensures StateInvariant(CloseBlock(st, tag))
  {
    if tag.VulnTag? && st.current.Some? {
      var v := ProjectVuln(st.current.value, st.stigData);
      assert CanonicalVuln(v);
    }
  }

  lemma OpenKeepsInvariant(st: CklState, tag: Tag)
    requires StateInvariant(st)
    ensures StateInvariant(Open(st, tag))
  {
  }

  lemma StepKeepsInvariant(st: CklState, ev: Event)
    requires StateInvariant(st)
    ensures StateInvariant(Step(st, ev))
  {
    match ev
    case Start(name, _) =>
      OpenKeepsInvariant(st, TagOf(name));
    case End(name) =>
      var tag := TagOf(name);
      TrimIsTrimmed(st.text);
      StoreTextKeepsInvariant(st, tag, Trim(st.text));
      CloseBlockKeepsInvariant(StoreText(st, tag, Trim(st.text)), tag);
    case _ =>
  }

  lemma {:induction false} RunKeepsInvariant(st: CklState, evs: seq<Event>, i: nat)
    requires i <= |evs| && StateInvariant(st)
    ensures Run(st, evs, i).Ok? ==> CanonicalChecklist(Run(st, evs, i).value)
    decreases |evs| - i
  {
    if i < |evs| && !evs[i].Eof? && !evs[i].Malformed? {
      StepKeepsInvariant(st, evs[i]);
      RunKeepsInvariant(Step(st, evs[i]), evs, i + 1);
    }
  }

  /**
   * Every checklist the parser returns is canonical: all its text trimmed,
   * each vulnerability's `stig_id` equal to its `rule_ver`, at most one CCI
   * reference per vulnerability, and no empty override or justification.
   */
  lemma ParsedChecklistIsCanonical(evs: seq<Event>)
    ensures ParseChecklist(evs).Ok? ==> CanonicalChecklist(ParseChecklist(evs).value)
  {
    RunKeepsInvariant(InitialState(), evs, 0);
  }

  lemma {:induction false} RunFails(st: CklState, evs: seq<Event>, i: nat)
    requires i <= |evs|
    ensures Run(st, evs, i).Err? <==> exists j :: i <= j < |evs| && evs[j].Malformed? && NoStopBetween(evs, i, j)
    ensures Run(st, evs, i).Err? ==> exists j :: i <= j < |evs| && evs[j].Malformed? && Run(st, evs, i).error == XmlParsing(evs[j].detail)
    decreases |evs| - i
  {
    if i < |evs| && !evs[i].Eof? && !evs[i].Malformed? {
      RunFails(Step(st, evs[i]), evs, i + 1);
      if Run(st, evs, i).Err? {
        var j :| i + 1 <= j < |evs| && evs[j].Malformed? && NoStopBetween(evs, i + 1, j);
        assert NoStopBetween(evs, i, j);
      } else {
        assert forall j :: i < j <= |evs| && NoStopBetween(evs, i, j) ==> NoStopBetween(evs, i + 1, j);
      }
    } else if i < |evs| && evs[i].Malformed? {
      assert NoStopBetween(evs, i, i);
    } else if i < |evs| {
      assert IsTerminal(evs[i]);
    }
  }

  /**
   * Parsing fails exactly when a tokenizer error comes before the first
   * `Eof`, and the error carries that tokenizer error's detail.
   */
  lemma ParseFails(evs: seq<Event>)
    ensures ParseChecklist(evs).Err? <==> exists j :: 0 <= j < |evs| && evs[j].Malformed? && NoStopBetween(evs, 0, j)
    ensures ParseChecklist(evs).Err? ==> exists j :: 0 <= j < |evs| && evs[j].Malformed? && ParseChecklist(evs).error == XmlParsing(evs[j].detail)
  {
    RunFails(InitialState(), evs, 0);
  }

  /** Vulnerabilities completed or in progress. */
  function Pending(st: CklState): nat {
    |st.vulns| + (if st.current.Some? then 1 else 0)
  }

  lemma CloseBlockAppends(st: CklState, tag: Tag)
    ensures st.vulns <= CloseBlock(st, tag).vulns
    ensures Pending(CloseBlock(st, tag)) <= Pending(st)
  {
  }

  lemma StepOnlyAppends(st: CklState, ev: Event)
    ensures st.vulns <= Step(st, ev).vulns
  {
    if ev.End? {
      StoreTextKeepsVulns(st, TagOf(ev.name), Trim(st.text));
      CloseBlockAppends(StoreText(st, TagOf(ev.name), Trim(st.text)), TagOf(ev.name));
    }
  }

  lemma {:induction false} RunOnlyAppends(st: CklState, evs: seq<Event>, i: nat)
    requires i <= |evs|
    ensures Run(st, evs, i).Ok? ==> st.vulns <= Run(st, evs, i).value.vulnerabilities
    decreases |evs| - i
  {
    if i < |evs| && !evs[i].Eof? && !evs[i].Malformed? {
      StepOnlyAppends(st, evs[i]);
      RunOnlyAppends(Step(st, evs[i]), evs, i + 1);
    }
  }

  lemma {:induction false} StepsAppend(st: CklState, a: seq<Event>, b: seq<Event>)
    ensures Steps(st, a + b) == Steps(Steps(st, a), b)
    decreases |a|
  {
    if a == [] {
      assert a + b == b;
    } else {
      assert (a + b)[1..] == a[1..] + b;
      StepsAppend(Step(st, a[0]), a[1..], b);
    }
  }

  /** The loop runs through events that do not stop it one `Step` at a time. */
  lemma {:induction false} RunThrough(st: CklState, evs: seq<Event>, i: nat, j: nat)
    requires i <= j <= |evs| && NoStopBetween(evs, i, j)
    ensures Run(st, evs, i) == Run(Steps(st, evs[i..j]), evs, j)
    decreases j - i
  {
    if i < j {
      assert evs[i..j][0] == evs[i] && evs[i..j][1..] == evs[i + 1..j];
      RunThrough(Step(st, evs[i]), evs, i + 1, j);
    }
  }

  /** A document none of whose events stops the loop parses to the state after all of them. */
  lemma ParseAll(evs: seq<Event>)
    requires NoTerminal(evs)
    ensures ParseChecklist(evs) == Ok(Finish(Steps(InitialState(), evs)))
  {
    RunThrough(InitialState(), evs, 0, |evs|);
    assert evs[0..|evs|] == evs;
  }

  /**
   * Vulnerabilities already completed are never changed or dropped: what the
   * events `evs` yield leads what any continuation of them yields.
   */
  lemma ParsedPrefixKept(evs: seq<Event>, more: seq<Event>)
    requires NoTerminal(evs)
    ensures ParseChecklist(evs).Ok?
    ensures ParseChecklist(evs + more).Ok? ==>
      ParseChecklist(evs).value.vulnerabilities <= ParseChecklist(evs + more).value.vulnerabilities
  {
    ParseAll(evs);
    var all := evs + more;
    assert NoStopBetween(all, 0, |evs|) by {
      forall k | 0 <= k < |evs| ensures !IsTerminal(all[k]) {
        assert all[k] == evs[k];
      }
    }
    RunThrough(InitialState(), all, 0, |evs|);
    assert all[0..|evs|] == evs;
    RunOnlyAppends(Steps(InitialState(), evs), all, |evs|);
  }

  /** Number of `<name>` start tags among `evs[i..]`. */
  function CountStarts(evs: seq<Event>, i: nat, name: String): nat
    requires i <= |evs|
    decreases |evs| - i
  {
    if i == |evs| then 0
    else (if evs[i].Start? && evs[i].name == name then 1 else 0) + CountStarts(evs, i + 1, name)
  }

  lemma TagOfVuln(name: String)
    ensures TagOf(name) == VulnTag <==> name == "VULN"
  {
  }

  lemma StepPending(st: CklState, ev: Event)
    ensures Pending(Step(st, ev)) <= Pending(st) + (if ev.Start? && ev.name == "VULN" then 1 else 0)
  {
    match ev
    case Start(name, _) =>
      TagOfVuln(name);
    case End(name) =>
      StoreTextKeepsVulns(st, TagOf(name), Trim(st.text));
      CloseBlockAppends(StoreText(st, TagOf(name), Trim(st.text)), TagOf(name));
    case _ =>
  }

  lemma {:induction false} RunVulnCount(st: CklState, evs: seq<Event>, i: nat)
    requires i <= |evs|
    ensures Run(st, evs, i).Ok? ==> |Run(st, evs, i).value.vulnerabilities| <= Pending(st) + CountStarts(evs, i, "VULN")
    decreases |evs| - i
  {
    if i < |evs| && !evs[i].Eof? && !evs[i].Malformed? {
      StepPending(st, evs[i]);
      RunVulnCount(Step(st, evs[i]), evs, i + 1);
    }
  }

  /** At most one vulnerability per `<VULN>` start tag: a `</VULN>` without an open block adds nothing. */
  lemma ParsedVulnCount(evs: seq<Event>)
    ensures ParseChecklist(evs).Ok? ==> |ParseChecklist(evs).value.vulnerabilities| <= CountStarts(evs, 0, "VULN")
  {
    RunVulnCount(InitialState(), evs, 0);
  }

  /** A `<VULN>` or `</VULN>` tag. */
  predicate VulnTagEvent(e: Event) {
    (e.Start? && e.name == "VULN") || (e.End? && e.name == "VULN")
  }

  predicate NoVulnTags(evs: seq<Event>) {
    forall k :: 0 <= k < |evs| ==> !VulnTagEvent(evs[k])
  }

  /** One VULN element: a start tag, children that hold no VULN tag, and the end tag. */
  predicate VulnElement(b: seq<Event>) {
    && |b| >= 2 && b[0].Start? && b[0].name == "VULN" && b[|b| - 1] == End("VULN")
    && NoVulnTags(b[1..|b| - 1])
  }

  /** A piece of a document in which VULN elements do not nest: one VULN element, or events outside any. */
  predicate Segment(b: seq<Event>) {
    VulnElement(b) || NoVulnTags(b)
  }

  function ElementCount(segs: seq<seq<Event>>): nat {
    if segs == [] then 0 else (if VulnElement(segs[0]) then 1 else 0) + ElementCount(segs[1..])
  }

  /** One event that is not a VULN tag keeps the parsed vulnerabilities and the open record. */
  lemma StepNoVulnTag(st: CklState, e: Event)
    requires !VulnTagEvent(e)
    ensures Step(st, e).vulns == st.vulns
    ensures st.current.Some? ==> Step(st, e).current.Some?
  {
    match e
    case Start(name, _) =>
      TagOfVuln(name);
    case End(name) =>
      TagOfVuln(name);
      StoreTextKeepsVulns(st, TagOf(name), Trim(st.text));
    case _ =>
  }

  /** Events with no VULN tag neither complete a vulnerability nor drop the open one. */
  lemma {:induction false} StepsNoVulnTags(st: CklState, evs: seq<Event>)
    requires NoVulnTags(evs)
    ensures Steps(st, evs).vulns == st.vulns
    ensures st.current.Some? ==> Steps(st, evs).current.Some?
    decreases |evs|
  {
    if evs != [] {
      StepNoVulnTag(st, evs[0]);
      assert NoVulnTags(evs[1..]) by {
        forall k | 0 <= k < |evs[1..]| ensures !VulnTagEvent(evs[1..][k]) {
          assert evs[1..][k] == evs[k + 1];
        }
      }
      StepsNoVulnTags(Step(st, evs[0]), evs[1..]);
    }
  }

  /** The events of a block, taken as its first event, its middle and its last event. */
  lemma BlockSteps(st: CklState, b: seq<Event>)
    requires |b| >= 2
    ensures Steps(st, b) == Step(Steps(Step(st, b[0]), b[1..|b| - 1]), b[|b| - 1])
  {
    var first := [b[0]];
    var mid := b[1..|b| - 1];
    var last := [b[|b| - 1]];
    assert b == first + mid + last;
    StepsAppend(st, first + mid, last);
    StepsAppend(st, first, mid);
    assert first[1..] == [] && last[1..] == [];
  }

  /**
   * Every VULN element, whatever its children, appends exactly one
   * vulnerability: the record the block built, completed from its
   * STIG_DATA pairs.
   */
  lemma StepsVulnElement(st: CklState, b: seq<Event>)
    requires VulnElement(b)
    ensures var inner := Steps(Step(st, b[0]), b[1..|b| - 1]);
      && inner.current.Some?
      && Steps(st, b).vulns == st.vulns + [ProjectVuln(inner.current.value, inner.stigData)]
      && Steps(st, b).current.None?
  {
    BlockSteps(st, b);
    TagOfVuln(b[0].name);
    StepsNoVulnTags(Step(st, b[0]), b[1..|b| - 1]);
    TagOfVuln("VULN");
  }

  /** A document cut into segments has one vulnerability per VULN element, after those already parsed. */
  lemma {:induction false} StepsSegments(st: CklState, segs: seq<seq<Event>>)
    requires forall i :: 0 <= i < |segs| ==> Segment(segs[i])
    ensures |Steps(st, Flatten(segs)).vulns| == |st.vulns| + ElementCount(segs)
    ensures st.vulns <= Steps(st, Flatten(segs)).vulns
    decreases |segs|
  {
    if segs != [] {
      StepsAppend(st, segs[0], Flatten(segs[1..]));
      var st1 := Steps(st, segs[0]);
      if VulnElement(segs[0]) {
        StepsVulnElement(st, segs[0]);
      } else {
        StepsNoVulnTags(st, segs[0]);
      }
      assert |st1.vulns| == |st.vulns| + (if VulnElement(segs[0]) then 1 else 0) && st.vulns <= st1.vulns;
      StepsSegments(st1, segs[1..]);
    }
  }

  lemma {:induction false} CountStartsNone(evs: seq<Event>, i: nat)
    requires i <= |evs|
    requires forall k :: i <= k < |evs| ==> !(evs[k].Start? && evs[k].name == "VULN")
    ensures CountStarts(evs, i, "VULN") == 0
    decreases |evs| - i
  {
    if i < |evs| {
      CountStartsNone(evs, i + 1);
    }
  }

  lemma {:induction false} CountStartsAppend(a: seq<Event>, b: seq<Event>, i: nat)
    requires i <= |a|
    ensures CountStarts(a + b, i, "VULN") == CountStarts(a, i, "VULN") + CountStarts(b, 0, "VULN")
    decreases |a| - i
  {
    if i < |a| {
      CountStartsAppend(a, b, i + 1);
    } else {
      CountStartsShift(a, b, 0);
    }
  }

  lemma {:induction false} CountStartsShift(a: seq<Event>, b: seq<Event>, j: nat)
    requires j <= |b|
    ensures CountStarts(a + b, |a| + j, "VULN") == CountStarts(b, j, "VULN")
    decreases |b| - j
  {
    if j < |b| {
      assert (a + b)[|a| + j] == b[j];
      CountStartsShift(a, b, j + 1);
    }
  }

  /** A segment holds one VULN start tag when it is a VULN element and none otherwise. */
  lemma SegmentStarts(b: seq<Event>)
    requires Segment(b)
    ensures CountStarts(b, 0, "VULN") == if VulnElement(b) then 1 else 0
  {
    if VulnElement(b) {
      forall k | 1 <= k < |b| ensures !(b[k].Start? && b[k].name == "VULN") {
        if k < |b| - 1 {
          assert b[1..|b| - 1][k - 1] == b[k];
        }
      }
      CountStartsNone(b, 1);
    } else {
      CountStartsNone(b, 0);
    }
  }

  lemma {:induction false} FlattenStarts(segs: seq<seq<Event>>)
    requires forall i :: 0 <= i < |segs| ==> Segment(segs[i])
    ensures CountStarts(Flatten(segs), 0, "VULN") == ElementCount(segs)
    decreases |segs|
  {
    if segs == [] {
    } else {
      CountStartsAppend(segs[0], Flatten(segs[1..]), 0);
      SegmentStarts(segs[0]);
      FlattenStarts(segs[1..]);
    }
  }

  /**
   * In a document where VULN elements do not nest, there is exactly one
   * vulnerability per VULN element, that is per `<VULN>` start tag.
   */
  lemma ParsedVulnElements(segs: seq<seq<Event>>)
    requires forall i :: 0 <= i < |segs| ==> Segment(segs[i])
    requires NoTerminal(Flatten(segs))
    ensures ParseChecklist(Flatten(segs)).Ok?
    ensures |ParseChecklist(Flatten(segs)).value.vulnerabilities| == ElementCount(segs)
    ensures |ParseChecklist(Flatten(segs)).value.vulnerabilities| == CountStarts(Flatten(segs), 0, "VULN")
  {
    ParseAll(Flatten(segs));
    StepsSegments(InitialState(), segs);
    FlattenStarts(segs);
  }

  /**
   * A VULN block without any STIG_DATA still yields a vulnerability: every
   * rule field, `stig_id` included, defaults to the empty string, with no CCI
   * reference and no override.
   */
  lemma EmptyVulnBlock(st: CklState)
    ensures var st' := Step(Step(st, Start("VULN", [])), End("VULN"));
      st'.vulns == st.vulns + [NewVulnerability()] && st'.current.None? && !st'.inVuln
  {
    var st1 := Step(st, Start("VULN", []));
    assert TagOf("VULN") == VulnTag;
    assert st1.current == Some(NewVulnerability()) && st1.stigData == map[];
    assert ProjectVuln(NewVulnerability(), map[]) == NewVulnerability();
  }

  /**
   * Unlike VULN, a STIG_INFO start tag does not clear the pairs collected so
   * far: an empty STIG_INFO block read after an earlier one reports the
   * earlier block's STIG information, and the earlier pairs stay.
   */
  lemma StigInfoKeepsEarlierPairs(st: CklState)
    ensures var st' := Step(Step(st, Start("STIG_INFO", [])), End("STIG_INFO"));
      st'.siData == st.siData && st'.stigInfo == ProjectStigInfo(st.siData)
  {
    assert TagOf("STIG_INFO") == StigInfoTag;
  }
}
