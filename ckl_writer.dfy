/**
 * `generate_ckl_xml` and `add_stig_data`: the DISA STIG Viewer checklist a
 * `StigChecklist` is written as. The text the source appends to its buffer
 * is modelled by the events a tokenizer reads back from it; the layout's
 * indentation and line breaks are whitespace-only text, which the tokenizer
 * drops, so they have no event.
 */
module CklWriter {
  import opened Wrappers
  import opened Strings
  import opened XmlEscape
  import opened XmlEvents
  import opened StigTypes

  /** The comment the checklist opens with. */
  const VIEWER_COMMENT: String := "DISA STIG Viewer :: 2.18"

  /** Element content, already escaped: empty content reads back as no text event at all. */
  function TextEvents(raw: String): seq<Event> {
    if raw == [] then [] else [Text(raw)]
  }

  /** `<name>raw</name>`, with `raw` written as it is. */
  function RawElement(name: String, raw: String): seq<Event> {
    [Start(name, [])] + TextEvents(raw) + [End(name)]
  }

  /** `<name>{escape_xml(value)}</name>` */
  function Element(name: String, value: String): seq<Event> {
    RawElement(name, Escape(value))
  }

  /** How `format!` writes a `bool`. */
  function BoolText(b: bool): String {
    if b then "true" else "false"
  }

  /** What `add_stig_data` appends: one attribute/value pair, both escaped. */
  function StigData(attribute: String, value: String): seq<Event> {
    [Start("STIG_DATA", [])] + Element("VULN_ATTRIBUTE", attribute) + Element("ATTRIBUTE_DATA", value) + [End("STIG_DATA")]
  }

  /** One SI_DATA pair of STIG_INFO: the name is written as it is, the value escaped. */
  function SiData(name: String, value: String): seq<Event> {
    [Start("SI_DATA", [])] + RawElement("SID_NAME", name) + Element("SID_DATA", value) + [End("SI_DATA")]
  }

  /** The declaration, the viewer comment and `<CHECKLIST>`, appended to `xml`. */
  function WriteHeader(xml: seq<Event>): seq<Event> {
    xml + [Decl] + [Comment(VIEWER_COMMENT)] + [Start("CHECKLIST", [])]
  }

  /** The ASSET block appended to `xml`: every field escaped except WEB_OR_DATABASE, written as a `bool`. */
  function WriteAsset(xml: seq<Event>, a: AssetInfo): seq<Event> {
    xml + [Start("ASSET", [])]
    + Element("ROLE", a.role)
    + Element("ASSET_TYPE", a.assetType)
    + Element("MARKING", a.marking)
    + Element("HOST_NAME", a.hostName)
    + Element("HOST_IP", a.hostIp)
    + Element("HOST_MAC", a.hostMac)
    + Element("HOST_FQDN", a.hostFqdn)
    + Element("TARGET_COMMENT", a.targetComment)
    + Element("TECH_AREA", a.techArea)
    + Element("TARGET_KEY", a.targetKey)
    + RawElement("WEB_OR_DATABASE", BoolText(a.webOrDatabase))
    + Element("WEB_DB_SITE", a.webDbSite)
    + Element("WEB_DB_INSTANCE", a.webDbInstance)
    + [End("ASSET")]
  }

  /** `<STIGS><iSTIG>` and the STIG_INFO block appended to `xml`: one SI_DATA pair per field. */
  function WriteStigInfo(xml: seq<Event>, i: StigInfo): seq<Event> {
    xml + [Start("STIGS", [])] + [Start("iSTIG", [])] + [Start("STIG_INFO", [])]
    + SiData("version", i.version)
    + SiData("classification", i.classification)
    + SiData("customname", i.customName)
    + SiData("stigid", i.stigId)
    + SiData("description", i.description)
    + SiData("filename", i.fileName)
    + SiData("releaseinfo", i.releaseInfo)
    + SiData("title", i.title)
    + SiData("uuid", i.uuid)
    + SiData("notice", i.notice)
    + SiData("source", i.source)
    + [End("STIG_INFO")]
  }

  /** The STIGRef entry: the STIG's title and release, `"{} :: {}"`. */
  function StigRef(i: StigInfo): String {
    i.title + " :: " + i.releaseInfo
  }

  /** The STIG_DATA entries of a VULN block, as attribute/value pairs, built up in the order they are written. */
  datatype Entries = NoEntries | Then(init: Entries, attribute: String, value: String) {
    function Add(attribute: String, value: String): Entries {
      Then(this, attribute, value)
    }

    function Length(): nat {
      match this
      case NoEntries => 0
      case Then(init, _, _) => init.Length() + 1
    }
  }

  /** The 26 entries every VULN block starts with. */
  function FixedEntries(v: StigVulnerability, c: StigChecklist): Entries {
    NoEntries
    .Add("Vuln_Num", v.vulnNum)
    .Add("Severity", v.severity)
    .Add("Group_Title", v.groupTitle)
    .Add("Rule_ID", v.ruleId)
    .Add("Rule_Ver", v.ruleVer)
    .Add("Rule_Title", v.ruleTitle)
    .Add("Vuln_Discuss", v.vulnDiscuss)
    .Add("IA_Controls", "")
    .Add("Check_Content", v.checkContent)
    .Add("Fix_Text", v.fixText)
    .Add("False_Positives", "")
    .Add("False_Negatives", "")
    .Add("Documentable", "false")
    .Add("Mitigations", "")
    .Add("Potential_Impact", "")
    .Add("Third_Party_Tools", "")
    .Add("Mitigation_Control", "")
    .Add("Responsibility", "")
    .Add("Security_Override_Guidance", "")
    .Add("Check_Content_Ref", "M")
    .Add("Weight", "10.0")
    .Add("Class", "Unclass")
    .Add("STIGRef", StigRef(c.stigInfo))
    .Add("TargetKey", c.asset.targetKey)
    .Add("STIG_UUID", "")
    .Add("LEGACY_ID", "")
  }

  /** `es` followed by one CCI_REF entry per reference, in order. */
  function AddCciRefs(es: Entries, refs: seq<String>): Entries {
    if refs == [] then es else AddCciRefs(es, refs[..|refs| - 1]).Add("CCI_REF", refs[|refs| - 1])
  }

  /** Every STIG_DATA entry of the VULN block of `v`. */
  function VulnEntries(v: StigVulnerability, c: StigChecklist): Entries {
    AddCciRefs(FixedEntries(v, c), v.cciRefs)
  }

  /** The STIG_DATA pairs of `es`, in order, appended to `xml`. */
  function WriteEntries(xml: seq<Event>, es: Entries): seq<Event> {
    match es
    case NoEntries => xml
    case Then(init, attribute, value) => WriteEntries(xml, init) + StigData(attribute, value)
  }

  /** The review fields and `</VULN>` appended to `xml`; an absent override or justification is written empty. */
  function WriteReview(xml: seq<Event>, v: StigVulnerability): seq<Event> {
    xml
    + Element("STATUS", v.status)
    + Element("FINDING_DETAILS", v.findingDetails)
    + Element("COMMENTS", v.comments)
    + Element("SEVERITY_OVERRIDE", v.severityOverride.GetOr(""))
    + Element("SEVERITY_JUSTIFICATION", v.severityJustification.GetOr(""))
    + [End("VULN")]
  }

  /** The VULN block of `v` appended to `xml`. */
  function WriteVuln(xml: seq<Event>, v: StigVulnerability, c: StigChecklist): seq<Event> {
    WriteReview(WriteEntries(xml + [Start("VULN", [])], VulnEntries(v, c)), v)
  }

  /** One VULN block per vulnerability of `vs`, in order, appended to `xml`. */
  function WriteVulns(xml: seq<Event>, vs: seq<StigVulnerability>, c: StigChecklist): seq<Event> {
    if vs == [] then xml else WriteVuln(WriteVulns(xml, vs[..|vs| - 1], c), vs[|vs| - 1], c)
  }

  /** The closing tags appended to `xml`. */
  function WriteFooter(xml: seq<Event>): seq<Event> {
    xml + [End("iSTIG")] + [End("STIGS")] + [End("CHECKLIST")]
  }

  /** Everything `generate_ckl_xml` writes for the checklist `c`. */
  function CklEvents(c: StigChecklist): seq<Event> {
    WriteFooter(WriteVulns(WriteStigInfo(WriteAsset(WriteHeader([]), c.asset), c.stigInfo), c.vulnerabilities, c))
  }

  lemma AddCciRefsPrefix(es: Entries, refs: seq<String>, j: nat)
    requires j < |refs|
    ensures AddCciRefs(es, refs[..j + 1]) == AddCciRefs(es, refs[..j]).Add("CCI_REF", refs[j])
  {
    assert refs[..j + 1][..j] == refs[..j];
  }

  lemma AddCciRefsAll(es: Entries, refs: seq<String>)
    ensures AddCciRefs(es, refs[..|refs|]) == AddCciRefs(es, refs)
  {
    assert refs[..|refs|] == refs;
  }

  lemma WriteVulnsPrefix(xml: seq<Event>, vs: seq<StigVulnerability>, k: nat, c: StigChecklist)
    requires k < |vs|
    ensures WriteVulns(xml, vs[..k + 1], c) == WriteVuln(WriteVulns(xml, vs[..k], c), vs[k], c)
  {
    assert vs[..k + 1][..k] == vs[..k];
  }

  lemma WriteVulnsAll(xml: seq<Event>, vs: seq<StigVulnerability>, c: StigChecklist)
    ensures WriteVulns(xml, vs[..|vs|], c) == WriteVulns(xml, vs, c)
  {
    assert vs[..|vs|] == vs;
  }

  /**
   * `add_stig_data(&mut xml, attribute, value)`: appends one STIG_DATA pair.
   * The ghost `start` and `written` say how the buffer was built: `written`
   * lists the pairs appended to `start` so far.
   */
  method AddStigData(xml: seq<Event>, attribute: String, value: String, ghost start: seq<Event>, ghost written: Entries)
    returns (out: seq<Event>)
    requires xml == WriteEntries(start, written)
    ensures out == WriteEntries(start, written.Add(attribute, value))
  {
    out := xml + [Start("STIG_DATA", [])];
    out := out + Element("VULN_ATTRIBUTE", attribute);
    out := out + Element("ATTRIBUTE_DATA", value);
    out := out + [End("STIG_DATA")];
  }

  /** The body of the loop over the vulnerabilities in `generate_ckl_xml`: one VULN block appended to `xml`. */
  method AddVuln(xml: seq<Event>, v: StigVulnerability, c: StigChecklist) returns (out: seq<Event>)
    ensures out == WriteVuln(xml, v, c)
  {
    var a, si := c.asset, c.stigInfo;
    out := xml + [Start("VULN", [])];
    ghost var start, written := out, NoEntries;
    out := AddStigData(out, "Vuln_Num", v.vulnNum, start, written);
    written := written.Add("Vuln_Num", v.vulnNum);
    out := AddStigData(out, "Severity", v.severity, start, written);
    written := written.Add("Severity", v.severity);
    out := AddStigData(out, "Group_Title", v.groupTitle, start, written);
    written := written.Add("Group_Title", v.groupTitle);
    out := AddStigData(out, "Rule_ID", v.ruleId, start, written);
    written := written.Add("Rule_ID", v.ruleId);
    out := AddStigData(out, "Rule_Ver", v.ruleVer, start, written);
    written := written.Add("Rule_Ver", v.ruleVer);
    out := AddStigData(out, "Rule_Title", v.ruleTitle, start, written);
    written := written.Add("Rule_Title", v.ruleTitle);
    out := AddStigData(out, "Vuln_Discuss", v.vulnDiscuss, start, written);
    written := written.Add("Vuln_Discuss", v.vulnDiscuss);
    out := AddStigData(out, "IA_Controls", "", start, written);
    written := written.Add("IA_Controls", "");
    out := AddStigData(out, "Check_Content", v.checkContent, start, written);
    written := written.Add("Check_Content", v.checkContent);
    out := AddStigData(out, "Fix_Text", v.fixText, start, written);
    written := written.Add("Fix_Text", v.fixText);
    out := AddStigData(out, "False_Positives", "", start, written);
    written := written.Add("False_Positives", "");
    out := AddStigData(out, "False_Negatives", "", start, written);
    written := written.Add("False_Negatives", "");
    out := AddStigData(out, "Documentable", "false", start, written);
    written := written.Add("Documentable", "false");
    out := AddStigData(out, "Mitigations", "", start, written);
    written := written.Add("Mitigations", "");
    out := AddStigData(out, "Potential_Impact", "", start, written);
    written := written.Add("Potential_Impact", "");
    out := AddStigData(out, "Third_Party_Tools", "", start, written);
    written := written.Add("Third_Party_Tools", "");
    out := AddStigData(out, "Mitigation_Control", "", start, written);
    written := written.Add("Mitigation_Control", "");
    out := AddStigData(out, "Responsibility", "", start, written);
    written := written.Add("Responsibility", "");
    out := AddStigData(out, "Security_Override_Guidance", "", start, written);
    written := written.Add("Security_Override_Guidance", "");
    out := AddStigData(out, "Check_Content_Ref", "M", start, written);
    written := written.Add("Check_Content_Ref", "M");
    out := AddStigData(out, "Weight", "10.0", start, written);
    written := written.Add("Weight", "10.0");
    out := AddStigData(out, "Class", "Unclass", start, written);
    written := written.Add("Class", "Unclass");
    out := AddStigData(out, "STIGRef", si.title + " :: " + si.releaseInfo, start, written);
    written := written.Add("STIGRef", StigRef(si));
    out := AddStigData(out, "TargetKey", a.targetKey, start, written);
    written := written.Add("TargetKey", a.targetKey);
    out := AddStigData(out, "STIG_UUID", "", start, written);
    written := written.Add("STIG_UUID", "");
    out := AddStigData(out, "LEGACY_ID", "", start, written);
    written := written.Add("LEGACY_ID", "");

    ghost var fixed := written;
    assert fixed == FixedEntries(v, c);
    var refs := v.cciRefs;
    var j := 0;
    while j < |refs|
      invariant 0 <= j <= |refs|
      invariant out == WriteEntries(start, AddCciRefs(fixed, refs[..j]))
    {
      AddCciRefsPrefix(fixed, refs, j);
      out := AddStigData(out, "CCI_REF", refs[j], start, AddCciRefs(fixed, refs[..j]));
      j := j + 1;
    }
    AddCciRefsAll(fixed, refs);

    out := out + Element("STATUS", v.status);
    out := out + Element("FINDING_DETAILS", v.findingDetails);
    out := out + Element("COMMENTS", v.comments);
    out := out + Element("SEVERITY_OVERRIDE", v.severityOverride.GetOr(""));
    out := out + Element("SEVERITY_JUSTIFICATION", v.severityJustification.GetOr(""));
    out := out + [End("VULN")];
  }

  /** The loop over the vulnerabilities in `generate_ckl_xml`: one VULN block each, in order, appended to `xml`. */
  method AddVulns(xml: seq<Event>, c: StigChecklist) returns (out: seq<Event>)
    ensures out == WriteVulns(xml, c.vulnerabilities, c)
  {
    out := xml;
    var vs := c.vulnerabilities;
    var k := 0;
    while k < |vs|
      invariant 0 <= k <= |vs|
      invariant out == WriteVulns(xml, vs[..k], c)
    {
      WriteVulnsPrefix(xml, vs, k, c);
      out := AddVuln(out, vs[k], c);
      k := k + 1;
    }
    WriteVulnsAll(xml, vs, c);
  }

  /** `generate_ckl_xml`: writes the header, ASSET, STIG_INFO, one VULN block per vulnerability and the closing tags. */
  method GenerateCklXml(c: StigChecklist) returns (r: Result<seq<Event>, StigError>)
    ensures r == Ok(CklEvents(c))
  {
    var xml: seq<Event> := [];
    xml := xml + [Decl];
    xml := xml + [Comment(VIEWER_COMMENT)];
    xml := xml + [Start("CHECKLIST", [])];

    var a := c.asset;
    xml := xml + [Start("ASSET", [])];
    xml := xml + Element("ROLE", a.role);
    xml := xml + Element("ASSET_TYPE", a.assetType);
    xml := xml + Element("MARKING", a.marking);
    xml := xml + Element("HOST_NAME", a.hostName);
    xml := xml + Element("HOST_IP", a.hostIp);
    xml := xml + Element("HOST_MAC", a.hostMac);
    xml := xml + Element("HOST_FQDN", a.hostFqdn);
    xml := xml + Element("TARGET_COMMENT", a.targetComment);
    xml := xml + Element("TECH_AREA", a.techArea);
    xml := xml + Element("TARGET_KEY", a.targetKey);
    xml := xml + RawElement("WEB_OR_DATABASE", BoolText(a.webOrDatabase));
    xml := xml + Element("WEB_DB_SITE", a.webDbSite);
    xml := xml + Element("WEB_DB_INSTANCE", a.webDbInstance);
    xml := xml + [End("ASSET")];

    var si := c.stigInfo;
    xml := xml + [Start("STIGS", [])];
    xml := xml + [Start("iSTIG", [])];
    xml := xml + [Start("STIG_INFO", [])];
    xml := xml + SiData("version", si.version);
    xml := xml + SiData("classification", si.classification);
    xml := xml + SiData("customname", si.customName);
    xml := xml + SiData("stigid", si.stigId);
    xml := xml + SiData("description", si.description);
    xml := xml + SiData("filename", si.fileName);
    xml := xml + SiData("releaseinfo", si.releaseInfo);
    xml := xml + SiData("title", si.title);
    xml := xml + SiData("uuid", si.uuid);
    xml := xml + SiData("notice", si.notice);
    xml := xml + SiData("source", si.source);
    xml := xml + [End("STIG_INFO")];

    xml := AddVulns(xml, c);

    xml := xml + [End("iSTIG")];
    xml := xml + [End("STIGS")];
    xml := xml + [End("CHECKLIST")];
    r := Ok(xml);
  }
}
