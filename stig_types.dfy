/**
 * The records the STIG/CCI mapping engine reads and writes: CCI catalog
 * entries, checklist vulnerabilities, asset and STIG metadata, mapped NIST
 * controls and the summary over them, and the error kinds.
 */
module StigTypes {
  import opened Wrappers
  import opened Strings

  datatype StigError =
    | Io(message: String)
    | XmlParsing(message: String)
    | Serialization(message: String)
    | InvalidFormat(message: String)

  /** One `cci_item` of the CCI list. */
  datatype CciMapping = CciMapping(
    id: String,
    title: String,
    definition: String,
    nistControls: seq<String>,
    cciType: String,
    status: String,
    publishDate: String)

  /** One VULN block of a checklist. */
  datatype StigVulnerability = StigVulnerability(
    vulnNum: String,
    severity: String,
    groupTitle: String,
    ruleId: String,
    ruleVer: String,
    ruleTitle: String,
    vulnDiscuss: String,
    checkContent: String,
    fixText: String,
    cciRefs: seq<String>,
    status: String,
    findingDetails: String,
    comments: String,
    severityOverride: Option<String>,
    severityJustification: Option<String>,
    stigId: String)

  datatype AssetInfo = AssetInfo(
    role: String,
    assetType: String,
    marking: String,
    hostName: String,
    hostIp: String,
    hostMac: String,
    hostFqdn: String,
    targetComment: String,
    techArea: String,
    targetKey: String,
    webOrDatabase: bool,
    webDbSite: String,
    webDbInstance: String)

  datatype StigInfo = StigInfo(
    version: String,
    classification: String,
    customName: String,
    stigId: String,
    description: String,
    fileName: String,
    releaseInfo: String,
    title: String,
    uuid: String,
    notice: String,
    source: String)

  datatype StigChecklist = StigChecklist(
    asset: AssetInfo,
    stigInfo: StigInfo,
    vulnerabilities: seq<StigVulnerability>)

  /** The compliance verdict of a control; `Label` is the string the record carries. */
  datatype Compliance = NotReviewed | Compliant | NonCompliant | NotApplicable {
    function Label(): String {
      match this
      case NotReviewed => "not-reviewed"
      case Compliant => "compliant"
      case NonCompliant => "non-compliant"
      case NotApplicable => "not-applicable"
    }
  }

  /** The risk verdict of a control; `Label` is the string the record carries. */
  datatype Risk = Low | Medium | High {
    function Label(): String {
      match this
      case Low => "low"
      case Medium => "medium"
      case High => "high"
    }
  }

  datatype MappedControl = MappedControl(
    nistControl: String,
    ccis: seq<String>,
    stigs: seq<StigVulnerability>,
    complianceStatus: Compliance,
    riskLevel: Risk)

  datatype MappingSummary = MappingSummary(
    totalControls: nat,
    compliantControls: nat,
    nonCompliantControls: nat,
    notApplicableControls: nat,
    notReviewedControls: nat,
    highRiskFindings: nat,
    mediumRiskFindings: nat,
    lowRiskFindings: nat)

  datatype StigMappingResult = StigMappingResult(
    checklist: StigChecklist,
    cciMappings: seq<CciMapping>,
    mappedControls: seq<MappedControl>,
    summary: MappingSummary)

  /** A catalog entry as it stands right after `<cci_item id="...">`. */
  function NewCci(id: String): CciMapping {
    CciMapping(id, "", "", [], "", "", "")
  }

  /** A vulnerability as it stands right after `<VULN>`. */
  function NewVulnerability(): StigVulnerability {
    StigVulnerability("", "", "", "", "", "", "", "", "", [], "", "", "", None, None, "")
  }

  function NewAsset(): AssetInfo {
    AssetInfo("", "", "", "", "", "", "", "", "", "", false, "", "")
  }

  function NewStigInfo(): StigInfo {
    StigInfo("", "", "", "", "", "", "", "", "", "", "")
  }

  /** No element occurs twice. */
  predicate NoDuplicates<T(==)>(s: seq<T>) {
    forall i, j :: 0 <= i < j < |s| ==> s[i] != s[j]
  }
}
