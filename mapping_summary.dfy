/**
 * `create_mapping_result`: the mapped controls of a checklist together with
 * the summary counts the dashboard shows.
 */
module MappingSummaryCounts {
  import opened Strings
  import opened StigTypes
  import opened ControlMapping

  /** `mapped_controls.iter().filter(|c| c.compliance_status == status).count()` */
  function CountStatus(cs: seq<MappedControl>, status: String): (n: nat)
    ensures n <= |cs|
    ensures n == 0 <==> forall i :: 0 <= i < |cs| ==> cs[i].complianceStatus.Label() != status
  {
    if cs == [] then 0
    else
      var rest := CountStatus(cs[1..], status);
      assert forall i :: 1 <= i < |cs| ==> cs[i] == cs[1..][i - 1];
      (if cs[0].complianceStatus.Label() == status then 1 else 0) + rest
  }

  /** An open finding of the given (lower-case) severity. */
  predicate IsFinding(v: StigVulnerability, level: String) {
    Lower(v.severity) == level && v.status == "Open"
  }

  /** The number of vulnerabilities that are open findings of severity `level`, repeats included. */
  function CountFindings(vs: seq<StigVulnerability>, level: String): (n: nat)
    ensures n <= |vs|
    ensures n == 0 <==> forall i :: 0 <= i < |vs| ==> !IsFinding(vs[i], level)
  {
    if vs == [] then 0
    else
      var rest := CountFindings(vs[1..], level);
      assert forall i :: 1 <= i < |vs| ==> vs[i] == vs[1..][i - 1];
      (if IsFinding(vs[0], level) then 1 else 0) + rest
  }

  /** The number of vulnerabilities whose status is "Open". */
  function CountOpen(vs: seq<StigVulnerability>): nat {
    if vs == [] then 0 else (if vs[0].status == "Open" then 1 else 0) + CountOpen(vs[1..])
  }

  /** The summary the source builds from the checklist's vulnerabilities and the mapped controls. */
  function Summarize(vs: seq<StigVulnerability>, cs: seq<MappedControl>): MappingSummary {
    MappingSummary(
      |cs|,
      CountStatus(cs, "compliant"),
      CountStatus(cs, "non-compliant"),
      CountStatus(cs, "not-applicable"),
      CountStatus(cs, "not-reviewed"),
      CountFindings(vs, "high"),
      CountFindings(vs, "medium"),
      CountFindings(vs, "low"))
  }

  /** Every control carries one of the four verdicts, so the four verdict counts add up to the total. */
  lemma {:induction false} StatusCountsAddUp(cs: seq<MappedControl>)
    ensures CountStatus(cs, "compliant") + CountStatus(cs, "non-compliant")
          + CountStatus(cs, "not-applicable") + CountStatus(cs, "not-reviewed") == |cs|
  {
    if cs != [] {
      StatusCountsAddUp(cs[1..]);
      OneStatus(cs[0].complianceStatus);
    }
  }

  /** A verdict's label matches exactly one of the four labels the summary counts. */
  lemma OneStatus(c: Compliance)
    ensures (if c.Label() == "compliant" then 1 else 0) + (if c.Label() == "non-compliant" then 1 else 0)
          + (if c.Label() == "not-applicable" then 1 else 0) + (if c.Label() == "not-reviewed" then 1 else 0) == 1
  {
    match c
    case NotReviewed =>
    case Compliant =>
    case NonCompliant =>
    case NotApplicable =>
  }

  /** The three risk counts together never exceed the number of open vulnerabilities. */
  lemma {:induction false} FindingsWithinOpen(vs: seq<StigVulnerability>)
    ensures CountFindings(vs, "high") + CountFindings(vs, "medium") + CountFindings(vs, "low") <= CountOpen(vs)
  {
    if vs != [] {
      FindingsWithinOpen(vs[1..]);
    }
  }

  /** When every open vulnerability's severity is high, medium or low (in any case), the three risk counts add up to the open count. */
  lemma {:induction false} FindingsCoverOpen(vs: seq<StigVulnerability>)
    requires forall i :: 0 <= i < |vs| && vs[i].status == "Open" ==> Lower(vs[i].severity) in {"high", "medium", "low"}
    ensures CountFindings(vs, "high") + CountFindings(vs, "medium") + CountFindings(vs, "low") == CountOpen(vs)
  {
    if vs != [] {
      assert forall i :: 1 <= i < |vs| ==> vs[i] == vs[1..][i - 1];
      FindingsCoverOpen(vs[1..]);
    }
  }

  /** The control ids of a list of controls. */
  function ControlIds(cs: seq<MappedControl>): (ids: set<String>)
    ensures forall k :: k in ids <==> exists i :: 0 <= i < |cs| && cs[i].nistControl == k
  {
    if cs == [] then {}
    else
      var rest := ControlIds(cs[1..]);
      assert forall i :: 1 <= i < |cs| ==> cs[i] == cs[1..][i - 1];
      {cs[0].nistControl} + rest
  }

  /** Distinct controls have as many ids as there are controls. */
  lemma {:induction false} DistinctControlIds(cs: seq<MappedControl>)
    requires DistinctControls(cs)
    ensures |ControlIds(cs)| == |cs|
  {
    if cs != [] {
      DistinctControlIds(cs[1..]);
    }
  }

  /** A list that holds exactly the values of a map keyed by control id has one entry per key. */
  lemma ControlCount(cs: seq<MappedControl>, m: map<String, MappedControl>)
    requires Ascending(cs)
    requires KeyedByControl(m)
    requires forall x :: x in cs <==> x.nistControl in m && m[x.nistControl] == x
    ensures |cs| == |m|
  {
    AscendingDistinct(cs);
    DistinctControlIds(cs);
    assert ControlIds(cs) == m.Keys by {
      forall k | k in m ensures k in ControlIds(cs) {
        assert m[k] in cs;
      }
    }
  }

  /**
   * `create_mapping_result`: maps the checklist onto NIST controls and
   * counts. The total is the number of distinct controls the checklist
   * reaches, and every mapped control falls under exactly one verdict count.
   */
  method CreateMappingResult(checklist: StigChecklist, catalog: seq<CciMapping>) returns (r: StigMappingResult)
    ensures r.checklist == checklist && r.cciMappings == catalog
    ensures Ascending(r.mappedControls)
    ensures var m := ControlMap(checklist.vulnerabilities, CatalogMap(catalog));
      forall x :: x in r.mappedControls <==> x.nistControl in m && m[x.nistControl] == x
    ensures r.summary == Summarize(checklist.vulnerabilities, r.mappedControls)
    ensures r.summary.totalControls == |ControlMap(checklist.vulnerabilities, CatalogMap(catalog))|
    ensures r.summary.compliantControls + r.summary.nonCompliantControls
          + r.summary.notApplicableControls + r.summary.notReviewedControls == r.summary.totalControls
  {
    var mapped := MapStigToNistControls(checklist, catalog);
    ControlMapKeyed(checklist.vulnerabilities, CatalogMap(catalog));
    ControlCount(mapped, ControlMap(checklist.vulnerabilities, CatalogMap(catalog)));
    StatusCountsAddUp(mapped);
    var summary := Summarize(checklist.vulnerabilities, mapped);
    r := StigMappingResult(checklist, catalog, mapped, summary);
  }
}
