/**
 * `map_stig_to_nist_controls`: every (vulnerability, CCI reference, NIST
 * control) triple the catalog links is a hit; the hits update one record per
 * control in a map, which is then listed in ascending order of control id.
 * A record collects the CCI ids and the vulnerabilities (one per `vuln_num`)
 * behind its control, the worst compliance verdict and the highest risk.
 */
module ControlMapping {
  import opened Wrappers
  import opened Strings
  import opened StigTypes

  /** Rust's `Ord` on `String`: lexicographic, character by character (UTF-8 keeps code point order). */
  predicate Below(a: String, b: String)
    decreases |a|
  {
    if a == [] then b != []
    else if b == [] then false
    else if a[0] != b[0] then a[0] < b[0]
    else Below(a[1..], b[1..])
  }

  lemma {:induction false} BelowIrreflexive(a: String)
    ensures !Below(a, a)
    decreases |a|
  {
    if a != [] {
      BelowIrreflexive(a[1..]);
    }
  }

  lemma {:induction false} BelowTransitive(a: String, b: String, c: String)
    requires Below(a, b) && Below(b, c)
    ensures Below(a, c)
    decreases |a|
  {
    if a != [] && a[0] == b[0] && b[0] == c[0] {
      BelowTransitive(a[1..], b[1..], c[1..]);
    }
  }

  lemma {:induction false} BelowTotal(a: String, b: String)
    requires a != b
    ensures Below(a, b) || Below(b, a)
    decreases |a|
  {
    if a != [] && b != [] && a[0] == b[0] {
      assert a == [a[0]] + a[1..] && b == [b[0]] + b[1..];
      BelowTotal(a[1..], b[1..]);
    }
  }

  lemma {:induction false} BelowAsymmetric(a: String, b: String)
    requires Below(a, b)
    ensures !Below(b, a)
    decreases |a|
  {
    if a != [] && a[0] == b[0] {
      BelowAsymmetric(a[1..], b[1..]);
    }
  }

  /** `cci_to_nist_map`: each catalog entry inserted in turn, so a later entry with the same id replaces an earlier one. */
  function CatalogMap(catalog: seq<CciMapping>): map<String, seq<String>> {
    if catalog == [] then map[]
    else
      var last := catalog[|catalog| - 1];
      CatalogMap(catalog[..|catalog| - 1])[last.id := last.nistControls]
  }

  /** The catalog map holds exactly the ids of the catalog, each with the controls of its last entry. */
  lemma {:induction false} CatalogMapLastWins(catalog: seq<CciMapping>, id: String)
    ensures id in CatalogMap(catalog) <==> exists i :: 0 <= i < |catalog| && catalog[i].id == id
    ensures id in CatalogMap(catalog) ==>
      exists i :: 0 <= i < |catalog| && catalog[i].id == id && CatalogMap(catalog)[id] == catalog[i].nistControls
        && forall j :: i < j < |catalog| ==> catalog[j].id != id
  {
    if catalog != [] {
      var init := catalog[..|catalog| - 1];
      var n := |catalog| - 1;
      CatalogMapLastWins(init, id);
      if catalog[n].id != id {
        if id in CatalogMap(init) {
          var i :| 0 <= i < |init| && init[i].id == id && CatalogMap(init)[id] == init[i].nistControls
                   && forall j :: i < j < |init| ==> init[j].id != id;
          assert catalog[i] == init[i];
          assert forall j :: i < j < |catalog| ==> catalog[j].id != id by {
            forall j | i < j < |catalog| ensures catalog[j].id != id {
              if j < n {
                assert catalog[j] == init[j];
              }
            }
          }
        } else {
          forall i | 0 <= i < |catalog| ensures catalog[i].id != id {
            if i < n {
              assert catalog[i] == init[i];
            }
          }
        }
      }
    }
  }

  /** One vulnerability reaching one NIST control through one of its CCI references. */
  datatype Hit = Hit(vuln: StigVulnerability, ref: String, control: String)

  /** The hits of `controls`, the catalog's controls for `ref`, in order. */
  function ControlHits(v: StigVulnerability, ref: String, controls: seq<String>): seq<Hit> {
    if controls == [] then [] else ControlHits(v, ref, controls[..|controls| - 1]) + [Hit(v, ref, controls[|controls| - 1])]
  }

  /** The hits one CCI reference contributes: none when the catalog lacks it. */
  function RefHit(v: StigVulnerability, ref: String, cat: map<String, seq<String>>): seq<Hit> {
    if ref in cat then ControlHits(v, ref, cat[ref]) else []
  }

  /** The hits of the references `refs` of `v`; a reference the catalog lacks has none. */
  function RefHits(v: StigVulnerability, refs: seq<String>, cat: map<String, seq<String>>): seq<Hit> {
    if refs == [] then []
    else
      var ref := refs[|refs| - 1];
      RefHits(v, refs[..|refs| - 1], cat) + RefHit(v, ref, cat)
  }

  /** The hits of the vulnerabilities `vs`, in the order the nested loops meet them. */
  function Hits(vs: seq<StigVulnerability>, cat: map<String, seq<String>>): seq<Hit> {
    if vs == [] then []
    else
      var v := vs[|vs| - 1];
      Hits(vs[..|vs| - 1], cat) + RefHits(v, v.cciRefs, cat)
  }

  /** `v` reaches control `k` through its reference `ref`. */
  predicate Reaches(v: StigVulnerability, ref: String, k: String, cat: map<String, seq<String>>) {
    ref in v.cciRefs && ref in cat && k in cat[ref]
  }

  lemma {:induction false} ControlHitsMembers(v: StigVulnerability, ref: String, controls: seq<String>)
    ensures forall h :: h in ControlHits(v, ref, controls) <==> h.vuln == v && h.ref == ref && h.control in controls
  {
    if controls != [] {
      var init := controls[..|controls| - 1];
      ControlHitsMembers(v, ref, init);
      assert controls == init + [controls[|controls| - 1]];
    }
  }

  lemma {:induction false} RefHitsMembers(v: StigVulnerability, refs: seq<String>, cat: map<String, seq<String>>)
    ensures forall h :: h in RefHits(v, refs, cat) <==> h.vuln == v && h.ref in refs && h.ref in cat && h.control in cat[h.ref]
  {
    if refs != [] {
      var init, ref := refs[..|refs| - 1], refs[|refs| - 1];
      RefHitsMembers(v, init, cat);
      assert refs == init + [ref];
      if ref in cat {
        ControlHitsMembers(v, ref, cat[ref]);
      }
    }
  }

  /** The hits are exactly the triples the catalog links: nothing is missed and nothing is made up. */
  lemma {:induction false} HitsMembers(vs: seq<StigVulnerability>, cat: map<String, seq<String>>)
    ensures forall h :: h in Hits(vs, cat) <==> h.vuln in vs && Reaches(h.vuln, h.ref, h.control, cat)
  {
    if vs != [] {
      var init, v := vs[..|vs| - 1], vs[|vs| - 1];
      HitsMembers(init, cat);
      RefHitsMembers(v, v.cciRefs, cat);
      assert vs == init + [v];
    }
  }

  /** The record `or_insert_with` creates for a control met for the first time. */
  function NewControl(k: String): MappedControl {
    MappedControl(k, [], [], NotReviewed, Low)
  }

  /** `stigs.iter().any(|s| s.vuln_num == vuln_num)` */
  predicate HasVulnNum(stigs: seq<StigVulnerability>, vulnNum: String) {
    exists i :: 0 <= i < |stigs| && stigs[i].vulnNum == vulnNum
  }

  /** The `match vuln.status.as_str()` of the loop. */
  function NextCompliance(current: Compliance, status: String): Compliance {
    if status == "Open" then NonCompliant
    else if status == "NotAFinding" && current != NonCompliant then Compliant
    else if status == "NotApplicable" && current == NotReviewed then NotApplicable
    else current
  }

  /** The `match vuln.severity.to_lowercase().as_str()` of the loop. */
  function NextRisk(current: Risk, severity: String): Risk {
    var s := Lower(severity);
    if s == "high" then High
    else if s == "medium" && current != High then Medium
    else current
  }

  /** What one hit does to its control's record. */
  function Record(c: MappedControl, v: StigVulnerability, ref: String): MappedControl {
    var ccis := if ref in c.ccis then c.ccis else c.ccis + [ref];
    var stigs := if HasVulnNum(c.stigs, v.vulnNum) then c.stigs else c.stigs + [v];
    c.(ccis := ccis, stigs := stigs,
       complianceStatus := NextCompliance(c.complianceStatus, v.status),
       riskLevel := NextRisk(c.riskLevel, v.severity))
  }

  /** One hit applied to the control map. */
  function Update(m: map<String, MappedControl>, h: Hit): map<String, MappedControl> {
    var c := if h.control in m then m[h.control] else NewControl(h.control);
    m[h.control := Record(c, h.vuln, h.ref)]
  }

  /** The control map after the hits `hs`, in order. */
  function Aggregate(hs: seq<Hit>): map<String, MappedControl> {
    if hs == [] then map[] else Update(Aggregate(hs[..|hs| - 1]), hs[|hs| - 1])
  }

  /** `control_map` once every vulnerability of `vs` has been processed. */
  function ControlMap(vs: seq<StigVulnerability>, cat: map<String, seq<String>>): map<String, MappedControl> {
    Aggregate(Hits(vs, cat))
  }

  /** No two vulnerabilities share a `vuln_num`. */
  predicate DistinctVulnNums(stigs: seq<StigVulnerability>) {
    forall i, j :: 0 <= i < j < |stigs| ==> stigs[i].vulnNum != stigs[j].vulnNum
  }

  /**
   * The compliance verdict of control `k` over the hits `hs`, whatever their
   * order: non-compliant if any is "Open", else compliant if any is
   * "NotAFinding", else not applicable if any is "NotApplicable", else not
   * reviewed.
   */
  function ComplianceOver(hs: seq<Hit>, k: String): Compliance {
    if exists h :: h in hs && h.control == k && h.vuln.status == "Open" then NonCompliant
    else if exists h :: h in hs && h.control == k && h.vuln.status == "NotAFinding" then Compliant
    else if exists h :: h in hs && h.control == k && h.vuln.status == "NotApplicable" then NotApplicable
    else NotReviewed
  }

  /** The risk of control `k` over the hits `hs`, whatever their order: the highest severity, "low" by default. */
  function RiskOver(hs: seq<Hit>, k: String): Risk {
    if exists h :: h in hs && h.control == k && Lower(h.vuln.severity) == "high" then High
    else if exists h :: h in hs && h.control == k && Lower(h.vuln.severity) == "medium" then Medium
    else Low
  }

  lemma LastHit(hs: seq<Hit>)
    requires hs != []
    ensures forall h :: h in hs <==> h in hs[..|hs| - 1] || h == hs[|hs| - 1]
  {
    assert hs == hs[..|hs| - 1] + [hs[|hs| - 1]];
  }

  /** The map has a record for exactly the controls some hit reaches, each keyed by its own id. */
  lemma {:induction false} AggregateKeys(hs: seq<Hit>, k: String)
    ensures k in Aggregate(hs) <==> exists h :: h in hs && h.control == k
    ensures k in Aggregate(hs) ==> Aggregate(hs)[k].nistControl == k
  {
    if hs != [] {
      LastHit(hs);
      AggregateKeys(hs[..|hs| - 1], k);
    }
  }

  /** A control's CCI ids are distinct and are exactly the references of the hits on it. */
  lemma {:induction false} AggregateCcis(hs: seq<Hit>, k: String)
    requires k in Aggregate(hs)
    ensures NoDuplicates(Aggregate(hs)[k].ccis)
    ensures forall r :: r in Aggregate(hs)[k].ccis <==> exists h :: h in hs && h.control == k && h.ref == r
  {
    var init, h := hs[..|hs| - 1], hs[|hs| - 1];
    LastHit(hs);
    AggregateKeys(init, k);
    if k in Aggregate(init) {
      AggregateCcis(init, k);
    }
    if h.control == k {
      var c := if k in Aggregate(init) then Aggregate(init)[k] else NewControl(k);
      if h.ref !in c.ccis {
        var ccis := c.ccis + [h.ref];
        forall i, j | 0 <= i < j < |ccis| ensures ccis[i] != ccis[j] {
          if j == |ccis| - 1 {
            assert ccis[i] in c.ccis;
          }
        }
      }
    }
  }

  /** Recording a hit keeps the `vuln_num`s distinct, adds only its own vulnerability and represents it. */
  lemma RecordStigs(c: MappedControl, v: StigVulnerability, ref: String)
    requires DistinctVulnNums(c.stigs)
    ensures DistinctVulnNums(Record(c, v, ref).stigs)
    ensures forall s :: s in Record(c, v, ref).stigs ==> s in c.stigs || s == v
    ensures HasVulnNum(Record(c, v, ref).stigs, v.vulnNum)
    ensures forall n :: HasVulnNum(c.stigs, n) ==> HasVulnNum(Record(c, v, ref).stigs, n)
  {
    var stigs := Record(c, v, ref).stigs;
    if !HasVulnNum(c.stigs, v.vulnNum) {
      assert stigs == c.stigs + [v];
      forall i, j | 0 <= i < j < |stigs| ensures stigs[i].vulnNum != stigs[j].vulnNum {
        if j == |stigs| - 1 {
          assert stigs[i] == c.stigs[i];
        }
      }
      assert stigs[|stigs| - 1] == v;
      forall n | HasVulnNum(c.stigs, n) ensures HasVulnNum(stigs, n) {
        var i :| 0 <= i < |c.stigs| && c.stigs[i].vulnNum == n;
        assert stigs[i] == c.stigs[i];
      }
    }
  }

  lemma {:induction false} AggregateStigs(hs: seq<Hit>, k: String)
    requires k in Aggregate(hs)
    ensures DistinctVulnNums(Aggregate(hs)[k].stigs)
    ensures forall s :: s in Aggregate(hs)[k].stigs ==> exists h :: h in hs && h.control == k && h.vuln == s
    ensures forall h :: h in hs && h.control == k ==> HasVulnNum(Aggregate(hs)[k].stigs, h.vuln.vulnNum)
  {
    var init, h := hs[..|hs| - 1], hs[|hs| - 1];
    LastHit(hs);
    AggregateKeys(init, k);
    if k in Aggregate(init) {
      AggregateStigs(init, k);
    }
    if h.control == k {
      var c := if k in Aggregate(init) then Aggregate(init)[k] else NewControl(k);
      assert Aggregate(hs)[k] == Record(c, h.vuln, h.ref);
      RecordStigs(c, h.vuln, h.ref);
      forall s | s in Aggregate(hs)[k].stigs ensures exists g :: g in hs && g.control == k && g.vuln == s {
        if s !in c.stigs {
          assert h in hs;
        } else {
          var g :| g in init && g.control == k && g.vuln == s;
          assert g in hs;
        }
      }
    } else {
      assert Aggregate(hs)[k] == Aggregate(init)[k];
    }
  }

  lemma NextComplianceOver(hs: seq<Hit>, h: Hit)
    ensures NextCompliance(ComplianceOver(hs, h.control), h.vuln.status) == ComplianceOver(hs + [h], h.control)
  {
    assert h in hs + [h];
    assert forall g :: g in hs + [h] <==> g in hs || g == h;
  }

  lemma NextRiskOver(hs: seq<Hit>, h: Hit)
    ensures NextRisk(RiskOver(hs, h.control), h.vuln.severity) == RiskOver(hs + [h], h.control)
  {
    assert h in hs + [h];
    assert forall g :: g in hs + [h] <==> g in hs || g == h;
  }

  lemma OtherHitVerdicts(hs: seq<Hit>, h: Hit, k: String)
    requires h.control != k
    ensures ComplianceOver(hs + [h], k) == ComplianceOver(hs, k)
    ensures RiskOver(hs + [h], k) == RiskOver(hs, k)
  {
    assert forall g :: g in hs + [h] <==> g in hs || g == h;
  }

  /** One hit on a control whose verdicts were those of the earlier hits gives the verdicts of all of them. */
  lemma RecordVerdicts(c: MappedControl, hs: seq<Hit>, h: Hit)
    requires c.complianceStatus == ComplianceOver(hs, h.control) && c.riskLevel == RiskOver(hs, h.control)
    ensures Record(c, h.vuln, h.ref).complianceStatus == ComplianceOver(hs + [h], h.control)
    ensures Record(c, h.vuln, h.ref).riskLevel == RiskOver(hs + [h], h.control)
  {
    NextComplianceOver(hs, h);
    NextRiskOver(hs, h);
  }

  lemma NoHitVerdicts(hs: seq<Hit>, k: String)
    requires forall h :: h in hs ==> h.control != k
    ensures ComplianceOver(hs, k) == NotReviewed && RiskOver(hs, k) == Low
  {
  }

  /** A control's verdicts are the order-free `ComplianceOver` and `RiskOver` of the hits. */
  lemma {:induction false} AggregateVerdicts(hs: seq<Hit>, k: String)
    requires k in Aggregate(hs)
    ensures Aggregate(hs)[k].complianceStatus == ComplianceOver(hs, k)
    ensures Aggregate(hs)[k].riskLevel == RiskOver(hs, k)
  {
    var init, h := hs[..|hs| - 1], hs[|hs| - 1];
    assert hs == init + [h];
    AggregateStep(init, h);
    var m := Aggregate(init);
    AggregateKeys(init, k);
    if h.control == k {
      var c := if k in m then m[k] else NewControl(k);
      if k in m {
        AggregateVerdicts(init, k);
      } else {
        NoHitVerdicts(init, k);
      }
      RecordVerdicts(c, init, h);
    } else {
      AggregateVerdicts(init, k);
      OtherHitVerdicts(init, h, k);
    }
  }

  /** Ascending by control id, strictly: no control id occurs twice. */
  predicate Ascending(cs: seq<MappedControl>) {
    forall i, j :: 0 <= i < j < |cs| ==> Below(cs[i].nistControl, cs[j].nistControl)
  }

  predicate DistinctControls(cs: seq<MappedControl>) {
    forall i, j :: 0 <= i < j < |cs| ==> cs[i].nistControl != cs[j].nistControl
  }

  /** `x` placed before the first record of `s` with a larger control id. */
  function InsertControl(x: MappedControl, s: seq<MappedControl>): (r: seq<MappedControl>)
    ensures multiset(r) == multiset(s) + multiset{x}
  {
    if s == [] || Below(x.nistControl, s[0].nistControl) then [x] + s
    else
      assert s == [s[0]] + s[1..];
      [s[0]] + InsertControl(x, s[1..])
  }

  /** `sort_by(|a, b| a.nist_control.cmp(&b.nist_control))` */
  function SortByControl(s: seq<MappedControl>): (r: seq<MappedControl>)
    ensures multiset(r) == multiset(s)
  {
    if s == [] then []
    else
      assert s == [s[0]] + s[1..];
      InsertControl(s[0], SortByControl(s[1..]))
  }

  /** A record below every record of an ascending list can lead it. */
  lemma ConsAscending(h: MappedControl, t: seq<MappedControl>)
    requires Ascending(t)
    requires forall k :: 0 <= k < |t| ==> Below(h.nistControl, t[k].nistControl)
    ensures Ascending([h] + t)
  {
    var r := [h] + t;
    forall i, j | 0 <= i < j < |r| ensures Below(r[i].nistControl, r[j].nistControl) {
      assert r[j] == t[j - 1];
      if i > 0 {
        assert r[i] == t[i - 1];
      }
    }
  }

  lemma {:induction false} InsertControlAscending(x: MappedControl, s: seq<MappedControl>)
    requires Ascending(s)
    requires forall i :: 0 <= i < |s| ==> s[i].nistControl != x.nistControl
    ensures Ascending(InsertControl(x, s))
  {
    if s == [] || Below(x.nistControl, s[0].nistControl) {
      forall k | 0 <= k < |s| ensures Below(x.nistControl, s[k].nistControl) {
        if k > 0 {
          BelowTransitive(x.nistControl, s[0].nistControl, s[k].nistControl);
        }
      }
      ConsAscending(x, s);
    } else {
      var t := InsertControl(x, s[1..]);
      InsertControlAscending(x, s[1..]);
      BelowTotal(x.nistControl, s[0].nistControl);
      forall k | 0 <= k < |t| ensures Below(s[0].nistControl, t[k].nistControl) {
        var y := t[k];
        assert y in multiset(t);
        if y != x {
          assert y in s[1..];
        }
      }
      ConsAscending(s[0], t);
    }
  }

  /** Sorting records whose control ids are distinct lists them in strictly ascending order. */
  lemma {:induction false} SortByControlAscending(s: seq<MappedControl>)
    requires DistinctControls(s)
    ensures Ascending(SortByControl(s))
  {
    if s != [] {
      var t := SortByControl(s[1..]);
      SortByControlAscending(s[1..]);
      forall i | 0 <= i < |t| ensures t[i].nistControl != s[0].nistControl {
        assert t[i] in multiset(s[1..]);
        var j :| 0 <= j < |s[1..]| && s[1..][j] == t[i];
        assert s[j + 1] == t[i];
      }
      InsertControlAscending(s[0], t);
    }
  }

  lemma EmptyTogether(a: seq<MappedControl>, b: seq<MappedControl>)
    requires forall x :: x in a <==> x in b
    ensures a == [] <==> b == []
  {
    if a != [] {
      assert a[0] in b;
    }
    if b != [] {
      assert b[0] in a;
    }
  }

  /** Two strictly ascending lists with the same records start with the same one. */
  lemma SameHead(a: seq<MappedControl>, b: seq<MappedControl>)
    requires Ascending(a) && Ascending(b) && a != [] && b != []
    requires forall x :: x in a <==> x in b
    ensures a[0] == b[0]
  {
    assert a[0] in b && b[0] in a;
    var i :| 0 <= i < |a| && a[i] == b[0];
    var j :| 0 <= j < |b| && b[j] == a[0];
    if i > 0 && j > 0 {
      BelowAsymmetric(a[0].nistControl, a[i].nistControl);
      assert false;
    }
  }

  /** Past a common head, a record of one ascending list's tail is in the other's. */
  lemma TailMember(a: seq<MappedControl>, b: seq<MappedControl>, x: MappedControl)
    requires Ascending(b) && a != [] && b != [] && a[0] == b[0]
    requires forall y :: y in a <==> y in b
    requires x in b[1..]
    ensures x in a[1..]
  {
    var q :| 0 <= q < |b[1..]| && b[1..][q] == x;
    assert b[q + 1] == x && x in b && x in a;
    var p :| 0 <= p < |a| && a[p] == x;
    if p == 0 {
      assert Below(b[0].nistControl, b[q + 1].nistControl);
      BelowIrreflexive(b[0].nistControl);
      assert false;
    }
    assert a[1..][p - 1] == x;
  }

  /** Two strictly ascending lists with the same records are the same list: the sorted output is determined. */
  lemma {:induction false} AscendingUnique(a: seq<MappedControl>, b: seq<MappedControl>)
    requires Ascending(a) && Ascending(b)
    requires forall x :: x in a <==> x in b
    ensures a == b
    decreases |a|
  {
    EmptyTogether(a, b);
    if a != [] {
      SameHead(a, b);
      forall x | x in b[1..] ensures x in a[1..] {
        TailMember(a, b, x);
      }
      forall x | x in a[1..] ensures x in b[1..] {
        TailMember(b, a, x);
      }
      AscendingUnique(a[1..], b[1..]);
      assert a == [a[0]] + a[1..] && b == [b[0]] + b[1..];
    }
  }

  /** The records of a control map, each keyed by its own control id. */
  predicate KeyedByControl(m: map<String, MappedControl>) {
    forall k :: k in m ==> m[k].nistControl == k
  }

  lemma ControlMapKeyed(vs: seq<StigVulnerability>, cat: map<String, seq<String>>)
    ensures KeyedByControl(ControlMap(vs, cat))
  {
    forall k | k in ControlMap(vs, cat) ensures ControlMap(vs, cat)[k].nistControl == k {
      AggregateKeys(Hits(vs, cat), k);
    }
  }

  lemma ControlHitsPrefix(v: StigVulnerability, ref: String, controls: seq<String>, k: nat)
    requires k < |controls|
    ensures ControlHits(v, ref, controls[..k + 1]) == ControlHits(v, ref, controls[..k]) + [Hit(v, ref, controls[k])]
  {
    assert controls[..k + 1][..k] == controls[..k];
  }

  lemma RefHitsPrefix(v: StigVulnerability, refs: seq<String>, cat: map<String, seq<String>>, j: nat)
    requires j < |refs|
    ensures RefHits(v, refs[..j + 1], cat) == RefHits(v, refs[..j], cat) + RefHit(v, refs[j], cat)
  {
    assert refs[..j + 1][..j] == refs[..j];
  }

  lemma HitsPrefix(vs: seq<StigVulnerability>, cat: map<String, seq<String>>, i: nat)
    requires i < |vs|
    ensures Hits(vs[..i + 1], cat) == Hits(vs[..i], cat) + RefHits(vs[i], vs[i].cciRefs, cat)
  {
    assert vs[..i + 1][..i] == vs[..i];
  }

  lemma AppendAssoc<T>(a: seq<T>, b: seq<T>, c: seq<T>)
    ensures (a + b) + c == a + (b + c)
  {
  }

  lemma AggregateStep(hs: seq<Hit>, h: Hit)
    ensures Aggregate(hs + [h]) == Update(Aggregate(hs), h)
  {
    assert (hs + [h])[..|hs|] == hs;
  }

  lemma CatalogMapPrefix(catalog: seq<CciMapping>, i: nat)
    requires i < |catalog|
    ensures CatalogMap(catalog[..i + 1]) == CatalogMap(catalog[..i])[catalog[i].id := catalog[i].nistControls]
  {
    assert catalog[..i + 1][..i] == catalog[..i];
  }

  /** `v` reaches control `k` through one of its CCI references. */
  ghost predicate Correlated(v: StigVulnerability, k: String, cat: map<String, seq<String>>) {
    exists r :: Reaches(v, r, k, cat)
  }

  /**
   * The compliance verdict the source promises for control `k`: non-compliant
   * if some correlated vulnerability is "Open", else compliant if one is
   * "NotAFinding", else not applicable if one is "NotApplicable", else not
   * reviewed. It depends only on which vulnerabilities there are.
   */
  ghost function WorstCompliance(vs: seq<StigVulnerability>, cat: map<String, seq<String>>, k: String): Compliance {
    if exists v :: v in vs && Correlated(v, k, cat) && v.status == "Open" then NonCompliant
    else if exists v :: v in vs && Correlated(v, k, cat) && v.status == "NotAFinding" then Compliant
    else if exists v :: v in vs && Correlated(v, k, cat) && v.status == "NotApplicable" then NotApplicable
    else NotReviewed
  }

  /** The risk the source promises for control `k`: the highest lower-cased severity of a correlated vulnerability, whatever its status. */
  ghost function HighestRisk(vs: seq<StigVulnerability>, cat: map<String, seq<String>>, k: String): Risk {
    if exists v :: v in vs && Correlated(v, k, cat) && Lower(v.severity) == "high" then High
    else if exists v :: v in vs && Correlated(v, k, cat) && Lower(v.severity) == "medium" then Medium
    else Low
  }

  lemma StatusHit(vs: seq<StigVulnerability>, cat: map<String, seq<String>>, k: String, status: String)
    ensures (exists h :: h in Hits(vs, cat) && h.control == k && h.vuln.status == status)
        <==> (exists v :: v in vs && Correlated(v, k, cat) && v.status == status)
  {
    HitsMembers(vs, cat);
    if exists v :: v in vs && Correlated(v, k, cat) && v.status == status {
      var v :| v in vs && Correlated(v, k, cat) && v.status == status;
      var r :| Reaches(v, r, k, cat);
      assert Hit(v, r, k) in Hits(vs, cat);
    }
  }

  lemma SeverityHit(vs: seq<StigVulnerability>, cat: map<String, seq<String>>, k: String, severity: String)
    ensures (exists h :: h in Hits(vs, cat) && h.control == k && Lower(h.vuln.severity) == severity)
        <==> (exists v :: v in vs && Correlated(v, k, cat) && Lower(v.severity) == severity)
  {
    HitsMembers(vs, cat);
    if exists v :: v in vs && Correlated(v, k, cat) && Lower(v.severity) == severity {
      var v :| v in vs && Correlated(v, k, cat) && Lower(v.severity) == severity;
      var r :| Reaches(v, r, k, cat);
      assert Hit(v, r, k) in Hits(vs, cat);
    }
  }

  /**
   * The mapped controls are exactly the controls some vulnerability reaches
   * through a CCI reference the catalog knows, each record carrying its own
   * control id.
   */
  lemma MappedControlsReachable(vs: seq<StigVulnerability>, cat: map<String, seq<String>>, k: String)
    ensures k in ControlMap(vs, cat) <==> exists v :: v in vs && Correlated(v, k, cat)
    ensures k in ControlMap(vs, cat) ==> ControlMap(vs, cat)[k].nistControl == k
  {
    AggregateKeys(Hits(vs, cat), k);
    HitsMembers(vs, cat);
    if exists v :: v in vs && Correlated(v, k, cat) {
      var v :| v in vs && Correlated(v, k, cat);
      var r :| Reaches(v, r, k, cat);
      assert Hit(v, r, k) in Hits(vs, cat);
    }
  }

  /** A control's CCI ids are distinct and are exactly the references through which some vulnerability reaches it. */
  lemma MappedCcis(vs: seq<StigVulnerability>, cat: map<String, seq<String>>, k: String)
    requires k in ControlMap(vs, cat)
    ensures NoDuplicates(ControlMap(vs, cat)[k].ccis)
    ensures forall r :: r in ControlMap(vs, cat)[k].ccis <==> exists v :: v in vs && Reaches(v, r, k, cat)
  {
    AggregateCcis(Hits(vs, cat), k);
    HitsMembers(vs, cat);
    forall r ensures r in ControlMap(vs, cat)[k].ccis <==> exists v :: v in vs && Reaches(v, r, k, cat) {
      if exists v :: v in vs && Reaches(v, r, k, cat) {
        var v :| v in vs && Reaches(v, r, k, cat);
        assert Hit(v, r, k) in Hits(vs, cat);
      }
    }
  }

  /**
   * A control's vulnerabilities are vulnerabilities of the checklist that
   * reach it, no two with the same `vuln_num`, and every vulnerability that
   * reaches it is represented by its `vuln_num`.
   */
  lemma MappedStigs(vs: seq<StigVulnerability>, cat: map<String, seq<String>>, k: String)
    requires k in ControlMap(vs, cat)
    ensures DistinctVulnNums(ControlMap(vs, cat)[k].stigs)
    ensures forall s :: s in ControlMap(vs, cat)[k].stigs ==> s in vs && Correlated(s, k, cat)
    ensures forall v :: v in vs && Correlated(v, k, cat) ==> HasVulnNum(ControlMap(vs, cat)[k].stigs, v.vulnNum)
  {
    AggregateStigs(Hits(vs, cat), k);
    HitsMembers(vs, cat);
    forall v | v in vs && Correlated(v, k, cat) ensures HasVulnNum(ControlMap(vs, cat)[k].stigs, v.vulnNum) {
      var r :| Reaches(v, r, k, cat);
      assert Hit(v, r, k) in Hits(vs, cat);
    }
  }

  /** A control's compliance verdict is the worst over the vulnerabilities that reach it. */
  lemma MappedCompliance(vs: seq<StigVulnerability>, cat: map<String, seq<String>>, k: String)
    requires k in ControlMap(vs, cat)
    ensures ControlMap(vs, cat)[k].complianceStatus == WorstCompliance(vs, cat, k)
  {
    AggregateVerdicts(Hits(vs, cat), k);
    StatusHit(vs, cat, k, "Open");
    StatusHit(vs, cat, k, "NotAFinding");
    StatusHit(vs, cat, k, "NotApplicable");
  }

  /** A control's risk level is the highest severity over the vulnerabilities that reach it. */
  lemma MappedRisk(vs: seq<StigVulnerability>, cat: map<String, seq<String>>, k: String)
    requires k in ControlMap(vs, cat)
    ensures ControlMap(vs, cat)[k].riskLevel == HighestRisk(vs, cat, k)
  {
    AggregateVerdicts(Hits(vs, cat), k);
    SeverityHit(vs, cat, k, "high");
    SeverityHit(vs, cat, k, "medium");
  }

  /**
   * Reordering the vulnerabilities (or repeating some) changes neither which
   * controls are mapped nor any control's verdicts.
   */
  lemma VerdictsIgnoreOrder(vs1: seq<StigVulnerability>, vs2: seq<StigVulnerability>, cat: map<String, seq<String>>, k: String)
    requires forall v :: v in vs1 <==> v in vs2
    ensures k in ControlMap(vs1, cat) <==> k in ControlMap(vs2, cat)
    ensures k in ControlMap(vs1, cat) ==>
      && ControlMap(vs1, cat)[k].complianceStatus == ControlMap(vs2, cat)[k].complianceStatus
      && ControlMap(vs1, cat)[k].riskLevel == ControlMap(vs2, cat)[k].riskLevel
  {
    MappedControlsReachable(vs1, cat, k);
    MappedControlsReachable(vs2, cat, k);
    if k in ControlMap(vs1, cat) {
      MappedCompliance(vs1, cat, k);
      MappedCompliance(vs2, cat, k);
      MappedRisk(vs1, cat, k);
      MappedRisk(vs2, cat, k);
      assert WorstCompliance(vs1, cat, k) == WorstCompliance(vs2, cat, k);
      assert HighestRisk(vs1, cat, k) == HighestRisk(vs2, cat, k);
    }
  }

  /** Strictly ascending control ids are distinct. */
  lemma AscendingDistinct(cs: seq<MappedControl>)
    requires Ascending(cs)
    ensures DistinctControls(cs)
  {
    forall i, j | 0 <= i < j < |cs| ensures cs[i].nistControl != cs[j].nistControl {
      BelowIrreflexive(cs[i].nistControl);
    }
  }

  /** The loop that fills `cci_to_nist_map`. */
  method BuildCatalogMap(catalog: seq<CciMapping>) returns (cat: map<String, seq<String>>)
    ensures cat == CatalogMap(catalog)
  {
    cat := map[];
    for n := 0 to |catalog|
      invariant cat == CatalogMap(catalog[..n])
    {
      CatalogMapPrefix(catalog, n);
      cat := cat[catalog[n].id := catalog[n].nistControls];
    }
    assert catalog[..|catalog|] == catalog;
  }

  /** The body of the innermost loop: the entry of `nist_control`, created if need be, updated in place. */
  method RecordHit(controlMap: map<String, MappedControl>, vuln: StigVulnerability, cciRef: String, nistControl: String)
    returns (m: map<String, MappedControl>)
    ensures m == Update(controlMap, Hit(vuln, cciRef, nistControl))
  {
    var control := if nistControl in controlMap then controlMap[nistControl] else NewControl(nistControl);
    if cciRef !in control.ccis {
      control := control.(ccis := control.ccis + [cciRef]);
    }
    if !HasVulnNum(control.stigs, vuln.vulnNum) {
      control := control.(stigs := control.stigs + [vuln]);
    }
    if vuln.status == "Open" {
      control := control.(complianceStatus := NonCompliant);
    } else if vuln.status == "NotAFinding" && control.complianceStatus != NonCompliant {
      control := control.(complianceStatus := Compliant);
    } else if vuln.status == "NotApplicable" && control.complianceStatus == NotReviewed {
      control := control.(complianceStatus := NotApplicable);
    }
    var severity := Lower(vuln.severity);
    if severity == "high" {
      control := control.(riskLevel := High);
    } else if severity == "medium" && control.riskLevel != High {
      control := control.(riskLevel := Medium);
    }
    m := controlMap[nistControl := control];
  }

  /** The innermost loop: every control `cci_ref` maps to. */
  method AddControlHits(controlMap: map<String, MappedControl>, vuln: StigVulnerability, cciRef: String,
                        nistControls: seq<String>, ghost done: seq<Hit>)
    returns (m: map<String, MappedControl>)
    requires controlMap == Aggregate(done)
    ensures m == Aggregate(done + ControlHits(vuln, cciRef, nistControls))
  {
    m := controlMap;
    ghost var hs := done;
    assert nistControls[..0] == [] && done + [] == done;
    for k := 0 to |nistControls|
      invariant hs == done + ControlHits(vuln, cciRef, nistControls[..k])
      invariant m == Aggregate(hs)
    {
      var h := Hit(vuln, cciRef, nistControls[k]);
      m := RecordHit(m, vuln, cciRef, nistControls[k]);
      AggregateStep(hs, h);
      ControlHitsPrefix(vuln, cciRef, nistControls, k);
      AppendAssoc(done, ControlHits(vuln, cciRef, nistControls[..k]), [h]);
      hs := hs + [h];
    }
    assert nistControls[..|nistControls|] == nistControls;
  }

  /** The body of the middle loop: `if let Some(nist_controls) = cci_to_nist_map.get(cci_ref)`. */
  method AddRefHit(controlMap: map<String, MappedControl>, vuln: StigVulnerability, cciRef: String,
                   cat: map<String, seq<String>>, ghost done: seq<Hit>)
    returns (m: map<String, MappedControl>)
    requires controlMap == Aggregate(done)
    ensures m == Aggregate(done + RefHit(vuln, cciRef, cat))
  {
    m := controlMap;
    if cciRef in cat {
      m := AddControlHits(m, vuln, cciRef, cat[cciRef], done);
    } else {
      assert done + [] == done;
    }
  }

  /** The middle loop: every CCI reference of `vuln`. */
  method AddRefHits(controlMap: map<String, MappedControl>, vuln: StigVulnerability, cat: map<String, seq<String>>,
                    ghost done: seq<Hit>)
    returns (m: map<String, MappedControl>)
    requires controlMap == Aggregate(done)
    ensures m == Aggregate(done + RefHits(vuln, vuln.cciRefs, cat))
  {
    m := controlMap;
    var refs := vuln.cciRefs;
    ghost var hs := done;
    assert refs[..0] == [] && done + [] == done;
    for j := 0 to |refs|
      invariant hs == done + RefHits(vuln, refs[..j], cat)
      invariant m == Aggregate(hs)
    {
      m := AddRefHit(m, vuln, refs[j], cat, hs);
      RefHitsPrefix(vuln, refs, cat, j);
      AppendAssoc(done, RefHits(vuln, refs[..j], cat), RefHit(vuln, refs[j], cat));
      hs := hs + RefHit(vuln, refs[j], cat);
    }
    assert refs[..|refs|] == refs;
  }

  /** The outer loop over the checklist's vulnerabilities. */
  method FillControlMap(vs: seq<StigVulnerability>, cat: map<String, seq<String>>) returns (controlMap: map<String, MappedControl>)
    ensures controlMap == ControlMap(vs, cat)
  {
    controlMap := map[];
    for i := 0 to |vs|
      invariant controlMap == Aggregate(Hits(vs[..i], cat))
    {
      HitsPrefix(vs, cat, i);
      controlMap := AddRefHits(controlMap, vs[i], cat, Hits(vs[..i], cat));
    }
    assert vs[..|vs|] == vs;
  }

  /** `control_map.into_values().collect()`: the records, in whatever order the map yields its keys. */
  method CollectValues(controlMap: map<String, MappedControl>) returns (values: seq<MappedControl>)
    requires KeyedByControl(controlMap)
    ensures DistinctControls(values)
    ensures forall x :: x in values <==> exists k :: k in controlMap && controlMap[k] == x
  {
    values := [];
    var rest := controlMap.Keys;
    while rest != {}
      invariant rest <= controlMap.Keys
      invariant forall x :: x in values <==> exists k :: k in controlMap.Keys - rest && controlMap[k] == x
      invariant forall x :: x in values ==> x.nistControl !in rest
      invariant DistinctControls(values)
      decreases rest
    {
      var key :| key in rest;
      var x := controlMap[key];
      forall i | 0 <= i < |values| ensures values[i].nistControl != x.nistControl {
        assert values[i] in values;
      }
      values := values + [x];
      rest := rest - {key};
    }
  }

  /**
   * `map_stig_to_nist_controls`: the records of the control map, one per
   * control the catalog links to a CCI reference of the checklist, in
   * strictly ascending order of control id. The HashMap's iteration order is
   * left open: `collect` takes the keys in any order, and the sort makes the
   * result the same whatever that order was (`AscendingUnique`).
   */
  method MapStigToNistControls(checklist: StigChecklist, catalog: seq<CciMapping>) returns (r: seq<MappedControl>)
    ensures Ascending(r)
    ensures var m := ControlMap(checklist.vulnerabilities, CatalogMap(catalog));
      forall x :: x in r <==> x.nistControl in m && m[x.nistControl] == x
  {
    var cat := BuildCatalogMap(catalog);
    var controlMap := FillControlMap(checklist.vulnerabilities, cat);
    ControlMapKeyed(checklist.vulnerabilities, cat);
    var values := CollectValues(controlMap);
    r := SortByControl(values);
    SortByControlAscending(values);
    forall x ensures x in r <==> x in values {
      assert x in r <==> x in multiset(r);
      assert x in values <==> x in multiset(values);
    }
  }
}
