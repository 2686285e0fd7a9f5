/**
 * `parse_and_merge_stig_checklists`: several checklists parsed in turn and
 * merged into the first one, whose asset and STIG information are kept and
 * whose vulnerabilities are followed by those of the others.
 */
module CklMerge {
  import opened Wrappers
  import opened XmlEvents
  import opened StigTypes
  import opened CklParser

  const NO_FILES := "No checklist files provided."
  const NO_CHECKLIST := "Could not process any checklist files."

  /** The merge of the non-empty list `docs`, parsed in order; the first failure is the result. */
  function MergeAll(docs: seq<seq<Event>>): Result<StigChecklist, StigError>
    requires docs != []
  {
    if |docs| == 1 then ParseChecklist(docs[0])
    else
      match MergeAll(docs[..|docs| - 1])
      case Err(e) => Err(e)
      case Ok(merged) =>
        match ParseChecklist(docs[|docs| - 1])
        case Err(e) => Err(e)
        case Ok(c) => Ok(merged.(vulnerabilities := merged.vulnerabilities + c.vulnerabilities))
  }

  /** The whole operation: no documents at all is an invalid request. */
  function Merge(docs: seq<seq<Event>>): Result<StigChecklist, StigError> {
    if docs == [] then Err(InvalidFormat(NO_FILES)) else MergeAll(docs)
  }

  /** Every document parses. */
  predicate AllParse(docs: seq<seq<Event>>) {
    forall i :: 0 <= i < |docs| ==> ParseChecklist(docs[i]).Ok?
  }

  /** The vulnerabilities of all the documents, in document order. */
  function AllVulns(docs: seq<seq<Event>>): seq<StigVulnerability>
    requires AllParse(docs)
  {
    if docs == [] then []
    else AllVulns(docs[..|docs| - 1]) + ParseChecklist(docs[|docs| - 1]).value.vulnerabilities
  }

  /**
   * When every document parses, the merge succeeds with the first
   * checklist's asset and STIG information and all vulnerabilities in order.
   */
  lemma {:induction false} MergeAllParsed(docs: seq<seq<Event>>)
    requires docs != [] && AllParse(docs)
    ensures MergeAll(docs).Ok?
    ensures MergeAll(docs).value.asset == ParseChecklist(docs[0]).value.asset
    ensures MergeAll(docs).value.stigInfo == ParseChecklist(docs[0]).value.stigInfo
    ensures MergeAll(docs).value.vulnerabilities == AllVulns(docs)
  {
    var init := docs[..|docs| - 1];
    assert AllParse(init) by {
      forall i | 0 <= i < |init| ensures ParseChecklist(init[i]).Ok? {
        assert init[i] == docs[i];
      }
    }
    if |docs| == 1 {
      assert init == [];
    } else {
      MergeAllParsed(init);
      assert init[0] == docs[0];
      MergeAllStep(docs);
    }
  }

  /** Appending a document that parses to a list that merges appends its vulnerabilities. */
  lemma MergeAllStep(docs: seq<seq<Event>>)
    requires |docs| > 1
    requires MergeAll(docs[..|docs| - 1]).Ok? && ParseChecklist(docs[|docs| - 1]).Ok?
    ensures var merged := MergeAll(docs[..|docs| - 1]).value;
      MergeAll(docs) == Ok(merged.(vulnerabilities := merged.vulnerabilities + ParseChecklist(docs[|docs| - 1]).value.vulnerabilities))
  {
  }

  /**
   * When some document fails, the merge fails with the error of the first
   * document that fails; nothing after it matters.
   */
  lemma {:induction false} MergeAllFails(docs: seq<seq<Event>>, i: nat)
    requires i < |docs|
    requires forall j :: 0 <= j < i ==> ParseChecklist(docs[j]).Ok?
    requires ParseChecklist(docs[i]).Err?
    ensures MergeAll(docs) == Err(ParseChecklist(docs[i]).error)
  {
    if |docs| - 1 > i {
      var init := docs[..|docs| - 1];
      assert init[i] == docs[i];
      assert forall j :: 0 <= j < i ==> init[j] == docs[j];
      MergeAllFails(init, i);
    } else if |docs| > 1 {
      var init := docs[..|docs| - 1];
      assert AllParse(init) by {
        forall j | 0 <= j < |init| ensures ParseChecklist(init[j]).Ok? {
          assert init[j] == docs[j];
        }
      }
      MergeAllParsed(init);
    }
  }

  /** Merging never succeeds unless every document parses. */
  lemma MergeOkOnlyIfAllParse(docs: seq<seq<Event>>)
    requires Merge(docs).Ok?
    ensures docs != [] && AllParse(docs)
  {
    if !AllParse(docs) {
      var i := FirstFailure(docs);
      MergeAllFails(docs, i);
    }
  }

  /** The index of the first document that does not parse. */
  function FirstFailure(docs: seq<seq<Event>>): (i: nat)
    requires !AllParse(docs)
    ensures i < |docs| && ParseChecklist(docs[i]).Err?
    ensures forall j :: 0 <= j < i ==> ParseChecklist(docs[j]).Ok?
  {
    if ParseChecklist(docs[0]).Err? then 0
    else
      TailFails(docs);
      var j := FirstFailure(docs[1..]);
      assert forall m :: 1 <= m <= j ==> docs[m] == docs[1..][m - 1];
      j + 1
  }

  lemma TailFails(docs: seq<seq<Event>>)
    requires !AllParse(docs) && ParseChecklist(docs[0]).Ok?
    ensures !AllParse(docs[1..])
  {
    var k :| 0 <= k < |docs| && !ParseChecklist(docs[k]).Ok?;
    assert docs[1..][k - 1] == docs[k];
  }

  /**
   * `parse_and_merge_stig_checklists` over the documents' events: an empty
   * list is rejected, the first document that fails ends the merge with its
   * error, and otherwise the first checklist absorbs the vulnerabilities of
   * the others.
   */
  method ParseAndMergeStigChecklists(docs: seq<seq<Event>>) returns (r: Result<StigChecklist, StigError>)
    ensures r == Merge(docs)
  {
    if docs == [] {
      return Err(InvalidFormat(NO_FILES));
    }
    var merged: Option<StigChecklist> := None;
    var index := 0;
    while index < |docs|
      invariant 0 <= index <= |docs|
      invariant index == 0 <==> merged.None?
      invariant index > 0 ==> MergeAll(docs[..index]) == Ok(merged.value)
    {
      var checklist := ParseStigChecklist(docs[index]);
      assert docs[..index + 1][..index] == docs[..index];
      if checklist.Err? {
        r := Err(checklist.error);
        PrefixFailureIsFinal(docs, index + 1);
        return;
      }
      if index == 0 {
        merged := Some(checklist.value);
      } else {
        var m := merged.value;
        merged := Some(m.(vulnerabilities := m.vulnerabilities + checklist.value.vulnerabilities));
      }
      index := index + 1;
    }
    assert docs[..index] == docs;
    r := match merged
      case Some(m) => Ok(m)
      case None => Err(InvalidFormat(NO_CHECKLIST));
  }

  /** Once a prefix of the documents fails, the whole merge fails the same way. */
  lemma {:induction false} PrefixFailureIsFinal(docs: seq<seq<Event>>, n: nat)
    requires 0 < n <= |docs|
    requires MergeAll(docs[..n]).Err?
    ensures MergeAll(docs) == MergeAll(docs[..n])
    decreases |docs| - n
  {
    if n < |docs| {
      assert docs[..n + 1][..n] == docs[..n];
      PrefixFailureIsFinal(docs, n + 1);
    } else {
      assert docs[..n] == docs;
    }
  }
}
