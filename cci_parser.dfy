/**
 * `parse_cci_list`: the single pass over the DISA CCI list. A `cci_item`
 * start tag opens a record named by its `id` attribute; the text of its
 * `definition`, `type`, `status` and `publishdate` children is stored at the
 * next end tag; every self-closing `reference` inside `references` whose
 * title names NIST SP 800-53 contributes its trimmed `index` once. At
 * `</cci_item>` the record is kept when its id is not empty.
 *
 * At an end tag the loop looks at the name of the last START tag, not at the
 * name of the end tag itself. So when a `definition`, `type`, `status` or
 * `publishdate` child is the last child of its item, `</cci_item>` stores the
 * (empty) text again into that same field: `StaleFieldCleared` shows it.
 */
module CciParser {
  import opened Wrappers
  import opened Strings
  import opened XmlEscape
  import opened XmlEvents
  import opened StigTypes

  /** What a reference's title must contain for its index to count as a NIST control. */
  const NIST_TITLE: String := "NIST SP 800-53"

  /** Everything the parser's loop carries from one event to the next. */
  datatype CciState = CciState(
    mappings: seq<CciMapping>,
    current: Option<CciMapping>,
    element: String,
    text: String,
    inCciItem: bool,
    inReferences: bool)

  function InitialCciState(): CciState {
    CciState([], None, "", "", false, false)
  }

  /**
   * The title derived from a definition: the text before its first '.'.
   * `split('.').next()` always has a first piece, so the 100-character
   * fallback the source offers is never used.
   */
  function TitleOf(definition: String): (title: String)
    ensures IsPrefix(title, definition) && '.' !in title
    ensures title == definition || definition[|title|] == '.'
  {
    BeforeFirst(definition, '.')
  }

  /** A start tag: remember its name; `cci_item` opens a fresh record, `references` the reference list. */
  function Open(st: CciState, name: String, attrs: seq<Attr>): CciState {
    var st := st.(element := name);
    if name == "cci_item" then st.(inCciItem := true, current := Some(NewCci(FirstAttr(attrs, "id").GetOr(""))))
    else if name == "references" then st.(inReferences := true)
    else st
  }

  /** The control a `<reference .../>` names: its trimmed `index`, when its `title` names NIST SP 800-53. */
  function NistControlOf(attrs: seq<Attr>): (r: Option<String>)
    ensures r.Some? ==> r.value != [] && IsTrimmed(r.value)
    ensures r.Some? ==> Contains(FirstAttr(attrs, "title").GetOr(""), NIST_TITLE)
    ensures r.Some? <==> Contains(FirstAttr(attrs, "title").GetOr(""), NIST_TITLE) && Trim(FirstAttr(attrs, "index").GetOr("")) != []
  {
    var title := FirstAttr(attrs, "title").GetOr("");
    var index := FirstAttr(attrs, "index").GetOr("");
    TrimIsTrimmed(index);
    if Contains(title, NIST_TITLE) && index != [] then
      var clean := Trim(index);
      if clean != [] then Some(clean) else None
    else None
  }

  /** A reference adds its control unless the record already lists it. */
  function AddReference(c: CciMapping, attrs: seq<Attr>): CciMapping {
    match NistControlOf(attrs)
    case Some(control) => if control in c.nistControls then c else c.(nistControls := c.nistControls + [control])
    case None => c
  }

  /** The `match current_element` at an end tag: the trimmed text goes to the field the last start tag names. */
  function StoreField(c: CciMapping, element: String, t: String): CciMapping {
    if element == "definition" then c.(definition := t, title := TitleOf(t))
    else if element == "type" then c.(cciType := t)
    else if element == "status" then c.(status := t)
    else if element == "publishdate" then c.(publishDate := t)
    else c
  }

  /** The second part of an end tag: `</cci_item>` keeps a record with an id and drops the current one. */
  function Close(st: CciState, name: String): CciState {
    if name == "cci_item" then
      var kept := if st.current.Some? && st.current.value.id != [] then st.mappings + [st.current.value] else st.mappings;
      st.(mappings := kept, current := None, inCciItem := false)
    else if name == "references" then st.(inReferences := false)
    else st
  }

  /** One event that does not end the loop. */
  function Step(st: CciState, ev: Event): CciState {
    match ev
    case Start(name, attrs) => Open(st, name, attrs).(text := "")
    case Empty(name, attrs) =>
      if name == "reference" && st.inReferences && st.current.Some? then
        st.(current := Some(AddReference(st.current.value, attrs)))
      else st
    case Text(raw) => st.(text := st.text + Unescape(raw).GetOr(""))
    case End(name) =>
      var stored := if st.current.Some? then st.(current := Some(StoreField(st.current.value, st.element, Trim(st.text)))) else st;
      Close(stored, name).(text := "")
    case _ => st
  }

  /** The rest of the loop from event `i` in state `st`: stop at `Eof` or at the end, fail on a tokenizer error. */
  function Run(st: CciState, evs: seq<Event>, i: nat): Result<seq<CciMapping>, StigError>
    requires i <= |evs|
    decreases |evs| - i
  {
    if i == |evs| || evs[i].Eof? then Ok(st.mappings)
    else if evs[i].Malformed? then Err(XmlParsing(evs[i].detail))
    else Run(Step(st, evs[i]), evs, i + 1)
  }

  /** The state after the events `evs`, none of which ends the loop. */
  function Steps(st: CciState, evs: seq<Event>): CciState
    decreases |evs|
  {
    if evs == [] then st else Steps(Step(st, evs[0]), evs[1..])
  }

  /** What `parse_cci_list` returns for a document with events `evs`. */
  function ParseCci(evs: seq<Event>): Result<seq<CciMapping>, StigError> {
    Run(InitialCciState(), evs, 0)
  }

  /** The self-closing `reference` arm: add the trimmed index of a NIST reference the record does not list yet. */
  method ReferenceArm(cci0: CciMapping, attrs: seq<Attr>) returns (cci: CciMapping)
    ensures cci == AddReference(cci0, attrs)
  {
    cci := cci0;
    var title := FirstAttr(attrs, "title").GetOr("");
    var index := FirstAttr(attrs, "index").GetOr("");
    if Contains(title, NIST_TITLE) && index != [] {
      var clean := Trim(index);
      if clean != [] && clean !in cci.nistControls {
        cci := cci.(nistControls := cci.nistControls + [clean]);
      }
    }
  }

  /** The `match current_element` of the end-tag arm. */
  method StoreFieldArm(cci0: CciMapping, element: String, text: String) returns (cci: CciMapping)
    ensures cci == StoreField(cci0, element, text)
  {
    cci := cci0;
    if element == "definition" {
      cci := cci.(definition := text);
      cci := cci.(title := BeforeFirst(cci.definition, '.'));
    } else if element == "type" {
      cci := cci.(cciType := text);
    } else if element == "status" {
      cci := cci.(status := text);
    } else if element == "publishdate" {
      cci := cci.(publishDate := text);
    }
  }

  /** The `match name` of the end-tag arm: `</cci_item>` keeps a record with an id, `</references>` leaves the list. */
  method CloseArm(st0: CciState, name: String) returns (st: CciState)
    ensures st == Close(st0, name)
  {
    st := st0;
    if name == "cci_item" {
      if st.current.Some? && st.current.value.id != [] {
        st := st.(mappings := st.mappings + [st.current.value]);
      }
      st := st.(current := None, inCciItem := false);
    } else if name == "references" {
      st := st.(inReferences := false);
    }
  }

  /**
   * `parse_cci_list`, with the file's events in place of its path. The
   * loop's locals are the fields of `st`.
   */
  method ParseCciList(evs: seq<Event>) returns (r: Result<seq<CciMapping>, StigError>)
    ensures r == ParseCci(evs)
  {
    var st := InitialCciState();
    var i := 0;
    while i < |evs|
      invariant 0 <= i <= |evs|
      invariant Run(st, evs, i) == ParseCci(evs)
    {
      match evs[i] {
        case Start(name, attrs) =>
          st := st.(element := name);
          if name == "cci_item" {
            var id := FirstAttr(attrs, "id").GetOr("");
            st := st.(inCciItem := true, current := Some(NewCci(id)));
          } else if name == "references" {
            st := st.(inReferences := true);
          }
          st := st.(text := "");
        case Empty(name, attrs) =>
          if name == "reference" && st.inReferences && st.current.Some? {
            var cci := ReferenceArm(st.current.value, attrs);
            st := st.(current := Some(cci));
          }
        case Text(raw) =>
          st := st.(text := st.text + Unescape(raw).GetOr(""));
        case End(name) =>
          if st.current.Some? {
            var cci := StoreFieldArm(st.current.value, st.element, Trim(st.text));
            st := st.(current := Some(cci));
          }
          st := CloseArm(st, name);
          st := st.(text := "");
        case Eof =>
          break;
        case Malformed(detail) =>
          return Err(XmlParsing(detail));
        case _ =>
      }
      i := i + 1;
    }
    r := Ok(st.mappings);
  }

  /** A control list as the parser builds it: no repeats, each entry trimmed and not empty. */
  predicate WellFormedControls(cs: seq<String>) {
    && NoDuplicates(cs)
    && forall k :: 0 <= k < |cs| ==> cs[k] != [] && IsTrimmed(cs[k])
  }

  /** A record as the parser builds it: trimmed text, the title derived from the definition, well-formed controls. */
  predicate WellFormedCci(c: CciMapping) {
    && WellFormedControls(c.nistControls)
    && IsTrimmed(c.definition) && IsTrimmed(c.cciType) && IsTrimmed(c.status) && IsTrimmed(c.publishDate)
    && c.title == TitleOf(c.definition)
  }

  /** What holds of the loop's state between any two events. */
  predicate CciInvariant(st: CciState) {
    && (forall k :: 0 <= k < |st.mappings| ==> st.mappings[k].id != [] && WellFormedCci(st.mappings[k]))
    && (st.current.Some? ==> WellFormedCci(st.current.value))
  }

  /** A reference adds its control at the end exactly when it names a new one, and the list stays well formed. */
  lemma AddReferenceKeepsControls(c: CciMapping, attrs: seq<Attr>)
    requires WellFormedControls(c.nistControls)
    ensures var r := AddReference(c, attrs);
      && WellFormedControls(r.nistControls)
      && r == c.(nistControls := r.nistControls)
      && (r.nistControls == c.nistControls <==> NistControlOf(attrs).None? || NistControlOf(attrs).value in c.nistControls)
      && (r.nistControls != c.nistControls ==> r.nistControls == c.nistControls + [NistControlOf(attrs).value])
  {
    match NistControlOf(attrs)
    case None =>
    case Some(control) =>
      if control !in c.nistControls {
        var cs := c.nistControls + [control];
        assert cs[|cs| - 1] == control;
        assert |cs| != |c.nistControls|;
        forall i, j | 0 <= i < j < |cs| ensures cs[i] != cs[j] {
          if j == |cs| - 1 {
            assert cs[i] == c.nistControls[i];
          }
        }
      }
  }

  lemma NewCciWellFormed(id: String)
    ensures WellFormedCci(NewCci(id))
  {
    assert TitleOf("") == "";
  }

  lemma StoreFieldKeepsWellFormed(c: CciMapping, element: String, t: String)
    requires WellFormedCci(c) && IsTrimmed(t)
    ensures WellFormedCci(StoreField(c, element, t))
  {
  }

  lemma CloseKeepsInvariant(st: CciState, name: String)
    requires CciInvariant(st)
    ensures CciInvariant(Close(st, name))
  {
    if name == "cci_item" && st.current.Some? && st.current.value.id != [] {
      var kept := st.mappings + [st.current.value];
      forall k | 0 <= k < |kept| ensures kept[k].id != [] && WellFormedCci(kept[k]) {
        if k < |st.mappings| {
          assert kept[k] == st.mappings[k];
        }
      }
    }
  }

  lemma StepKeepsInvariant(st: CciState, ev: Event)
    requires CciInvariant(st)
    ensures CciInvariant(Step(st, ev))
  {
    match ev
    case Start(name, attrs) =>
      NewCciWellFormed(FirstAttr(attrs, "id").GetOr(""));
    case Empty(name, attrs) =>
      if name == "reference" && st.inReferences && st.current.Some? {
        AddReferenceKeepsControls(st.current.value, attrs);
      }
    case End(name) =>
      TrimIsTrimmed(st.text);
      var stored := if st.current.Some? then st.(current := Some(StoreField(st.current.value, st.element, Trim(st.text)))) else st;
      if st.current.Some? {
        StoreFieldKeepsWellFormed(st.current.value, st.element, Trim(st.text));
      }
      CloseKeepsInvariant(stored, name);
    case _ =>
  }

  lemma {:induction false} RunKeepsInvariant(st: CciState, evs: seq<Event>, i: nat)
    requires i <= |evs| && CciInvariant(st)
    ensures Run(st, evs, i).Ok? ==>
      forall k :: 0 <= k < |Run(st, evs, i).value| ==> Run(st, evs, i).value[k].id != [] && WellFormedCci(Run(st, evs, i).value[k])
    decreases |evs| - i
  {
    if i < |evs| && !evs[i].Eof? && !evs[i].Malformed? {
      StepKeepsInvariant(st, evs[i]);
      RunKeepsInvariant(Step(st, evs[i]), evs, i + 1);
    }
  }

  /**
   * Every record the parser returns has a non-empty id, a title that is its
   * definition up to the first '.', trimmed text, and NIST controls that are
   * distinct, trimmed and not empty.
   */
  lemma ParsedCcisWellFormed(evs: seq<Event>)
    ensures ParseCci(evs).Ok? ==>
      forall k :: 0 <= k < |ParseCci(evs).value| ==> ParseCci(evs).value[k].id != [] && WellFormedCci(ParseCci(evs).value[k])
  {
    RunKeepsInvariant(InitialCciState(), evs, 0);
  }

  /** `control` is what the self-closing reference `e` contributes. */
  predicate NistReference(e: Event, control: String) {
    e.Empty? && e.name == "reference" && NistControlOf(e.attrs) == Some(control)
  }

  predicate SourcedIn(control: String, evs: seq<Event>) {
    exists k :: 0 <= k < |evs| && NistReference(evs[k], control)
  }

  predicate AllSourced(cs: seq<String>, evs: seq<Event>) {
    forall k :: 0 <= k < |cs| ==> SourcedIn(cs[k], evs)
  }

  /** Every control the state holds comes from some NIST reference among `evs`. */
  predicate StateSourced(st: CciState, evs: seq<Event>) {
    && (forall j :: 0 <= j < |st.mappings| ==> AllSourced(st.mappings[j].nistControls, evs))
    && (st.current.Some? ==> AllSourced(st.current.value.nistControls, evs))
  }

  lemma AppendSourced(cs: seq<String>, control: String, evs: seq<Event>)
    requires AllSourced(cs, evs) && SourcedIn(control, evs)
    ensures AllSourced(cs + [control], evs)
  {
    var cs' := cs + [control];
    forall k | 0 <= k < |cs'| ensures SourcedIn(cs'[k], evs) {
      if k < |cs| {
        assert cs'[k] == cs[k];
      }
    }
  }

  lemma CloseKeepsSourced(st: CciState, name: String, evs: seq<Event>)
    requires StateSourced(st, evs)
    ensures StateSourced(Close(st, name), evs)
  {
    if name == "cci_item" && st.current.Some? && st.current.value.id != [] {
      var kept := st.mappings + [st.current.value];
      forall j | 0 <= j < |kept| ensures AllSourced(kept[j].nistControls, evs) {
        if j < |st.mappings| {
          assert kept[j] == st.mappings[j];
        }
      }
    }
  }

  lemma ReferenceKeepsSourced(c: CciMapping, evs: seq<Event>, i: nat)
    requires i < |evs| && evs[i].Empty? && evs[i].name == "reference"
    requires AllSourced(c.nistControls, evs)
    ensures AllSourced(AddReference(c, evs[i].attrs).nistControls, evs)
  {
    match NistControlOf(evs[i].attrs)
    case None =>
    case Some(control) =>
      assert NistReference(evs[i], control);
      AppendSourced(c.nistControls, control, evs);
  }

  lemma StepKeepsSourced(st: CciState, evs: seq<Event>, i: nat)
    requires i < |evs| && StateSourced(st, evs)
    ensures StateSourced(Step(st, evs[i]), evs)
  {
    match evs[i]
    case Empty(name, attrs) =>
      if name == "reference" && st.inReferences && st.current.Some? {
        ReferenceKeepsSourced(st.current.value, evs, i);
      }
    case End(name) =>
      var stored := if st.current.Some? then st.(current := Some(StoreField(st.current.value, st.element, Trim(st.text)))) else st;
      CloseKeepsSourced(stored, name, evs);
    case _ =>
  }

  lemma {:induction false} RunKeepsSourced(st: CciState, evs: seq<Event>, i: nat)
    requires i <= |evs| && StateSourced(st, evs)
    ensures Run(st, evs, i).Ok? ==>
      forall j :: 0 <= j < |Run(st, evs, i).value| ==> AllSourced(Run(st, evs, i).value[j].nistControls, evs)
    decreases |evs| - i
  {
    if i < |evs| && !evs[i].Eof? && !evs[i].Malformed? {
      StepKeepsSourced(st, evs, i);
      RunKeepsSourced(Step(st, evs[i]), evs, i + 1);
    }
  }

  /**
   * Every NIST control of a parsed record is the trimmed `index` of some
   * self-closing `reference` of the document whose `title` contains
   * "NIST SP 800-53".
   */
  lemma ParsedControlsSourced(evs: seq<Event>)
    ensures ParseCci(evs).Ok? ==>
      forall j :: 0 <= j < |ParseCci(evs).value| ==> AllSourced(ParseCci(evs).value[j].nistControls, evs)
  {
    RunKeepsSourced(InitialCciState(), evs, 0);
  }

  lemma {:induction false} RunFails(st: CciState, evs: seq<Event>, i: nat)
    requires i <= |evs|
    ensures Run(st, evs, i).Err? <==> exists j :: i <= j < |evs| && evs[j].Malformed? && NoStopBetween(evs, i, j)
    ensures Run(st, evs, i).Err? ==> exists j :: i <= j < |evs| && evs[j].Malformed? && Run(st, evs, i).error == XmlParsing(evs[j].detail)
    decreases |evs| - i
  {
    if i < |evs| && !evs[i].Eof? && !evs[i].Malformed? {
      RunFails(Step(st, evs[i]), evs, i + 1);
      if Run(st, evs, i).Err? {
        var j :| i + 1 <= j < |evs| && evs[j].Malformed? && NoStopBetween(evs, i + 1, j);
        assert NoStopBetween(evs, i, j);
      } else {
        assert forall j :: i < j <= |evs| && NoStopBetween(evs, i, j) ==> NoStopBetween(evs, i + 1, j);
      }
    } else if i < |evs| && evs[i].Malformed? {
      assert NoStopBetween(evs, i, i);
    } else if i < |evs| {
      assert IsTerminal(evs[i]);
    }
  }

  /** Parsing fails exactly when a tokenizer error comes before the first `Eof`, and then with that error's detail. */
  lemma ParseCciFails(evs: seq<Event>)
    ensures ParseCci(evs).Err? <==> exists j :: 0 <= j < |evs| && evs[j].Malformed? && NoStopBetween(evs, 0, j)
    ensures ParseCci(evs).Err? ==> exists j :: 0 <= j < |evs| && evs[j].Malformed? && ParseCci(evs).error == XmlParsing(evs[j].detail)
  {
    RunFails(InitialCciState(), evs, 0);
  }

  lemma StepOnlyAppends(st: CciState, ev: Event)
    ensures st.mappings <= Step(st, ev).mappings
  {
  }

  lemma {:induction false} StepsAppend(st: CciState, a: seq<Event>, b: seq<Event>)
    ensures Steps(st, a + b) == Steps(Steps(st, a), b)
    decreases |a|
  {
    if a == [] {
      assert a + b == b;
    } else {
      assert (a + b)[1..] == a[1..] + b;
      StepsAppend(Step(st, a[0]), a[1..], b);
    }
  }

  lemma {:induction false} RunOnlyAppends(st: CciState, evs: seq<Event>, i: nat)
    requires i <= |evs|
    ensures Run(st, evs, i).Ok? ==> st.mappings <= Run(st, evs, i).value
    decreases |evs| - i
  {
    if i < |evs| && !evs[i].Eof? && !evs[i].Malformed? {
      StepOnlyAppends(st, evs[i]);
      RunOnlyAppends(Step(st, evs[i]), evs, i + 1);
    }
  }

  /** The loop runs through events that do not stop it one `Step` at a time. */
  lemma {:induction false} RunThrough(st: CciState, evs: seq<Event>, i: nat, j: nat)
    requires i <= j <= |evs| && NoStopBetween(evs, i, j)
    ensures Run(st, evs, i) == Run(Steps(st, evs[i..j]), evs, j)
    decreases j - i
  {
    if i < j {
      assert evs[i..j][0] == evs[i] && evs[i..j][1..] == evs[i + 1..j];
      RunThrough(Step(st, evs[i]), evs, i + 1, j);
    }
  }

  /** A document none of whose events stops the loop yields the records of the state after all of them. */
  lemma ParseAll(evs: seq<Event>)
    requires NoTerminal(evs)
    ensures ParseCci(evs) == Ok(Steps(InitialCciState(), evs).mappings)
  {
    RunThrough(InitialCciState(), evs, 0, |evs|);
    assert evs[0..|evs|] == evs;
  }

  /**
   * Records are kept in document order: the records the events `evs` yield
   * lead the records any continuation of them yields.
   */
  lemma ParsedPrefixKept(evs: seq<Event>, more: seq<Event>)
    requires NoTerminal(evs)
    ensures ParseCci(evs).Ok?
    ensures ParseCci(evs + more).Ok? ==> ParseCci(evs).value <= ParseCci(evs + more).value
  {
    ParseAll(evs);
    var all := evs + more;
    assert NoStopBetween(all, 0, |evs|) by {
      forall k | 0 <= k < |evs| ensures !IsTerminal(all[k]) {
        assert all[k] == evs[k];
      }
    }
    RunThrough(InitialCciState(), all, 0, |evs|);
    assert all[0..|evs|] == evs;
    RunOnlyAppends(Steps(InitialCciState(), evs), all, |evs|);
  }

  /** An event inside an item: it neither opens nor closes a `cci_item`. */
  predicate InsideItem(e: Event) {
    !(e.Start? && e.name == "cci_item") && !(e.End? && e.name == "cci_item")
  }

  /** Inside an item the records already kept stay as they are and the open record keeps its id. */
  lemma {:induction false} StepsInsideItem(st: CciState, body: seq<Event>)
    requires st.current.Some?
    requires forall k :: 0 <= k < |body| ==> InsideItem(body[k])
    ensures Steps(st, body).mappings == st.mappings
    ensures Steps(st, body).current.Some? && Steps(st, body).current.value.id == st.current.value.id
    decreases |body|
  {
    if body != [] {
      var st1 := Step(st, body[0]);
      assert st1.mappings == st.mappings && st1.current.Some? && st1.current.value.id == st.current.value.id;
      StepsInsideItem(st1, body[1..]);
    }
  }

  /**
   * One `cci_item` element, whatever its children: it adds exactly one
   * record, carrying its `id` attribute, at the end of the records kept so
   * far when that id is not empty, and adds nothing otherwise.
   */
  lemma StepsItem(st: CciState, attrs: seq<Attr>, body: seq<Event>)
    requires forall k :: 0 <= k < |body| ==> InsideItem(body[k])
    ensures var id := FirstAttr(attrs, "id").GetOr("");
      var st' := Steps(st, [Start("cci_item", attrs)] + body + [End("cci_item")]);
      && st'.current.None?
      && (id == [] ==> st'.mappings == st.mappings)
      && (id != [] ==> |st'.mappings| == |st.mappings| + 1 && st'.mappings[..|st.mappings|] == st.mappings
                       && st'.mappings[|st.mappings|].id == id)
  {
    var open := [Start("cci_item", attrs)];
    var st1 := Step(st, Start("cci_item", attrs));
    StepsAppend(st, open + body, [End("cci_item")]);
    StepsAppend(st, open, body);
    assert open[1..] == [];
    StepsInsideItem(st1, body);
    var st2 := Steps(st1, body);
    assert [End("cci_item")][1..] == [];
    var st3 := Step(st2, End("cci_item"));
    assert Steps(st2, [End("cci_item")]) == st3;
  }

  /**
   * The field of the last start tag is stored again at every end tag: a
   * `type` child that ends its item is emptied by `</cci_item>`, so the
   * record is kept with an empty `cci_type` whatever the text was.
   */
  lemma StaleFieldCleared(st: CciState, raw: String)
    requires st.current.Some? && st.current.value.id != []
    ensures var st' := Steps(st, [Start("type", []), Text(raw), End("type"), End("cci_item")]);
      |st'.mappings| == |st.mappings| + 1 && st'.mappings[|st.mappings|].cciType == ""
  {
    var e := [Start("type", []), Text(raw), End("type"), End("cci_item")];
    var s1 := Step(st, e[0]);
    var s2 := Step(s1, e[1]);
    var s3 := Step(s2, e[2]);
    assert s3.element == "type" && s3.text == "" && s3.current.Some?;
    var s4 := Step(s3, e[3]);
    assert Trim("") == "";
    assert s4.mappings == st.mappings + [StoreField(s3.current.value, "type", "")];
    assert Steps(s3, [e[3]]) == s4 by {
      assert [e[3]][1..] == [];
    }
    assert Steps(s2, [e[2], e[3]]) == s4 by {
      assert [e[2], e[3]][1..] == [e[3]];
    }
    assert Steps(s1, [e[1], e[2], e[3]]) == s4 by {
      assert [e[1], e[2], e[3]][1..] == [e[2], e[3]];
    }
    assert e[1..] == [e[1], e[2], e[3]];
  }
  /** Whether a `references` element is open after the event `e`, when `inRefs` said so before it. */
  function RefsAfter(inRefs: bool, e: Event): bool {
    if e.Start? && e.name == "references" then true
    else if e.End? && e.name == "references" then false
    else inRefs
  }

  /**
   * Whether a `references` element is open just before event `k` of `body`:
   * the last `references` tag before it decides, and `inRefs` when there is none.
   */
  function OpenBefore(inRefs: bool, body: seq<Event>, k: nat): bool
    requires k <= |body|
  {
    if k == 0 then inRefs
    else if body[k - 1].Start? && body[k - 1].name == "references" then true
    else if body[k - 1].End? && body[k - 1].name == "references" then false
    else OpenBefore(inRefs, body, k - 1)
  }

  /**
   * The NIST controls named by the self-closing `reference` elements of
   * `body` that lie inside a `references` element, in document order,
   * repeats included.
   */
  function ReferencedControls(inRefs: bool, body: seq<Event>): seq<String>
    decreases |body|
  {
    if body == [] then []
    else
      var e := body[0];
      var here := if e.Empty? && e.name == "reference" && inRefs && NistControlOf(e.attrs).Some?
                  then [NistControlOf(e.attrs).value] else [];
      here + ReferencedControls(RefsAfter(inRefs, e), body[1..])
  }

  /** `acc` followed by those elements of `xs` not seen before, in order. */
  function AppendNew(acc: seq<String>, xs: seq<String>): seq<String>
    decreases |xs|
  {
    if xs == [] then acc else AppendNew(if xs[0] in acc then acc else acc + [xs[0]], xs[1..])
  }

  lemma {:induction false} AppendNewSplit(acc: seq<String>, a: seq<String>, b: seq<String>)
    ensures AppendNew(acc, a + b) == AppendNew(AppendNew(acc, a), b)
    decreases |a|
  {
    if a == [] {
      assert a + b == b;
    } else {
      assert (a + b)[0] == a[0] && (a + b)[1..] == a[1..] + b;
      AppendNewSplit(if a[0] in acc then acc else acc + [a[0]], a[1..], b);
    }
  }

  /** Appending only new elements keeps a list free of repeats and yields exactly the elements of both. */
  lemma {:induction false} AppendNewMembers(acc: seq<String>, xs: seq<String>)
    requires NoDuplicates(acc)
    ensures NoDuplicates(AppendNew(acc, xs))
    ensures forall x :: x in AppendNew(acc, xs) <==> x in acc || x in xs
    decreases |xs|
  {
    if xs != [] {
      var acc' := if xs[0] in acc then acc else acc + [xs[0]];
      assert NoDuplicates(acc');
      AppendNewMembers(acc', xs[1..]);
      assert forall x :: x in xs <==> x == xs[0] || x in xs[1..];
    }
  }

  lemma {:induction false} OpenBeforeShift(inRefs: bool, body: seq<Event>, k: nat)
    requires body != [] && k < |body|
    ensures OpenBefore(inRefs, body, k + 1) == OpenBefore(RefsAfter(inRefs, body[0]), body[1..], k)
    decreases k
  {
    if k > 0 {
      assert body[1..][k - 1] == body[k];
      OpenBeforeShift(inRefs, body, k - 1);
    }
  }

  /** A control is referenced exactly when some `reference` inside an open `references` element names it. */
  lemma {:induction false} ReferencedControlsMembers(inRefs: bool, body: seq<Event>, x: String)
    ensures x in ReferencedControls(inRefs, body) <==>
      exists k :: 0 <= k < |body| && body[k].Empty? && body[k].name == "reference"
                  && OpenBefore(inRefs, body, k) && NistControlOf(body[k].attrs) == Some(x)
    decreases |body|
  {
    if body != [] {
      var e := body[0];
      var inRefs' := RefsAfter(inRefs, e);
      var rest := body[1..];
      ReferencedControlsMembers(inRefs', rest, x);
      if x in ReferencedControls(inRefs, body) {
        if x !in ReferencedControls(inRefs', rest) {
          assert body[0].Empty? && body[0].name == "reference" && OpenBefore(inRefs, body, 0)
                 && NistControlOf(body[0].attrs) == Some(x);
        } else {
          var k :| 0 <= k < |rest| && rest[k].Empty? && rest[k].name == "reference"
                   && OpenBefore(inRefs', rest, k) && NistControlOf(rest[k].attrs) == Some(x);
          OpenBeforeShift(inRefs, body, k);
          assert body[k + 1] == rest[k];
        }
      }
      if exists k :: 0 <= k < |body| && body[k].Empty? && body[k].name == "reference"
                     && OpenBefore(inRefs, body, k) && NistControlOf(body[k].attrs) == Some(x) {
        var k :| 0 <= k < |body| && body[k].Empty? && body[k].name == "reference"
                 && OpenBefore(inRefs, body, k) && NistControlOf(body[k].attrs) == Some(x);
        if k > 0 {
          OpenBeforeShift(inRefs, body, k - 1);
          assert rest[k - 1] == body[k];
        }
      }
    }
  }

  /** Inside an item, the open record's controls grow by the new controls its references name. */
  lemma {:induction false} StepsInsideItemControls(st: CciState, body: seq<Event>)
    requires st.current.Some?
    requires forall k :: 0 <= k < |body| ==> InsideItem(body[k])
    ensures Steps(st, body).current.Some?
    ensures Steps(st, body).current.value.nistControls
         == AppendNew(st.current.value.nistControls, ReferencedControls(st.inReferences, body))
    decreases |body|
  {
    if body != [] {
      var e := body[0];
      var st1 := Step(st, e);
      var here := if e.Empty? && e.name == "reference" && st.inReferences && NistControlOf(e.attrs).Some?
                  then [NistControlOf(e.attrs).value] else [];
      assert st1.current.Some? && st1.inReferences == RefsAfter(st.inReferences, e);
      assert st1.current.value.nistControls == AppendNew(st.current.value.nistControls, here);
      StepsInsideItemControls(st1, body[1..]);
      AppendNewSplit(st.current.value.nistControls, here, ReferencedControls(st1.inReferences, body[1..]));
    }
  }

  /** The events of one `cci_item` element, taken as its start tag, its children and its end tag. */
  lemma ItemSteps(st: CciState, attrs: seq<Attr>, body: seq<Event>)
    ensures Steps(st, [Start("cci_item", attrs)] + body + [End("cci_item")])
         == Step(Steps(Step(st, Start("cci_item", attrs)), body), End("cci_item"))
  {
    var open := [Start("cci_item", attrs)];
    StepsAppend(st, open + body, [End("cci_item")]);
    StepsAppend(st, open, body);
    assert open[1..] == [];
    assert [End("cci_item")][1..] == [];
  }

  /** The controls of the record one `cci_item` adds: its references' new controls in order. */
  lemma ItemRecordControls(st: CciState, attrs: seq<Attr>, body: seq<Event>)
    requires forall k :: 0 <= k < |body| ==> InsideItem(body[k])
    requires FirstAttr(attrs, "id").GetOr("") != []
    ensures |Steps(st, [Start("cci_item", attrs)] + body + [End("cci_item")]).mappings| == |st.mappings| + 1
    ensures Steps(st, [Start("cci_item", attrs)] + body + [End("cci_item")]).mappings[|st.mappings|].nistControls
         == AppendNew([], ReferencedControls(st.inReferences, body))
  {
    ItemSteps(st, attrs, body);
    var st1 := Step(st, Start("cci_item", attrs));
    assert st1.current.value.nistControls == [] && st1.inReferences == st.inReferences;
    assert st1.current.value.id == FirstAttr(attrs, "id").GetOr("") && st1.mappings == st.mappings;
    StepsInsideItem(st1, body);
    StepsInsideItemControls(st1, body);
    CloseItemStep(Steps(st1, body));
  }

  /** `</cci_item>` keeps the open record, with an id, under its controls. */
  lemma CloseItemStep(st: CciState)
    requires st.current.Some? && st.current.value.id != []
    ensures |Step(st, End("cci_item")).mappings| == |st.mappings| + 1
    ensures Step(st, End("cci_item")).mappings[|st.mappings|].nistControls == st.current.value.nistControls
  {
    var stored := StoreField(st.current.value, st.element, Trim(st.text));
    assert stored.nistControls == st.current.value.nistControls && stored.id == st.current.value.id;
    assert Step(st, End("cci_item")).mappings == st.mappings + [stored];
  }

  /**
   * The record one `cci_item` adds lists, without repeats and in order of
   * first appearance, the controls of the NIST references inside its
   * `references` element, and nothing else.
   */
  lemma ItemControls(st: CciState, attrs: seq<Attr>, body: seq<Event>)
    requires forall k :: 0 <= k < |body| ==> InsideItem(body[k])
    requires FirstAttr(attrs, "id").GetOr("") != []
    ensures |Steps(st, [Start("cci_item", attrs)] + body + [End("cci_item")]).mappings| == |st.mappings| + 1
    ensures var controls := Steps(st, [Start("cci_item", attrs)] + body + [End("cci_item")]).mappings[|st.mappings|].nistControls;
      && NoDuplicates(controls)
      && forall x :: x in controls <==>
           exists k :: 0 <= k < |body| && body[k].Empty? && body[k].name == "reference"
                       && OpenBefore(st.inReferences, body, k) && NistControlOf(body[k].attrs) == Some(x)
  {
    ItemRecordControls(st, attrs, body);
    var refs := ReferencedControls(st.inReferences, body);
    AppendNewMembers([], refs);
    forall x ensures x in AppendNew([], refs) <==>
      exists k :: 0 <= k < |body| && body[k].Empty? && body[k].name == "reference"
                  && OpenBefore(st.inReferences, body, k) && NistControlOf(body[k].attrs) == Some(x)
    {
      ReferencedControlsMembers(st.inReferences, body, x);
    }
  }

  /** One `cci_item` element: start tag, children without `cci_item` tags, end tag. */
  predicate ItemElement(b: seq<Event>) {
    && |b| >= 2 && b[0].Start? && b[0].name == "cci_item" && b[|b| - 1] == End("cci_item")
    && forall k :: 1 <= k < |b| - 1 ==> InsideItem(b[k])
  }

  /** A piece of a document whose `cci_item` elements do not nest: one element, or events outside any. */
  predicate ItemSegment(b: seq<Event>) {
    ItemElement(b) || forall k :: 0 <= k < |b| ==> InsideItem(b[k])
  }

  /** The id a segment contributes: its item's `id` attribute when that is not empty. */
  function SegmentKept(b: seq<Event>): seq<String>
    requires ItemSegment(b)
  {
    var id := if ItemElement(b) then FirstAttr(b[0].attrs, "id").GetOr("") else "";
    if id != [] then [id] else []
  }

  /** The ids of the items that are kept, those with a non-empty `id` attribute, in document order. */
  function KeptIds(segs: seq<seq<Event>>): seq<String>
    requires forall i :: 0 <= i < |segs| ==> ItemSegment(segs[i])
  {
    if segs == [] then [] else SegmentKept(segs[0]) + KeptIds(segs[1..])
  }

  /** The ids of records, in order. */
  function Ids(ms: seq<CciMapping>): seq<String> {
    if ms == [] then [] else [ms[0].id] + Ids(ms[1..])
  }

  lemma {:induction false} IdsAppend(a: seq<CciMapping>, b: seq<CciMapping>)
    ensures Ids(a + b) == Ids(a) + Ids(b)
    decreases |a|
  {
    if a == [] {
      assert a + b == b;
    } else {
      assert (a + b)[1..] == a[1..] + b;
      IdsAppend(a[1..], b);
    }
  }

  /** An event that is no `cci_item` tag leaves the kept records alone. */
  lemma StepInsideItemMappings(st: CciState, e: Event)
    requires InsideItem(e)
    ensures Step(st, e).mappings == st.mappings
  {
  }

  lemma {:induction false} StepsOutsideItems(st: CciState, evs: seq<Event>)
    requires forall k :: 0 <= k < |evs| ==> InsideItem(evs[k])
    ensures Steps(st, evs).mappings == st.mappings
    decreases |evs|
  {
    if evs != [] {
      StepInsideItemMappings(st, evs[0]);
      assert forall k :: 0 <= k < |evs[1..]| ==> evs[1..][k] == evs[k + 1];
      StepsOutsideItems(Step(st, evs[0]), evs[1..]);
    }
  }

  /** One segment appends the record of its item when that item is kept, and nothing else. */
  lemma SegmentIds(st: CciState, b: seq<Event>)
    requires ItemSegment(b)
    ensures Ids(Steps(st, b).mappings) == Ids(st.mappings) + SegmentKept(b)
  {
    if ItemElement(b) {
      var attrs, body := b[0].attrs, b[1..|b| - 1];
      assert b == [Start("cci_item", attrs)] + body + [End("cci_item")];
      assert forall k :: 0 <= k < |body| ==> body[k] == b[k + 1];
      StepsItem(st, attrs, body);
      var ms := Steps(st, b).mappings;
      if FirstAttr(attrs, "id").GetOr("") != [] {
        assert ms == st.mappings + [ms[|st.mappings|]];
        IdsAppend(st.mappings, [ms[|st.mappings|]]);
      }
    } else {
      StepsOutsideItems(st, b);
    }
  }

  lemma StepsFlattenCons(st: CciState, segs: seq<seq<Event>>)
    requires segs != []
    ensures Steps(st, Flatten(segs)) == Steps(Steps(st, segs[0]), Flatten(segs[1..]))
  {
    StepsAppend(st, segs[0], Flatten(segs[1..]));
  }

  lemma IdsChain(ids0: seq<String>, ids1: seq<String>, ids2: seq<String>, k0: seq<String>, k1: seq<String>)
    requires ids1 == ids0 + k0 && ids2 == ids1 + k1
    ensures ids2 == ids0 + (k0 + k1)
  {
  }

  lemma {:induction false} StepsItemSegments(st: CciState, segs: seq<seq<Event>>)
    requires forall i :: 0 <= i < |segs| ==> ItemSegment(segs[i])
    ensures Ids(Steps(st, Flatten(segs)).mappings) == Ids(st.mappings) + KeptIds(segs)
    decreases |segs|
  {
    if segs != [] {
      var b, rest := segs[0], segs[1..];
      var st1 := Steps(st, b);
      StepsFlattenCons(st, segs);
      SegmentIds(st, b);
      assert forall i :: 0 <= i < |rest| ==> ItemSegment(rest[i]);
      StepsItemSegments(st1, rest);
      IdsChain(Ids(st.mappings), Ids(st1.mappings), Ids(Steps(st1, Flatten(rest)).mappings), SegmentKept(b), KeptIds(rest));
    }
  }

  /**
   * In a document whose `cci_item` elements do not nest, parsing succeeds
   * with one record per item that has a non-empty id, carrying that id, in
   * document order.
   */
  lemma ParsedCciItems(segs: seq<seq<Event>>)
    requires forall i :: 0 <= i < |segs| ==> ItemSegment(segs[i])
    requires NoTerminal(Flatten(segs))
    ensures ParseCci(Flatten(segs)).Ok?
    ensures Ids(ParseCci(Flatten(segs)).value) == KeptIds(segs)
  {
    ParseAll(Flatten(segs));
    StepsItemSegments(InitialCciState(), segs);
  }
}
