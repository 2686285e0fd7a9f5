/**
 * The event stream the XML tokenizer hands to the parsers. The tokenizer
 * itself is not part of this model: a document is given as the sequence of
 * events it produces, and any tokenizer error is one `Malformed` event.
 */
module XmlEvents {
  import opened Wrappers
  import opened Strings

  /** One `key="value"` attribute, with its value as written (not unescaped). */
  datatype Attr = Attr(key: String, value: String)

  datatype Event =
    | Start(name: String, attrs: seq<Attr>)  // <name ...>
    | Empty(name: String, attrs: seq<Attr>)  // <name .../>
    | Text(raw: String)                      // character data, still escaped
    | End(name: String)                      // </name>
    | Decl                                   // <?xml ...?>
    | Comment(body: String)                  // <!--body-->
    | Other                                  // CDATA, processing instructions, doctype
    | Eof
    | Malformed(detail: String)              // the tokenizer's error

  /** The events that stop a parser's loop. */
  predicate IsTerminal(e: Event) {
    e.Eof? || e.Malformed?
  }

  /** A document given as consecutive pieces. */
  function Flatten(segs: seq<seq<Event>>): seq<Event> {
    if segs == [] then [] else segs[0] + Flatten(segs[1..])
  }

  predicate NoTerminal(evs: seq<Event>) {
    forall i :: 0 <= i < |evs| ==> !IsTerminal(evs[i])
  }

  /** No `Eof` or tokenizer error among `evs[i..j]`. */
  predicate NoStopBetween(evs: seq<Event>, i: nat, j: nat)
    requires i <= j <= |evs|
  {
    forall k :: i <= k < j ==> !IsTerminal(evs[k])
  }

  /** The value of the first attribute named `key`, as the attribute loops find it. */
  function FirstAttr(attrs: seq<Attr>, key: String): (r: Option<String>)
    ensures r.None? <==> forall i :: 0 <= i < |attrs| ==> attrs[i].key != key
    ensures r.Some? ==> exists i :: 0 <= i < |attrs| && attrs[i] == Attr(key, r.value)
                          && forall j :: 0 <= j < i ==> attrs[j].key != key
  {
    if attrs == [] then None
    else if attrs[0].key == key then Some(attrs[0].value)
    else
      var r := FirstAttr(attrs[1..], key);
      if r.Some? then
        var i :| 0 <= i < |attrs[1..]| && attrs[1..][i] == Attr(key, r.value)
                 && forall j :: 0 <= j < i ==> attrs[1..][j].key != key;
        assert attrs[i + 1] == Attr(key, r.value);
        r
      else r
  }
}
