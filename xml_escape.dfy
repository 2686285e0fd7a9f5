/**
 * Escaping of XML character data with the five predefined entities of
 * XML 1.0, section 4.6 (Predefined Entities): `&amp;`, `&lt;`, `&gt;`,
 * `&quot;` and `&apos;`, and the unescaping a tokenizer applies to text.
 */
module XmlEscape {
  import opened Wrappers
  import opened Strings

  /** `str::replace` with a one-character pattern. */
  function ReplaceChar(s: String, c: char, rep: String): (r: String)
    ensures c !in s ==> r == s
  {
    if s == [] then [] else (if s[0] == c then rep else [s[0]]) + ReplaceChar(s[1..], c, rep)
  }

  lemma {:induction false} ReplaceCharAppend(a: String, b: String, c: char, rep: String)
    ensures ReplaceChar(a + b, c, rep) == ReplaceChar(a, c, rep) + ReplaceChar(b, c, rep)
  {
    if a == [] {
      assert a + b == b;
    } else {
      assert (a + b)[1..] == a[1..] + b;
      ReplaceCharAppend(a[1..], b, c, rep);
    }
  }

  /** `escape_xml`: replaces `&` first, then `<`, `>`, `"` and `'`. */
  function EscapeXml(s: String): String {
    var amp := ReplaceChar(s, '&', "&amp;");
    var lt := ReplaceChar(amp, '<', "&lt;");
    var gt := ReplaceChar(lt, '>', "&gt;");
    var quot := ReplaceChar(gt, '"', "&quot;");
    ReplaceChar(quot, '\'', "&apos;")
  }

  /** The characters that never appear raw in escaped text. */
  predicate IsMarkup(c: char) {
    c == '<' || c == '>' || c == '"' || c == '\''
  }

  /** The escape of a single character. */
  function EscapeChar(c: char): String {
    match c
    case '&' => "&amp;"
    case '<' => "&lt;"
    case '>' => "&gt;"
    case '"' => "&quot;"
    case '\'' => "&apos;"
    case _ => [c]
  }

  /** Escaping one character at a time. */
  function EscapeEach(s: String): String {
    if s == [] then [] else EscapeChar(s[0]) + EscapeEach(s[1..])
  }

  lemma EscapeXmlAppend(a: String, b: String)
    ensures EscapeXml(a + b) == EscapeXml(a) + EscapeXml(b)
  {
    ReplaceCharAppend(a, b, '&', "&amp;");
    var a1, b1 := ReplaceChar(a, '&', "&amp;"), ReplaceChar(b, '&', "&amp;");
    ReplaceCharAppend(a1, b1, '<', "&lt;");
    var a2, b2 := ReplaceChar(a1, '<', "&lt;"), ReplaceChar(b1, '<', "&lt;");
    ReplaceCharAppend(a2, b2, '>', "&gt;");
    var a3, b3 := ReplaceChar(a2, '>', "&gt;"), ReplaceChar(b2, '>', "&gt;");
    ReplaceCharAppend(a3, b3, '"', "&quot;");
    var a4, b4 := ReplaceChar(a3, '"', "&quot;"), ReplaceChar(b3, '"', "&quot;");
    ReplaceCharAppend(a4, b4, '\'', "&apos;");
  }

  lemma EscapeXmlSingle(c: char)
    ensures EscapeXml([c]) == EscapeChar(c)
  {
    ReplaceCharSingle(c, '&', "&amp;");
    if c == '&' {
      EscapedStays("&amp;");
    } else if c == '<' {
      ReplaceCharSingle(c, '<', "&lt;");
      EscapedStays("&lt;");
    } else if c == '>' {
      ReplaceCharSingle(c, '<', "&lt;");
      ReplaceCharSingle(c, '>', "&gt;");
      EscapedStays("&gt;");
    } else if c == '"' {
      ReplaceCharSingle(c, '<', "&lt;");
      ReplaceCharSingle(c, '>', "&gt;");
      ReplaceCharSingle(c, '"', "&quot;");
      EscapedStays("&quot;");
    } else {
      ReplaceCharSingle(c, '<', "&lt;");
      ReplaceCharSingle(c, '>', "&gt;");
      ReplaceCharSingle(c, '"', "&quot;");
      ReplaceCharSingle(c, '\'', "&apos;");
    }
  }

  lemma ReplaceCharSingle(x: char, c: char, rep: String)
    ensures ReplaceChar([x], c, rep) == if x == c then rep else [x]
  {
    assert [x][1..] == [];
  }

  /** The characters an entity reference is spelled with. */
  predicate EntitySpelling(e: String) {
    forall i :: 0 <= i < |e| ==> e[i] == '&' || e[i] == ';' || 'a' <= e[i] <= 'z'
  }

  /** An entity reference is left alone by every later replacement. */
  lemma EscapedStays(e: String)
    requires EntitySpelling(e)
    ensures ReplaceChar(e, '<', "&lt;") == e && ReplaceChar(e, '>', "&gt;") == e
    ensures ReplaceChar(e, '"', "&quot;") == e && ReplaceChar(e, '\'', "&apos;") == e
  {
  }

  lemma {:induction false} EscapeXmlIsPerChar(s: String)
    ensures EscapeXml(s) == EscapeEach(s)
  {
    if s != [] {
      assert s == [s[0]] + s[1..];
      EscapeXmlAppend([s[0]], s[1..]);
      EscapeXmlSingle(s[0]);
      EscapeXmlIsPerChar(s[1..]);
    }
  }

  /** The strings of `parts`, one after the other. */
  function Concat(parts: seq<String>): String {
    if parts == [] then [] else parts[0] + Concat(parts[1..])
  }

  /** Escaping as the concatenation of the escapes of the characters, the form the checklist writer is stated in. */
  function Escape(s: String): String {
    Concat(seq(|s|, i requires 0 <= i < |s| => EscapeChar(s[i])))
  }

  lemma {:induction false} EscapeIsEscapeEach(s: String)
    ensures Escape(s) == EscapeEach(s)
  {
    if s != [] {
      var parts := seq(|s|, i requires 0 <= i < |s| => EscapeChar(s[i]));
      assert parts[1..] == seq(|s[1..]|, i requires 0 <= i < |s[1..]| => EscapeChar(s[1..][i]));
      EscapeIsEscapeEach(s[1..]);
    }
  }

  /** The writer's escaping is `escape_xml`. */
  lemma EscapeXmlIsEscape(s: String)
    ensures EscapeXml(s) == Escape(s)
  {
    EscapeXmlIsPerChar(s);
    EscapeIsEscapeEach(s);
  }

  /** The character a predefined entity name stands for. */
  function EntityChar(name: String): Option<char> {
    if name == "lt" then Some('<')
    else if name == "gt" then Some('>')
    else if name == "amp" then Some('&')
    else if name == "apos" then Some('\'')
    else if name == "quot" then Some('"')
    else None
  }

  /**
   * Unescaping of text: every `&name;` becomes the character of the
   * predefined entity `name`; a `&` without a later `;`, or an unknown name,
   * is a failure.
   */
  function Unescape(s: String): Option<String>
    decreases |s|
  {
    if s == [] then Some([])
    else if s[0] != '&' then
      match Unescape(s[1..])
      case None => None
      case Some(t) => Some([s[0]] + t)
    else
      match IndexOf(s[1..], ';')
      case None => None
      case Some(j) =>
        match EntityChar(s[1..j + 1])
        case None => None
        case Some(ch) =>
          match Unescape(s[j + 2..])
          case None => None
          case Some(t) => Some([ch] + t)
  }

  lemma IndexOfAfter(p: String, c: char, rest: String)
    requires c !in p
    ensures IndexOf(p + [c] + rest, c) == Some(|p|)
  {
    var s := p + [c] + rest;
    assert s[|p|] == c;
    assert forall k :: 0 <= k < |p| ==> s[k] == p[k];
  }

  lemma UnescapeEntity(name: String, ch: char, rest: String)
    requires ';' !in name && EntityChar(name) == Some(ch)
    ensures Unescape("&" + name + ";" + rest) ==
              match Unescape(rest) case None => None case Some(t) => Some([ch] + t)
  {
    var s := "&" + name + ";" + rest;
    assert s[1..] == name + [';'] + rest;
    IndexOfAfter(name, ';', rest);
    assert s[1..|name| + 1] == name;
    assert s[|name| + 2..] == rest;
  }

  /** Unescaping the escape of `c` followed by `rest` gives back `c` in front of the unescaped `rest`. */
  lemma UnescapeEscapeChar(c: char, rest: String)
    ensures Unescape(EscapeChar(c) + rest) ==
              match Unescape(rest) case None => None case Some(t) => Some([c] + t)
  {
    if c == '&' {
      assert EscapeChar(c) == "&" + "amp" + ";";
      UnescapeEntity("amp", c, rest);
    } else if c == '<' {
      assert EscapeChar(c) == "&" + "lt" + ";";
      UnescapeEntity("lt", c, rest);
    } else if c == '>' {
      assert EscapeChar(c) == "&" + "gt" + ";";
      UnescapeEntity("gt", c, rest);
    } else if c == '"' {
      assert EscapeChar(c) == "&" + "quot" + ";";
      UnescapeEntity("quot", c, rest);
    } else if c == '\'' {
      assert EscapeChar(c) == "&" + "apos" + ";";
      UnescapeEntity("apos", c, rest);
    } else {
      assert ([c] + rest)[1..] == rest;
    }
  }

  lemma {:induction false} UnescapeEscapeEach(s: String)
    ensures Unescape(EscapeEach(s)) == Some(s)
  {
    if s != [] {
      UnescapeEscapeEach(s[1..]);
      UnescapeEscapeChar(s[0], EscapeEach(s[1..]));
      assert s == [s[0]] + s[1..];
    }
  }

  /** Unescaping undoes escaping: `escape_xml` loses nothing. */
  lemma UnescapeEscape(s: String)
    ensures Unescape(Escape(s)) == Some(s)
  {
    EscapeIsEscapeEach(s);
    UnescapeEscapeEach(s);
  }

  /** Escaping is one-to-one: different texts never share an escaped form. */
  lemma EscapeInjective(s: String, t: String)
    requires Escape(s) == Escape(t)
    ensures s == t
  {
    UnescapeEscape(s);
    UnescapeEscape(t);
  }

  lemma {:induction false} EscapeEachNoMarkup(s: String)
    ensures forall i :: 0 <= i < |EscapeEach(s)| ==> !IsMarkup(EscapeEach(s)[i])
  {
    if s != [] {
      EscapeEachNoMarkup(s[1..]);
      var e, rest := EscapeChar(s[0]), EscapeEach(s[1..]);
      assert EscapeEach(s) == e + rest;
      forall i | 0 <= i < |e + rest|
        ensures !IsMarkup((e + rest)[i])
      {
        if i >= |e| {
          assert (e + rest)[i] == rest[i - |e|];
        }
      }
    }
  }

  /** Escaped text holds no raw `<`, `>`, `"` or `'`. */
  lemma EscapeNoMarkup(s: String)
    ensures forall i :: 0 <= i < |Escape(s)| ==> !IsMarkup(Escape(s)[i])
  {
    EscapeIsEscapeEach(s);
    EscapeEachNoMarkup(s);
  }
}
