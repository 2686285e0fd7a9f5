/**
 * Reading back what `generate_ckl_xml` writes: `parse_stig_checklist` on
 * the events of `generate_ckl_xml(c)` returns `c` with every text field
 * trimmed, `stig_id` replaced by `rule_ver`, the CCI references cut down to
 * the last one (dropped when it is blank) and blank overrides turned into
 * no override. For a checklist the parser itself produced, nothing changes.
 */
module CklRoundTrip {
  import opened Wrappers
  import opened Strings
  import opened XmlEscape
  import opened XmlEvents
  import opened StigTypes
  import opened CklParser
  import opened CklWriter

  /** Between two blocks: no block open, no vulnerability in progress, no pending text. */
  predicate Quiet(st: CklState) {
    !st.inAsset && !st.inStigInfo && !st.inVuln && st.current.None? && st.text == ""
  }

  /** A tag that neither opens nor closes a block. */
  predicate IsLeaf(t: Tag) {
    !t.AssetTag? && !t.StigInfoTag? && !t.VulnTag?
  }

  lemma StoreTextIgnoresText(st: CklState, tag: Tag, t: String, x: String)
    ensures StoreText(st.(text := x), tag, t) == StoreText(st, tag, t).(text := x)
  {
    var st' := st.(text := x);
    match tag
    case AssetFieldTag(f) =>
      if st.inAsset {
        var a := SetAssetField(st.asset, f, t);
        assert StoreText(st', tag, t) == st'.(asset := a);
        assert StoreText(st, tag, t) == st.(asset := a);
      }
    case VulnFieldTag(g) =>
      if st.inVuln && st.current.Some? {
        var v := Some(SetVulnField(st.current.value, g, t));
        assert StoreText(st', tag, t) == st'.(current := v);
        assert StoreText(st, tag, t) == st.(current := v);
      }
    case SidNameTag =>
      if st.inStigInfo {
        assert StoreText(st', tag, t) == st'.(sidName := t);
      }
    case SidDataTag =>
      if st.inStigInfo {
        var m := st.siData[st.sidName := t];
        assert StoreText(st', tag, t) == st'.(siData := m);
        assert StoreText(st, tag, t) == st.(siData := m);
      }
    case VulnAttributeTag =>
      if st.inVuln {
        assert StoreText(st', tag, t) == st'.(vulnAttribute := t);
      }
    case AttributeDataTag =>
      if st.inVuln {
        var m := st.stigData[st.vulnAttribute := t];
        assert StoreText(st', tag, t) == st'.(stigData := m);
        assert StoreText(st, tag, t) == st.(stigData := m);
      }
    case _ =>
  }

  lemma StepsOne(st: CklState, e: Event)
    ensures Steps(st, [e]) == Step(st, e)
  {
    assert [e][1..] == [];
  }

  lemma StepsTwo(st: CklState, e1: Event, e2: Event)
    ensures Steps(st, [e1, e2]) == Step(Step(st, e1), e2)
  {
    assert [e1, e2][1..] == [e2];
    StepsOne(Step(st, e1), e2);
  }

  lemma StepsThree(st: CklState, e1: Event, e2: Event, e3: Event)
    ensures Steps(st, [e1, e2, e3]) == Step(Step(Step(st, e1), e2), e3)
  {
    assert [e1, e2, e3][1..] == [e2, e3];
    StepsTwo(Step(st, e1), e2, e3);
  }

  /** The text a leaf element's raw content reads back as. */
  function ReadBack(raw: String): String {
    Trim(Unescape(raw).GetOr(""))
  }

  /** A leaf element stores its trimmed, unescaped content and leaves no pending text. */
  lemma StepsRawElement(st: CklState, name: String, raw: String)
    requires IsLeaf(TagOf(name))
    ensures Steps(st, RawElement(name, raw)) == StoreText(st, TagOf(name), ReadBack(raw)).(text := "")
  {
    var tag := TagOf(name);
    var u := Unescape(raw).GetOr("");
    var s1 := Step(st, Start(name, []));
    assert s1 == st.(text := "");
    if raw == [] {
      assert RawElement(name, raw) == [Start(name, []), End(name)];
      StepsTwo(st, Start(name, []), End(name));
      StoreTextIgnoresText(st, tag, Trim(""), "");
    } else {
      assert RawElement(name, raw) == [Start(name, []), Text(raw), End(name)];
      StepsThree(st, Start(name, []), Text(raw), End(name));
      assert Step(s1, Text(raw)) == st.(text := u);
      StoreTextIgnoresText(st, tag, Trim(u), u);
    }
  }

  /** An escaped value reads back as itself, trimmed. */
  lemma ReadBackEscape(value: String)
    ensures ReadBack(Escape(value)) == Trim(value)
  {
    UnescapeEscape(value);
  }

  /** The tag of a start or end event, appended to `xml`. */
  lemma StepsTag(st: CklState, xml: seq<Event>, e: Event)
    ensures Steps(st, xml + [e]) == Step(Steps(st, xml), e)
  {
    StepsAppend(st, xml, [e]);
    StepsOne(Steps(st, xml), e);
  }

  /** The map after storing the first `n` name/value pairs, values trimmed, over `m0`. */
  function PairMap(m0: map<String, String>, names: seq<String>, vals: seq<String>, n: nat): map<String, String>
    requires n <= |names| && n <= |vals|
  {
    if n == 0 then m0 else PairMap(m0, names, vals, n - 1)[names[n - 1] := Trim(vals[n - 1])]
  }

  /** With distinct names, each pair stored before the `n`-th is found with its trimmed value. */
  lemma {:induction false} PairMapLookup(m0: map<String, String>, names: seq<String>, vals: seq<String>, n: nat, j: nat)
    requires j < n <= |names| && n <= |vals|
    requires NoDuplicates(names)
    ensures names[j] in PairMap(m0, names, vals, n) && PairMap(m0, names, vals, n)[names[j]] == Trim(vals[j])
  {
    if j < n - 1 {
      PairMapLookup(m0, names, vals, n - 1, j);
    }
  }

  // ---------------------------------------------------------------- ASSET

  /** The ASSET child names select the arm that stores the matching asset field. */
  lemma TagOfAssetField(f: AssetField)
    ensures TagOf(AssetFieldName(f)) == AssetFieldTag(f)
  {
    match f
    case Role => TagOfRole();
    case AssetType => TagOfAssetType();
    case Marking => TagOfMarking();
    case HostName => TagOfHostName();
    case HostIp => TagOfHostIp();
    case HostMac => TagOfHostMac();
    case HostFqdn => TagOfHostFqdn();
    case TargetComment => TagOfTargetComment();
    case TechArea => TagOfTechArea();
    case TargetKey => TagOfTargetKey();
    case WebOrDatabase => TagOfWebOrDatabase();
    case WebDbSite => TagOfWebDbSite();
    case WebDbInstance => TagOfWebDbInstance();
  }

  lemma TagOfRole()
    ensures TagOf("ROLE") == AssetFieldTag(Role)
  {
  }

  lemma TagOfAssetType()
    ensures TagOf("ASSET_TYPE") == AssetFieldTag(AssetType)
  {
  }

  lemma TagOfMarking()
    ensures TagOf("MARKING") == AssetFieldTag(Marking)
  {
  }

  lemma TagOfHostName()
    ensures TagOf("HOST_NAME") == AssetFieldTag(HostName)
  {
  }

  lemma TagOfHostIp()
    ensures TagOf("HOST_IP") == AssetFieldTag(HostIp)
  {
  }

  lemma TagOfHostMac()
    ensures TagOf("HOST_MAC") == AssetFieldTag(HostMac)
  {
  }

  lemma TagOfHostFqdn()
    ensures TagOf("HOST_FQDN") == AssetFieldTag(HostFqdn)
  {
  }

  lemma TagOfTargetComment()
    ensures TagOf("TARGET_COMMENT") == AssetFieldTag(TargetComment)
  {
  }

  lemma TagOfTechArea()
    ensures TagOf("TECH_AREA") == AssetFieldTag(TechArea)
  {
  }

  lemma TagOfTargetKey()
    ensures TagOf("TARGET_KEY") == AssetFieldTag(TargetKey)
  {
  }

  lemma TagOfWebOrDatabase()
    ensures TagOf("WEB_OR_DATABASE") == AssetFieldTag(WebOrDatabase)
  {
  }

  lemma TagOfWebDbSite()
    ensures TagOf("WEB_DB_SITE") == AssetFieldTag(WebDbSite)
  {
  }

  lemma TagOfWebDbInstance()
    ensures TagOf("WEB_DB_INSTANCE") == AssetFieldTag(WebDbInstance)
  {
  }

  /** An asset field as text; WEB_OR_DATABASE as the writer spells a `bool`. */
  function AssetText(a: AssetInfo, f: AssetField): String {
    match f
    case Role => a.role
    case AssetType => a.assetType
    case Marking => a.marking
    case HostName => a.hostName
    case HostIp => a.hostIp
    case HostMac => a.hostMac
    case HostFqdn => a.hostFqdn
    case TargetComment => a.targetComment
    case TechArea => a.techArea
    case TargetKey => a.targetKey
    case WebOrDatabase => BoolText(a.webOrDatabase)
    case WebDbSite => a.webDbSite
    case WebDbInstance => a.webDbInstance
  }

  /** What the writer puts between `<F>` and `</F>` for the asset field `f`. */
  function AssetRaw(a: AssetInfo, f: AssetField): String {
    if f == WebOrDatabase then BoolText(a.webOrDatabase) else Escape(AssetText(a, f))
  }

  /** The asset fields in the order the writer writes them. */
  function AssetFieldAt(i: nat): AssetField
    requires i < 13
  {
    match i
    case 0 => Role
    case 1 => AssetType
    case 2 => Marking
    case 3 => HostName
    case 4 => HostIp
    case 5 => HostMac
    case 6 => HostFqdn
    case 7 => TargetComment
    case 8 => TechArea
    case 9 => TargetKey
    case 10 => WebOrDatabase
    case 11 => WebDbSite
    case _ => WebDbInstance
  }

  /** The position of `f` in the writer's order. */
  function AssetFieldIndex(f: AssetField): (i: nat)
    ensures i < 13 && AssetFieldAt(i) == f
  {
    match f
    case Role => 0
    case AssetType => 1
    case Marking => 2
    case HostName => 3
    case HostIp => 4
    case HostMac => 5
    case HostFqdn => 6
    case TargetComment => 7
    case TechArea => 8
    case TargetKey => 9
    case WebOrDatabase => 10
    case WebDbSite => 11
    case WebDbInstance => 12
  }

  lemma AssetFieldAtIndex(i: nat)
    requires i < 13
    ensures AssetFieldIndex(AssetFieldAt(i)) == i
  {
  }

  /** The first `n` ASSET children the writer appends to `xml`. */
  function AssetElements(xml: seq<Event>, a: AssetInfo, n: nat): seq<Event>
    requires n <= 13
  {
    if n == 0 then xml
    else AssetElements(xml, a, n - 1) + RawElement(AssetFieldName(AssetFieldAt(n - 1)), AssetRaw(a, AssetFieldAt(n - 1)))
  }

  /** One more child of the fold is the writer's next ASSET line. */
  lemma AssetChild(p: seq<Event>, a: AssetInfo, k: nat)
    requires k < 13
    ensures AssetElements(p, a, k + 1) == AssetElements(p, a, k) + RawElement(AssetFieldName(AssetFieldAt(k)), AssetRaw(a, AssetFieldAt(k)))
  {
  }

  /** The ASSET block is its thirteen children, in the writer's order, between the block's tags. */
  lemma WriteAssetElements(xml: seq<Event>, a: AssetInfo)
    ensures WriteAsset(xml, a) == AssetElements(xml + [Start("ASSET", [])], a, 13) + [End("ASSET")]
  {
    var p := xml + [Start("ASSET", [])];
    AssetChild(p, a, 0);
    AssetChild(p, a, 1);
    AssetChild(p, a, 2);
    AssetChild(p, a, 3);
    AssetChild(p, a, 4);
    AssetChild(p, a, 5);
    AssetChild(p, a, 6);
    AssetChild(p, a, 7);
    AssetChild(p, a, 8);
    AssetChild(p, a, 9);
    AssetChild(p, a, 10);
    AssetChild(p, a, 11);
    AssetChild(p, a, 12);
  }

  /** The asset after the parser has stored the first `n` ASSET children written for `a`. */
  function ReadAssetFields(a0: AssetInfo, a: AssetInfo, n: nat): AssetInfo
    requires n <= 13
  {
    if n == 0 then a0
    else SetAssetField(ReadAssetFields(a0, a, n - 1), AssetFieldAt(n - 1), AssetText(AssetOf(a), AssetFieldAt(n - 1)))
  }

  lemma {:induction false} StepsAssetElements(st: CklState, xml: seq<Event>, a: AssetInfo, n: nat)
    requires n <= 13
    requires Steps(st, xml).inAsset && Steps(st, xml).text == ""
    ensures var s := Steps(st, xml);
      Steps(st, AssetElements(xml, a, n)) == s.(asset := ReadAssetFields(s.asset, a, n))
  {
    if n > 0 {
      StepsAssetElements(st, xml, a, n - 1);
      var f := AssetFieldAt(n - 1);
      TagOfAssetField(f);
      ReadBackAsset(a, f);
      StepsAppend(st, AssetElements(xml, a, n - 1), RawElement(AssetFieldName(f), AssetRaw(a, f)));
      StepsRawElement(Steps(st, AssetElements(xml, a, n - 1)), AssetFieldName(f), AssetRaw(a, f));
    }
  }

  /** The asset as the parser reads it back: every text field trimmed. */
  function AssetOf(a: AssetInfo): AssetInfo {
    a.(role := Trim(a.role), assetType := Trim(a.assetType), marking := Trim(a.marking),
       hostName := Trim(a.hostName), hostIp := Trim(a.hostIp), hostMac := Trim(a.hostMac),
       hostFqdn := Trim(a.hostFqdn), targetComment := Trim(a.targetComment), techArea := Trim(a.techArea),
       targetKey := Trim(a.targetKey), webDbSite := Trim(a.webDbSite), webDbInstance := Trim(a.webDbInstance))
  }

  /** Storing a field's text as another asset holds it copies that field and leaves the others. */
  lemma SetOwnText(r: AssetInfo, b: AssetInfo, f: AssetField, g: AssetField)
    ensures AssetText(SetAssetField(r, f, AssetText(b, f)), g) == if f == g then AssetText(b, g) else AssetText(r, g)
  {
  }

  /** No character of `s` starts an entity. */
  predicate NoAmp(s: String) {
    forall k :: 0 <= k < |s| ==> s[k] != '&'
  }

  /** Text without `&` unescapes to itself. */
  lemma {:induction false} UnescapePlain(s: String)
    requires NoAmp(s)
    ensures Unescape(s) == Some(s)
  {
    if s != [] {
      assert forall k :: 0 <= k < |s| - 1 ==> s[1..][k] == s[k + 1];
      UnescapePlain(s[1..]);
      assert s == [s[0]] + s[1..];
    }
  }

  /** Text without `&` or surrounding whitespace reads back as itself. */
  lemma PlainReadBack(s: String)
    requires NoAmp(s) && IsTrimmed(s)
    ensures ReadBack(s) == s
  {
    UnescapePlain(s);
    TrimTrimmed(s);
  }

  lemma BoolReadBack(b: bool)
    ensures ReadBack(BoolText(b)) == BoolText(b)
  {
    UnescapePlain(BoolText(b));
    TrimTrimmed(BoolText(b));
  }

  /** A field the writer wrote reads back as the field of the trimmed asset. */
  lemma ReadBackAsset(a: AssetInfo, f: AssetField)
    ensures ReadBack(AssetRaw(a, f)) == AssetText(AssetOf(a), f)
  {
    if f == WebOrDatabase {
      BoolReadBack(a.webOrDatabase);
    } else {
      var x := AssetText(a, f);
      assert AssetRaw(a, f) == Escape(x);
      ReadBackEscape(x);
      AssetOfTrims(a, f);
    }
  }

  lemma AssetOfTrims(a: AssetInfo, f: AssetField)
    requires f != WebOrDatabase
    ensures AssetText(AssetOf(a), f) == Trim(AssetText(a, f))
  {
  }

  lemma {:induction false} ReadAssetFieldsText(a0: AssetInfo, a: AssetInfo, n: nat, g: AssetField)
    requires n <= 13
    ensures AssetText(ReadAssetFields(a0, a, n), g) ==
      if AssetFieldIndex(g) < n then AssetText(AssetOf(a), g) else AssetText(a0, g)
  {
    if n > 0 {
      var f := AssetFieldAt(n - 1);
      ReadAssetFieldsText(a0, a, n - 1, g);
      AssetFieldAtIndex(n - 1);
      SetOwnText(ReadAssetFields(a0, a, n - 1), AssetOf(a), f, g);
    }
  }

  /** Two assets with the same text in every field are the same asset. */
  lemma AssetExt(x: AssetInfo, y: AssetInfo)
    requires forall g :: AssetText(x, g) == AssetText(y, g)
    ensures x == y
  {
    assert AssetText(x, Role) == AssetText(y, Role);
    assert AssetText(x, AssetType) == AssetText(y, AssetType);
    assert AssetText(x, Marking) == AssetText(y, Marking);
    assert AssetText(x, HostName) == AssetText(y, HostName);
    assert AssetText(x, HostIp) == AssetText(y, HostIp);
    assert AssetText(x, HostMac) == AssetText(y, HostMac);
    assert AssetText(x, HostFqdn) == AssetText(y, HostFqdn);
    assert AssetText(x, TargetComment) == AssetText(y, TargetComment);
    assert AssetText(x, TechArea) == AssetText(y, TechArea);
    assert AssetText(x, TargetKey) == AssetText(y, TargetKey);
    assert AssetText(x, WebOrDatabase) == AssetText(y, WebOrDatabase);
    assert AssetText(x, WebDbSite) == AssetText(y, WebDbSite);
    assert AssetText(x, WebDbInstance) == AssetText(y, WebDbInstance);
  }

  lemma ReadAllAssetFields(a0: AssetInfo, a: AssetInfo)
    ensures ReadAssetFields(a0, a, 13) == AssetOf(a)
  {
    forall g ensures AssetText(ReadAssetFields(a0, a, 13), g) == AssetText(AssetOf(a), g) {
      ReadAssetFieldsText(a0, a, 13, g);
    }
    AssetExt(ReadAssetFields(a0, a, 13), AssetOf(a));
  }

  lemma OpenAsset(st: CklState, xml: seq<Event>)
    requires Quiet(Steps(st, xml))
    ensures Steps(st, xml + [Start("ASSET", [])]) == Steps(st, xml).(inAsset := true)
  {
    StepsTag(st, xml, Start("ASSET", []));
    assert TagOf("ASSET") == AssetTag;
  }

  lemma CloseAsset(st: CklState, xml: seq<Event>)
    requires Steps(st, xml).text == ""
    ensures Steps(st, xml + [End("ASSET")]) == Steps(st, xml).(inAsset := false)
  {
    StepsTag(st, xml, End("ASSET"));
    assert TagOf("ASSET") == AssetTag;
  }

  /** The ASSET block sets every asset field, trimmed, and nothing else. */
  lemma StepsAsset(st: CklState, xml: seq<Event>, a: AssetInfo)
    requires Quiet(Steps(st, xml))
    ensures Steps(st, WriteAsset(xml, a)) == Steps(st, xml).(asset := AssetOf(a))
  {
    var s := Steps(st, xml);
    var p := xml + [Start("ASSET", [])];
    OpenAsset(st, xml);
    StepsAssetElements(st, p, a, 13);
    ReadAllAssetFields(s.asset, a);
    WriteAssetElements(xml, a);
    CloseAsset(st, AssetElements(p, a, 13));
  }
}
