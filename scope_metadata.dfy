/**
 * ScopeMetadataImpl: the description of one scope that the registry stores and ships to
 * clients. Three strings and the proxy are mandatory; art, icon, search hint and hot key are
 * optional (the `unique_ptr` members of ScopeMetadataImpl.h:79-82, `Option` here).
 *
 * The value `Metadata` is what a metadata object holds; the class `ScopeMetadataImpl` is the
 * object whose setters overwrite one field in place and whose deserialize overwrites all.
 */
module ScopeMetadata {
  import opened Outcomes
  import opened Variants

  /** A proxy names a remote scope servant by identity and endpoint; equality is structural. */
  datatype ScopeProxy = ScopeProxy(identity: string, endpoint: string)

  datatype Metadata = Metadata(
    scopeName: string,
    proxy: Option<ScopeProxy>,     // a null proxy until set_proxy is called
    displayName: string,
    description: string,
    art: Option<string>,
    icon: Option<string>,
    searchHint: Option<string>,
    hotKey: Option<string>)

  /** What a freshly constructed ScopeMetadataImpl holds. */
  const Unset := Metadata("", None, "", "", None, None, None, None)

  const ScopeNameKey := "scope_name"
  const ProxyKey := "proxy"
  const DisplayNameKey := "display_name"
  const DescriptionKey := "description"
  const ArtKey := "art"
  const IconKey := "icon"
  const SearchHintKey := "search_hint"
  const HotKeyKey := "hot_key"
  const IdentityKey := "identity"
  const EndpointKey := "endpoint"

  const MandatoryKeys: set<string> := {ScopeNameKey, ProxyKey, DisplayNameKey, DescriptionKey}

  /** The key set a serialised metadata value has: the mandatory ones plus each optional one that is set. */
  function PresentKeys(m: Metadata): set<string> {
    {ScopeNameKey, DisplayNameKey, DescriptionKey}
      + (if m.proxy.Some? then {ProxyKey} else {})
      + (if m.art.Some? then {ArtKey} else {})
      + (if m.icon.Some? then {IconKey} else {})
      + (if m.searchHint.Some? then {SearchHintKey} else {})
      + (if m.hotKey.Some? then {HotKeyKey} else {})
  }

  function SerializeProxy(p: ScopeProxy): Variant {
    Dict(map[IdentityKey := Str(p.identity), EndpointKey := Str(p.endpoint)])
  }

  /** The variant serialize() stores under a present key: the field that key names. */
  function EntryValue(m: Metadata, key: string): Variant
    requires key in PresentKeys(m)
  {
    if key == ProxyKey then SerializeProxy(m.proxy.value)
    else if key == ArtKey then Str(m.art.value)
    else if key == IconKey then Str(m.icon.value)
    else if key == SearchHintKey then Str(m.searchHint.value)
    else if key == HotKeyKey then Str(m.hotKey.value)
    else if key == DisplayNameKey then Str(m.displayName)
    else if key == DescriptionKey then Str(m.description)
    else Str(m.scopeName)
  }

  /** serialize(): every set field under its own key; an unset optional field has no key at all. */
  function SerializeMetadata(m: Metadata): (vm: VariantMap)
    ensures vm.Keys == PresentKeys(m)
  {
    map key | key in PresentKeys(m) :: EntryValue(m, key)
  }

  function MissingAttribute(key: string): Error {
    InvalidArgument("ScopeMetadataImpl::deserialize(): required attribute '" + key + "' is missing")
  }

  function MandatoryString(vm: VariantMap, key: string): (r: Result<string>)
    ensures r.Ok? ==> key in vm && vm[key] == Str(r.value)
  {
    if key !in vm then Err(MissingAttribute(key)) else GetString(vm[key])
  }

  function OptionalString(vm: VariantMap, key: string): (r: Result<Option<string>>)
    ensures r.Ok? ==> (r.value.Some? <==> key in vm)
    ensures r.Ok? && r.value.Some? ==> vm[key] == Str(r.value.value)
  {
    if key !in vm then Ok(None)
    else
      var s :- GetString(vm[key]);
      Ok(Some(s))
  }

  function DeserializeProxy(v: Variant): (r: Result<ScopeProxy>)
    ensures r.Ok? ==> v.Dict? && IdentityKey in v.entries && EndpointKey in v.entries
    ensures r.Ok? ==> v.entries[IdentityKey] == Str(r.value.identity) && v.entries[EndpointKey] == Str(r.value.endpoint)
  {
    var d :- GetDict(v);
    var identity :- MandatoryString(d, IdentityKey);
    var endpoint :- MandatoryString(d, EndpointKey);
    Ok(ScopeProxy(identity, endpoint))
  }

  /**
   * deserialize(): the mandatory attributes must be present (else InvalidArgument naming the
   * missing one); each optional one is set exactly when its key is present.
   */
  function DeserializeMetadata(vm: VariantMap): (r: Result<Metadata>)
    ensures (exists k :: k in MandatoryKeys && k !in vm) ==> r.Err?
    ensures r.Ok? ==> r.value.proxy.Some?
    ensures r.Ok? ==> ((r.value.art.Some? <==> ArtKey in vm) && (r.value.icon.Some? <==> IconKey in vm)
                   && (r.value.searchHint.Some? <==> SearchHintKey in vm)
                   && (r.value.hotKey.Some? <==> HotKeyKey in vm))
    ensures r.Ok? ==> ScopeNameKey in vm && vm[ScopeNameKey] == Str(r.value.scopeName)
                      && DisplayNameKey in vm && vm[DisplayNameKey] == Str(r.value.displayName)
                      && DescriptionKey in vm && vm[DescriptionKey] == Str(r.value.description)
                      && ProxyKey in vm && DeserializeProxy(vm[ProxyKey]) == Ok(r.value.proxy.value)
    ensures r.Ok? ==> (ArtKey in vm ==> vm[ArtKey] == Str(r.value.art.value))
                      && (IconKey in vm ==> vm[IconKey] == Str(r.value.icon.value))
                      && (SearchHintKey in vm ==> vm[SearchHintKey] == Str(r.value.searchHint.value))
                      && (HotKeyKey in vm ==> vm[HotKeyKey] == Str(r.value.hotKey.value))
  {
    var scopeName :- MandatoryString(vm, ScopeNameKey);
    if ProxyKey !in vm then Err(MissingAttribute(ProxyKey))
    else
      var proxy :- DeserializeProxy(vm[ProxyKey]);
      var displayName :- MandatoryString(vm, DisplayNameKey);
      var description :- MandatoryString(vm, DescriptionKey);
      var art :- OptionalString(vm, ArtKey);
      var icon :- OptionalString(vm, IconKey);
      var searchHint :- OptionalString(vm, SearchHintKey);
      var hotKey :- OptionalString(vm, HotKeyKey);
      Ok(Metadata(scopeName, Some(proxy), displayName, description, art, icon, searchHint, hotKey))
  }

  /** The attribute keys are pairwise different. */
  lemma KeysDiffer()
    ensures |ScopeNameKey| == 10 && |ProxyKey| == 5 && |DisplayNameKey| == 12 && |DescriptionKey| == 11
    ensures |ArtKey| == 3 && |IconKey| == 4 && |SearchHintKey| == 11 && |HotKeyKey| == 7
    ensures DescriptionKey != SearchHintKey
  {
    assert DescriptionKey[0] != SearchHintKey[0];
  }

  /** What serialize() stores under each key. */
  lemma SerializedEntries(m: Metadata)
    requires m.proxy.Some?
    ensures var vm := SerializeMetadata(m);
      && vm[ScopeNameKey] == Str(m.scopeName)
      && vm[ProxyKey] == SerializeProxy(m.proxy.value)
      && vm[DisplayNameKey] == Str(m.displayName)
      && vm[DescriptionKey] == Str(m.description)
      && (m.art.Some? ==> vm[ArtKey] == Str(m.art.value))
      && (m.icon.Some? ==> vm[IconKey] == Str(m.icon.value))
      && (m.searchHint.Some? ==> vm[SearchHintKey] == Str(m.searchHint.value))
      && (m.hotKey.Some? ==> vm[HotKeyKey] == Str(m.hotKey.value))
  {
    KeysDiffer();
  }

  /** deserialize(serialize(m)) reproduces every field, optional ones present exactly when set. */
  lemma DeserializeSerialize(m: Metadata)
    requires m.proxy.Some?
    ensures DeserializeMetadata(SerializeMetadata(m)) == Ok(m)
  {
    var vm := SerializeMetadata(m);
    SerializedEntries(m);
    assert MandatoryString(vm, ScopeNameKey) == Ok(m.scopeName);
    assert DeserializeProxy(vm[ProxyKey]) == Ok(m.proxy.value);
    assert MandatoryString(vm, DisplayNameKey) == Ok(m.displayName);
    assert MandatoryString(vm, DescriptionKey) == Ok(m.description);
    assert OptionalString(vm, ArtKey) == Ok(m.art);
    assert OptionalString(vm, IconKey) == Ok(m.icon);
    assert OptionalString(vm, SearchHintKey) == Ok(m.searchHint);
    assert OptionalString(vm, HotKeyKey) == Ok(m.hotKey);
  }

  class ScopeMetadataImpl {
    var scopeName: string
    var proxy: Option<ScopeProxy>
    var displayName: string
    var description: string
    var art: Option<string>
    var icon: Option<string>
    var searchHint: Option<string>
    var hotKey: Option<string>

    /** The value this object currently holds. */
    function Value(): Metadata
      reads this
    {
      Metadata(scopeName, proxy, displayName, description, art, icon, searchHint, hotKey)
    }

    /** ScopeMetadataImpl(mw): nothing set yet. */
    constructor ()
      ensures Value() == Unset
    {
      scopeName, proxy, displayName, description := "", None, "", "";
      art, icon, searchHint, hotKey := None, None, None, None;
    }

    /** Copy construction: an independent object holding the same value. */
    constructor Copy(other: ScopeMetadataImpl)
      ensures Value() == other.Value()
    {
      scopeName, proxy, displayName, description := other.scopeName, other.proxy, other.displayName, other.description;
      art, icon, searchHint, hotKey := other.art, other.icon, other.searchHint, other.hotKey;
    }

    /** Copy assignment: this object takes other's value; other is not touched. */
    method Assign(other: ScopeMetadataImpl)
      modifies this
      ensures Value() == old(other.Value())
      ensures other != this ==> unchanged(other)
    {
      scopeName, proxy, displayName, description := other.scopeName, other.proxy, other.displayName, other.description;
      art, icon, searchHint, hotKey := other.art, other.icon, other.searchHint, other.hotKey;
    }

    function ScopeName(): string reads this { scopeName }
    function DisplayName(): string reads this { displayName }
    function Description(): string reads this { description }

    /** proxy(): the proxy, or NotFound while none was set. */
    function Proxy(): (r: Result<ScopeProxy>)
      reads this
      ensures r.Ok? <==> proxy.Some?
      ensures r.Ok? ==> proxy == Some(r.value)
    {
      if proxy.Some? then Ok(proxy.value) else Err(NotFound("attribute not set", "proxy"))
    }

    /** The getter of an optional attribute: its value, or NotFound naming it when unset. */
    static function OptionalAttribute(v: Option<string>, name: string): (r: Result<string>)
      ensures r.Ok? <==> v.Some?
      ensures r.Ok? ==> v == Some(r.value)
      ensures r.Err? ==> r.error == NotFound("attribute not set", name)
    {
      if v.Some? then Ok(v.value) else Err(NotFound("attribute not set", name))
    }

    function Art(): Result<string> reads this { OptionalAttribute(art, ArtKey) }
    function Icon(): Result<string> reads this { OptionalAttribute(icon, IconKey) }
    function SearchHint(): Result<string> reads this { OptionalAttribute(searchHint, SearchHintKey) }
    function HotKey(): Result<string> reads this { OptionalAttribute(hotKey, HotKeyKey) }

    method SetScopeName(s: string)
      modifies this
      ensures Value() == old(Value()).(scopeName := s)
    {
      scopeName := s;
    }

    method SetProxy(p: ScopeProxy)
      modifies this
      ensures Value() == old(Value()).(proxy := Some(p))
    {
      proxy := Some(p);
    }

    method SetDisplayName(s: string)
      modifies this
      ensures Value() == old(Value()).(displayName := s)
    {
      displayName := s;
    }

    method SetDescription(s: string)
      modifies this
      ensures Value() == old(Value()).(description := s)
    {
      description := s;
    }

    method SetArt(s: string)
      modifies this
      ensures Value() == old(Value()).(art := Some(s)) && Art() == Ok(s)
    {
      art := Some(s);
    }

    method SetIcon(s: string)
      modifies this
      ensures Value() == old(Value()).(icon := Some(s)) && Icon() == Ok(s)
    {
      icon := Some(s);
    }

    method SetSearchHint(s: string)
      modifies this
      ensures Value() == old(Value()).(searchHint := Some(s)) && SearchHint() == Ok(s)
    {
      searchHint := Some(s);
    }

    method SetHotKey(s: string)
      modifies this
      ensures Value() == old(Value()).(hotKey := Some(s)) && HotKey() == Ok(s)
    {
      hotKey := Some(s);
    }

    /** serialize(): a map that deserialises back to this very value once a proxy is set. */
    function Serialize(): (vm: VariantMap)
      reads this
      ensures vm.Keys == PresentKeys(Value())
      ensures proxy.Some? ==> DeserializeMetadata(vm) == Ok(Value())
    {
      var m := Value();
      assert m.proxy.Some? ==> DeserializeMetadata(SerializeMetadata(m)) == Ok(m) by {
        if m.proxy.Some? { DeserializeSerialize(m); }
      }
      SerializeMetadata(m)
    }

    /** deserialize(var): overwrites every field from the map, or fails and changes nothing. */
    method Deserialize(vm: VariantMap) returns (r: Result<()>)
      modifies this
      ensures r.Ok? <==> DeserializeMetadata(vm).Ok?
      ensures r.Ok? ==> Value() == DeserializeMetadata(vm).value
      ensures r.Err? ==> r.error == DeserializeMetadata(vm).error && Value() == old(Value())
    {
      var d := DeserializeMetadata(vm);
      if d.Err? {
        return Err(d.error);
      }
      var m := d.value;
      scopeName, proxy, displayName, description := m.scopeName, m.proxy, m.displayName, m.description;
      art, icon, searchHint, hotKey := m.art, m.icon, m.searchHint, m.hotKey;
      r := Ok(());
    }
  }

  /** ScopeMetadataImpl(VariantMap, mw): a new object deserialised from the map. */
  method FromVariantMap(vm: VariantMap) returns (r: Result<ScopeMetadataImpl>)
    ensures r.Ok? <==> DeserializeMetadata(vm).Ok?
    ensures r.Ok? ==> fresh(r.value) && r.value.Value() == DeserializeMetadata(vm).value
  {
    var impl := new ScopeMetadataImpl();
    var ok := impl.Deserialize(vm);
    if ok.Err? {
      return Err(ok.error);
    }
    r := Ok(impl);
  }

  /** Copies are independent: setting the copy's art leaves the original as it was. */
  method CopyThenSetArt(original: ScopeMetadataImpl, art: string) returns (copy: ScopeMetadataImpl)
    ensures fresh(copy) && copy != original
    ensures copy.Value() == original.Value().(art := Some(art))
    ensures unchanged(original)
  {
    copy := new ScopeMetadataImpl.Copy(original);
    copy.SetArt(art);
  }
}
