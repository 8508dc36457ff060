/**
 * The shop settings page: stored settings are merged over the defaults one
 * level deep, so a stored object that lacks a section or a field of a
 * section still gets the default for it.
 */
module Settings {
  import opened Wrappers
  import opened Json

  /** The five sections merged field by field. */
  const Sections: set<string> := {"business", "store", "appearance", "payments", "advanced"}

  const BusinessDefaults: Object := map[
    "name" := Str("Minha Loja"), "phone" := Str(""), "email" := Str(""), "address" := Str(""),
    "logoUrl" := Str(""), "openTime" := Str("09:00"), "closeTime" := Str("18:00"), "defaultMessage" := Str("")]

  const StoreDefaults: Object := map[
    "enabled" := Bool(true), "minOrder" := Num(0.0), "allowPickup" := Bool(true),
    "deliveryFee" := Num(0.0), "requireOrderNotes" := Bool(false)]

  const AppearanceDefaults: Object := map[
    "primaryColor" := Str("#1677ff"), "secondaryColor" := Str("#13c2c2"), "showOutOfStock" := Bool(true),
    "layout" := Str("GRID"), "showPrices" := Bool(true)]

  const PaymentsDefaults: Object := map[
    "acceptCash" := Bool(true), "acceptPix" := Bool(true), "acceptCard" := Bool(true),
    "pixKey" := Str(""), "instructions" := Str("")]

  const AdvancedDefaults: Object := map["maintenanceMode" := Bool(false)]

  /** The default fields of section `s`. */
  function SectionDefaults(s: string): Object {
    if s == "business" then BusinessDefaults
    else if s == "store" then StoreDefaults
    else if s == "appearance" then AppearanceDefaults
    else if s == "payments" then PaymentsDefaults
    else AdvancedDefaults
  }

  /** `DEFAULT_SETTINGS`: each section with its default fields. */
  const DefaultSettings: Object := map s | s in Sections :: Obj(SectionDefaults(s))

  /** `{ ...(b[s] || {}), ...(i[s] || {}) }`: one section, the incoming fields winning. */
  function MergedSection(b: Object, i: Object, s: string): (r: Object)
    ensures r.Keys == AsObject(Get(b, s)).Keys + AsObject(Get(i, s)).Keys
    ensures forall f :: f in AsObject(Get(i, s)) ==> r[f] == AsObject(Get(i, s))[f]
    ensures forall f :: f in AsObject(Get(b, s)) && f !in AsObject(Get(i, s)) ==> r[f] == AsObject(Get(b, s))[f]
  {
    Spread(AsObject(Get(b, s)), AsObject(Get(i, s)))
  }

  /** Field `k` of the merged settings. */
  function MergedField(b: Object, i: Object, k: string): Value
    requires k in b || k in i || k in Sections
  {
    if k in Sections then Obj(MergedSection(b, i, k))
    else if k in i then i[k]
    else b[k]
  }

  /** `{ ...b, ...i, business: …, store: …, … }` on two objects. */
  function MergeObjects(b: Object, i: Object): (r: Object)
    ensures r.Keys == b.Keys + i.Keys + Sections
    ensures forall k :: k !in Sections && k in i ==> r[k] == i[k]
    ensures forall k :: k !in Sections && k !in i && k in b ==> r[k] == b[k]
    ensures forall s :: s in Sections ==> r[s] == Obj(MergedSection(b, i, s))
  {
    map k | k in b.Keys + i.Keys + Sections :: MergedField(b, i, k)
  }

  /**
   * `safeMerge(base, incoming)`; `None` is `undefined`. Missing and non-object
   * values count as {}: the incoming top-level fields win, and each section
   * is merged field by field.
   */
  function SafeMerge(base: Option<Value>, incoming: Option<Value>): (r: Object)
    ensures !(base.Some? && base.value.Obj?) ==> r == MergeObjects(map[], AsObject(incoming))
    ensures !(incoming.Some? && incoming.value.Obj?) ==> r == MergeObjects(AsObject(base), map[])
    ensures base.Some? && base.value.Obj? && incoming.Some? && incoming.value.Obj? ==>
      r == MergeObjects(base.value.fields, incoming.value.fields)
  {
    assert !(base.Some? && base.value.Obj?) ==> AsObject(base) == map[];
    assert !(incoming.Some? && incoming.value.Obj?) ==> AsObject(incoming) == map[];
    MergeObjects(AsObject(base), AsObject(incoming))
  }

  /**
   * `loadSettings()`: `stored` is the parsed value, `None` when the key is
   * missing or empty or its text does not parse; those give the defaults,
   * anything else is merged over them.
   */
  function LoadSettings(stored: Option<Value>): (r: Object)
    ensures stored.None? ==> r == DefaultSettings
    ensures stored.Some? ==> r == SafeMerge(Some(Obj(DefaultSettings)), stored)
  {
    match stored
    case None => DefaultSettings
    case Some(v) => SafeMerge(Some(Obj(DefaultSettings)), Some(v))
  }

  /** A settings object: each section is an object. */
  predicate Sectioned(o: Object) {
    forall s :: s in Sections ==> s in o && o[s].Obj?
  }

  // ---------------------------------------------------------------------
  // Properties
  // ---------------------------------------------------------------------

  /** `null`, `undefined` and {} are the same base, and the same incoming value. */
  lemma NullIsEmpty(x: Option<Value>)
    ensures SafeMerge(Some(Null), x) == SafeMerge(None, x) == SafeMerge(Some(Obj(map[])), x)
    ensures SafeMerge(x, Some(Null)) == SafeMerge(x, None) == SafeMerge(x, Some(Obj(map[])))
  {
    assert AsObject(Some(Null)) == AsObject(None) == AsObject(Some(Obj(map[]))) == map[];
  }

  /** Merging nothing over a settings object gives it back. */
  lemma MergeEmptyKeeps(o: Object)
    requires Sectioned(o)
    ensures MergeObjects(o, map[]) == o
  {
    var r := MergeObjects(o, map[]);
    forall k | k in o ensures r[k] == o[k] {
      MergedFieldEmpty(o, k);
    }
    SameObject(r, o);
  }

  /** Each field of a settings object survives merging nothing over it. */
  lemma MergedFieldEmpty(o: Object, k: string)
    requires Sectioned(o) && k in o
    ensures MergeObjects(o, map[])[k] == o[k]
  {
    if k in Sections {
      assert AsObject(Get(o, k)) == o[k].fields;
      SpreadEmpty(o[k].fields);
    }
  }

  lemma SpreadEmpty(x: Object)
    ensures Spread(x, map[]) == x
  {
    assert Spread(x, map[]).Keys == x.Keys;
  }

  lemma SpreadTwice(x: Object, y: Object)
    ensures Spread(Spread(x, y), y) == Spread(x, y)
  {
    assert Spread(Spread(x, y), y).Keys == Spread(x, y).Keys;
  }

  lemma DefaultsAreSectioned()
    ensures Sectioned(DefaultSettings)
  {
  }

  /** With nothing stored, or an empty object stored, the settings are the defaults. */
  lemma EmptyStoredIsDefaults()
    ensures LoadSettings(None) == DefaultSettings
    ensures LoadSettings(Some(Obj(map[]))) == DefaultSettings
  {
    LoadIsMergeOverDefaults(Obj(map[]));
    DefaultsAreSectioned();
    MergeEmptyKeeps(DefaultSettings);
  }

  /** Anything stored is merged over the defaults, its non-object values counting as {}. */
  lemma LoadIsMergeOverDefaults(stored: Value)
    ensures LoadSettings(Some(stored)) == MergeObjects(DefaultSettings, AsObject(Some(stored)))
  {
    assert AsObject(Some(Obj(DefaultSettings))) == DefaultSettings;
  }

  /** Merging over a settings object keeps every field of every section. */
  lemma MergeKeepsBaseFields(b: Object, i: Object, s: string, f: string)
    requires s in Sections && s in b && b[s].Obj? && f in b[s].fields
    ensures s in MergeObjects(b, i) && MergeObjects(b, i)[s].Obj? && f in MergeObjects(b, i)[s].fields
  {
    assert AsObject(Get(b, s)) == b[s].fields;
  }

  /** Loaded settings always have every section and every default field of it. */
  lemma LoadedHasEveryDefault(stored: Option<Value>, s: string, f: string)
    requires s in Sections && f in SectionDefaults(s)
    ensures var r := LoadSettings(stored); s in r && r[s].Obj? && f in r[s].fields
  {
    var b := DefaultSettings;
    assert s in b && b[s] == Obj(SectionDefaults(s));
    if stored.Some? {
      LoadIsMergeOverDefaults(stored.value);
      MergeKeepsBaseFields(b, AsObject(stored), s, f);
    }
  }

  /** A stored field of a section wins over its default. */
  lemma StoredFieldWins(stored: Value, s: string, f: string)
    requires s in Sections
    requires f in AsObject(Get(AsObject(Some(stored)), s))
    ensures LoadSettings(Some(stored))[s].fields[f] == AsObject(Get(AsObject(Some(stored)), s))[f]
  {
  }

  /** Merging the same incoming settings a second time changes nothing. */
  lemma MergeTwice(b: Object, i: Object)
    ensures MergeObjects(MergeObjects(b, i), i) == MergeObjects(b, i)
  {
    var m := MergeObjects(b, i);
    var r := MergeObjects(m, i);
    assert r.Keys == m.Keys;
    forall k | k in m ensures r[k] == m[k] {
      if k in Sections {
        SectionMergeTwice(b, i, k);
      }
    }
    SameObject(r, m);
  }

  lemma SectionMergeTwice(b: Object, i: Object, s: string)
    requires s in Sections
    ensures MergedSection(MergeObjects(b, i), i, s) == MergedSection(b, i, s)
  {
    MergedSectionRead(b, i, s);
    SpreadTwice(AsObject(Get(b, s)), AsObject(Get(i, s)));
  }

  /** Reading a section back from the merged settings gives the merged section. */
  lemma MergedSectionRead(b: Object, i: Object, s: string)
    requires s in Sections
    ensures AsObject(Get(MergeObjects(b, i), s)) == Spread(AsObject(Get(b, s)), AsObject(Get(i, s)))
  {
    var m := MergeObjects(b, i);
    assert m[s] == Obj(Spread(AsObject(Get(b, s)), AsObject(Get(i, s))));
  }
}
