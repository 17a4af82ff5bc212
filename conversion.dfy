/** The orchestrator: merges defaults into the settings, moves the geometry
    mapping under `geom`, builds one feature per record and adds the
    optional members of the collection (src/GeoJSON/Converter.php). */
module Conversion {
  import opened PhpArrays
  import opened Errors
  import opened Geometry
  import opened Properties

  /** `Converter::$geoms`: the settings keys that configure geometry. */
  const GeometryTypes: seq<Value> :=
    [Str("Point"), Str("MultiPoint"), Str("LineString"), Str("MultiLineString"),
     Str("Polygon"), Str("MultiPolygon"), Str("GeoJSON")]

  /** Reference definition of `applyDefaults`: each default, in order, is
      written only when the key is not set (absent or null) yet. */
  function WithDefaults(params: Entries, defaults: Entries): Entries
    decreases |defaults|
  {
    if defaults == [] then params
    else
      var merged := WithDefaults(params, defaults[..|defaults| - 1]);
      var (k, v) := defaults[|defaults| - 1];
      if IsSet(merged, k) then merged else Put(merged, k, v)
  }

  /** A setting that is set keeps its value; a default fills only keys that
      are absent or null; every other key reads as in the settings. */
  lemma {:induction false} WithDefaultsSpec(params: Entries, defaults: Entries)
    requires DistinctKeys(defaults)
    ensures var r := WithDefaults(params, defaults);
      && (forall k :: IsSet(params, k) ==> Get(r, k) == Get(params, k))
      && (forall k :: !IsSet(params, k) && HasKey(defaults, k) ==> Get(r, k) == Get(defaults, k))
      && (forall k :: !HasKey(defaults, k) ==> Get(r, k) == Get(params, k))
    decreases |defaults|
  {
    if defaults != [] {
      var init := defaults[..|defaults| - 1];
      var (k, v) := defaults[|defaults| - 1];
      assert defaults == init + [(k, v)];
      WithDefaultsSpec(params, init);
      var merged := WithDefaults(params, init);
      LacksLaterKey(defaults, |defaults| - 1, init);
      if !IsSet(merged, k) {
        PutSpec(merged, k, v);
      }
      forall j ensures (HasKey(defaults, j) <==> HasKey(init, j) || j == k)
        && Get(defaults, j) == if HasKey(init, j) then Get(init, j) else if j == k then v else Null
      {
        GetSnoc(init, (k, v), j);
      }
    }
  }

  /** Merging keeps every setting in its place, appends the defaults it adds
      after them, and adds no key that neither side has. */
  lemma {:induction false} WithDefaultsKeys(params: Entries, defaults: Entries)
    ensures var r := WithDefaults(params, defaults);
      && (forall k :: HasKey(r, k) <==> HasKey(params, k) || HasKey(defaults, k))
      && |params| <= |r| && (forall i :: 0 <= i < |params| ==> r[i].0 == params[i].0)
      && (DistinctKeys(params) ==> DistinctKeys(r))
    decreases |defaults|
  {
    if defaults != [] {
      var init := defaults[..|defaults| - 1];
      var (k, v) := defaults[|defaults| - 1];
      assert defaults == init + [(k, v)];
      WithDefaultsKeys(params, init);
      var merged := WithDefaults(params, init);
      PutSpec(merged, k, v);
      forall j ensures HasKey(defaults, j) <==> HasKey(init, j) || j == k {
        GetSnoc(init, (k, v), j);
      }
    }
  }

  /** The defaults merging appends after the settings come in the order the
      defaults list them; this order decides which default geometry entry is
      tried first. */
  lemma {:induction false} WithDefaultsOrder(params: Entries, defaults: Entries)
    requires DistinctKeys(defaults)
    ensures TailInOrder(WithDefaults(params, defaults), |params|, defaults)
    decreases |defaults|
  {
    if defaults != [] {
      var init := defaults[..|defaults| - 1];
      var last := defaults[|defaults| - 1];
      assert defaults == init + [last];
      WithDefaultsOrder(params, init);
      var merged := WithDefaults(params, init);
      LacksLaterKey(defaults, |defaults| - 1, init);
      if IsSet(merged, last.0) {
        TailInOrderSnoc(merged, |params|, init, last);
      } else {
        TailInOrderPut(merged, |params|, init, last);
      }
    }
  }

  /** The geometry mapping `setGeom` gathers: the geometry-type entries of
      the settings, in their order. */
  function GeomOf(params: Entries): Entries {
    FilterKeys(params, GeometryTypes, true)
  }

  /** The settings `setGeom` returns: the other entries in their order, then
      the mapping under `geom`. */
  function Settings(params: Entries): Entries {
    Put(FilterKeys(params, GeometryTypes, false), "geom", Obj(GeomOf(params)))
  }

  /** `setGeom` moves exactly the geometry-type keys, with their values, under
      `geom`; no geometry-type key stays at top level and every other key
      keeps its value. */
  lemma SettingsSpec(params: Entries)
    requires DistinctKeys(params)
    ensures DistinctKeys(GeomOf(params)) && DistinctKeys(Settings(params))
    ensures Mapping(Settings(params)) == GeomOf(params)
    ensures forall k :: HasKey(GeomOf(params), k) <==> HasKey(params, k) && InArray(k, GeometryTypes)
    ensures forall k :: HasKey(GeomOf(params), k) ==> Get(GeomOf(params), k) == Get(params, k)
    ensures forall k :: HasKey(Settings(params), k) <==> k == "geom" || (HasKey(params, k) && !InArray(k, GeometryTypes))
    ensures forall k :: k != "geom" && !InArray(k, GeometryTypes) ==> Get(Settings(params), k) == Get(params, k)
  {
    var rest := FilterKeys(params, GeometryTypes, false);
    FilterKeysSpec(params, GeometryTypes, true);
    FilterKeysSpec(params, GeometryTypes, false);
    PutSpec(rest, "geom", Obj(GeomOf(params)));
    forall k | k != "geom" && !InArray(k, GeometryTypes) ensures Get(Settings(params), k) == Get(params, k) {
      if !HasKey(params, k) {
        assert !HasKey(rest, k);
      }
    }
  }

  /** One step of `setGeom`'s loop on the mapping: a geometry-type entry is
      added to it, any other entry is not. */
  lemma SplitStepGeom(params: Entries, i: int)
    requires DistinctKeys(params) && 0 <= i < |params|
    ensures var geom := FilterKeys(params[..i], GeometryTypes, true);
      FilterKeys(params[..i + 1], GeometryTypes, true) ==
        if InArray(params[i].0, GeometryTypes) then Put(geom, params[i].0, params[i].1) else geom
  {
    var geom := FilterKeys(params[..i], GeometryTypes, true);
    FilterKeysSnoc(params, GeometryTypes, true, i);
    if InArray(params[i].0, GeometryTypes) {
      LacksLaterKey(params, i, geom);
    }
  }

  /** One step of `setGeom`'s loop on the settings: a geometry-type entry is
      unset, any other entry stays where it is. */
  lemma SplitStepRest(params: Entries, i: int)
    requires DistinctKeys(params) && 0 <= i < |params|
    ensures var rest := FilterKeys(params[..i], GeometryTypes, false) + params[i..];
      FilterKeys(params[..i + 1], GeometryTypes, false) + params[i + 1..] ==
        if InArray(params[i].0, GeometryTypes) then Remove(rest, params[i].0) else rest
  {
    var x := params[i];
    var kept := FilterKeys(params[..i], GeometryTypes, false);
    var tail := params[i + 1..];
    assert FilterKeys(params[..i + 1], GeometryTypes, false) ==
      if InArray(x.0, GeometryTypes) then kept else kept + [x] by {
      FilterKeysSnoc(params, GeometryTypes, false, i);
    }
    assert kept + params[i..] == kept + [x] + tail by {
      assert params[i..] == [x] + tail;
    }
    if InArray(x.0, GeometryTypes) {
      assert !HasKey(kept, x.0) by {
        LacksLaterKey(params, i, kept);
      }
      RemoveFirst(kept, x, tail);
    }
  }

  /** The geometry attributes one mapping value contributes: both names of a
      pair (any array), or the value itself. */
  function AttrsFor(v: Value): seq<Value> {
    if IsArray(v) then [Elem(v, "0"), Elem(v, "1")] else [v]
  }

  /** Reference definition of the list `setGeomAttrs` appends. */
  function AttrsOf(geom: Entries): seq<Value>
    decreases |geom|
  {
    if geom == [] then [] else AttrsOf(geom[..|geom| - 1]) + AttrsFor(geom[|geom| - 1].1)
  }

  /** The next mapping entry appends its own fields to the list. */
  lemma AttrsOfSnoc(geom: Entries, i: int)
    requires 0 <= i < |geom|
    ensures AttrsOf(geom[..i + 1]) == AttrsOf(geom[..i]) + AttrsFor(geom[i].1)
  {
    assert geom[..i + 1][..i] == geom[..i];
  }

  /** The attribute list is empty exactly when the mapping is: this is when
      "No geometry attributes specified" is thrown. */
  lemma {:induction false} AttrsOfEmpty(geom: Entries)
    ensures |AttrsOf(geom)| >= |geom|
    ensures AttrsOf(geom) == [] <==> geom == []
    decreases |geom|
  {
    if geom != [] {
      AttrsOfEmpty(geom[..|geom| - 1]);
    }
  }

  /** A field that geometry entry `e` reads from the record. */
  predicate Consumes(e: GeomEntry, f: string) {
    match e
    case Pair(x, y) => f == x || f == y
    case Single(g) => f == g
    case Unusable => false
  }

  /** Every field a mapping entry can read is among the geometry attributes. */
  lemma {:induction false} ConsumedFieldsAreAttrs(geom: Entries, i: int, f: string)
    requires 0 <= i < |geom| && Consumes(EntryOf(geom[i].1), f)
    ensures InArray(f, AttrsOf(geom))
    decreases |geom|
  {
    var init := geom[..|geom| - 1];
    if i < |geom| - 1 {
      assert init[i] == geom[i];
      ConsumedFieldsAreAttrs(init, i, f);
    } else {
      assert Str(f) in AttrsFor(geom[i].1);
    }
  }

  /** Unless "include" names it or "extra" adds it back, a field that any
      geometry entry reads never becomes a property. */
  lemma GeometryFieldsNotInProperties(rec: Entries, params: Entries, geom: Entries, i: int, f: string)
    requires DistinctKeys(rec) && DistinctKeys(EntriesOf(Get(params, "extra")))
    requires 0 <= i < |geom| && Consumes(EntryOf(geom[i].1), f)
    requires !IsSet(params, "include")
    requires IsSet(params, "extra") ==> !HasKey(EntriesOf(Get(params, "extra")), f)
    ensures !HasKey(PropsFor(rec, params, AttrsOf(geom)), f)
  {
    ConsumedFieldsAreAttrs(geom, i, f);
    var attrs := AttrsOf(geom);
    if IsSet(params, "exclude") {
      ExcludePropsSpec(rec, attrs, ItemsOf(Get(params, "exclude")));
    } else {
      AllPropsSpec(rec, attrs, params);
    }
  }

  /** Reference definition of `addOptionals`. The `crs` branch calls
      `getCrsBuilder($params)` with one of its two required arguments, so it
      raises an error before anything is added. */
  function Envelope(geoJson: Entries, params: Entries): Result<Entries> {
    if IsSet(params, "crs") then Err(TooFewArguments)
    else
      var withBbox := if IsSet(params, "bbox") then Put(geoJson, "bbox", Get(params, "bbox")) else geoJson;
      if IsSet(params, "extraGlobal") then
        Ok(Put(withBbox, "properties", Obj(Overlay([], EntriesOf(Get(params, "extraGlobal"))))))
      else Ok(withBbox)
  }

  /** `bbox` is copied verbatim when set, `extraGlobal` becomes a top-level
      `properties` holding its entries, and every other member (the
      features among them) is left as it was. */
  lemma EnvelopeSpec(geoJson: Entries, params: Entries)
    requires !HasKey(geoJson, "bbox") && !HasKey(geoJson, "properties")
    ensures IsSet(params, "crs") ==> Envelope(geoJson, params) == Err(TooFewArguments)
    ensures !IsSet(params, "crs") ==> Envelope(geoJson, params).Ok?
    ensures Envelope(geoJson, params).Ok? ==> var g := Envelope(geoJson, params).value;
      && (forall k :: k != "bbox" && k != "properties" ==> Get(g, k) == Get(geoJson, k))
      && (forall k :: HasKey(g, k) <==>
            (HasKey(geoJson, k) || (k == "bbox" && IsSet(params, "bbox")) || (k == "properties" && IsSet(params, "extraGlobal"))))
      && (IsSet(params, "bbox") ==> Get(g, "bbox") == Get(params, "bbox"))
      && (IsSet(params, "extraGlobal") && DistinctKeys(EntriesOf(Get(params, "extraGlobal"))) ==>
            Get(g, "properties") == Obj(EntriesOf(Get(params, "extraGlobal"))))
  {
    if !IsSet(params, "crs") {
      var withBbox := if IsSet(params, "bbox") then Put(geoJson, "bbox", Get(params, "bbox")) else geoJson;
      PutSpec(geoJson, "bbox", Get(params, "bbox"));
      var extra := EntriesOf(Get(params, "extraGlobal"));
      PutSpec(withBbox, "properties", Obj(Overlay([], extra)));
      if IsSet(params, "extraGlobal") && DistinctKeys(extra) {
        OverlayOntoEmpty(extra);
      }
    }
  }

  /** The collection `parse` assembles around its features. */
  function Collection(features: seq<Value>, settings: Entries): Result<Value> {
    match Envelope([("type", Str("FeatureCollection")), ("features", List(features))], settings)
    case Ok(g) => Ok(Obj(g))
    case Err(e) => Err(e)
  }

  /** The feature `getFeature` builds from one record with the given builders. */
  function FeatureOf(rec: Entries, gb: GeometryBuilder, pb: PropertyBuilder): Value {
    Obj([("type", Str("Feature")),
         ("geometry", Resolve(rec, Mapping(gb.params))),
         ("properties", Obj(PropsFor(rec, pb.params, pb.geomAttrs)))])
  }

  /** One feature per record, in record order. */
  function Features(objects: seq<Entries>, gb: GeometryBuilder, pb: PropertyBuilder): (fs: seq<Value>)
    ensures |fs| == |objects| && forall i :: 0 <= i < |objects| ==> fs[i] == FeatureOf(objects[i], gb, pb)
  {
    seq(|objects|, i requires 0 <= i < |objects| => FeatureOf(objects[i], gb, pb))
  }

  /** Appending the next record's feature extends the list by one. */
  lemma FeaturesSnoc(objects: seq<Entries>, i: int, gb: GeometryBuilder, pb: PropertyBuilder)
    requires 0 <= i < |objects|
    ensures Features(objects[..i + 1], gb, pb) == Features(objects[..i], gb, pb) + [FeatureOf(objects[i], gb, pb)]
  {
  }

  /** `GeoJSON\Converter`. */
  class Converter {
    var defaults: Entries
    var geomAttrs: seq<Value>
    var geometryBuilder: GeometryBuilder?
    var propertyBuilder: PropertyBuilder?

    constructor (defaults: Entries := [])
      ensures this.defaults == defaults && geomAttrs == []
      ensures geometryBuilder == null && propertyBuilder == null
    {
      this.defaults := defaults;
      geomAttrs := [];
      geometryBuilder := null;
      propertyBuilder := null;
    }

    method GetDefaults() returns (d: Entries)
      ensures d == defaults
    {
      d := defaults;
    }

    /** `setDefaults`, which returns the converter itself for chaining. */
    method SetDefaults(d: Entries) returns (self: Converter)
      modifies this`defaults
      ensures defaults == d && self == this
    {
      defaults := d;
      self := this;
    }

    /** `applyDefaults`. */
    method ApplyDefaults(params: Entries) returns (settings: Entries)
      ensures settings == WithDefaults(params, defaults)
    {
      settings := params;
      for i := 0 to |defaults|
        invariant settings == WithDefaults(params, defaults[..i])
      {
        assert defaults[..i + 1][..i] == defaults[..i];
        var (k, v) := defaults[i];
        if !IsSet(settings, k) {
          settings := Put(settings, k, v);
        }
      }
      assert defaults[..|defaults|] == defaults;
    }

    /** `setGeom`: moves the geometry-type entries under `geom`, then records
        their fields through `setGeomAttrs`, which may throw. */
    method SetGeom(params: Entries) returns (r: Result<Entries>)
      requires DistinctKeys(params)
      modifies this`geomAttrs
      ensures geomAttrs == old(geomAttrs) + AttrsOf(GeomOf(params))
      ensures r == if geomAttrs == [] then Err(NoGeometryAttributes) else Ok(Settings(params))
    {
      var rest := params;
      var geom: Entries := [];
      for i := 0 to |params|
        invariant geom == FilterKeys(params[..i], GeometryTypes, true)
        invariant rest == FilterKeys(params[..i], GeometryTypes, false) + params[i..]
        invariant geomAttrs == old(geomAttrs)
      {
        SplitStepGeom(params, i);
        SplitStepRest(params, i);
        var (k, v) := params[i];
        if InArray(k, GeometryTypes) {
          geom := Put(geom, k, v);
          rest := Remove(rest, k);
        }
      }
      assert params[..|params|] == params && params[|params|..] == [];
      assert geom == GeomOf(params);
      assert rest == FilterKeys(params, GeometryTypes, false);
      rest := Put(rest, "geom", Obj(geom));
      var outcome := SetGeomAttrs(geom);
      if outcome.Fail? {
        return Err(outcome.error);
      }
      return Ok(rest);
    }

    /** `setGeomAttrs`: appends the fields of each mapping entry, and throws
        when the list is still empty afterwards. */
    method SetGeomAttrs(geom: Entries) returns (outcome: Outcome)
      modifies this`geomAttrs
      ensures geomAttrs == old(geomAttrs) + AttrsOf(geom)
      ensures outcome == if geomAttrs == [] then Fail(NoGeometryAttributes) else Pass
    {
      ghost var start := geomAttrs;
      for i := 0 to |geom|
        invariant geomAttrs == start + AttrsOf(geom[..i])
      {
        AttrsOfSnoc(geom, i);
        var v := geom[i].1;
        if IsArray(v) {
          geomAttrs := geomAttrs + [Elem(v, "0")];
          geomAttrs := geomAttrs + [Elem(v, "1")];
        } else {
          geomAttrs := geomAttrs + [v];
        }
      }
      assert geom[..|geom|] == geom;
      if |geomAttrs| == 0 {
        return Fail(NoGeometryAttributes);
      }
      return Pass;
    }

    /** `getGeometryBuilder`: built from the settings of the first call, then
        reused whatever settings later calls pass. */
    method GetGeometryBuilder(params: Entries) returns (b: GeometryBuilder)
      modifies this`geometryBuilder
      ensures b == geometryBuilder
      ensures old(geometryBuilder) != null ==> geometryBuilder == old(geometryBuilder)
      ensures old(geometryBuilder) == null ==> fresh(geometryBuilder) && geometryBuilder.params == params
    {
      if geometryBuilder == null {
        geometryBuilder := new GeometryBuilder(params);
      }
      b := geometryBuilder;
    }

    /** `getPropertyBuilder`: built from the settings and geometry attributes
        of the first call, then reused. */
    method GetPropertyBuilder(params: Entries) returns (b: PropertyBuilder)
      modifies this`propertyBuilder
      ensures b == propertyBuilder
      ensures old(propertyBuilder) != null ==> propertyBuilder == old(propertyBuilder)
      ensures old(propertyBuilder) == null ==>
        fresh(propertyBuilder) && propertyBuilder.params == params && propertyBuilder.geomAttrs == geomAttrs
    {
      if propertyBuilder == null {
        propertyBuilder := new PropertyBuilder(params, geomAttrs);
      }
      b := propertyBuilder;
    }

    /** `getFeature`. */
    method GetFeature(item: Entries, params: Entries) returns (f: Value)
      requires DistinctKeys(item)
      modifies this`geometryBuilder, this`propertyBuilder
      ensures geometryBuilder != null && propertyBuilder != null
      ensures old(geometryBuilder) != null ==> geometryBuilder == old(geometryBuilder)
      ensures old(geometryBuilder) == null ==> fresh(geometryBuilder) && geometryBuilder.params == params
      ensures old(propertyBuilder) != null ==> propertyBuilder == old(propertyBuilder)
      ensures old(propertyBuilder) == null ==>
        fresh(propertyBuilder) && propertyBuilder.params == params && propertyBuilder.geomAttrs == geomAttrs
      ensures f == FeatureOf(item, geometryBuilder, propertyBuilder)
    {
      var geomBuilder := GetGeometryBuilder(params);
      var geometry := geomBuilder.Build(item);
      var propBuilder := GetPropertyBuilder(params);
      var properties := propBuilder.Build(item);
      f := Obj([("type", Str("Feature")), ("geometry", geometry), ("properties", Obj(properties))]);
    }

    /** `addOptionals`. */
    method AddOptionals(geoJson: Entries, params: Entries) returns (r: Result<Entries>)
      ensures r == Envelope(geoJson, params)
    {
      var g := geoJson;
      if IsSet(params, "crs") {
        // getCrsBuilder($geoJson, $params) is called with `$params` alone.
        return Err(TooFewArguments);
      }
      if IsSet(params, "bbox") {
        g := Put(g, "bbox", Get(params, "bbox"));
      }
      if IsSet(params, "extraGlobal") {
        var extra := EntriesOf(Get(params, "extraGlobal"));
        var props: Entries := [];
        for i := 0 to |extra|
          invariant props == Overlay([], extra[..i])
        {
          assert extra[..i + 1][..i] == extra[..i];
          props := Put(props, extra[i].0, extra[i].1);
        }
        assert extra[..|extra|] == extra;
        g := Put(g, "properties", Obj(props));
      }
      return Ok(g);
    }

    /** The `foreach` of `parse`: one feature per record, in record order,
        built with the cached builders (created on the first record). */
    method CollectFeatures(objects: seq<Entries>, settings: Entries) returns (features: seq<Value>)
      requires forall o :: o in objects ==> DistinctKeys(o)
      modifies this`geometryBuilder, this`propertyBuilder
      ensures objects == [] ==>
        features == [] && geometryBuilder == old(geometryBuilder) && propertyBuilder == old(propertyBuilder)
      ensures objects != [] ==>
        && geometryBuilder != null && propertyBuilder != null
        && (old(geometryBuilder) != null ==> geometryBuilder == old(geometryBuilder))
        && (old(geometryBuilder) == null ==> fresh(geometryBuilder) && geometryBuilder.params == settings)
        && (old(propertyBuilder) != null ==> propertyBuilder == old(propertyBuilder))
        && (old(propertyBuilder) == null ==>
              fresh(propertyBuilder) && propertyBuilder.params == settings && propertyBuilder.geomAttrs == geomAttrs)
        && features == Features(objects, geometryBuilder, propertyBuilder)
    {
      if objects == [] {
        return [];
      }
      assert objects[0] in objects;
      var first := GetFeature(objects[0], settings);
      features := [first];
      assert features == Features(objects[..1], geometryBuilder, propertyBuilder);
      ghost var gb, pb := geometryBuilder, propertyBuilder;
      for i := 1 to |objects|
        invariant geometryBuilder == gb && propertyBuilder == pb
        invariant |features| == i
        invariant features == Features(objects[..i], gb, pb)
      {
        assert objects[i] in objects;
        var f := GetFeature(objects[i], settings);
        FeaturesSnoc(objects, i, gb, pb);
        features := features + [f];
      }
      assert objects[..|objects|] == objects;
    }

    /** `parse`, returning the collection instead of its JSON text. The
        attribute list is rebuilt from scratch on every call; the builders are
        those of the first call that produced a feature. */
    method Parse(objects: seq<Entries>, params: Entries) returns (r: Result<Value>)
      requires DistinctKeys(params) && DistinctKeys(defaults)
      requires forall o :: o in objects ==> DistinctKeys(o)
      modifies this`geomAttrs, this`geometryBuilder, this`propertyBuilder
      ensures geomAttrs == AttrsOf(GeomOf(WithDefaults(params, defaults)))
      ensures geomAttrs == [] ==> r == Err(NoGeometryAttributes)
      ensures geomAttrs == [] || objects == [] ==>
        geometryBuilder == old(geometryBuilder) && propertyBuilder == old(propertyBuilder)
      ensures geomAttrs != [] && objects == [] ==> r == Collection([], Settings(WithDefaults(params, defaults)))
      ensures geomAttrs != [] && objects != [] ==>
        && geometryBuilder != null && propertyBuilder != null
        && (old(geometryBuilder) != null ==> geometryBuilder == old(geometryBuilder))
        && (old(geometryBuilder) == null ==>
              fresh(geometryBuilder) && geometryBuilder.params == Settings(WithDefaults(params, defaults)))
        && (old(propertyBuilder) != null ==> propertyBuilder == old(propertyBuilder))
        && (old(propertyBuilder) == null ==>
              && fresh(propertyBuilder)
              && propertyBuilder.params == Settings(WithDefaults(params, defaults))
              && propertyBuilder.geomAttrs == geomAttrs)
        && r == Collection(Features(objects, geometryBuilder, propertyBuilder), Settings(WithDefaults(params, defaults)))
    {
      var settings := ApplyDefaults(params);
      assert DistinctKeys(settings) by { WithDefaultsKeys(params, defaults); }
      geomAttrs := [];
      var split := SetGeom(settings);
      if split.Err? {
        return Err(split.error);
      }
      settings := split.value;
      var features := CollectFeatures(objects, settings);
      var envelope := AddOptionals([("type", Str("FeatureCollection")), ("features", List(features))], settings);
      match envelope {
        case Ok(g) => r := Ok(Obj(g));
        case Err(e) => r := Err(e);
      }
    }
  }
}
