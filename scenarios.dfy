/** Calls of the builders and the converter on concrete records, most of
    them taken from the repository's unit tests, with their results proved;
    and the consequence of caching the builders across calls to `parse`. */
module Scenarios {
  import opened PhpArrays
  import opened Errors
  import opened Geometry
  import opened Properties
  import Crs
  import opened Conversion

  /** A new converter has no defaults; `getDefaults` returns what
      `setDefaults` stored. */
  method DefaultsRoundTrip(d: Entries) returns (initial: Entries, stored: Entries)
    ensures initial == [] && stored == d
  {
    var c := new Converter();
    initial := c.GetDefaults();
    var same := c.SetDefaults(d);
    stored := same.GetDefaults();
  }

  /** The first record of the converter tests, with its fields in order. */
  const LocationA: Entries :=
    [("name", Str("Location A")), ("category", Str("Store")), ("lat", Num(39.984)),
     ("lng", Num(-75.343)), ("street", Str("Market"))]

  /** The coordinates the pair `['lat', 'lng']` reads from `LocationA`. */
  lemma LocationALatLng()
    ensures Get(LocationA, "lat") == Num(39.984) && Get(LocationA, "lng") == Num(-75.343)
  {
    FindAt(LocationA, "lat", 2);
    FindAt(LocationA, "lng", 3);
  }

  /** `{Point: ['lat', 'lng']}` gives the point `[lng, lat]`. */
  method PointFromPair() returns (g: Value)
    ensures g == Obj([("type", Str("Point")), ("coordinates", List([Num(-75.343), Num(39.984)]))])
  {
    var pair := List([Str("lat"), Str("lng")]);
    var b := new GeometryBuilder([("geom", Obj([("Point", pair)]))]);
    g := b.Build(LocationA);
    assert Mapping(b.params) == [("Point", pair)];
    assert EntryOf(pair) == Pair("lat", "lng") by {
      assert EntriesOf(pair) == [("0", Str("lat")), ("1", Str("lng"))];
    }
    LocationALatLng();
    PairSwapsAxes(LocationA, [("Point", pair)], 0);
  }

  /** With no modes set, every field but the geometry attributes is kept,
      in record order. */
  method AllDropsGeometry() returns (props: Entries)
    ensures props == [("test1", Str("value1")), ("test2", Str("value2"))]
  {
    var x, y, z := ("test1", Str("value1")), ("Latitude", Str("72.65465465")), ("test2", Str("value2"));
    var attrs := [Str("Latitude"), Str("Longitude")];
    var b := new PropertyBuilder([], attrs);
    props := b.Build([x, y, z]);
    assert FilterKeys([x], attrs, false) == [x];
    assert FilterKeys([x, y], attrs, false) == [x] by { assert [x, y][..1] == [x]; }
    assert FilterKeys([x, y, z], attrs, false) == [x, z] by { assert [x, y, z][..2] == [x, y]; }
  }

  /** An allow list keeps only the fields it names, even when a deny list is
      also given. */
  method IncludeBeatsExclude() returns (props: Entries)
    ensures props == [("test2", Str("value2"))]
  {
    var b := new PropertyBuilder([("exclude", List([Str("test2")])), ("include", List([Str("test2")]))],
                                 [Str("Latitude"), Str("Longitude")]);
    props := b.Build([("test1", Str("value1")), ("test2", Str("value2"))]);
  }

  /** A deny list drops the fields it names and the geometry attributes. */
  method ExcludeDropsListedAndGeometry() returns (props: Entries)
    ensures props == [("test1", Str("value1"))]
  {
    var x, y, z := ("test1", Str("value1")), ("Latitude", Str("72.65465465")), ("test2", Str("value2"));
    var names := [Str("Latitude"), Str("Longitude")] + [Str("test2")];
    var b := new PropertyBuilder([("exclude", List([Str("test2")]))], [Str("Latitude"), Str("Longitude")]);
    props := b.Build([x, y, z]);
    assert FilterKeys([x], names, false) == [x];
    assert FilterKeys([x, y], names, false) == [x] by { assert [x, y][..1] == [x]; }
    assert FilterKeys([x, y, z], names, false) == [x] by { assert [x, y, z][..2] == [x, y]; }
  }

  /** The named CRS84 descriptor is returned as given. */
  lemma NamedCrsAccepted()
    ensures var crs := Obj([("type", Str("name")),
                            ("properties", Obj([("name", Str("urn:ogc:def:crs:OGC:1.3:CRS84"))]))]);
      Crs.Build([("crs", crs)]) == Ok(crs)
  {
    var props := Obj([("name", Str("urn:ogc:def:crs:OGC:1.3:CRS84"))]);
    var crs := Obj([("type", Str("name")), ("properties", props)]);
    assert Get([("crs", crs)], "crs") == crs;
    assert Elem(crs, "type") == Str("name");
    FindAt(crs.fields, "properties", 1);
    assert Elem(props, "name") == Str("urn:ogc:def:crs:OGC:1.3:CRS84");
  }

  /** A type other than "name" or "link" is rejected. */
  lemma UnknownCrsTypeRejected()
    ensures Crs.Build([("crs", Obj([("type", Str("unknown"))]))]) == Err(CrsTypeInvalid)
  {
    var crs := Obj([("type", Str("unknown"))]);
    assert Get([("crs", crs)], "crs") == crs;
    assert Elem(crs, "type") == Str("unknown");
  }

  /** A link without `href` is rejected. */
  lemma LinkWithoutHrefRejected()
    ensures Crs.Build([("crs", Obj([("type", Str("link")),
                                    ("properties", Obj([("notahref", Str("urn")), ("type", Str("test"))]))]))])
            == Err(CrsLinkMissing)
  {
    var props := Obj([("notahref", Str("urn")), ("type", Str("test"))]);
    var crs := Obj([("type", Str("link")), ("properties", props)]);
    assert Get([("crs", crs)], "crs") == crs;
    assert Elem(crs, "type") == Str("link");
    FindAt(crs.fields, "properties", 1);
    assert Elem(props, "href") == Null by {
      assert !HasKey(props.fields, "href");
    }
  }

  /** A scalar in place of a descriptor has no type, so it is rejected with
      the invalid-type exception. */
  lemma ScalarCrsRejected()
    ensures Crs.Build([("crs", Str("Hello"))]) == Err(CrsTypeInvalid)
  {
    assert Get([("crs", Str("Hello"))], "crs") == Str("Hello");
  }

  /** A named CRS without `name` is rejected. */
  lemma NameWithoutNameRejected()
    ensures Crs.Build([("crs", Obj([("type", Str("name")),
                                    ("properties", Obj([("notaname", Str("urn"))]))]))])
            == Err(CrsNameMissing)
  {
    var props := Obj([("notaname", Str("urn"))]);
    var crs := Obj([("type", Str("name")), ("properties", props)]);
    assert Get([("crs", crs)], "crs") == crs;
    assert Elem(crs, "type") == Str("name");
    FindAt(crs.fields, "properties", 1);
    assert Elem(props, "name") == Null by {
      assert !HasKey(props.fields, "name");
    }
  }

  /** A link without `type` in its properties is rejected. */
  lemma LinkWithoutTypeRejected()
    ensures Crs.Build([("crs", Obj([("type", Str("link")),
                                    ("properties", Obj([("href", Str("urn")), ("notatype", Str("test"))]))]))])
            == Err(CrsLinkMissing)
  {
    var props := Obj([("href", Str("urn")), ("notatype", Str("test"))]);
    var crs := Obj([("type", Str("link")), ("properties", props)]);
    assert Get([("crs", crs)], "crs") == crs;
    assert Elem(crs, "type") == Str("link");
    FindAt(crs.fields, "properties", 1);
    assert Elem(props, "type") == Null by {
      assert !HasKey(props.fields, "type");
    }
  }

  /** The builders are made on the first `parse` that sees a record and are
      kept: a second `parse` with other settings still builds its features
      with the first call's settings and geometry attributes, while its own
      attribute list and its `bbox` and `extraGlobal` come from the new
      settings. */
  method ReuseAcrossParses(first: seq<Entries>, second: seq<Entries>, p1: Entries, p2: Entries)
    returns (c: Converter, r1: Result<Value>, r2: Result<Value>)
    requires DistinctKeys(p1) && DistinctKeys(p2)
    requires forall o :: o in first ==> DistinctKeys(o)
    requires forall o :: o in second ==> DistinctKeys(o)
    requires first != [] && AttrsOf(GeomOf(p1)) != [] && AttrsOf(GeomOf(p2)) != []
    ensures c.geometryBuilder != null && c.propertyBuilder != null
    ensures c.geometryBuilder.params == Settings(p1) && c.propertyBuilder.params == Settings(p1)
    ensures c.propertyBuilder.geomAttrs == AttrsOf(GeomOf(p1))
    ensures c.geomAttrs == AttrsOf(GeomOf(p2))
    ensures r1 == Collection(Features(first, c.geometryBuilder, c.propertyBuilder), Settings(p1))
    ensures r2 == Collection(Features(second, c.geometryBuilder, c.propertyBuilder), Settings(p2))
  {
    c := new Converter();
    r1 := c.Parse(first, p1);
    r2 := c.Parse(second, p2);
  }
}
