/** The geometry of one feature: the first entry of the geometry mapping
    whose fields the record sets decides the geometry
    (src/GeoJSON/GeometryBuilder.php). */
module Geometry {
  import opened PhpArrays

  /** How one value of the geometry mapping names record fields:
      `['lat', 'lng']` is a pair, `'coords'` a single field, and anything
      else can never match a record. */
  datatype GeomEntry = Pair(x: string, y: string) | Single(field: string) | Unusable

  /** Reads a mapping value the way `build` inspects it: `is_string($val)`
      gives a single field; `is_array($val)` gives the pair `$val[0]`,
      `$val[1]` when both are strings. */
  function EntryOf(v: Value): GeomEntry {
    if v.Str? then Single(v.s)
    else if IsArray(v) && Elem(v, "0").Str? && Elem(v, "1").Str? then Pair(Elem(v, "0").s, Elem(v, "1").s)
    else Unusable
  }

  /** The entry's fields are all set (present and not null) in the record. */
  predicate Matches(rec: Entries, e: GeomEntry) {
    match e
    case Pair(x, y) => IsSet(rec, x) && IsSet(rec, y)
    case Single(f) => IsSet(rec, f)
    case Unusable => false
  }

  /** `getLatLong`: the second field's value comes first in the coordinates. */
  function LatLong(rec: Entries, gtype: string, x: string, y: string): Value {
    Obj([("type", Str(gtype)), ("coordinates", List([Get(rec, y), Get(rec, x)]))])
  }

  /** `getCoords`: the pseudo-type "GeoJSON" passes the field's value through
      as the whole geometry; any other type wraps it as the coordinates. */
  function Coords(rec: Entries, gtype: string, f: string): Value {
    if gtype == "GeoJSON" then Get(rec, f)
    else Obj([("type", Str(gtype)), ("coordinates", Get(rec, f))])
  }

  /** The geometry a matching entry produces. */
  function Emit(rec: Entries, gtype: string, e: GeomEntry): Value
    requires !e.Unusable?
  {
    match e
    case Pair(x, y) => LatLong(rec, gtype, x, y)
    case Single(f) => Coords(rec, gtype, f)
  }

  /** Reference definition of `build`: entries are tried in mapping order and
      the first match decides; without a match the geometry is `[]`. */
  function Resolve(rec: Entries, geom: Entries): Value
    decreases |geom|
  {
    if geom == [] then Empty
    else
      var e := EntryOf(geom[0].1);
      if Matches(rec, e) then Emit(rec, geom[0].0, e) else Resolve(rec, geom[1..])
  }

  /** The geometry mapping a builder reads: `$params['geom']`. */
  function Mapping(params: Entries): Entries {
    EntriesOf(Get(params, "geom"))
  }

  /** An entry matches exactly when `build`'s own condition holds: a string
      naming a set field, or an array whose first two elements name set
      fields. A value that is neither an array nor a string never matches. */
  lemma MatchCondition(rec: Entries, v: Value)
    ensures Matches(rec, EntryOf(v)) <==>
      (v.Str? && IsSet(rec, v.s)) ||
      (IsArray(v) && Elem(v, "0").Str? && Elem(v, "1").Str? && IsSet(rec, Elem(v, "0").s) && IsSet(rec, Elem(v, "1").s))
    ensures !IsArray(v) && !v.Str? ==> !Matches(rec, EntryOf(v))
  {
  }

  /** The first matching entry, and no later one, determines the geometry. */
  lemma {:induction false} FirstMatchWins(rec: Entries, geom: Entries, i: nat)
    requires i < |geom| && Matches(rec, EntryOf(geom[i].1))
    requires forall j :: 0 <= j < i ==> !Matches(rec, EntryOf(geom[j].1))
    ensures Resolve(rec, geom) == Emit(rec, geom[i].0, EntryOf(geom[i].1))
    decreases i
  {
    if i > 0 {
      assert !Matches(rec, EntryOf(geom[0].1));
      FirstMatchWins(rec, geom[1..], i - 1);
    }
  }

  /** When no entry matches, the geometry is the empty array, not an error. */
  lemma {:induction false} NoMatchIsEmpty(rec: Entries, geom: Entries)
    requires forall j :: 0 <= j < |geom| ==> !Matches(rec, EntryOf(geom[j].1))
    ensures Resolve(rec, geom) == Empty
    decreases |geom|
  {
    if geom != [] {
      assert !Matches(rec, EntryOf(geom[0].1));
      NoMatchIsEmpty(rec, geom[1..]);
    }
  }

  /** A first-matching pair `[x, y]` gives `{type, coordinates: [rec[y], rec[x]]}`:
      the axes are swapped. */
  lemma PairSwapsAxes(rec: Entries, geom: Entries, i: nat)
    requires i < |geom| && EntryOf(geom[i].1).Pair?
    requires IsSet(rec, EntryOf(geom[i].1).x) && IsSet(rec, EntryOf(geom[i].1).y)
    requires forall j :: 0 <= j < i ==> !Matches(rec, EntryOf(geom[j].1))
    ensures Resolve(rec, geom) ==
      Obj([("type", Str(geom[i].0)),
           ("coordinates", List([Get(rec, EntryOf(geom[i].1).y), Get(rec, EntryOf(geom[i].1).x)]))])
  {
    FirstMatchWins(rec, geom, i);
  }

  /** A first-matching single field is passed through verbatim: as the whole
      geometry under "GeoJSON", as the coordinates under any other type. */
  lemma SingleFieldPassesThrough(rec: Entries, geom: Entries, i: nat)
    requires i < |geom| && geom[i].1.Str? && IsSet(rec, geom[i].1.s)
    requires forall j :: 0 <= j < i ==> !Matches(rec, EntryOf(geom[j].1))
    ensures geom[i].0 == "GeoJSON" ==> Resolve(rec, geom) == Get(rec, geom[i].1.s)
    ensures geom[i].0 != "GeoJSON" ==>
      Resolve(rec, geom) == Obj([("type", Str(geom[i].0)), ("coordinates", Get(rec, geom[i].1.s))])
  {
    FirstMatchWins(rec, geom, i);
  }

  /** `GeoJSON\GeometryBuilder`: holds the settings it was built with. */
  class GeometryBuilder {
    const params: Entries

    constructor (params: Entries)
      ensures this.params == params
    {
      this.params := params;
    }

    /** `build`: walks `$params['geom']`, returning at the first match. */
    method Build(rec: Entries) returns (g: Value)
      ensures g == Resolve(rec, Mapping(params))
    {
      var geom := EntriesOf(Get(params, "geom"));
      var i := 0;
      while i < |geom|
        invariant 0 <= i <= |geom|
        invariant Resolve(rec, geom[i..]) == Resolve(rec, geom)
      {
        assert geom[i..][1..] == geom[i + 1..];
        var (gtype, val) := geom[i];
        match EntryOf(val) {
          case Pair(x, y) =>
            if IsSet(rec, x) && IsSet(rec, y) {
              return LatLong(rec, gtype, x, y);
            }
          case Single(f) =>
            if IsSet(rec, f) {
              return Coords(rec, gtype, f);
            }
          case Unusable =>
        }
        i := i + 1;
      }
      return Empty;
    }
  }
}
