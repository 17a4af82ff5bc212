/** The properties of one feature: every non-geometry field, an allow-list
    or a deny-list of fields, chosen by the settings
    (src/GeoJSON/PropertyBuilder.php). */
module Properties {
  import opened PhpArrays

  /** Mode "all": the record's fields that are not geometry attributes, in
      record order, then the `extra` entries written over them. */
  function AllProps(rec: Entries, geomAttrs: seq<Value>, params: Entries): Entries {
    var copied := FilterKeys(rec, geomAttrs, false);
    if IsSet(params, "extra") then Overlay(copied, EntriesOf(Get(params, "extra"))) else copied
  }

  /** Mode "include": each listed name that is set in the record, taken in
      list order, with the record's value. */
  function IncludeProps(rec: Entries, allow: seq<Value>): Entries
    decreases |allow|
  {
    if allow == [] then []
    else
      var props := IncludeProps(rec, allow[..|allow| - 1]);
      var name := allow[|allow| - 1];
      if name.Str? && IsSet(rec, name.s) then Put(props, name.s, Get(rec, name.s)) else props
  }

  /** Mode "exclude": the record's fields that are neither geometry
      attributes nor excluded, in record order. */
  function ExcludeProps(rec: Entries, geomAttrs: seq<Value>, exclude: seq<Value>): Entries {
    FilterKeys(rec, geomAttrs + exclude, false)
  }

  /** `build`'s choice of mode: "include" wins over "exclude", and with
      neither set every field is a candidate. */
  function PropsFor(rec: Entries, params: Entries, geomAttrs: seq<Value>): Entries {
    if !IsSet(params, "include") && !IsSet(params, "exclude") then AllProps(rec, geomAttrs, params)
    else if IsSet(params, "include") then IncludeProps(rec, ItemsOf(Get(params, "include")))
    else ExcludeProps(rec, geomAttrs, ItemsOf(Get(params, "exclude")))
  }

  /** Mode "all" drops exactly the geometry attributes, keeps every other
      field with its value, and lets `extra` overwrite or add keys, which are
      not checked against the geometry attributes. */
  lemma AllPropsSpec(rec: Entries, geomAttrs: seq<Value>, params: Entries)
    requires DistinctKeys(rec) && DistinctKeys(EntriesOf(Get(params, "extra")))
    ensures var r := AllProps(rec, geomAttrs, params);
      var extra := if IsSet(params, "extra") then EntriesOf(Get(params, "extra")) else [];
      && DistinctKeys(r)
      && (forall k :: HasKey(r, k) <==> (HasKey(rec, k) && !InArray(k, geomAttrs)) || HasKey(extra, k))
      && (forall k :: HasKey(r, k) ==> Get(r, k) == if HasKey(extra, k) then Get(extra, k) else Get(rec, k))
  {
    var copied := FilterKeys(rec, geomAttrs, false);
    FilterKeysSpec(rec, geomAttrs, false);
    if IsSet(params, "extra") {
      OverlaySpec(copied, EntriesOf(Get(params, "extra")));
    }
  }

  /** Mode "include" returns exactly the listed names that are set in the
      record, with the record's values; absent names are skipped and the
      geometry attributes play no part. */
  lemma {:induction false} IncludePropsSpec(rec: Entries, allow: seq<Value>)
    ensures var r := IncludeProps(rec, allow);
      && DistinctKeys(r)
      && (forall k :: HasKey(r, k) <==> InArray(k, allow) && IsSet(rec, k))
      && (forall k :: HasKey(r, k) ==> Get(r, k) == Get(rec, k))
    decreases |allow|
  {
    if allow != [] {
      var init := allow[..|allow| - 1];
      var name := allow[|allow| - 1];
      assert allow == init + [name];
      IncludePropsSpec(rec, init);
      var props := IncludeProps(rec, init);
      if name.Str? && IsSet(rec, name.s) {
        PutSpec(props, name.s, Get(rec, name.s));
      }
    }
  }

  /** The names appear in the result in the order the allow list gives
      them; a repeated name keeps the place of its first occurrence, since
      writing it again overwrites in place. */
  lemma {:induction false} IncludeKeepsListOrder(rec: Entries, allow: seq<Value>, i: int, j: int)
    requires 0 <= i < j < |allow| && allow[j] !in allow[..j] && allow[i].Str? && allow[j].Str?
    requires IsSet(rec, allow[i].s) && IsSet(rec, allow[j].s)
    ensures 0 <= Find(IncludeProps(rec, allow), allow[i].s) < Find(IncludeProps(rec, allow), allow[j].s)
    decreases |allow|
  {
    var init := allow[..|allow| - 1];
    var name := allow[|allow| - 1];
    var props := IncludeProps(rec, init);
    IncludePropsSpec(rec, init);
    assert init[i] == allow[i];
    assert InArray(allow[i].s, init);
    if j < |allow| - 1 {
      assert init[j] == allow[j] && init[..j] == allow[..j];
      IncludeKeepsListOrder(rec, init, i, j);
      if name.Str? && IsSet(rec, name.s) {
        if HasKey(props, name.s) {
          PutKeepsFind(props, name.s, Get(rec, name.s), allow[i].s);
          PutKeepsFind(props, name.s, Get(rec, name.s), allow[j].s);
        } else {
          GetSnoc(props, (name.s, Get(rec, name.s)), allow[i].s);
          GetSnoc(props, (name.s, Get(rec, name.s)), allow[j].s);
        }
      }
    } else {
      assert init == allow[..j];
      GetSnoc(props, (name.s, Get(rec, name.s)), allow[i].s);
      GetSnoc(props, (name.s, Get(rec, name.s)), name.s);
    }
  }

  /** Mode "exclude" keeps exactly the fields that are neither geometry
      attributes nor excluded, with their values, and never adds `extra`. */
  lemma ExcludePropsSpec(rec: Entries, geomAttrs: seq<Value>, exclude: seq<Value>)
    requires DistinctKeys(rec)
    ensures var r := ExcludeProps(rec, geomAttrs, exclude);
      && DistinctKeys(r)
      && (forall k :: HasKey(r, k) <==> HasKey(rec, k) && !InArray(k, geomAttrs) && !InArray(k, exclude))
      && (forall k :: HasKey(r, k) ==> Get(r, k) == Get(rec, k))
  {
    FilterKeysSpec(rec, geomAttrs + exclude, false);
  }

  /** `GeoJSON\PropertyBuilder`: holds the settings and the geometry
      attributes it was built with. */
  class PropertyBuilder {
    const params: Entries
    const geomAttrs: seq<Value>

    constructor (params: Entries, geomAttrs: seq<Value>)
      ensures this.params == params && this.geomAttrs == geomAttrs
    {
      this.params := params;
      this.geomAttrs := geomAttrs;
    }

    /** `build`: dispatches on the mode. */
    method Build(rec: Entries) returns (props: Entries)
      requires DistinctKeys(rec)
      ensures props == PropsFor(rec, params, geomAttrs)
      ensures !IsSet(params, "include") && !IsSet(params, "exclude") ==> props == AllProps(rec, geomAttrs, params)
      ensures IsSet(params, "include") ==> props == IncludeProps(rec, ItemsOf(Get(params, "include")))
      ensures !IsSet(params, "include") && IsSet(params, "exclude") ==>
        props == ExcludeProps(rec, geomAttrs, ItemsOf(Get(params, "exclude")))
    {
      if !IsSet(params, "include") && !IsSet(params, "exclude") {
        props := BuildAll(rec);
      } else if IsSet(params, "include") {
        props := BuildInclude(rec);
      } else {
        // "exclude" is set here, so the source's final `return []` is never reached.
        props := BuildExclude(rec);
      }
    }

    /** `buildAll`. */
    method BuildAll(rec: Entries) returns (props: Entries)
      requires DistinctKeys(rec)
      ensures props == AllProps(rec, geomAttrs, params)
    {
      props := [];
      for i := 0 to |rec|
        invariant props == FilterKeys(rec[..i], geomAttrs, false)
      {
        assert rec[..i + 1][..i] == rec[..i];
        var (k, v) := rec[i];
        if !InArray(k, geomAttrs) {
          LacksLaterKey(rec, i, props);
          props := Put(props, k, v);
        }
      }
      assert rec[..|rec|] == rec;
      if IsSet(params, "extra") {
        props := AddExtra(props);
      }
    }

    /** `buildInclude`. */
    method BuildInclude(rec: Entries) returns (props: Entries)
      ensures props == IncludeProps(rec, ItemsOf(Get(params, "include")))
    {
      var allow := ItemsOf(Get(params, "include"));
      props := [];
      for i := 0 to |allow|
        invariant props == IncludeProps(rec, allow[..i])
      {
        assert allow[..i + 1][..i] == allow[..i];
        var name := allow[i];
        if name.Str? && IsSet(rec, name.s) {
          props := Put(props, name.s, Get(rec, name.s));
        }
      }
      assert allow[..|allow|] == allow;
    }

    /** `buildExclude`. */
    method BuildExclude(rec: Entries) returns (props: Entries)
      requires DistinctKeys(rec)
      ensures props == ExcludeProps(rec, geomAttrs, ItemsOf(Get(params, "exclude")))
    {
      var exclude := ItemsOf(Get(params, "exclude"));
      props := [];
      for i := 0 to |rec|
        invariant props == FilterKeys(rec[..i], geomAttrs + exclude, false)
      {
        assert rec[..i + 1][..i] == rec[..i];
        var (k, v) := rec[i];
        if !InArray(k, geomAttrs) && !InArray(k, exclude) {
          LacksLaterKey(rec, i, props);
          props := Put(props, k, v);
        }
      }
      assert rec[..|rec|] == rec;
    }

    /** `addExtra`: writes each `extra` entry over the properties. */
    method AddExtra(props: Entries) returns (r: Entries)
      ensures r == Overlay(props, EntriesOf(Get(params, "extra")))
    {
      var extra := EntriesOf(Get(params, "extra"));
      r := props;
      for i := 0 to |extra|
        invariant r == Overlay(props, extra[..i])
      {
        assert extra[..i + 1][..i] == extra[..i];
        r := Put(r, extra[i].0, extra[i].1);
      }
      assert extra[..|extra|] == extra;
    }
  }
}
