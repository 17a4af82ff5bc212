/** Validation of the optional `crs` setting: a named CRS or a linked CRS
    in the form of the 2008 GeoJSON format draft (src/GeoJSON/CrsBuilder.php). */
module Crs {
  import opened PhpArrays
  import opened Errors

  /** `isset($v[k])` for a value that may or may not be an array. */
  predicate IsSetIn(v: Value, k: string) {
    Elem(v, k) != Null
  }

  /** A named CRS: `{type: "name", properties: {name: ...}}`. */
  predicate NamedCrs(crs: Value) {
    Elem(crs, "type") == Str("name") && IsSetIn(Elem(crs, "properties"), "name")
  }

  /** A linked CRS: `{type: "link", properties: {href: ..., type: ...}}`. */
  predicate LinkedCrs(crs: Value) {
    var props := Elem(crs, "properties");
    Elem(crs, "type") == Str("link") && IsSetIn(props, "href") && IsSetIn(props, "type")
  }

  /** `checkCrs`: false when no CRS is configured, true for a well-formed
      one, and the matching exception for any other. */
  function CheckCrs(params: Entries): (r: Result<bool>)
    ensures r == Ok(false) <==> !IsSet(params, "crs")
    ensures r == Ok(true) <==> IsSet(params, "crs") && (NamedCrs(Get(params, "crs")) || LinkedCrs(Get(params, "crs")))
    ensures r.Err? <==> IsSet(params, "crs") && !NamedCrs(Get(params, "crs")) && !LinkedCrs(Get(params, "crs"))
    ensures r == Err(CrsNameMissing) <==> IsSet(params, "crs") && Elem(Get(params, "crs"), "type") == Str("name") && !NamedCrs(Get(params, "crs"))
    ensures r == Err(CrsLinkMissing) <==> IsSet(params, "crs") && Elem(Get(params, "crs"), "type") == Str("link") && !LinkedCrs(Get(params, "crs"))
    ensures r == Err(CrsTypeInvalid) <==>
      IsSet(params, "crs") && Elem(Get(params, "crs"), "type") != Str("name") && Elem(Get(params, "crs"), "type") != Str("link")
  {
    if !IsSet(params, "crs") then Ok(false)
    else
      var crs := Get(params, "crs");
      var props := Elem(crs, "properties");
      if Elem(crs, "type") == Str("name") then
        if IsSetIn(props, "name") then Ok(true) else Err(CrsNameMissing)
      else if Elem(crs, "type") == Str("link") then
        if IsSetIn(props, "href") && IsSetIn(props, "type") then Ok(true) else Err(CrsLinkMissing)
      else Err(CrsTypeInvalid)
  }

  /** `build`: the configured descriptor itself once it validates, `[]` when
      none is configured; validation never alters the descriptor. */
  function Build(params: Entries): (r: Result<Value>)
    ensures r.Ok? && IsSet(params, "crs") ==> r.value == Get(params, "crs")
    ensures r.Ok? && !IsSet(params, "crs") ==> r.value == Empty
    ensures r.Ok? <==> !IsSet(params, "crs") || NamedCrs(Get(params, "crs")) || LinkedCrs(Get(params, "crs"))
    ensures r.Err? ==> r.error in {CrsNameMissing, CrsLinkMissing, CrsTypeInvalid}
  {
    match CheckCrs(params)
    case Err(e) => Err(e)
    case Ok(valid) => if valid then Ok(Get(params, "crs")) else Ok(Empty)
  }
}
