# geojson-php, modelled in Dafny

geojson-php turns a list of generic records (PHP associative arrays) into a
GeoJSON `FeatureCollection` (RFC 7946, section 3.3). The settings name which
record fields hold geometry, for instance `{"Point": ["lat", "lng"]}` or
`{"LineString": "line"}`. Optional settings choose which other fields become
feature properties and add a `bbox`, a `crs` and global properties to the
collection. This project models the four classes that do the work:

- `GeoJSON\GeometryBuilder` (module `Geometry`) resolves one record into one
  geometry. It tries the mapping entries in order and the first entry whose
  fields are set wins. A pair `[x, y]` produces the coordinates
  `[rec[y], rec[x]]`. A single field is wrapped as the coordinates, or, under
  the pseudo-type `GeoJSON`, passed through as the whole geometry. Without a
  match the geometry is the empty array.
- `GeoJSON\PropertyBuilder` (module `Properties`) builds the properties of
  one feature in one of three modes:
  - all non-geometry fields, plus `extra`;
  - an `include` allow list;
  - an `exclude` deny list.

  `include` takes precedence over `exclude`.
- `GeoJSON\CrsBuilder` (module `Crs`) validates a named or linked CRS
  descriptor in the form of the 2008 GeoJSON draft.
- `GeoJSON\Converter` (module `Conversion`) runs the whole conversion. It:
  - merges the instance defaults under the settings;
  - moves the geometry-type keys under `geom`;
  - records the geometry fields, failing when there are none;
  - builds one feature per record with lazily created, cached builders;
  - adds `bbox` and `extraGlobal`.

Module `PhpArrays` gives the PHP array semantics the code relies on:
- a PHP array is a sequence of `(key, value)` entries in insertion order;
- `$a[k]` reads null for a missing key;
- `isset` means present and not null;
- `$a[k] = v` overwrites in place or appends;
- `unset` removes the entry.

Module `Errors` turns the thrown exceptions into values, one variant per exception.
Module `Scenarios` proves the results of calls on concrete records and
settings. Most of them are taken from the unit tests;
`Scenarios.IncludeBeatsExclude` and `Scenarios.ReuseAcrossParses` follow the
code instead. The latter shows a converter reusing its builders across two
calls.

Each loop of the source is a method with loop invariants, proved equal to a
reference function. `Resolve`, `IncludeProps`, `Overlay`, `WithDefaults` and
`AttrsOf` are recursive folds over the input. `AllProps`, `ExcludeProps`,
`Settings` and `Envelope` are built from the filter `FilterKeys`, from
`Overlay` and from `Put`. `Features`, the partner of the loop in `parse`, maps
`FeatureOf` over the records. The lemmas state what those functions
guarantee.

The conversion is meant to be independent from one call to the next. The
code, however, creates the geometry and property builders on first use and
keeps them for the life of the converter (src/GeoJSON/Converter.php:206-225).
The model follows the code. A second `parse` with different settings
therefore still resolves geometry and properties with the first call's
settings, and `Scenarios.ReuseAcrossParses` states this.

## Model

| member | source | states |
|---|---|---|
| PhpArrays.FilterKeysOrder | src/GeoJSON/PropertyBuilder.php:59-63 | copying the entries that pass the `in_array` test keeps their record order |
| PhpArrays.OverlaySpec | src/GeoJSON/PropertyBuilder.php:112-117 | writing entries one by one over an array overwrites same-named keys, appends new keys after the existing ones, and leaves every other key as it was |
| PhpArrays.OverlayOntoEmpty | src/GeoJSON/Converter.php:192-195 | copying an array key by key into an empty array reproduces it exactly |
| PhpArrays.OverlayOrder | src/GeoJSON/PropertyBuilder.php:112-117 | the keys appended after the existing ones are keys of the written entries, in the order those entries give them |
| PhpArrays.FilterKeysSpec | src/GeoJSON/PropertyBuilder.php:59-63 | copying the entries whose key passes (or fails) the `in_array` test keeps exactly those keys, each with its original value, and no key twice |
| Geometry.MatchCondition | src/GeoJSON/GeometryBuilder.php:32-34 | an entry matches iff it is a string naming a set field, or an array whose elements 0 and 1 name set fields; a value that is neither never matches |
| Geometry.FirstMatchWins | src/GeoJSON/GeometryBuilder.php:31-37 | the first matching entry in mapping order decides the geometry, whatever later entries match |
| Geometry.NoMatchIsEmpty | src/GeoJSON/GeometryBuilder.php:39 | when no entry matches, the geometry is the empty array, not an error |
| Geometry.PairSwapsAxes | src/GeoJSON/GeometryBuilder.php:49-51 | a first-matching pair `[x, y]` gives `{type, coordinates: [rec[y], rec[x]]}` |
| Geometry.SingleFieldPassesThrough | src/GeoJSON/GeometryBuilder.php:60-67 | a first-matching single field gives the field's value itself under type `GeoJSON`, and `{type, coordinates: value}` under any other type |
| Geometry.GeometryBuilder.constructor | src/GeoJSON/GeometryBuilder.php:19-22 | the builder keeps the settings it is given |
| Geometry.GeometryBuilder.Build | src/GeoJSON/GeometryBuilder.php:29-40 | the loop with early return computes exactly `Resolve` over the `geom` mapping |
| Properties.AllPropsSpec | src/GeoJSON/PropertyBuilder.php:55-70 | mode "all" keeps exactly the record's non-geometry fields with their values; `extra` entries overwrite or add keys and are not checked against the geometry fields |
| Properties.IncludePropsSpec | src/GeoJSON/PropertyBuilder.php:78-88 | mode "include" gives exactly the listed names that are set in the record, with the record's values; absent names are skipped and geometry fields are not filtered |
| Properties.IncludeKeepsListOrder | src/GeoJSON/PropertyBuilder.php:82-86 | the properties appear in allow-list order; a name listed again keeps the place of its first occurrence |
| Properties.ExcludePropsSpec | src/GeoJSON/PropertyBuilder.php:96-106 | mode "exclude" keeps exactly the fields that are neither geometry fields nor denied, with their values, and adds no `extra` |
| Properties.PropertyBuilder.constructor | src/GeoJSON/PropertyBuilder.php:26-30 | the builder keeps the settings and geometry fields it is given |
| Properties.PropertyBuilder.Build | src/GeoJSON/PropertyBuilder.php:37-47 | with neither list set the mode is "all"; a set `include` wins even when `exclude` is set; otherwise the mode is "exclude" |
| Properties.PropertyBuilder.BuildAll | src/GeoJSON/PropertyBuilder.php:55-70 | the copy loop, then `addExtra` when `extra` is set, computes `AllProps` |
| Properties.PropertyBuilder.BuildInclude | src/GeoJSON/PropertyBuilder.php:78-88 | the loop over the allow list computes `IncludeProps` |
| Properties.PropertyBuilder.BuildExclude | src/GeoJSON/PropertyBuilder.php:96-106 | the loop over the record computes `ExcludeProps` |
| Properties.PropertyBuilder.AddExtra | src/GeoJSON/PropertyBuilder.php:112-117 | the loop computes `Overlay` of the properties with the `extra` entries |
| Crs.CheckCrs | src/GeoJSON/CrsBuilder.php:49-69 | false iff `crs` is unset; true iff it is a named CRS with `properties.name` or a linked CRS with `properties.href` and `properties.type`; otherwise the exception for its type, each case stated in both directions |
| Crs.Build | src/GeoJSON/CrsBuilder.php:35-42 | a valid descriptor is returned unchanged, an unset one gives the empty array, and any other one raises one of the three CRS exceptions |
| Conversion.WithDefaultsSpec | src/GeoJSON/Converter.php:102-110 | a setting that is set keeps its value; a default fills only keys that are absent or null; every other key reads as in the settings |
| Conversion.WithDefaultsKeys | src/GeoJSON/Converter.php:102-110 | the merged settings hold exactly the keys of the settings and of the defaults; the settings' own keys keep their positions at the front; distinct keys stay distinct |
| Conversion.WithDefaultsOrder | src/GeoJSON/Converter.php:102-110 | the defaults appended after the settings are keys of the defaults, in the defaults' order, so a default geometry entry is tried in the order the defaults list it |
| Conversion.Converter.ApplyDefaults | src/GeoJSON/Converter.php:102-110 | the loop over the defaults computes `WithDefaults` |
| Conversion.SettingsSpec | src/GeoJSON/Converter.php:118-133 | exactly the keys among the seven geometry types move under `geom`, with their values and order; none stays at top level; every other key keeps its value |
| Conversion.SplitStepGeom | src/GeoJSON/Converter.php:123-124 | one loop step adds a geometry-type entry to the mapping and no other entry |
| Conversion.SplitStepRest | src/GeoJSON/Converter.php:123-125 | one loop step unsets a geometry-type entry from the settings and leaves any other entry in place |
| Conversion.Converter.SetGeom | src/GeoJSON/Converter.php:118-133 | the loop with `unset` computes `Settings`, appends the mapping's fields to the geometry fields, and fails exactly when there are none |
| Conversion.AttrsOfEmpty | src/GeoJSON/Converter.php:141-152 | each mapping value contributes at least one field, so the list is empty iff the mapping is |
| Conversion.Converter.SetGeomAttrs | src/GeoJSON/Converter.php:139-153 | appends `v[0], v[1]` for each array value and `v` for any other, in mapping order, and throws "No geometry attributes specified" iff the list is then empty |
| Conversion.ConsumedFieldsAreAttrs | src/GeoJSON/Converter.php:141-148 | every field a geometry entry can read is in the geometry field list |
| Conversion.GeometryFieldsNotInProperties | src/GeoJSON/PropertyBuilder.php:59-63 | outside mode "include", a field that a geometry entry reads never becomes a property unless `extra` adds it back |
| Conversion.EnvelopeSpec | src/GeoJSON/Converter.php:181-199 | a set `crs` aborts the call; otherwise `bbox` is copied verbatim when set, `extraGlobal` becomes the top-level `properties` with the same entries, no `bbox` or `properties` key is added for unset options, and `features` and `type` are unchanged |
| Conversion.Converter.AddOptionals | src/GeoJSON/Converter.php:181-199 | the method, with its copy loop, computes `Envelope` |
| Conversion.Converter.constructor | src/GeoJSON/Converter.php:60-63 | the defaults are those given, the empty array when none are; no builder exists yet |
| Conversion.Converter.GetDefaults | src/GeoJSON/Converter.php:245-248 | returns the stored defaults |
| Conversion.Converter.SetDefaults | src/GeoJSON/Converter.php:257-262 | stores the defaults and returns the converter itself |
| Conversion.Converter.GetGeometryBuilder | src/GeoJSON/Converter.php:206-212 | creates a builder with the given settings only when none exists, and otherwise returns the cached one unchanged |
| Conversion.Converter.GetPropertyBuilder | src/GeoJSON/Converter.php:219-225 | creates a builder with the given settings and the current geometry fields only when none exists, and otherwise returns the cached one |
| Conversion.Converter.GetFeature | src/GeoJSON/Converter.php:162-173 | the feature is `{type: Feature, geometry, properties}` built by the (possibly cached) builders |
| Conversion.Converter.CollectFeatures | src/GeoJSON/Converter.php:80-84 | one feature per record, in record order, all built with the same builders |
| Conversion.Converter.Parse | src/GeoJSON/Converter.php:72-95 | the geometry fields are reset and rebuilt from the merged settings; without them the call fails; otherwise the result is the collection of one feature per record, with `bbox`/`extraGlobal` added, and builders created only if none were cached |
| Scenarios.DefaultsRoundTrip | tests/GeoJSON/ConverterTest.php:44-60 | a new converter's defaults are empty, and `getDefaults` returns what `setDefaults` stored |
| Scenarios.PointFromPair | tests/GeoJSON/GeometryBuilderTest.php:15-51 | `{Point: [lat, lng]}` on the test record gives the point `[-75.343, 39.984]` |
| Scenarios.AllDropsGeometry | tests/GeoJSON/PropertyBuilderTest.php:40-55 | with no lists set, the geometry field is dropped and the others are kept in order |
| Scenarios.IncludeBeatsExclude | src/GeoJSON/PropertyBuilder.php:39-42 | with both lists set, only the allowed field is returned |
| Scenarios.ExcludeDropsListedAndGeometry | tests/GeoJSON/PropertyBuilderTest.php:133-149 | the denied field and the geometry field are both dropped |
| Scenarios.NamedCrsAccepted | tests/GeoJSON/CrsBuilderTest.php:14-22 | the named CRS84 descriptor is returned as given |
| Scenarios.UnknownCrsTypeRejected | tests/GeoJSON/CrsBuilderTest.php:43-50 | a CRS of type "unknown" is rejected with the invalid-type exception |
| Scenarios.LinkWithoutHrefRejected | tests/GeoJSON/CrsBuilderTest.php:71-78 | a linked CRS without `href` is rejected with the link exception |
| Scenarios.ScalarCrsRejected | tests/GeoJSON/CrsBuilderTest.php:29-36 | a scalar in place of a descriptor is rejected with the invalid-type exception |
| Scenarios.NameWithoutNameRejected | tests/GeoJSON/CrsBuilderTest.php:57-64 | a named CRS without `name` is rejected with the name exception |
| Scenarios.LinkWithoutTypeRejected | tests/GeoJSON/CrsBuilderTest.php:85-92 | a linked CRS without `type` in its properties is rejected with the link exception |
| Scenarios.ReuseAcrossParses | src/GeoJSON/Converter.php:206-225 | after two `parse` calls with different settings, both calls' features come from builders holding the first call's settings and geometry fields, while the converter's own field list and the second envelope follow the second settings |

## Left out

- JSON text encoding and delivery through the callback in `parse` (src/GeoJSON/Converter.php:88-94): `Parse` returns the collection as a value tree.
- Conversion.Converter.AddOptionals: the `crs` branch calls `getCrsBuilder($params)` with one of its two parameters. Under PHP 7.1 and later this throws an `ArgumentCountError` before anything is added, and the model aborts with `TooFewArguments`. The behaviour of older PHP versions, which only warn, is not modelled. `getCrsBuilder` and the `crsBuilder` field are therefore never reached and are not modelled. CRS validation is modelled on its own in `Crs`.
- Crs.CheckCrs: takes the settings directly and does not model the `geoJson` constructor argument, which `CrsBuilder` stores but never reads. A `crs` value that is a scalar is read as having no `type`. PHP's string offsets on such a value are not modelled.
- The CRS tests construct the builder with the settings as the first argument, where the code expects them as the second. The models of their cases call `Crs.Build` on the settings directly. `testRejectsCrsWithoutType` expects a "must contain type key" message that the code never throws; under PHP 7, reading `type` from the string gives its first character, which is neither "name" nor "link", so the code throws the invalid-type exception. The model reads a scalar as having no `type` and reaches the same exception, which `Scenarios.ScalarCrsRejected` states instead of the test's message.
- Exception messages are not modelled; errors are identified by their kind. The CRS messages, including the misspelt "Invald CRS", and PHP's own `ArgumentCountError` text are left out.
- PHP's loose comparison in `in_array` and `==`: keys, list elements and names are compared strictly as strings. Integer keys and numeric strings are not modelled.
- Geometry.EntryOf: a mapping pair is read only when its elements 0 and 1 are strings, and any other pair matches nothing. PHP turns the elements into array keys instead. A missing or null element becomes the key "", so `'Point' => ['lat']` matches a record that sets both `lat` and a field named "". An integer stays an integer key, a float is truncated to an integer, and `true`/`false` become 1 and 0. The model does not capture those matches.
- Properties.IncludeProps: allow-list entries that are not strings are skipped. PHP turns them into array keys instead: null becomes the key "", an integer stays an integer key, a float is truncated, and `true`/`false` become 1 and 0. Properties found that way are not modelled.
- Records, settings and defaults are required to have distinct keys, as every PHP array does.
- Coordinates and other numbers are copied and never computed with, so they are opaque reals. Float formatting is not modelled.
- Warnings PHP prints when reading a missing key are not modelled; the read gives null, as in PHP.
- src/GeoJSON/GeoJSON.php is not part of this model. It is an older copy that declares the same class.
- example.php is not part of this model. It only decodes literals and prints output.
