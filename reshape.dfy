/**
 * The reshaping half of `getData` (Redirect/airq.go): upstream per-time-slice
 * lists of station records become one GeoJSON Feature per known station,
 * holding that station's measurements in arrival order, optionally trimmed
 * to the last or the first one.
 */
module Reshape {

  import opened Json
  import opened Stations

  type CoordinateTable = map<string, Coordinates>

  /** The keys a measurement copies from an upstream record; all others are dropped. */
  const MeasurementKeys: set<string> := {"DateTime", "aqhi", "NO2", "O3", "SO2", "CO", "PM10", "PM25"}

  type Measurement = map<string, Json>

  datatype Geometry = Geometry(kind: string, coordinates: seq<real>)
  datatype Properties = Properties(name: string, feature: seq<Measurement>)
  datatype StationFeature = StationFeature(kind: string, geometry: Geometry, properties: Properties)
  /** The output object: `features` is a mapping keyed by station name, not an array. */
  datatype FeatureCollection = FeatureCollection(kind: string, features: map<string, StationFeature>)

  /** A record the type assertions at Redirect/airq.go:106-107 accept. */
  predicate IsRecord(v: Json) {
    v.JObject? && "StationNameEN" in v.fields && v.fields["StationNameEN"].JString?
  }

  /** An outer item the type assertion at Redirect/airq.go:105 accepts, holding acceptable records. */
  predicate IsStationList(v: Json) {
    v.JArray? && forall j | 0 <= j < |v.items| :: IsRecord(v.items[j])
  }

  /** Upstream data on which the loop of `getData` runs without a failed type assertion. */
  predicate WellShaped(data: seq<Json>) {
    forall i | 0 <= i < |data| :: IsStationList(data[i])
  }

  predicate AllRecords(recs: seq<Json>) {
    forall i | 0 <= i < |recs| :: IsRecord(recs[i])
  }

  function Name(r: Json): string
    requires IsRecord(r)
  {
    r.fields["StationNameEN"].s
  }

  /** The measurement built from one record: exactly the eight keys, a missing one as nil. */
  function Measure(r: Json): Measurement
    requires r.JObject?
  {
    map k | k in MeasurementKeys :: Get(r.fields, k)
  }

  /** The records of all outer items, outer-then-inner order. */
  function Flatten(data: seq<Json>): (r: seq<Json>)
    requires WellShaped(data)
    ensures AllRecords(r)
  {
    if data == [] then [] else Flatten(data[..|data| - 1]) + data[|data| - 1].items
  }

  /** The measurements of the records named `s`, in the order of `recs`. */
  function Readings(recs: seq<Json>, s: string): seq<Measurement>
    requires AllRecords(recs)
  {
    if recs == [] then []
    else
      var r := recs[|recs| - 1];
      Readings(recs[..|recs| - 1], s) + (if Name(r) == s then [Measure(r)] else [])
  }

  /** The station names of `recs` that the coordinate table knows. */
  function Known(table: CoordinateTable, recs: seq<Json>): set<string>
    requires AllRecords(recs)
  {
    set i | 0 <= i < |recs| && Name(recs[i]) in table :: Name(recs[i])
  }

  /** The Feature for station `s` holding the measurement list `ms`. */
  function StationPoint(table: CoordinateTable, s: string, ms: seq<Measurement>): StationFeature
    requires s in table
  {
    StationFeature("Feature", Geometry("Point", [table[s].longitude, table[s].latitude]), Properties(s, ms))
  }

  /** The trimming pass: `last` keeps the final element, otherwise `recent` the first. */
  function Trim(ms: seq<Measurement>, last: bool, recent: bool): seq<Measurement> {
    if |ms| > 0 && last then ms[|ms| - 1..]
    else if |ms| > 0 && recent then ms[..1]
    else ms
  }

  /** The station features after the grouping loop, before trimming. */
  function Grouped(table: CoordinateTable, recs: seq<Json>): map<string, StationFeature>
    requires AllRecords(recs)
  {
    map s | s in Known(table, recs) :: StationPoint(table, s, Readings(recs, s))
  }

  /** The collection `getData` returns for well-shaped upstream data. */
  function Reshaped(table: CoordinateTable, data: seq<Json>, last: bool, recent: bool): FeatureCollection
    requires WellShaped(data)
  {
    var recs := Flatten(data);
    FeatureCollection("FeatureCollection",
      map s | s in Known(table, recs) :: StationPoint(table, s, Trim(Readings(recs, s), last, recent)))
  }

  /** A station none of whose records occur has no readings. */
  lemma {:induction false} ReadingsAbsent(recs: seq<Json>, s: string)
    requires AllRecords(recs)
    requires forall i | 0 <= i < |recs| :: Name(recs[i]) != s
    ensures Readings(recs, s) == []
  {
    if recs != [] {
      ReadingsAbsent(recs[..|recs| - 1], s);
    }
  }

  lemma KnownSnoc(table: CoordinateTable, recs: seq<Json>, e: Json)
    requires AllRecords(recs) && IsRecord(e)
    ensures AllRecords(recs + [e])
    ensures Known(table, recs + [e]) == Known(table, recs) + (if Name(e) in table then {Name(e)} else {})
  {
    var recs' := recs + [e];
    var n := Name(e);
    forall x | x in Known(table, recs')
      ensures x in Known(table, recs) + (if n in table then {n} else {})
    {
      var i :| 0 <= i < |recs'| && Name(recs'[i]) in table && Name(recs'[i]) == x;
      if i < |recs| {
        assert recs'[i] == recs[i];
      }
    }
    forall x | x in Known(table, recs)
      ensures x in Known(table, recs')
    {
      var i :| 0 <= i < |recs| && Name(recs[i]) in table && Name(recs[i]) == x;
      assert recs'[i] == recs[i];
    }
    if n in table {
      assert Name(recs'[|recs|]) == n;
    }
  }

  lemma ReadingsSnoc(recs: seq<Json>, e: Json, s: string)
    requires AllRecords(recs) && IsRecord(e)
    ensures AllRecords(recs + [e])
    ensures Readings(recs + [e], s) == Readings(recs, s) + (if Name(e) == s then [Measure(e)] else [])
  {
    assert (recs + [e])[..|recs|] == recs;
  }

  /** A record of a station the table does not know leaves the grouping as it was. */
  lemma GroupedSnocUnknown(table: CoordinateTable, recs: seq<Json>, e: Json)
    requires AllRecords(recs) && IsRecord(e) && Name(e) !in table
    ensures AllRecords(recs + [e])
    ensures Grouped(table, recs + [e]) == Grouped(table, recs)
  {
    var recs' := recs + [e];
    KnownSnoc(table, recs, e);
    forall s | s in Known(table, recs) ensures Readings(recs', s) == Readings(recs, s) {
      ReadingsSnoc(recs, e, s);
    }
  }

  /** The first record of a known station creates its feature with a singleton list. */
  lemma GroupedSnocNew(table: CoordinateTable, recs: seq<Json>, e: Json)
    requires AllRecords(recs) && IsRecord(e) && Name(e) in table && Name(e) !in Grouped(table, recs)
    ensures AllRecords(recs + [e])
    ensures Grouped(table, recs + [e]) == Grouped(table, recs)[Name(e) := StationPoint(table, Name(e), [Measure(e)])]
  {
    var recs' := recs + [e];
    var n := Name(e);
    KnownSnoc(table, recs, e);
    ReadingsAbsent(recs, n);
    forall s | s in Known(table, recs') ensures Readings(recs', s) == Readings(recs, s) + (if n == s then [Measure(e)] else []) {
      ReadingsSnoc(recs, e, s);
    }
    var g := Grouped(table, recs)[n := StationPoint(table, n, [Measure(e)])];
    assert Grouped(table, recs').Keys == g.Keys;
    forall s | s in g ensures Grouped(table, recs')[s] == g[s] {
    }
  }

  /** A later record of a known station appends its measurement to that station's list. */
  lemma GroupedSnocAppend(table: CoordinateTable, recs: seq<Json>, e: Json)
    requires AllRecords(recs) && IsRecord(e) && Name(e) in Grouped(table, recs)
    ensures AllRecords(recs + [e])
    ensures Grouped(table, recs + [e]) ==
      Grouped(table, recs)[Name(e) := StationPoint(table, Name(e), Grouped(table, recs)[Name(e)].properties.feature + [Measure(e)])]
  {
    var recs' := recs + [e];
    var n := Name(e);
    KnownSnoc(table, recs, e);
    forall s | s in Known(table, recs') ensures Readings(recs', s) == Readings(recs, s) + (if n == s then [Measure(e)] else []) {
      ReadingsSnoc(recs, e, s);
    }
    var g := Grouped(table, recs)[n := StationPoint(table, n, Grouped(table, recs)[n].properties.feature + [Measure(e)])];
    assert Grouped(table, recs').Keys == g.Keys;
    forall s | s in g ensures Grouped(table, recs')[s] == g[s] {
    }
  }

  /** A map holding the trimmed feature of every known station is the collection's mapping. */
  lemma ReshapedFrom(table: CoordinateTable, data: seq<Json>, last: bool, recent: bool, features: map<string, StationFeature>)
    requires WellShaped(data)
    requires features.Keys == Known(table, Flatten(data))
    requires forall s | s in features ::
      features[s] == StationPoint(table, s, Trim(Readings(Flatten(data), s), last, recent))
    ensures FeatureCollection("FeatureCollection", features) == Reshaped(table, data, last, recent)
  {
    var m := Reshaped(table, data, last, recent).features;
    assert m.Keys == features.Keys;
    forall s | s in m ensures m[s] == features[s] {
    }
  }

  /** A measurement holds exactly the eight copied keys, nil where the record lacks one. */
  lemma MeasureCopiesEightKeys(r: Json)
    requires r.JObject?
    ensures Measure(r).Keys == MeasurementKeys
    ensures forall k | k in MeasurementKeys && k in r.fields :: Measure(r)[k] == r.fields[k]
    ensures forall k | k in MeasurementKeys && k !in r.fields :: Measure(r)[k] == JNull
  {
  }

  /** Flattening visits the outer items in order: it distributes over concatenation. */
  lemma {:induction false} FlattenAppend(a: seq<Json>, b: seq<Json>)
    requires WellShaped(a) && WellShaped(b)
    ensures WellShaped(a + b)
    ensures Flatten(a + b) == Flatten(a) + Flatten(b)
  {
    assert WellShaped(a + b) by {
      forall i | 0 <= i < |a + b| ensures IsStationList((a + b)[i]) {
        if i < |a| { assert (a + b)[i] == a[i]; } else { assert (a + b)[i] == b[i - |a|]; }
      }
    }
    if b == [] {
      assert a + b == a;
    } else {
      var b' := b[..|b| - 1];
      assert (a + b)[..|a + b| - 1] == a + b';
      assert WellShaped(b');
      FlattenAppend(a, b');
    }
  }

  /** Each station's readings follow the record order: they distribute over concatenation. */
  lemma {:induction false} ReadingsAppend(a: seq<Json>, b: seq<Json>, s: string)
    requires AllRecords(a) && AllRecords(b)
    ensures AllRecords(a + b)
    ensures Readings(a + b, s) == Readings(a, s) + Readings(b, s)
  {
    assert AllRecords(a + b) by {
      forall i | 0 <= i < |a + b| ensures IsRecord((a + b)[i]) {
        if i < |a| { assert (a + b)[i] == a[i]; } else { assert (a + b)[i] == b[i - |a|]; }
      }
    }
    if b == [] {
      assert a + b == a;
    } else {
      var b' := b[..|b| - 1];
      assert (a + b)[..|a + b| - 1] == a + b';
      assert AllRecords(b');
      ReadingsAppend(a, b', s);
    }
  }

  /** A measurement is in a station's readings exactly when some record of that station produced it. */
  lemma {:induction false} ReadingsMembers(recs: seq<Json>, s: string, m: Measurement)
    requires AllRecords(recs)
    ensures m in Readings(recs, s) <==> exists i | 0 <= i < |recs| :: Name(recs[i]) == s && Measure(recs[i]) == m
  {
    if recs != [] {
      var front := recs[..|recs| - 1];
      ReadingsMembers(front, s, m);
      if exists i | 0 <= i < |front| :: Name(front[i]) == s && Measure(front[i]) == m {
        var i :| 0 <= i < |front| && Name(front[i]) == s && Measure(front[i]) == m;
        assert recs[i] == front[i];
      }
      if exists i | 0 <= i < |recs| :: Name(recs[i]) == s && Measure(recs[i]) == m {
        var i :| 0 <= i < |recs| && Name(recs[i]) == s && Measure(recs[i]) == m;
        if i < |front| {
          assert front[i] == recs[i];
        }
      }
    }
  }

  /** The indices of the records named `s`. */
  function MatchingIndices(recs: seq<Json>, s: string): set<int>
    requires AllRecords(recs)
  {
    set i | 0 <= i < |recs| && Name(recs[i]) == s
  }

  /** A station holds one measurement per record of that station. */
  lemma {:induction false} ReadingsCount(recs: seq<Json>, s: string)
    requires AllRecords(recs)
    ensures |Readings(recs, s)| == |MatchingIndices(recs, s)|
  {
    if recs == [] {
      assert MatchingIndices(recs, s) == {};
    } else {
      var n := |recs| - 1;
      var front := recs[..n];
      ReadingsCount(front, s);
      var before := MatchingIndices(front, s);
      var extra: set<int> := if Name(recs[n]) == s then {n} else {};
      assert n !in before;
      forall i | i in MatchingIndices(recs, s) ensures i in before + extra {
        if i < n {
          assert front[i] == recs[i];
        }
      }
      forall i | i in before + extra ensures i in MatchingIndices(recs, s) {
        if i < n {
          assert front[i] == recs[i];
        }
      }
      assert MatchingIndices(recs, s) == before + extra;
    }
  }

  /** A station is in the output exactly when the table knows it and some record names it. */
  lemma KnownIff(table: CoordinateTable, recs: seq<Json>, s: string)
    requires AllRecords(recs)
    ensures s in Known(table, recs) <==> s in table && Readings(recs, s) != []
  {
    if s in table && Readings(recs, s) != [] {
      var m := Readings(recs, s)[0];
      ReadingsMembers(recs, s, m);
      var i :| 0 <= i < |recs| && Name(recs[i]) == s && Measure(recs[i]) == m;
    }
    if s in Known(table, recs) {
      var i :| 0 <= i < |recs| && Name(recs[i]) in table && Name(recs[i]) == s;
      ReadingsMembers(recs, s, Measure(recs[i]));
    }
  }

  /**
   * The shape of every output feature: type "Feature", a Point at exactly the
   * table's [longitude, latitude], the station's own name, and only stations
   * of the table.
   */
  lemma ReshapedShape(table: CoordinateTable, data: seq<Json>, last: bool, recent: bool)
    requires WellShaped(data)
    ensures Reshaped(table, data, last, recent).kind == "FeatureCollection"
    ensures Reshaped(table, data, last, recent).features.Keys <= table.Keys
    ensures forall s | s in Reshaped(table, data, last, recent).features ::
      var f := Reshaped(table, data, last, recent).features[s];
      && f.kind == "Feature"
      && f.geometry == Geometry("Point", [table[s].longitude, table[s].latitude])
      && f.properties.name == s
  {
  }

  /** A record whose station the table does not know changes nothing in the output. */
  lemma UnknownStationIgnored(table: CoordinateTable, data: seq<Json>, e: Json, last: bool, recent: bool)
    requires WellShaped(data) && IsRecord(e) && Name(e) !in table
    ensures WellShaped(data + [JArray([e])])
    ensures Reshaped(table, data + [JArray([e])], last, recent) == Reshaped(table, data, last, recent)
  {
    var data' := data + [JArray([e])];
    assert data'[..|data'| - 1] == data;
    assert Flatten(data') == Flatten(data) + [e];
    GroupedSnocUnknown(table, Flatten(data), e);
    KnownSnoc(table, Flatten(data), e);
    forall s | s in Known(table, Flatten(data)) ensures Readings(Flatten(data'), s) == Readings(Flatten(data), s) {
      ReadingsSnoc(Flatten(data), e, s);
    }
  }

  /** With a flag set, a non-empty list becomes a single element of it: the last if `last`, else the first. */
  lemma TrimSingleton(ms: seq<Measurement>, last: bool, recent: bool)
    requires |ms| > 0 && (last || recent)
    ensures |Trim(ms, last, recent)| == 1
    ensures Trim(ms, last, recent)[0] == if last then ms[|ms| - 1] else ms[0]
  {
  }

  /** Without a flag, or on an empty list, trimming changes nothing. */
  lemma TrimUnchanged(ms: seq<Measurement>, last: bool, recent: bool)
    requires ms == [] || (!last && !recent)
    ensures Trim(ms, last, recent) == ms
  {
  }

  /** `last` takes precedence: setting `recent` as well makes no difference. */
  lemma TrimLastWins(ms: seq<Measurement>)
    ensures Trim(ms, true, true) == Trim(ms, true, false)
  {
  }

  /** Trimming twice is trimming once. */
  lemma TrimIdempotent(ms: seq<Measurement>, last: bool, recent: bool)
    ensures Trim(Trim(ms, last, recent), last, recent) == Trim(ms, last, recent)
  {
  }

  /** The three-measurement scenario: [m0, m1, m2] becomes [m2], [m0], or stays. */
  lemma TrimThree(m0: Measurement, m1: Measurement, m2: Measurement, recent: bool)
    ensures Trim([m0, m1, m2], true, recent) == [m2]
    ensures Trim([m0, m1, m2], false, true) == [m0]
    ensures Trim([m0, m1, m2], false, false) == [m0, m1, m2]
  {
  }

  /** The inner grouping loop of `getData` (Redirect/airq.go:105-141): one outer item's records. */
  method AddRecords(table: CoordinateTable, features: map<string, StationFeature>, ghost before: seq<Json>, entries: seq<Json>)
    returns (grown: map<string, StationFeature>)
    requires AllRecords(before) && AllRecords(entries)
    requires features == Grouped(table, before)
    ensures AllRecords(before + entries)
    ensures grown == Grouped(table, before + entries)
  {
    grown := features;
    var j := 0;
    assert before + entries[..j] == before;
    while j < |entries|
      invariant 0 <= j <= |entries|
      invariant AllRecords(before + entries[..j])
      invariant grown == Grouped(table, before + entries[..j])
    {
      var entry := entries[j];
      var stationName := entry.fields["StationNameEN"].s;
      ghost var seen := before + entries[..j];
      assert before + entries[..j + 1] == seen + [entry];
      if stationName in table {
        var measurement := Measure(entry);
        if stationName !in grown {
          GroupedSnocNew(table, seen, entry);
          grown := grown[stationName := StationPoint(table, stationName, [measurement])];
        } else {
          GroupedSnocAppend(table, seen, entry);
          var feature := grown[stationName];
          grown := grown[stationName :=
            feature.(properties := feature.properties.(feature := feature.properties.feature + [measurement]))];
        }
      } else {
        GroupedSnocUnknown(table, seen, entry);
      }
      j := j + 1;
    }
    assert entries[..j] == entries;
  }

  /** The grouping loops of `getData` (Redirect/airq.go:103-142), over already-fetched data. */
  method GroupRecords(table: CoordinateTable, data: seq<Json>) returns (features: map<string, StationFeature>)
    requires WellShaped(data)
    ensures features == Grouped(table, Flatten(data))
  {
    features := map[];
    var i := 0;
    while i < |data|
      invariant 0 <= i <= |data|
      invariant WellShaped(data[..i])
      invariant features == Grouped(table, Flatten(data[..i]))
    {
      assert data[..i + 1][..i] == data[..i];
      features := AddRecords(table, features, Flatten(data[..i]), data[i].items);
      i := i + 1;
    }
    assert data[..i] == data;
  }

  /** The trimming loop of `getData` (Redirect/airq.go:149-160): every station's list in place. */
  method TrimFeatures(features: map<string, StationFeature>, last: bool, recent: bool)
    returns (trimmed: map<string, StationFeature>)
    ensures trimmed.Keys == features.Keys
    ensures forall s | s in features ::
      trimmed[s] == features[s].(properties := features[s].properties.(feature := Trim(features[s].properties.feature, last, recent)))
  {
    trimmed := features;
    if last || recent {
      var pending := trimmed.Keys;
      while pending != {}
        invariant pending <= features.Keys
        invariant trimmed.Keys == features.Keys
        invariant forall s | s in trimmed ::
          trimmed[s] == if s in pending then features[s]
            else features[s].(properties := features[s].properties.(feature := Trim(features[s].properties.feature, last, recent)))
        decreases pending
      {
        var s :| s in pending;
        var feature := trimmed[s];
        var ms := feature.properties.feature;
        if |ms| > 0 {
          if last {
            trimmed := trimmed[s := feature.(properties := feature.properties.(feature := ms[|ms| - 1..|ms|]))];
          } else if recent {
            trimmed := trimmed[s := feature.(properties := feature.properties.(feature := ms[0..1]))];
          }
        }
        pending := pending - {s};
      }
    }
  }

  /** `getData` after the fetch: grouping, then trimming. */
  method BuildCollection(table: CoordinateTable, data: seq<Json>, last: bool, recent: bool) returns (fc: FeatureCollection)
    requires WellShaped(data)
    ensures fc == Reshaped(table, data, last, recent)
  {
    var features := GroupRecords(table, data);
    features := TrimFeatures(features, last, recent);
    ReshapedFrom(table, data, last, recent, features);
    fc := FeatureCollection("FeatureCollection", features);
  }
}
