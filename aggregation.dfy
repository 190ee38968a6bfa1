/** The per-department `coords` object: one "lat,lon" string per parcel code,
    overwritten by every feature carrying that code (index.js lines 147 and
    164-167), and the bulk lines built from it (lines 172-176). */
module Aggregation {
  import opened Common

  /** The point `pointOnFeature` picks on a parcel, with its two numbers as
      they print: x is the longitude, y the latitude. */
  datatype Point = Point(x: string, y: string)

  /** One element of the archive's `features` array: the parcel code held in
      `properties.id` and the point chosen on its geometry. */
  datatype Feature = Feature(id: string, point: Point)

  /** `${coordinates[1]},${coordinates[0]}`: latitude first, then longitude. */
  function CoordOf(p: Point): string
  {
    p.y + "," + p.x
  }

  /** Reads a coord string back: the text before its first comma, and after. */
  function SplitCoord(s: string): Option<(string, string)>
  {
    if s == [] then None
    else if s[0] == ',' then Some(([], s[1..]))
    else
      match SplitCoord(s[1..])
      case None => None
      case Some(parts) => Some(([s[0]] + parts.0, parts.1))
  }

  lemma {:induction false} SplitJoined(y: string, x: string)
    requires ',' !in y
    ensures SplitCoord(y + "," + x) == Some((y, x))
    decreases |y|
  {
    if y != [] {
      assert (y + "," + x)[1..] == y[1..] + "," + x;
      SplitJoined(y[1..], x);
      assert [y[0]] + y[1..] == y;
    } else {
      assert y + "," + x == [','] + x;
    }
  }

  /** A coord string names the latitude first and the longitude second: as
      long as a number prints without a comma, the string splits back into
      exactly the two numbers. */
  lemma CoordRoundTrip(p: Point)
    requires ',' !in p.y
    ensures SplitCoord(CoordOf(p)) == Some((p.y, p.x))
  {
    SplitJoined(p.y, p.x);
  }

  // ---------------------------------------------------------------------------
  // The `coords` object
  // ---------------------------------------------------------------------------

  /** A JavaScript object used as a dictionary: its values, and its keys in
      the order `Object.keys` lists them (the order of first assignment). */
  datatype Coords = Coords(keys: seq<string>, values: map<string, string>)

  const NoCoords := Coords([], map[])

  predicate Distinct(s: seq<string>)
  {
    forall i, j | 0 <= i < j < |s| :: s[i] != s[j]
  }

  /** Each key is listed exactly once, and exactly the keys are listed. */
  predicate WellFormed(c: Coords)
  {
    && Distinct(c.keys)
    && (forall k | k in c.keys :: k in c.values)
    && (forall k | k in c.values :: k in c.keys)
  }

  /** `coords[parcelle.properties.id] = ...` for one feature. */
  function Put(c: Coords, f: Feature): Coords
  {
    Coords(if f.id in c.values then c.keys else c.keys + [f.id],
           c.values[f.id := CoordOf(f.point)])
  }

  /** The object after the features, taken in order, each wrote its coord. */
  function Absorb(c: Coords, fs: seq<Feature>): (r: Coords)
    ensures WellFormed(c) ==> WellFormed(r) && c.keys <= r.keys
    decreases |fs|
  {
    if fs == [] then c else Put(Absorb(c, fs[..|fs| - 1]), fs[|fs| - 1])
  }

  function Lookup(m: map<string, string>, k: string): Option<string>
  {
    if k in m then Some(m[k]) else None
  }

  /** The last feature of fs carrying the given code, if any. */
  function LastWith(fs: seq<Feature>, code: string): Option<Feature>
    decreases |fs|
  {
    if fs == [] then None
    else if fs[|fs| - 1].id == code then Some(fs[|fs| - 1])
    else LastWith(fs[..|fs| - 1], code)
  }

  lemma {:induction false} LastWithSpec(fs: seq<Feature>, code: string)
    ensures LastWith(fs, code).None? <==> forall i | 0 <= i < |fs| :: fs[i].id != code
    ensures LastWith(fs, code).Some? ==>
              exists i | 0 <= i < |fs| :: && fs[i] == LastWith(fs, code).value && fs[i].id == code
                                          && forall j | i < j < |fs| :: fs[j].id != code
    decreases |fs|
  {
    if fs != [] {
      var init := fs[..|fs| - 1];
      LastWithSpec(init, code);
      assert forall i | 0 <= i < |init| :: init[i] == fs[i];
      if fs[|fs| - 1].id != code && LastWith(init, code).Some? {
        var i :| 0 <= i < |init| && init[i] == LastWith(init, code).value && init[i].id == code
                 && forall j | i < j < |init| :: init[j].id != code;
        assert fs[i] == init[i];
      }
    }
  }

  /** Last write wins: after the features are absorbed, a code holds the
      coord of the last feature that carries it, and a code no feature
      carries keeps what it had. */
  lemma {:induction false} LastWriteWins(c: Coords, fs: seq<Feature>, code: string)
    ensures Lookup(Absorb(c, fs).values, code) ==
              match LastWith(fs, code)
              case Some(f) => Some(CoordOf(f.point))
              case None => Lookup(c.values, code)
    decreases |fs|
  {
    if fs != [] {
      LastWriteWins(c, fs[..|fs| - 1], code);
    }
  }

  lemma {:induction false} AbsorbConcat(c: Coords, xs: seq<Feature>, ys: seq<Feature>)
    ensures Absorb(c, xs + ys) == Absorb(Absorb(c, xs), ys)
    decreases |ys|
  {
    if ys == [] {
      assert xs + ys == xs;
    } else {
      assert (xs + ys)[..|xs + ys| - 1] == xs + ys[..|ys| - 1];
      AbsorbConcat(c, xs, ys[..|ys| - 1]);
    }
  }

  /** Across publication dates: when the features of a later date carry a
      code, they decide its coord whatever earlier dates held. */
  lemma {:induction false} LaterDateWins(earlier: seq<Feature>, later: seq<Feature>, code: string)
    ensures LastWith(earlier + later, code) ==
              if LastWith(later, code).Some? then LastWith(later, code) else LastWith(earlier, code)
    decreases |later|
  {
    if later == [] {
      assert earlier + later == earlier;
    } else {
      assert (earlier + later)[..|earlier + later| - 1] == earlier + later[..|later| - 1];
      LaterDateWins(earlier, later[..|later| - 1], code);
    }
  }

  /** The stream's `write` callback, run on every feature of one archive. */
  method AbsorbArchive(c: Coords, features: seq<Feature>) returns (c': Coords)
    requires WellFormed(c)
    ensures WellFormed(c')
    ensures c' == Absorb(c, features)
  {
    var keys, values := c.keys, c.values;
    for i := 0 to |features|
      invariant Coords(keys, values) == Absorb(c, features[..i])
      invariant WellFormed(Coords(keys, values))
    {
      var f := features[i];
      if f.id !in values {
        keys := keys + [f.id];
      }
      values := values[f.id := CoordOf(f.point)];
      assert features[..i + 1][..i] == features[..i];
    }
    assert features[..|features|] == features;
    c' := Coords(keys, values);
  }

  // ---------------------------------------------------------------------------
  // Bulk lines `{ _id: code, code, coord: coords[code] }`
  // ---------------------------------------------------------------------------

  datatype Row = Row(id: string, code: string, coord: string)

  function BulkRows(c: Coords): seq<Row>
    requires WellFormed(c)
  {
    seq(|c.keys|, i requires 0 <= i < |c.keys| => Row(c.keys[i], c.keys[i], c.values[c.keys[i]]))
  }

  lemma {:induction false} DistinctCard(s: seq<string>)
    requires Distinct(s)
    ensures |set k | k in s| == |s|
    decreases |s|
  {
    if s != [] {
      var t := s[..|s| - 1];
      DistinctCard(t);
      assert (set k | k in s) == (set k | k in t) + {s[|s| - 1]};
      assert s[|s| - 1] !in t;
    }
  }

  /** One line per distinct code, each with `_id` equal to its code and the
      coord the object holds for it. */
  lemma BulkRowsContents(c: Coords)
    requires WellFormed(c)
    ensures |BulkRows(c)| == |c.values|
    ensures forall r | r in BulkRows(c) :: r.id == r.code && r.code in c.values && r.coord == c.values[r.code]
    ensures forall code | code in c.values :: Row(code, code, c.values[code]) in BulkRows(c)
    ensures forall i, j | 0 <= i < j < |BulkRows(c)| :: BulkRows(c)[i].code != BulkRows(c)[j].code
  {
    DistinctCard(c.keys);
    assert (set k | k in c.keys) == c.values.Keys;
    var rows := BulkRows(c);
    forall code | code in c.values ensures Row(code, code, c.values[code]) in rows {
      var i :| 0 <= i < |c.keys| && c.keys[i] == code;
      assert rows[i] == Row(code, code, c.values[code]);
    }
  }
}
