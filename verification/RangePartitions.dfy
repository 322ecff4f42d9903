/**
 * Range partitioning of a scan: split points, ordered by the declared comparator, cut the space of
 * key tuples into ranges, and every split names the range its rows fall in.
 *
 * A cell is a null or a value; the values of one column type are totally ordered, and `real` has
 * room for any countable total order.
 */
module RangePartitions {
  import opened Wrappers

  type Cell = Option<real>
  type Row = seq<Cell>

  datatype RangeKey = RangeKey(direction: string, nullOrder: string)

  /** A record batch has as many cells in each row as it has columns. */
  datatype Batch = Batch(types: seq<string>, rows: seq<Row>)

  /** A key whose record or transform is refused has no meaning; the expected type is known for some transforms only. */
  datatype KeyRecord = Undecodable | Key(order: RangeKey, expected: Option<string>)

  /** The split points of a batch that does not decode are `None`; not all column types can be ordered. */
  datatype RangePartitioning = RangePartitioning(keys: seq<KeyRecord>, points: Option<Batch>, orderable: bool)

  type Ranges = r: RangePartitioning | r.points.Some? ==> Rectangular(r.points.value)
    witness RangePartitioning([], None, false)

  datatype Ordering = Less | Equal | Greater

  const ASC := "ASC"
  const DESC := "DESC"
  const NULLS_FIRST := "NULLS_FIRST"
  const NULLS_LAST := "NULLS_LAST"

  predicate Rectangular(b: Batch) {
    forall i | 0 <= i < |b.rows| :: |b.rows[i]| == |b.types|
  }

  // ------------------------------------------------------------ the comparator

  function Reverse(o: Ordering): Ordering {
    match o case Less => Greater case Equal => Equal case Greater => Less
  }

  function CompareValues(x: real, y: real): Ordering {
    if x < y then Less else if x == y then Equal else Greater
  }

  /** Where nulls stand does not depend on the direction. */
  function CompareCells(k: RangeKey, x: Cell, y: Cell): Ordering {
    match (x, y)
    case (None, None) => Equal
    case (None, Some(_)) => if k.nullOrder == NULLS_FIRST then Less else Greater
    case (Some(_), None) => if k.nullOrder == NULLS_FIRST then Greater else Less
    case (Some(a), Some(b)) => if k.direction == DESC then Reverse(CompareValues(a, b)) else CompareValues(a, b)
  }

  /** The first column that differs decides. */
  function Compare(ks: seq<RangeKey>, x: Row, y: Row): Ordering
    requires |ks| == |x| == |y|
  {
    if ks == [] then Equal
    else if CompareCells(ks[0], x[0], y[0]) != Equal then CompareCells(ks[0], x[0], y[0])
    else Compare(ks[1..], x[1..], y[1..])
  }

  predicate Before(ks: seq<RangeKey>, x: Row, y: Row)
    requires |ks| == |x| == |y|
  {
    Compare(ks, x, y) == Less
  }

  lemma {:induction false} EqualIsSame(ks: seq<RangeKey>, x: Row, y: Row)
    requires |ks| == |x| == |y|
    ensures Compare(ks, x, y) == Equal <==> x == y
  {
    if ks != [] {
      EqualIsSame(ks[1..], x[1..], y[1..]);
      assert x == [x[0]] + x[1..] && y == [y[0]] + y[1..];
    }
  }

  lemma {:induction false} Flip(ks: seq<RangeKey>, x: Row, y: Row)
    requires |ks| == |x| == |y|
    ensures Compare(ks, y, x) == Reverse(Compare(ks, x, y))
  {
    if ks != [] {
      Flip(ks[1..], x[1..], y[1..]);
    }
  }

  lemma {:induction false} BeforeTransitive(ks: seq<RangeKey>, x: Row, y: Row, z: Row)
    requires |ks| == |x| == |y| == |z| && Before(ks, x, y) && Before(ks, y, z)
    ensures Before(ks, x, z)
  {
    if CompareCells(ks[0], x[0], y[0]) == Equal && CompareCells(ks[0], y[0], z[0]) == Equal {
      BeforeTransitive(ks[1..], x[1..], y[1..], z[1..]);
    }
  }

  /** The declared comparator is a strict total order on key tuples, nulls included, whatever the directions. */
  lemma StrictTotalOrder(ks: seq<RangeKey>, x: Row, y: Row, z: Row)
    requires |ks| == |x| == |y| == |z|
    ensures !Before(ks, x, x)
    ensures Before(ks, x, y) && Before(ks, y, z) ==> Before(ks, x, z)
    ensures x != y ==> (Before(ks, x, y) <==> !Before(ks, y, x))
  {
    EqualIsSame(ks, x, x);
    EqualIsSame(ks, x, y);
    Flip(ks, x, y);
    if Before(ks, x, y) && Before(ks, y, z) {
      BeforeTransitive(ks, x, y, z);
    }
  }

  /** One column: nulls first or last whatever the direction, and values up or down. */
  lemma OneColumn(k: RangeKey, a: real, b: real)
    requires ValidKey(k)
    ensures Before([k], [None], [Some(a)]) <==> k.nullOrder == NULLS_FIRST
    ensures Before([k], [Some(a)], [None]) <==> k.nullOrder == NULLS_LAST
    ensures Before([k], [Some(a)], [Some(b)]) <==> if k.direction == ASC then a < b else a > b
  {
    assert |NULLS_FIRST| == 11 && |NULLS_LAST| == 10 && |ASC| == 3 && |DESC| == 4;
    EqualIsSame([k], [Some(a)], [Some(b)]);
    assert a == b ==> [Some(a)] == [Some(b)];
  }

  /** Several columns: the first that differs decides, and it decides as if it stood alone. */
  lemma {:induction false} FirstDifferenceDecides(ks: seq<RangeKey>, x: Row, y: Row, i: nat)
    requires |ks| == |x| == |y| && i < |ks| && x[..i] == y[..i] && x[i] != y[i]
    ensures Before(ks, x, y) <==> Before([ks[i]], [x[i]], [y[i]])
  {
    if i > 0 {
      assert x[0] == x[..i][0] == y[..i][0] == y[0];
      assert x[1..][..i - 1] == x[..i][1..] && y[1..][..i - 1] == y[..i][1..];
      FirstDifferenceDecides(ks[1..], x[1..], y[1..], i - 1);
    }
  }

  // ------------------------------------------------------------- the validation

  predicate ValidKey(k: RangeKey) {
    (k.direction == ASC || k.direction == DESC) && (k.nullOrder == NULLS_FIRST || k.nullOrder == NULLS_LAST)
  }

  predicate KeyOk(k: KeyRecord) {
    k.Key? && ValidKey(k.order)
  }

  /** The comparator the keys declare. */
  function Orders(keys: seq<KeyRecord>): (ks: seq<RangeKey>)
    requires forall i | 0 <= i < |keys| :: keys[i].Key?
    ensures |ks| == |keys|
  {
    seq(|keys|, i requires 0 <= i < |keys| => keys[i].order)
  }

  predicate TypesMatch(types: seq<string>, keys: seq<KeyRecord>)
    requires forall i | 0 <= i < |keys| :: keys[i].Key?
  {
    && |types| == |keys|
    && forall i | 0 <= i < |types| :: keys[i].expected.Some? ==> types[i] == keys[i].expected.value
  }

  predicate Ascending(ks: seq<RangeKey>, rows: seq<Row>)
    requires forall i | 0 <= i < |rows| :: |rows[i]| == |ks|
  {
    forall i | 0 < i < |rows| :: Before(ks, rows[i - 1], rows[i])
  }

  predicate ValidIndex(index: Option<i64>, ranges: nat) {
    index.Some? && 0 <= index.value as int < ranges
  }

  /** The keys mean something and the split points fit them and ascend. */
  predicate Sound(range: Ranges) {
    && range.keys != []
    && (forall i | 0 <= i < |range.keys| :: KeyOk(range.keys[i]))
    && range.points.Some?
    && TypesMatch(range.points.value.types, range.keys)
    && range.orderable
    && Ascending(Orders(range.keys), range.points.value.rows)
  }

  /** The whole validation: with a range partitioning every split names a range, without one none does. */
  predicate Accepts(range: Option<Ranges>, splits: seq<Option<i64>>) {
    if range.None? then forall i | 0 <= i < |splits| :: splits[i].None?
    else
      && Sound(range.value)
      && forall i | 0 <= i < |splits| :: ValidIndex(splits[i], |range.value.points.value.rows| + 1)
  }

  /** The comparator, unless some key is refused. */
  method ReadKeys(keys: seq<KeyRecord>) returns (ks: Option<seq<RangeKey>>)
    ensures ks.Some? <==> forall i | 0 <= i < |keys| :: KeyOk(keys[i])
    ensures ks.Some? ==> ks.value == Orders(keys)
  {
    var read: seq<RangeKey> := [];
    for i := 0 to |keys|
      invariant forall m | 0 <= m < i :: KeyOk(keys[m])
      invariant read == Orders(keys[..i])
    {
      if !KeyOk(keys[i]) {
        return None;
      }
      read := read + [keys[i].order];
    }
    assert keys[..|keys|] == keys;
    return Some(read);
  }

  method CheckTypes(types: seq<string>, keys: seq<KeyRecord>) returns (ok: bool)
    requires |types| == |keys| && forall i | 0 <= i < |keys| :: keys[i].Key?
    ensures ok <==> TypesMatch(types, keys)
  {
    for i := 0 to |types|
      invariant forall m | 0 <= m < i :: keys[m].expected.Some? ==> types[m] == keys[m].expected.value
    {
      if keys[i].expected.Some? && types[i] != keys[i].expected.value {
        return false;
      }
    }
    return true;
  }

  method CheckOrder(keys: seq<RangeKey>, rows: seq<Row>) returns (ok: bool)
    requires forall i | 0 <= i < |rows| :: |rows[i]| == |keys|
    ensures ok <==> Ascending(keys, rows)
  {
    var row := 1;
    while row < |rows|
      invariant 1 <= row && forall m | 0 < m < row && m < |rows| :: Before(keys, rows[m - 1], rows[m])
    {
      if Compare(keys, rows[row - 1], rows[row]) != Less {
        return false;
      }
      row := row + 1;
    }
    return true;
  }

  method CheckIndices(splits: seq<Option<i64>>, ranges: Option<nat>) returns (ok: bool)
    ensures ok <==> forall i | 0 <= i < |splits| ::
              if ranges.Some? then ValidIndex(splits[i], ranges.value) else splits[i].None?
  {
    for i := 0 to |splits|
      invariant forall m | 0 <= m < i :: if ranges.Some? then ValidIndex(splits[m], ranges.value) else splits[m].None?
    {
      if ranges.Some? {
        if !ValidIndex(splits[i], ranges.value) {
          return false;
        }
      } else if splits[i].Some? {
        return false;
      }
    }
    return true;
  }

  method Validate(range: Option<Ranges>, splits: seq<Option<i64>>) returns (ok: bool)
    ensures ok <==> Accepts(range, splits)
  {
    if range.None? {
      ok := CheckIndices(splits, None);
      return;
    }
    var r := range.value;
    if r.keys == [] {
      return false;
    }
    var ks := ReadKeys(r.keys);
    if ks.None? || r.points.None? || |r.points.value.types| != |r.keys| {
      return false;
    }
    var points := r.points.value;
    ok := CheckTypes(points.types, r.keys);
    if !ok || !r.orderable {
      return false;
    }
    ok := CheckOrder(ks.value, points.rows);
    if !ok {
      return;
    }
    ok := CheckIndices(splits, Some(|points.rows| + 1));
  }

  // ------------------------------------------------------------- the partition

  /** Range `i` starts at split point `i - 1`, included, and ends before split point `i`. */
  predicate InRange(ks: seq<RangeKey>, points: seq<Row>, i: nat, key: Row)
    requires (forall m | 0 <= m < |points| :: |points[m]| == |ks|) && |key| == |ks| && i <= |points|
  {
    (i > 0 ==> !Before(ks, key, points[i - 1])) && (i < |points| ==> Before(ks, key, points[i]))
  }

  lemma {:induction false} AscendingFar(ks: seq<RangeKey>, points: seq<Row>, i: nat, j: nat)
    requires (forall m | 0 <= m < |points| :: |points[m]| == |ks|) && Ascending(ks, points) && i < j < |points|
    ensures Before(ks, points[i], points[j])
    decreases j
  {
    if i < j - 1 {
      AscendingFar(ks, points, i, j - 1);
      BeforeTransitive(ks, points[i], points[j - 1], points[j]);
    }
  }

  /** A key before one split point is before every later one. */
  lemma BeforeLater(ks: seq<RangeKey>, points: seq<Row>, key: Row, i: nat, j: nat)
    requires (forall m | 0 <= m < |points| :: |points[m]| == |ks|) && Ascending(ks, points) && |key| == |ks|
    requires i <= j < |points| && Before(ks, key, points[i])
    ensures Before(ks, key, points[j])
  {
    if i < j {
      AscendingFar(ks, points, i, j);
      BeforeTransitive(ks, key, points[i], points[j]);
    }
  }

  lemma RangesDisjoint(ks: seq<RangeKey>, points: seq<Row>, key: Row, i: nat, j: nat)
    requires (forall m | 0 <= m < |points| :: |points[m]| == |ks|) && Ascending(ks, points) && |key| == |ks|
    requires i <= |points| && j <= |points| && InRange(ks, points, i, key) && InRange(ks, points, j, key)
    ensures i == j
  {
    if i < j {
      BeforeLater(ks, points, key, i, j - 1);
    } else if j < i {
      BeforeLater(ks, points, key, j, i - 1);
    }
  }

  lemma RangeOf(ks: seq<RangeKey>, points: seq<Row>, key: Row) returns (i: nat)
    requires (forall m | 0 <= m < |points| :: |points[m]| == |ks|) && |key| == |ks|
    ensures i <= |points| && InRange(ks, points, i, key)
  {
    i := 0;
    while i < |points| && !Before(ks, key, points[i])
      invariant i <= |points| && (i > 0 ==> !Before(ks, key, points[i - 1]))
    {
      i := i + 1;
    }
  }

  /** The ranges partition the key tuples, and each split point opens a range of its own. */
  ghost predicate Partitions(ks: seq<RangeKey>, points: seq<Row>)
    requires forall m | 0 <= m < |points| :: |points[m]| == |ks|
  {
    && (forall key: Row | |key| == |ks| :: InExactlyOne(ks, points, key))
    && (forall i: nat | i < |points| :: InRange(ks, points, i + 1, points[i]))
  }

  ghost predicate InExactlyOne(ks: seq<RangeKey>, points: seq<Row>, key: Row)
    requires (forall m | 0 <= m < |points| :: |points[m]| == |ks|) && |key| == |ks|
  {
    && (exists i: nat | i <= |points| :: InRange(ks, points, i, key))
    && (forall i: nat, j: nat | i <= |points| && j <= |points| && InRange(ks, points, i, key)
        && InRange(ks, points, j, key) :: i == j)
  }

  /** Strictly ascending split points are exactly the ones that partition the keys. */
  lemma AscendingIffPartitions(ks: seq<RangeKey>, points: seq<Row>)
    requires forall m | 0 <= m < |points| :: |points[m]| == |ks|
    ensures Ascending(ks, points) <==> Partitions(ks, points)
  {
    if Ascending(ks, points) {
      forall key: Row | |key| == |ks|
        ensures InExactlyOne(ks, points, key)
      {
        var i := RangeOf(ks, points, key);
        forall m: nat, n: nat | m <= |points| && n <= |points| && InRange(ks, points, m, key)
          && InRange(ks, points, n, key)
          ensures m == n
        {
          RangesDisjoint(ks, points, key, m, n);
        }
      }
      forall i: nat | i < |points|
        ensures InRange(ks, points, i + 1, points[i])
      {
        EqualIsSame(ks, points[i], points[i]);
        if i + 1 < |points| {
          assert Before(ks, points[i + 1 - 1], points[i + 1]);
        }
      }
    }
    if Partitions(ks, points) {
      forall i | 0 < i < |points|
        ensures Before(ks, points[i - 1], points[i])
      {
        assert InRange(ks, points, i - 1 + 1, points[i - 1]);
      }
    }
  }

  /** An accepted plan: each key tuple has one range, and each split names one of those ranges. */
  lemma AcceptedPlanPartitions(range: Ranges, splits: seq<Option<i64>>)
    requires Accepts(Some(range), splits)
    ensures Partitions(Orders(range.keys), range.points.value.rows)
    ensures forall i | 0 <= i < |splits| :: splits[i].Some? && 0 <= splits[i].value as int <= |range.points.value.rows|
  {
    AscendingIffPartitions(Orders(range.keys), range.points.value.rows);
    assert forall i | 0 <= i < |splits| :: ValidIndex(splits[i], |range.points.value.rows| + 1);
  }

  /**
   * Range metadata is accepted exactly if there are keys, each declaring one of two directions and one of two
   * null orders; the split points decode, one column for each key, of the type expected where that is known;
   * their types can be ordered; the points partition the keys; and every split names one of the ranges.
   */
  lemma AcceptedIff(range: Ranges, splits: seq<Option<i64>>)
    ensures Accepts(Some(range), splits) <==>
              && range.keys != [] && range.orderable && range.points.Some?
              && |range.points.value.types| == |range.keys|
              && (forall i | 0 <= i < |range.keys| ::
                    && range.keys[i].Key?
                    && (range.keys[i].order.direction == "ASC" || range.keys[i].order.direction == "DESC")
                    && (range.keys[i].order.nullOrder == "NULLS_FIRST" || range.keys[i].order.nullOrder == "NULLS_LAST")
                    && (range.keys[i].expected.Some? ==>
                          range.points.value.types[i] == range.keys[i].expected.value))
              && Partitions(Orders(range.keys), range.points.value.rows)
              && forall i | 0 <= i < |splits| ::
                   splits[i].Some? && 0 <= splits[i].value <= |range.points.value.rows|
  {
    hide Partitions, Ascending;
    if range.points.Some? && |range.points.value.types| == |range.keys|
       && forall i | 0 <= i < |range.keys| :: range.keys[i].Key? {
      AscendingIffPartitions(Orders(range.keys), range.points.value.rows);
      forall i | 0 <= i < |splits|
        ensures ValidIndex(splits[i], |range.points.value.rows| + 1) <==>
                  splits[i].Some? && 0 <= splits[i].value <= |range.points.value.rows|
      {
      }
    }
  }

  /** Without range metadata a plan is accepted exactly if no split names a range. */
  lemma AcceptedWithout(splits: seq<Option<i64>>)
    ensures Accepts(None, splits) <==> forall i | 0 <= i < |splits| :: splits[i] == None
  {
  }
}
