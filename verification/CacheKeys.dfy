/**
 * The identity of a cached result, and the versioned byte encoding by which a
 * persistent store names it.  A text field stands for its UTF-8 bytes.
 */
module CacheKeys {
  import opened Wrappers

  type Utf8 = seq<byte>

  datatype CacheKey = CacheKey(
    catalog: Utf8,
    identityScope: Utf8,
    workerLabel: Utf8,
    functionName: Utf8,
    arguments: seq<byte>,
    projection: Option<seq<i64>>,
    filters: Option<seq<byte>>,
    catalogVersion: i64,
    at: Option<(Utf8, Utf8)>,
    settings: seq<byte>,
    attachOptions: seq<byte>,
    rowLimit: Option<i64>,
    ordering: Option<seq<byte>>,
    sample: Option<seq<byte>>,
    plan: Option<seq<byte>>)

  const TWO_64: nat := 0x1_0000_0000_0000_0000

  predicate Short<T>(s: seq<T>) {
    |s| < TWO_64
  }

  predicate ShortOpt<T>(s: Option<seq<T>>) {
    s.Some? ==> Short(s.value)
  }

  /** Every length fits the eight bytes the encoding gives it, as any length in memory does. */
  predicate Sized(k: CacheKey) {
    && Short(k.catalog) && Short(k.identityScope) && Short(k.workerLabel) && Short(k.functionName)
    && Short(k.arguments) && ShortOpt(k.projection) && ShortOpt(k.filters)
    && (k.at.Some? ==> Short(k.at.value.0) && Short(k.at.value.1))
    && Short(k.settings) && Short(k.attachOptions)
    && ShortOpt(k.ordering) && ShortOpt(k.sample) && ShortOpt(k.plan)
  }

  type Key = k: CacheKey | Sized(k)
    witness CacheKey([], [], [], [], [], None, None, 0, None, [], [], None, None, None, None)

  // ---------------------------------------------------------------- encoding

  /** The bytes of "vgi-client-result-cache-key", a zero byte, and "v1". */
  const DOMAIN: seq<byte> := [
    118, 103, 105, 45, 99, 108, 105, 101, 110, 116, 45, 114, 101, 115, 117, 108, 116, 45, 99,
    97, 99, 104, 101, 45, 107, 101, 121, 0, 118, 49]

  /** The low `width` little-endian bytes of `n`. */
  function Le(n: nat, width: nat): (bytes: seq<byte>)
    ensures |bytes| == width
  {
    if width == 0 then [] else [n % 256] + Le(n / 256, width - 1)
  }

  /** Two's complement: the unsigned eight-byte reading of a signed integer. */
  function Unsigned(v: i64): nat {
    if v < 0 then v + TWO_64 else v
  }

  function I64Bytes(v: i64): seq<byte> {
    Le(Unsigned(v), 8)
  }

  function Blob(v: seq<byte>): seq<byte> {
    Le(|v|, 8) + v
  }

  function OptBlob(v: Option<seq<byte>>): seq<byte> {
    match v
    case None => [0]
    case Some(b) => [1] + Blob(b)
  }

  function OptI64(v: Option<i64>): seq<byte> {
    match v
    case None => [0]
    case Some(i) => [1] + I64Bytes(i)
  }

  function I64s(v: seq<i64>): seq<byte> {
    if v == [] then [] else I64Bytes(v[0]) + I64s(v[1..])
  }

  function OptI64s(v: Option<seq<i64>>): seq<byte> {
    match v
    case None => [0]
    case Some(s) => [1] + (Le(|s|, 8) + I64s(s))
  }

  function OptPair(v: Option<(Utf8, Utf8)>): seq<byte> {
    match v
    case None => [0]
    case Some(p) => [1] + (Blob(p.0) + Blob(p.1))
  }

  function Encode(k: CacheKey): seq<byte> {
    DOMAIN + (Blob(k.catalog) + (Blob(k.identityScope) + (Blob(k.workerLabel) + (
      Blob(k.functionName) + (Blob(k.arguments) + (OptI64s(k.projection) + (OptBlob(k.filters) + (
      I64Bytes(k.catalogVersion) + (OptPair(k.at) + (Blob(k.settings) + (Blob(k.attachOptions) + (
      OptI64(k.rowLimit) + (OptBlob(k.ordering) + (OptBlob(k.sample) + OptBlob(k.plan)
    ))))))))))))))
  }

  lemma Assoc<T>(a: seq<T>, b: seq<T>, c: seq<T>)
    ensures a + b + c == a + (b + c)
  {
  }

  lemma {:induction false} I64sAppend(v: seq<i64>, i: i64)
    ensures I64s(v + [i]) == I64s(v) + I64Bytes(i)
  {
    if v == [] {
      assert I64s([i]) == I64Bytes(i) + I64s([]);
    } else {
      I64sAppend(v[1..], i);
      assert (v + [i])[1..] == v[1..] + [i];
    }
  }

  /** Builds the encoding by appending field after field to one buffer. */
  method StableBytes(k: CacheKey) returns (out: seq<byte>)
    ensures out == Encode(k)
  {
    ghost var t14 := OptBlob(k.plan);
    ghost var t13 := OptBlob(k.sample) + t14;
    ghost var t12 := OptBlob(k.ordering) + t13;
    ghost var t11 := OptI64(k.rowLimit) + t12;
    ghost var t10 := Blob(k.attachOptions) + t11;
    ghost var t9 := Blob(k.settings) + t10;
    ghost var t8 := OptPair(k.at) + t9;
    ghost var t7 := I64Bytes(k.catalogVersion) + t8;
    ghost var t6 := OptBlob(k.filters) + t7;
    ghost var t5 := OptI64s(k.projection) + t6;
    ghost var t4 := Blob(k.arguments) + t5;
    ghost var t3 := Blob(k.functionName) + t4;
    ghost var t2 := Blob(k.workerLabel) + t3;
    ghost var t1 := Blob(k.identityScope) + t2;
    out := DOMAIN;
    Assoc(out, Blob(k.catalog), t1);
    out := out + Blob(k.catalog);
    Assoc(out, Blob(k.identityScope), t2);
    out := out + Blob(k.identityScope);
    Assoc(out, Blob(k.workerLabel), t3);
    out := out + Blob(k.workerLabel);
    Assoc(out, Blob(k.functionName), t4);
    out := out + Blob(k.functionName);
    Assoc(out, Blob(k.arguments), t5);
    out := out + Blob(k.arguments);
    var projection := [0];
    if k.projection.Some? {
      projection := ProjectionBytes(k.projection.value);
    }
    Assoc(out, projection, t6);
    out := out + projection;
    Assoc(out, OptBlob(k.filters), t7);
    out := out + OptBlob(k.filters);
    Assoc(out, I64Bytes(k.catalogVersion), t8);
    out := out + I64Bytes(k.catalogVersion);
    Assoc(out, OptPair(k.at), t9);
    out := out + OptPair(k.at);
    Assoc(out, Blob(k.settings), t10);
    out := out + Blob(k.settings);
    Assoc(out, Blob(k.attachOptions), t11);
    out := out + Blob(k.attachOptions);
    Assoc(out, OptI64(k.rowLimit), t12);
    out := out + OptI64(k.rowLimit);
    Assoc(out, OptBlob(k.ordering), t13);
    out := out + OptBlob(k.ordering);
    Assoc(out, OptBlob(k.sample), t14);
    out := out + OptBlob(k.sample);
    out := out + OptBlob(k.plan);
  }

  /** The tag, the element count, and each element in turn. */
  method ProjectionBytes(projection: seq<i64>) returns (out: seq<byte>)
    ensures out == OptI64s(Some(projection))
  {
    out := [1] + Le(|projection|, 8);
    for i := 0 to |projection|
      invariant out == [1] + (Le(|projection|, 8) + I64s(projection[..i]))
    {
      I64sAppend(projection[..i], projection[i]);
      assert projection[..i] + [projection[i]] == projection[..i + 1];
      out := out + I64Bytes(projection[i]);
    }
    assert projection[..|projection|] == projection;
  }

  // ---------------------------------------------------------------- decoding

  /** A value read off the front of a byte string, and what is left. */
  datatype Parse<+T> = Fail | Read(value: T, rest: seq<byte>) {
    predicate IsFailure() {
      Fail?
    }
    function PropagateFailure<U>(): Parse<U>
      requires Fail?
    {
      Fail
    }
    function Extract(): (T, seq<byte>)
      requires Read?
    {
      (value, rest)
    }
  }

  function LeValue(s: seq<byte>): nat {
    if s == [] then 0 else s[0] + 256 * LeValue(s[1..])
  }

  function ReadLe(s: seq<byte>): Parse<nat> {
    if |s| < 8 then Fail else Read(LeValue(s[..8]), s[8..])
  }

  function ReadI64(s: seq<byte>): Parse<i64> {
    var (n, rest) :- ReadLe(s);
    if n < TWO_64 / 2 then Read(n, rest)
    else if n < TWO_64 then Read(n - TWO_64, rest)
    else Fail
  }

  function ReadBlob(s: seq<byte>): Parse<seq<byte>> {
    var (n, rest) :- ReadLe(s);
    if |rest| < n then Fail else Read(rest[..n], rest[n..])
  }

  function ReadTag(s: seq<byte>): Parse<bool> {
    if s == [] || s[0] > 1 then Fail else Read(s[0] == 1, s[1..])
  }

  function ReadOptBlob(s: seq<byte>): Parse<Option<seq<byte>>> {
    var (present, rest) :- ReadTag(s);
    if !present then Read(None, rest)
    else
      var (b, rest) :- ReadBlob(rest);
      Read(Some(b), rest)
  }

  function ReadOptI64(s: seq<byte>): Parse<Option<i64>> {
    var (present, rest) :- ReadTag(s);
    if !present then Read(None, rest)
    else
      var (i, rest) :- ReadI64(rest);
      Read(Some(i), rest)
  }

  function ReadI64s(n: nat, s: seq<byte>): Parse<seq<i64>> {
    if n == 0 then Read([], s)
    else
      var (head, rest) :- ReadI64(s);
      var (tail, rest) :- ReadI64s(n - 1, rest);
      Read([head] + tail, rest)
  }

  function ReadOptI64s(s: seq<byte>): Parse<Option<seq<i64>>> {
    var (present, rest) :- ReadTag(s);
    if !present then Read(None, rest)
    else
      var (n, rest) :- ReadLe(rest);
      var (v, rest) :- ReadI64s(n, rest);
      Read(Some(v), rest)
  }

  function ReadOptPair(s: seq<byte>): Parse<Option<(Utf8, Utf8)>> {
    var (present, rest) :- ReadTag(s);
    if !present then Read(None, rest)
    else
      var (a, rest) :- ReadBlob(rest);
      var (b, rest) :- ReadBlob(rest);
      Read(Some((a, b)), rest)
  }

  /** Reads the fifteen fields back, and insists that nothing is left over. */
  function Decode(s: seq<byte>): Option<CacheKey> {
    if |s| < |DOMAIN| || s[..|DOMAIN|] != DOMAIN then None
    else
      match DecodeFields(s[|DOMAIN|..])
      case Fail => None
      case Read(k, rest) => if rest == [] then Some(k) else None
  }

  function DecodeFields(s: seq<byte>): Parse<CacheKey> {
    var (call, s) :- ReadCall(s);
    var (shape, s) :- ReadShape(s);
    var (rest, s) :- ReadContext(s);
    Read(CacheKey(call.0, call.1, call.2, call.3, call.4, shape.0, shape.1, shape.2, shape.3,
                  rest.0, rest.1, rest.2, rest.3, rest.4, rest.5), s)
  }

  /** Catalog, identity, worker, function and arguments. */
  function ReadCall(s: seq<byte>): Parse<(Utf8, Utf8, Utf8, Utf8, seq<byte>)> {
    var (catalog, s) :- ReadBlob(s);
    var (identityScope, s) :- ReadBlob(s);
    var (workerLabel, s) :- ReadBlob(s);
    var (functionName, s) :- ReadBlob(s);
    var (arguments, s) :- ReadBlob(s);
    Read((catalog, identityScope, workerLabel, functionName, arguments), s)
  }

  /** Projection, filters, catalog version and time-travel coordinate. */
  function ReadShape(s: seq<byte>)
    : Parse<(Option<seq<i64>>, Option<seq<byte>>, i64, Option<(Utf8, Utf8)>)>
  {
    var (projection, s) :- ReadOptI64s(s);
    var (filters, s) :- ReadOptBlob(s);
    var (catalogVersion, s) :- ReadI64(s);
    var (at, s) :- ReadOptPair(s);
    Read((projection, filters, catalogVersion, at), s)
  }

  /** Settings, attach options, limit, ordering, sample and plan. */
  function ReadContext(s: seq<byte>)
    : Parse<(seq<byte>, seq<byte>, Option<i64>, Option<seq<byte>>, Option<seq<byte>>, Option<seq<byte>>)>
  {
    var (settings, s) :- ReadBlob(s);
    var (attachOptions, s) :- ReadBlob(s);
    var (rowLimit, s) :- ReadOptI64(s);
    var (ordering, s) :- ReadOptBlob(s);
    var (sample, s) :- ReadOptBlob(s);
    var (plan, s) :- ReadOptBlob(s);
    Read((settings, attachOptions, rowLimit, ordering, sample, plan), s)
  }

  // ------------------------------------------------- each reader undoes its writer

  function Pow256(k: nat): nat {
    if k == 0 then 1 else 256 * Pow256(k - 1)
  }

  lemma {:induction false} LeInverse(n: nat, width: nat)
    requires n < Pow256(width)
    ensures LeValue(Le(n, width)) == n
  {
    if width > 0 {
      LeInverse(n / 256, width - 1);
    }
  }

  lemma ReadLeWritten(n: nat, rest: seq<byte>)
    requires n < TWO_64
    ensures ReadLe(Le(n, 8) + rest) == Read(n, rest)
  {
    assert Pow256(8) == TWO_64 by {
      assert Pow256(4) == 0x1_0000_0000;
      assert Pow256(6) == 0x1_0000_0000_0000;
    }
    LeInverse(n, 8);
    assert (Le(n, 8) + rest)[..8] == Le(n, 8);
    assert (Le(n, 8) + rest)[8..] == rest;
  }

  lemma ReadI64Written(v: i64, rest: seq<byte>)
    ensures ReadI64(I64Bytes(v) + rest) == Read(v, rest)
  {
    ReadLeWritten(Unsigned(v), rest);
  }

  lemma ReadBlobWritten(v: seq<byte>, rest: seq<byte>)
    requires Short(v)
    ensures ReadBlob(Blob(v) + rest) == Read(v, rest)
  {
    Assoc(Le(|v|, 8), v, rest);
    ReadLeWritten(|v|, v + rest);
    assert (v + rest)[..|v|] == v && (v + rest)[|v|..] == rest;
  }

  lemma ReadTagWritten(tag: byte, body: seq<byte>)
    requires tag <= 1
    ensures ReadTag([tag] + body) == Read(tag == 1, body)
  {
    assert ([tag] + body)[1..] == body;
  }

  lemma ReadOptBlobWritten(v: Option<seq<byte>>, rest: seq<byte>)
    requires ShortOpt(v)
    ensures ReadOptBlob(OptBlob(v) + rest) == Read(v, rest)
  {
    match v
    case None =>
      ReadTagWritten(0, rest);
    case Some(b) =>
      Assoc([1], Blob(b), rest);
      ReadTagWritten(1, Blob(b) + rest);
      ReadBlobWritten(b, rest);
  }

  lemma ReadOptI64Written(v: Option<i64>, rest: seq<byte>)
    ensures ReadOptI64(OptI64(v) + rest) == Read(v, rest)
  {
    match v
    case None =>
      ReadTagWritten(0, rest);
    case Some(i) =>
      Assoc([1], I64Bytes(i), rest);
      ReadTagWritten(1, I64Bytes(i) + rest);
      ReadI64Written(i, rest);
  }

  lemma {:induction false} ReadI64sWritten(v: seq<i64>, rest: seq<byte>)
    ensures ReadI64s(|v|, I64s(v) + rest) == Read(v, rest)
  {
    if v == [] {
      assert I64s(v) + rest == rest;
    } else {
      Assoc(I64Bytes(v[0]), I64s(v[1..]), rest);
      ReadI64Written(v[0], I64s(v[1..]) + rest);
      ReadI64sWritten(v[1..], rest);
      assert [v[0]] + v[1..] == v;
    }
  }

  lemma ReadOptI64sWritten(v: Option<seq<i64>>, rest: seq<byte>)
    requires ShortOpt(v)
    ensures ReadOptI64s(OptI64s(v) + rest) == Read(v, rest)
  {
    match v
    case None =>
      ReadTagWritten(0, rest);
    case Some(s) =>
      Assoc([1], Le(|s|, 8) + I64s(s), rest);
      ReadTagWritten(1, Le(|s|, 8) + I64s(s) + rest);
      Assoc(Le(|s|, 8), I64s(s), rest);
      ReadLeWritten(|s|, I64s(s) + rest);
      ReadI64sWritten(s, rest);
  }

  lemma ReadOptPairWritten(v: Option<(Utf8, Utf8)>, rest: seq<byte>)
    requires v.Some? ==> Short(v.value.0) && Short(v.value.1)
    ensures ReadOptPair(OptPair(v) + rest) == Read(v, rest)
  {
    match v
    case None =>
      ReadTagWritten(0, rest);
    case Some(p) =>
      Assoc([1], Blob(p.0) + Blob(p.1), rest);
      ReadTagWritten(1, Blob(p.0) + Blob(p.1) + rest);
      Assoc(Blob(p.0), Blob(p.1), rest);
      ReadBlobWritten(p.0, Blob(p.1) + rest);
      ReadBlobWritten(p.1, rest);
  }

  lemma ReadCallWritten(k: Key, rest: seq<byte>)
    ensures ReadCall(Blob(k.catalog) + (Blob(k.identityScope) + (Blob(k.workerLabel) +
                     (Blob(k.functionName) + (Blob(k.arguments) + rest)))))
         == Read((k.catalog, k.identityScope, k.workerLabel, k.functionName, k.arguments), rest)
  {
    var t4 := Blob(k.arguments) + rest;
    var t3 := Blob(k.functionName) + t4;
    var t2 := Blob(k.workerLabel) + t3;
    var t1 := Blob(k.identityScope) + t2;
    ReadBlobWritten(k.catalog, t1);
    ReadBlobWritten(k.identityScope, t2);
    ReadBlobWritten(k.workerLabel, t3);
    ReadBlobWritten(k.functionName, t4);
    ReadBlobWritten(k.arguments, rest);
  }

  lemma ReadShapeWritten(k: Key, rest: seq<byte>)
    ensures ReadShape(OptI64s(k.projection) + (OptBlob(k.filters) +
                      (I64Bytes(k.catalogVersion) + (OptPair(k.at) + rest))))
         == Read((k.projection, k.filters, k.catalogVersion, k.at), rest)
  {
    var t3 := OptPair(k.at) + rest;
    var t2 := I64Bytes(k.catalogVersion) + t3;
    ReadOptI64sWritten(k.projection, OptBlob(k.filters) + t2);
    ReadOptBlobWritten(k.filters, t2);
    ReadI64Written(k.catalogVersion, t3);
    ReadOptPairWritten(k.at, rest);
  }

  lemma ReadContextWritten(k: Key)
    ensures ReadContext(Blob(k.settings) + (Blob(k.attachOptions) + (OptI64(k.rowLimit) +
                        (OptBlob(k.ordering) + (OptBlob(k.sample) + OptBlob(k.plan))))))
         == Read((k.settings, k.attachOptions, k.rowLimit, k.ordering, k.sample, k.plan), [])
  {
    var t5 := OptBlob(k.plan);
    var t4 := OptBlob(k.sample) + t5;
    var t3 := OptBlob(k.ordering) + t4;
    var t2 := OptI64(k.rowLimit) + t3;
    ReadBlobWritten(k.settings, Blob(k.attachOptions) + t2);
    ReadBlobWritten(k.attachOptions, t2);
    ReadOptI64Written(k.rowLimit, t3);
    ReadOptBlobWritten(k.ordering, t4);
    ReadOptBlobWritten(k.sample, t5);
    assert t5 + [] == t5;
    ReadOptBlobWritten(k.plan, []);
  }

  /** The decoder recovers every field of every key. */
  lemma DecodeEncode(k: Key)
    ensures Decode(Encode(k)) == Some(k)
  {
    var t9 := Blob(k.settings) + (Blob(k.attachOptions) + (OptI64(k.rowLimit) +
                (OptBlob(k.ordering) + (OptBlob(k.sample) + OptBlob(k.plan)))));
    var t5 := OptI64s(k.projection) + (OptBlob(k.filters) +
                (I64Bytes(k.catalogVersion) + (OptPair(k.at) + t9)));
    var t0 := Blob(k.catalog) + (Blob(k.identityScope) + (Blob(k.workerLabel) +
                (Blob(k.functionName) + (Blob(k.arguments) + t5))));
    assert Encode(k) == DOMAIN + t0;
    assert Encode(k)[..|DOMAIN|] == DOMAIN && Encode(k)[|DOMAIN|..] == t0;
    ReadCallWritten(k, t5);
    ReadShapeWritten(k, t9);
    ReadContextWritten(k);
  }

  /** Two keys with the same bytes are the same key. */
  lemma EncodeInjective(j: Key, k: Key)
    requires Encode(j) == Encode(k)
    ensures j == k
  {
    DecodeEncode(j);
    DecodeEncode(k);
  }

  // --------------------------------------------------------- the format, byte for byte

  /** The domain prefix is the ASCII text, a zero byte and the version. */
  lemma DomainText(i: nat)
    requires i < 27
    ensures |DOMAIN| == 30 && DOMAIN[i] == "vgi-client-result-cache-key"[i] as int
    ensures DOMAIN[27..] == [0, 'v' as int, '1' as int]
  {
  }

  /** A key with every kind of field present and, where it may be, absent. */
  const EXAMPLE := CacheKey([99], [115, 49], [], [102], [7, 8, 9], Some([5, -2]), None, -1, Some(([118], [55])), [6],
                            [], Some(300), None, Some([4]), None)

  lemma ManyOnes()
    ensures Le(0xFF_FFFF_FFFF_FFFF, 7) == [255, 255, 255, 255, 255, 255, 255]
  {
    assert Le(0xFF, 1) == [255];
    assert Le(0xFFFF, 2) == [255, 255];
    assert Le(0xFF_FFFF, 3) == [255, 255, 255];
    assert Le(0xFFFF_FFFF, 4) == [255, 255, 255, 255];
    assert Le(0xFF_FFFF_FFFF, 5) == [255, 255, 255, 255, 255];
    assert Le(0xFFFF_FFFF_FFFF, 6) == [255, 255, 255, 255, 255, 255];
  }

  lemma SmallNegative(v: i64)
    requires -256 <= v < 0
    ensures I64Bytes(v) == [v + 256, 255, 255, 255, 255, 255, 255, 255]
  {
    ManyOnes();
    var u := Unsigned(v);
    assert u % 256 == v + 256 && u / 256 == 0xFF_FFFF_FFFF_FFFF;
    assert Le(u, 8) == [u % 256] + Le(u / 256, 7);
  }

  lemma TwoBytes(n: nat)
    requires n < 0x1_0000
    ensures Le(n, 8) == [n % 256, n / 256, 0, 0, 0, 0, 0, 0]
  {
    assert Le(0, 6) == [0, 0, 0, 0, 0, 0];
    assert Le(n / 256, 7) == [n / 256] + Le(0, 6);
  }

  lemma CallOfExample()
    ensures Blob(EXAMPLE.catalog) == [1, 0, 0, 0, 0, 0, 0, 0, 99]
    ensures Blob(EXAMPLE.identityScope) == [2, 0, 0, 0, 0, 0, 0, 0, 115, 49]
    ensures Blob(EXAMPLE.workerLabel) == [0, 0, 0, 0, 0, 0, 0, 0]
    ensures Blob(EXAMPLE.functionName) == [1, 0, 0, 0, 0, 0, 0, 0, 102]
    ensures Blob(EXAMPLE.arguments) == [3, 0, 0, 0, 0, 0, 0, 0, 7, 8, 9]
  {
    hide Le;
    TwoBytes(0);
    TwoBytes(1);
    TwoBytes(2);
    TwoBytes(3);
  }

  lemma ProjectionOfExample()
    ensures OptI64s(EXAMPLE.projection)
         == [1, 2, 0, 0, 0, 0, 0, 0, 0, 5, 0, 0, 0, 0, 0, 0, 0, 254, 255, 255, 255, 255, 255, 255, 255]
  {
    hide Le;
    TwoBytes(2);
    TwoBytes(5);
    SmallNegative(-2);
    assert [5, -2][1..] == [-2];
    assert I64s([-2]) == I64Bytes(-2) + I64s([]);
    assert I64s([5, -2]) == I64Bytes(5) + I64Bytes(-2);
  }

  lemma ShapeOfExample()
    ensures OptBlob(EXAMPLE.filters) == [0]
    ensures I64Bytes(EXAMPLE.catalogVersion) == [255, 255, 255, 255, 255, 255, 255, 255]
    ensures OptPair(EXAMPLE.at) == [1, 1, 0, 0, 0, 0, 0, 0, 0, 118, 1, 0, 0, 0, 0, 0, 0, 0, 55]
  {
    hide Le;
    TwoBytes(1);
    SmallNegative(-1);
  }

  lemma ContextOfExample()
    ensures Blob(EXAMPLE.settings) == [1, 0, 0, 0, 0, 0, 0, 0, 6]
    ensures Blob(EXAMPLE.attachOptions) == [0, 0, 0, 0, 0, 0, 0, 0]
    ensures OptI64(EXAMPLE.rowLimit) == [1, 44, 1, 0, 0, 0, 0, 0, 0]
    ensures OptBlob(EXAMPLE.ordering) == [0] == OptBlob(EXAMPLE.plan)
    ensures OptBlob(EXAMPLE.sample) == [1, 1, 0, 0, 0, 0, 0, 0, 0, 4]
  {
    hide Le;
    TwoBytes(0);
    TwoBytes(1);
    TwoBytes(300);
  }

  /**
   * Lengths and counts are eight bytes, least significant first; an absent field is a zero byte and a present
   * one follows a one; negative integers are two's complement; the fields stand in the order of the key.
   */
  lemma FormatOfExample()
    ensures Encode(EXAMPLE) ==
            DOMAIN + ([1, 0, 0, 0, 0, 0, 0, 0, 99] + ([2, 0, 0, 0, 0, 0, 0, 0, 115, 49] + ([0, 0, 0, 0, 0, 0, 0, 0] + (
              [1, 0, 0, 0, 0, 0, 0, 0, 102] + ([3, 0, 0, 0, 0, 0, 0, 0, 7, 8, 9] + (
              [1, 2, 0, 0, 0, 0, 0, 0, 0, 5, 0, 0, 0, 0, 0, 0, 0, 254, 255, 255, 255, 255, 255, 255, 255] + ([0] + (
              [255, 255, 255, 255, 255, 255, 255, 255] + (
              [1, 1, 0, 0, 0, 0, 0, 0, 0, 118, 1, 0, 0, 0, 0, 0, 0, 0, 55] + (
              [1, 0, 0, 0, 0, 0, 0, 0, 6] + ([0, 0, 0, 0, 0, 0, 0, 0] + (
              [1, 44, 1, 0, 0, 0, 0, 0, 0] + ([0] + ([1, 1, 0, 0, 0, 0, 0, 0, 0, 4] + [0]
            ))))))))))))))
  {
    hide Blob, OptBlob, OptPair, OptI64, OptI64s, I64Bytes;
    CallOfExample();
    ProjectionOfExample();
    ShapeOfExample();
    ContextOfExample();
  }
}
