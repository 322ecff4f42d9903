/**
 * The two halves of the client's base64 (section 4 of RFC 4648), which live in different files: the
 * encoder for continuation hints and the decoder for row provenance.  Text is its UTF-8 bytes.
 */
module Base64 {
  import opened Wrappers

  type Sextet = x: int | 0 <= x < 64

  const PAD: byte := 61
  const U32: int := 0x1_0000_0000

  // ------------------------------------------------------------- the alphabet

  function Symbol(v: Sextet): byte {
    if v < 26 then 65 + v else if v < 52 then 71 + v else if v < 62 then v - 4 else if v == 62 then 43 else 47
  }

  /** Both the standard and the URL-safe symbols are read. */
  function Value(b: byte): Option<Sextet> {
    if 65 <= b <= 90 then Some(b - 65)
    else if 97 <= b <= 122 then Some(b - 71)
    else if 48 <= b <= 57 then Some(b + 4)
    else if b == 43 || b == 45 then Some(62)
    else if b == 47 || b == 95 then Some(63)
    else None
  }

  predicate Space(b: byte) {
    b == 32 || b == 9 || b == 10 || b == 12 || b == 13
  }

  function Symbols(ds: seq<Sextet>): seq<byte> {
    seq(|ds|, i requires 0 <= i < |ds| => Symbol(ds[i]))
  }

  lemma SymbolValue(v: Sextet)
    ensures Value(Symbol(v)) == Some(v) && !Space(Symbol(v)) && Symbol(v) != PAD
  {
  }

  /** Table 1 of RFC 4648: which symbol stands for which six bits. */
  predicate Stands(c: int, v: Sextet) {
    || (v <= 25 && c == 'A' as int + v)
    || (26 <= v <= 51 && c == 'a' as int + (v - 26))
    || (52 <= v <= 61 && c == '0' as int + (v - 52))
    || (v == 62 && c == '+' as int)
    || (v == 63 && c == '/' as int)
  }

  /** What is written is the standard alphabet; what is read is that and the two URL-safe symbols, and nothing else. */
  lemma StandardAlphabet(v: Sextet, b: byte)
    ensures Stands(b, v) <==> b == Symbol(v)
    ensures Value(b) == Some(v) <==> Stands(b, v) || (v == 62 && b == '-' as int) || (v == 63 && b == '_' as int)
  {
  }

  // -------------------------------------------------------------- the encoder

  /** The 24 bits of a chunk of one to three bytes, missing bytes being zero. */
  function Bits24(chunk: seq<byte>): int
    requires 1 <= |chunk| <= 3
  {
    var b0: int, b1: int, b2: int := chunk[0], if |chunk| > 1 then chunk[1] else 0, if |chunk| > 2 then chunk[2] else 0;
    b0 * 0x10000 + b1 * 0x100 + b2
  }

  function Quad(chunk: seq<byte>): (q: seq<byte>)
    requires 1 <= |chunk| <= 3
  {
    var n := Bits24(chunk);
    [Symbol(n / 0x40000 % 64), Symbol(n / 0x1000 % 64),
     if |chunk| > 1 then Symbol(n / 0x40 % 64) else PAD,
     if |chunk| > 2 then Symbol(n % 64) else PAD]
  }

  function ChunkLength(data: seq<byte>): nat {
    if |data| < 3 then |data| else 3
  }

  function Encoded(data: seq<byte>): seq<byte> {
    if data == [] then [] else Quad(data[..ChunkLength(data)]) + Encoded(data[ChunkLength(data)..])
  }

  method Encode(data: seq<byte>) returns (out: seq<byte>)
    ensures out == Encoded(data)
  {
    hide Encoded, Quad;
    out := [];
    var i := 0;
    assert data[0..] == data;
    while i < |data|
      invariant 0 <= i <= |data| && out + Encoded(data[i..]) == Encoded(data)
    {
      var end := if i + 3 <= |data| then i + 3 else |data|;
      EncodedStep(data, i, end);
      assert out + (Quad(data[i..end]) + Encoded(data[end..])) == out + Quad(data[i..end]) + Encoded(data[end..]);
      out := out + Quad(data[i..end]);
      i := end;
    }
    NothingEncoded(data);
  }

  lemma EncodedStep(data: seq<byte>, i: nat, end: nat)
    requires i < |data| && end == if i + 3 <= |data| then i + 3 else |data|
    ensures Encoded(data[i..]) == Quad(data[i..end]) + Encoded(data[end..])
  {
    assert data[i..][..end - i] == data[i..end] && data[i..][end - i..] == data[end..];
  }

  lemma NothingEncoded(data: seq<byte>)
    ensures Encoded(data[|data|..]) == []
  {
  }

  /** A full chunk and its four symbols are one number, to the bases 256 and 64. */
  predicate SameNumber(chunk: seq<byte>, q: seq<byte>) {
    && |chunk| == 3 && |q| == 4 && (forall i | 0 <= i < 4 :: Value(q[i]).Some?)
    && (chunk[0] as int * 256 + chunk[1]) * 256 + chunk[2]
       == ((Value(q[0]).value as int * 64 + Value(q[1]).value) * 64 + Value(q[2]).value) * 64 + Value(q[3]).value
  }

  lemma FourDigits(n: int)
    requires 0 <= n < 0x1000000
    ensures n == ((n / 0x40000 * 64 + n / 0x1000 % 64) * 64 + n / 0x40 % 64) * 64 + n % 64
    ensures 0 <= n / 0x40000 < 64
  {
    var a, b := n / 0x1000, n / 0x40;
    assert n == 64 * b + n % 64 && b == 64 * a + b % 64;
    assert a == 64 * (n / 0x40000) + a % 64;
  }

  lemma QuadIsNumber(chunk: seq<byte>)
    requires |chunk| == 3
    ensures SameNumber(chunk, Quad(chunk))
  {
    hide Symbol, Value;
    var n := Bits24(chunk);
    FourDigits(n);
    SymbolValue(n / 0x40000 % 64);
    SymbolValue(n / 0x1000 % 64);
    SymbolValue(n / 0x40 % 64);
    SymbolValue(n % 64);
  }

  /** Chunk `i` of the data, three bytes or what is left. */
  function Chunk(data: seq<byte>, i: nat): seq<byte>
    requires 3 * i < |data|
  {
    if 3 * i + 3 <= |data| then data[3 * i..3 * i + 3] else data[3 * i..]
  }

  lemma ChunkLater(data: seq<byte>, i: nat)
    requires 0 < i && 3 * i < |data|
    ensures Chunk(data[3..], i - 1) == Chunk(data, i)
  {
  }

  lemma {:induction false} ChunkEncoded(data: seq<byte>, i: nat)
    requires 3 * i < |data|
    ensures |Encoded(data)| >= 4 * i + 4 && Encoded(data)[4 * i..4 * i + 4] == Quad(Chunk(data, i))
  {
    var n := ChunkLength(data);
    var quad, rest := Quad(data[..n]), Encoded(data[n..]);
    assert Encoded(data) == quad + rest;
    hide Quad, Encoded;
    QuadLength(data[..n]);
    if i == 0 {
      assert Chunk(data, 0) == data[..n];
    } else {
      ChunkEncoded(data[3..], i - 1);
      ChunkLater(data, i);
      assert (quad + rest)[4 * i..4 * i + 4] == rest[4 * (i - 1)..4 * (i - 1) + 4];
    }
  }

  lemma QuadLength(chunk: seq<byte>)
    requires 1 <= |chunk| <= 3
    ensures |Quad(chunk)| == 4
  {
  }

  /**
   * Every full chunk of three bytes stands in its own four symbols, as the same number; a last chunk of one
   * or two bytes is written as if zeros followed, with a pad for each that is missing.
   */
  lemma EncodedAt(data: seq<byte>, i: nat)
    requires 3 * i < |data|
    ensures |Encoded(data)| >= 4 * i + 4
    ensures var q, chunk := Encoded(data)[4 * i..4 * i + 4], Chunk(data, i);
            && (|chunk| == 3 ==> SameNumber(chunk, q))
            && (|chunk| == 2 ==> q[3] == '=' as int && q[..3] == Quad(chunk + [0])[..3])
            && (|chunk| == 1 ==> q[2..] == ['=' as int, '=' as int] && q[..2] == Quad(chunk + [0, 0])[..2])
  {
    hide Quad, Encoded, SameNumber;
    ChunkEncoded(data, i);
    if |Chunk(data, i)| == 3 {
      QuadIsNumber(Chunk(data, i));
    } else {
      PaddedQuad(Chunk(data, i));
    }
  }

  lemma PaddedQuad(chunk: seq<byte>)
    requires 1 <= |chunk| <= 2
    ensures |chunk| == 2 ==> Quad(chunk)[3] == '=' as int && Quad(chunk)[..3] == Quad(chunk + [0])[..3]
    ensures |chunk| == 1 ==>
              Quad(chunk)[2..] == ['=' as int, '=' as int] && Quad(chunk)[..2] == Quad(chunk + [0, 0])[..2]
  {
    assert PAD == '=' as int;
  }

  /** Four symbols for every three bytes begun. */
  lemma {:induction false} EncodedLength(data: seq<byte>)
    ensures |Encoded(data)| == (|data| + 2) / 3 * 4
  {
    if data != [] {
      var n := ChunkLength(data);
      EncodedLength(data[n..]);
      QuartersOf(|data|, n);
    }
  }

  lemma QuartersOf(length: nat, n: nat)
    requires 0 < length && n == if length < 3 then length else 3
    ensures (length + 2) / 3 == 1 + (length - n + 2) / 3
  {
  }

  // -------------------------------------------------------------- the decoder

  function NoSpaces(s: seq<byte>): seq<byte> {
    if s == [] then [] else (if Space(s[0]) then [] else [s[0]]) + NoSpaces(s[1..])
  }

  function UntilPad(s: seq<byte>): seq<byte> {
    if s == [] || s[0] == PAD then [] else [s[0]] + UntilPad(s[1..])
  }

  /** The symbols that count: spaces are dropped, and so is everything from the first `=` on. */
  function Body(s: seq<byte>): seq<byte> {
    UntilPad(NoSpaces(s))
  }

  predicate Readable(s: seq<byte>) {
    forall i | 0 <= i < |s| :: Value(s[i]).Some?
  }

  function Values(s: seq<byte>): seq<Sextet>
    requires Readable(s)
  {
    seq(|s|, i requires 0 <= i < |s| => Value(s[i]).value)
  }

  /** The bits waiting between two symbols. */
  predicate Waiting(bits: nat) {
    bits == 0 || bits == 2 || bits == 4 || bits == 6
  }

  function Power(bits: nat): nat
    requires Waiting(bits)
  {
    if bits == 0 then 1 else if bits == 2 then 4 else if bits == 4 then 16 else 64
  }

  /** Eight bits leave as a byte as soon as they are there; what is left at the end is dropped. */
  function Unpack(ds: seq<Sextet>, acc: nat, bits: nat): seq<byte>
    requires Waiting(bits) && acc < Power(bits)
  {
    if ds == [] then []
    else if bits == 0 then Unpack(ds[1..], ds[0], 6)
    else
      var a := acc * 64 + ds[0];
      [a / Power(bits - 2)] + Unpack(ds[1..], a % Power(bits - 2), bits - 2)
  }

  function Decoded(s: seq<byte>): Option<seq<byte>> {
    if Readable(Body(s)) then Some(Unpack(Values(Body(s)), 0, 0)) else None
  }

  predicate Shifted(acc: nat, bits: nat, v: Sextet, out: seq<byte>, acc': nat, bits': nat)
    requires Waiting(bits) && acc < Power(bits) && Waiting(bits')
  {
    if bits == 0 then out == [] && acc' == v && bits' == 6
    else bits' == bits - 2 && acc' == (acc * 64 + v) % Power(bits') && out == [(acc * 64 + v) / Power(bits')]
  }

  lemma UnpackShift(ds: seq<Sextet>, i: nat, acc: nat, bits: nat, out: seq<byte>, acc': nat, bits': nat)
    requires i < |ds| && Waiting(bits) && acc < Power(bits) && Waiting(bits') && acc' < Power(bits')
    requires Shifted(acc, bits, ds[i], out, acc', bits')
    ensures Unpack(ds[i..], acc, bits) == out + Unpack(ds[i + 1..], acc', bits')
  {
    assert ds[i..][1..] == ds[i + 1..];
  }

  /** What has gathered after a symbol is less than a byte and the bits that go on waiting. */
  lemma ShiftFits(acc: nat, bits: nat, v: Sextet)
    requires Waiting(bits) && acc < Power(bits)
    ensures acc * 64 < U32
    ensures bits > 0 ==> 0 <= (acc * 64 + v) / Power(bits - 2) < 256
  {
  }

  /** One symbol: the accumulator is a 32-bit word, and the shift never pushes a bit out of it. */
  method Shift(acc: nat, bits: nat, v: Sextet) returns (out: seq<byte>, acc': nat, bits': nat)
    requires Waiting(bits) && acc < Power(bits)
    ensures Waiting(bits') && acc' < Power(bits')
    ensures Shifted(acc, bits, v, out, acc', bits')
  {
    ShiftFits(acc, bits, v);
    out := [];
    acc' := acc * 64 % U32 + v;
    bits' := bits + 6;
    if bits' >= 8 {
      bits' := bits' - 8;
      out := [acc' / Power(bits') % 256];
      acc' := acc' % Power(bits');
    }
  }

  /** What has been put out, with what is still to come, is the whole. */
  ghost predicate Unpacking(ds: seq<Sextet>, i: nat, out: seq<byte>, acc: nat, bits: nat) {
    && i <= |ds| && Waiting(bits) && acc < Power(bits)
    && out + Unpack(ds[i..], acc, bits) == Unpack(ds, 0, 0)
  }

  lemma UnpackingOn(ds: seq<Sextet>, i: nat, out: seq<byte>, acc: nat, bits: nat, more: seq<byte>, acc': nat,
                    bits': nat)
    requires i < |ds| && Unpacking(ds, i, out, acc, bits)
    requires Waiting(bits') && acc' < Power(bits')
    requires Unpack(ds[i..], acc, bits) == more + Unpack(ds[i + 1..], acc', bits')
    ensures Unpacking(ds, i + 1, out + more, acc', bits')
  {
    assert out + (more + Unpack(ds[i + 1..], acc', bits')) == out + more + Unpack(ds[i + 1..], acc', bits');
  }

  lemma UnpackingDone(ds: seq<Sextet>, out: seq<byte>, acc: nat, bits: nat)
    requires Unpacking(ds, |ds|, out, acc, bits)
    ensures out == Unpack(ds, 0, 0)
  {
    assert ds[|ds|..] == [];
  }

  method Decode(s: seq<byte>) returns (r: Option<seq<byte>>)
    ensures r == Decoded(s)
  {
    var body := Body(s);
    var out: seq<byte> := [];
    var acc, bits := 0, 0;
    for i := 0 to |body|
      invariant Readable(body[..i]) && Waiting(bits) && 0 <= acc < Power(bits)
      invariant Readable(body) ==> Unpacking(Values(body), i, out, acc, bits)
    {
      var v := Value(body[i]);
      if v.None? {
        return None;
      }
      var more, acc', bits' := Shift(acc, bits, v.value);
      if Readable(body) {
        UnpackShift(Values(body), i, acc, bits, more, acc', bits');
        UnpackingOn(Values(body), i, out, acc, bits, more, acc', bits');
      }
      out, acc, bits := out + more, acc', bits';
    }
    assert body[..|body|] == body;
    UnpackingDone(Values(body), out, acc, bits);
    return Some(out);
  }

  // ----------------------------------------------------------- the round trip

  /** The sextets of a chunk, pads left out. */
  function ChunkDigits(chunk: seq<byte>): seq<Sextet>
    requires 1 <= |chunk| <= 3
  {
    var n := Bits24(chunk);
    [n / 0x40000 % 64, n / 0x1000 % 64] +
    (if |chunk| > 1 then [n / 0x40 % 64] else []) +
    (if |chunk| > 2 then [n % 64] else [])
  }

  function Digits(data: seq<byte>): seq<Sextet> {
    if data == [] then [] else ChunkDigits(data[..ChunkLength(data)]) + Digits(data[ChunkLength(data)..])
  }

  lemma HighSextets(q0: int, r0: int, q1: int, r1: int, b2: int)
    requires 0 <= q0 < 64 && 0 <= r0 < 4 && 0 <= q1 < 16 && 0 <= r1 < 16 && 0 <= b2 < 256
    ensures ((4 * q0 + r0) * 0x10000 + (16 * q1 + r1) * 0x100 + b2) / 0x40000 % 64 == q0
    ensures ((4 * q0 + r0) * 0x10000 + (16 * q1 + r1) * 0x100 + b2) / 0x1000 % 64 == r0 * 16 + q1
  {
    var n := (4 * q0 + r0) * 0x10000 + (16 * q1 + r1) * 0x100 + b2;
    assert n == 0x40000 * q0 + (r0 * 0x10000 + (16 * q1 + r1) * 0x100 + b2);
    assert n / 0x40000 == q0;
    assert n == 0x1000 * (64 * q0 + 16 * r0 + q1) + (r1 * 0x100 + b2);
    assert n / 0x1000 == 64 * q0 + (16 * r0 + q1);
  }

  lemma LowSextets(b0: int, q1: int, r1: int, q2: int, r2: int)
    requires 0 <= b0 < 256 && 0 <= q1 < 16 && 0 <= r1 < 16 && 0 <= q2 < 4 && 0 <= r2 < 64
    ensures (b0 * 0x10000 + (16 * q1 + r1) * 0x100 + (64 * q2 + r2)) / 0x40 % 64 == r1 * 4 + q2
    ensures (b0 * 0x10000 + (16 * q1 + r1) * 0x100 + (64 * q2 + r2)) % 64 == r2
  {
    var n := b0 * 0x10000 + (16 * q1 + r1) * 0x100 + (64 * q2 + r2);
    assert n == 0x40 * (64 * (16 * b0 + q1) + (4 * r1 + q2)) + r2;
    assert n / 0x40 == 64 * (16 * b0 + q1) + (4 * r1 + q2);
  }

  lemma ThreeBytes(b0: int, b1: int, b2: int)
    requires 0 <= b0 < 256 && 0 <= b1 < 256 && 0 <= b2 < 256
    ensures (b0 * 0x10000 + b1 * 0x100 + b2) / 0x40000 % 64 == b0 / 4
    ensures (b0 * 0x10000 + b1 * 0x100 + b2) / 0x1000 % 64 == b0 % 4 * 16 + b1 / 16
    ensures (b0 * 0x10000 + b1 * 0x100 + b2) / 0x40 % 64 == b1 % 16 * 4 + b2 / 64
    ensures (b0 * 0x10000 + b1 * 0x100 + b2) % 64 == b2 % 64
  {
    HighSextets(b0 / 4, b0 % 4, b1 / 16, b1 % 16, b2);
    LowSextets(b0, b1 / 16, b1 % 16, b2 / 64, b2 % 64);
  }

  lemma FirstShift(ds: seq<Sextet>)
    requires |ds| > 0
    ensures Unpack(ds, 0, 0) == Unpack(ds[1..], ds[0], 6)
  {
  }

  lemma SecondShift(ds: seq<Sextet>, q0: nat, r0: nat, q1: nat)
    requires q0 < 64 && r0 < 4 && q1 < 16 && |ds| > 1 && ds[1] == r0 * 16 + q1
    ensures Unpack(ds[1..], q0, 6) == [4 * q0 + r0] + Unpack(ds[2..], q1, 4)
    ensures |ds| == 2 ==> Unpack(ds[2..], q1, 4) == []
  {
    assert q0 * 64 + ds[1] == 16 * (4 * q0 + r0) + q1;
    UnpackShift(ds, 1, q0, 6, [4 * q0 + r0], q1, 4);
  }

  lemma ThirdShift(ds: seq<Sextet>, q1: nat, r1: nat, q2: nat)
    requires q1 < 16 && r1 < 16 && q2 < 4 && |ds| > 2 && ds[2] == r1 * 4 + q2
    ensures Unpack(ds[2..], q1, 4) == [16 * q1 + r1] + Unpack(ds[3..], q2, 2)
    ensures |ds| == 3 ==> Unpack(ds[3..], q2, 2) == []
  {
    assert q1 * 64 + ds[2] == 4 * (16 * q1 + r1) + q2;
    UnpackShift(ds, 2, q1, 4, [16 * q1 + r1], q2, 2);
  }

  lemma FourthShift(ds: seq<Sextet>, q2: nat, r2: nat)
    requires q2 < 4 && r2 < 64 && |ds| > 3 && ds[3] == r2
    ensures Unpack(ds[3..], q2, 2) == [64 * q2 + r2] + Unpack(ds[4..], 0, 0)
  {
    UnpackShift(ds, 3, q2, 2, [64 * q2 + r2], 0, 0);
  }

  lemma JoinThree(u0: seq<byte>, u1: seq<byte>, u2: seq<byte>, u3: seq<byte>, b0: byte, b1: byte, b2: byte)
    requires u0 == [b0] + u1
    ensures u1 == [] ==> u0 == [b0]
    ensures u1 == [b1] + u2 && u2 == [] ==> u0 == [b0, b1]
    ensures u1 == [b1] + u2 && u2 == [b2] + u3 ==> u0 == [b0, b1, b2] + u3
  {
  }

  /** Unpacking the sextets of one to three bytes gives the bytes back, whatever follows three. */
  lemma UnpackFour(ds: seq<Sextet>, b0: byte, b1: byte, b2: byte)
    requires |ds| >= 2 && ds[0] == b0 / 4 && ds[1] == b0 % 4 * 16 + b1 / 16
    requires |ds| > 2 ==> ds[2] == b1 % 16 * 4 + b2 / 64
    requires |ds| > 3 ==> ds[3] == b2 % 64
    ensures |ds| == 2 ==> Unpack(ds, 0, 0) == [b0]
    ensures |ds| == 3 ==> Unpack(ds, 0, 0) == [b0, b1]
    ensures |ds| > 3 ==> Unpack(ds, 0, 0) == [b0, b1, b2] + Unpack(ds[4..], 0, 0)
  {
    hide Unpack;
    var q1, q2 := b1 / 16, b2 / 64;
    FirstShift(ds);
    SecondShift(ds, b0 / 4, b0 % 4, q1);
    if |ds| > 2 {
      ThirdShift(ds, q1, b1 % 16, q2);
    }
    if |ds| > 3 {
      FourthShift(ds, q2, b2 % 64);
      JoinThree(Unpack(ds, 0, 0), Unpack(ds[2..], q1, 4), Unpack(ds[3..], q2, 2), Unpack(ds[4..], 0, 0), b0, b1, b2);
    }
  }

  lemma UnpackChunk(chunk: seq<byte>, rest: seq<Sextet>)
    requires 1 <= |chunk| <= 3 && (rest == [] || |chunk| == 3)
    ensures Unpack(ChunkDigits(chunk) + rest, 0, 0) == chunk + Unpack(rest, 0, 0)
  {
    var b1, b2 := if |chunk| > 1 then chunk[1] else 0, if |chunk| > 2 then chunk[2] else 0;
    ThreeBytes(chunk[0], b1, b2);
    var ds := ChunkDigits(chunk) + rest;
    UnpackFour(ds, chunk[0], b1, b2);
    if |chunk| == 3 {
      assert ds[4..] == rest;
    }
  }

  lemma {:induction false} UnpackDigits(data: seq<byte>)
    ensures Unpack(Digits(data), 0, 0) == data
  {
    if data != [] {
      var n := ChunkLength(data);
      UnpackDigits(data[n..]);
      UnpackChunk(data[..n], Digits(data[n..]));
      assert data == data[..n] + data[n..];
    }
  }

  function Pads(n: nat): seq<byte> {
    if n == 1 then [PAD, PAD] else if n == 2 then [PAD] else []
  }

  lemma QuadIsDigits(chunk: seq<byte>)
    requires 1 <= |chunk| <= 3
    ensures Quad(chunk) == Symbols(ChunkDigits(chunk)) + Pads(|chunk|)
  {
  }

  lemma SymbolsConcat(a: seq<Sextet>, b: seq<Sextet>)
    ensures Symbols(a + b) == Symbols(a) + Symbols(b)
  {
  }

  /** Pads come last: before them there is nothing to encode, or there are none. */
  lemma Regroup(a: seq<byte>, p: seq<byte>, b: seq<byte>, q: seq<byte>)
    requires p == [] || b + q == []
    ensures (a + p) + (b + q) == (a + b) + (p + q)
  {
    if p != [] {
      assert |b + q| == |b| + |q|;
    }
  }

  lemma LastPads(n: nat, rest: seq<byte>)
    requires n == 3 || rest == []
    ensures Pads(n) == [] || Encoded(rest) == []
    ensures forall i | 0 <= i < |Pads(n)| :: Pads(n)[i] == PAD
  {
  }

  lemma {:induction false} EncodedIsDigits(data: seq<byte>) returns (pads: seq<byte>)
    ensures Encoded(data) == Symbols(Digits(data)) + pads
    ensures forall i | 0 <= i < |pads| :: pads[i] == PAD
  {
    if data == [] {
      pads := [];
    } else {
      var n := ChunkLength(data);
      var chunk, rest := data[..n], data[n..];
      assert Encoded(data) == Quad(chunk) + Encoded(rest) && Digits(data) == ChunkDigits(chunk) + Digits(rest);
      hide *;
      var more := EncodedIsDigits(rest);
      QuadIsDigits(chunk);
      SymbolsConcat(ChunkDigits(chunk), Digits(rest));
      LastPads(n, rest);
      pads := Pads(n) + more;
      Regroup(Symbols(ChunkDigits(chunk)), Pads(n), Symbols(Digits(rest)), more);
    }
  }

  lemma {:induction false} NoSpacesKeeps(s: seq<byte>)
    requires forall i | 0 <= i < |s| :: !Space(s[i])
    ensures NoSpaces(s) == s
  {
    if s != [] {
      NoSpacesKeeps(s[1..]);
    }
  }

  lemma {:induction false} UntilPadCuts(s: seq<byte>, pads: seq<byte>)
    requires (forall i | 0 <= i < |s| :: s[i] != PAD) && (pads == [] || pads[0] == PAD)
    ensures UntilPad(s + pads) == s
  {
    if s == [] {
      assert s + pads == pads;
    } else {
      UntilPadCuts(s[1..], pads);
      assert (s + pads)[1..] == s[1..] + pads;
    }
  }

  lemma BodyOfEncoded(data: seq<byte>)
    ensures Body(Encoded(data)) == Symbols(Digits(data))
  {
    var pads := EncodedIsDigits(data);
    var s := Symbols(Digits(data));
    forall i | 0 <= i < |s|
      ensures !Space(s[i]) && s[i] != PAD
    {
      SymbolValue(Digits(data)[i]);
    }
    NoSpacesKeeps(s + pads);
    UntilPadCuts(s, pads);
  }

  /** Decoding inverts encoding, for every byte sequence. */
  lemma DecodeEncode(data: seq<byte>)
    ensures Decoded(Encoded(data)) == Some(data)
  {
    BodyOfEncoded(data);
    var s := Symbols(Digits(data));
    forall i | 0 <= i < |s|
      ensures Value(s[i]) == Some(Digits(data)[i])
    {
      SymbolValue(Digits(data)[i]);
    }
    assert Values(s) == Digits(data);
    UnpackDigits(data);
  }

  /** A byte that ends the text, is skipped, or carries six bits; anything else is refused. */
  predicate Legal(b: byte) {
    || b == ' ' as int || b == '\t' as int || b == '\n' as int || b == 12 || b == '\r' as int
    || Value(b).Some?
  }

  lemma ReadableHead(b: byte, s: seq<byte>)
    ensures Readable([b] + s) <==> Value(b).Some? && Readable(s)
  {
    if Readable([b] + s) {
      assert ([b] + s)[0] == b;
      forall i | 0 <= i < |s|
        ensures Value(s[i]).Some?
      {
        assert ([b] + s)[i + 1] == s[i];
      }
    }
  }

  predicate AllLegal(text: seq<byte>) {
    forall i | 0 <= i < |text| :: Legal(text[i])
  }

  lemma LegalHead(text: seq<byte>)
    requires text != []
    ensures AllLegal(text) <==> Legal(text[0]) && AllLegal(text[1..])
  {
    if Legal(text[0]) && AllLegal(text[1..]) {
      forall i | 0 <= i < |text|
        ensures Legal(text[i])
      {
        assert i > 0 ==> text[i] == text[1..][i - 1];
      }
    }
  }

  lemma {:induction false} BodyReadable(text: seq<byte>, tail: seq<byte>)
    requires (forall i | 0 <= i < |text| :: text[i] != '=' as int) && (tail == [] || tail[0] == '=' as int)
    ensures Readable(UntilPad(NoSpaces(text + tail))) <==> AllLegal(text)
  {
    assert PAD == '=' as int;
    if text == [] {
      assert text + tail == tail;
    } else {
      var b, rest := text[0], text[1..] + tail;
      assert text + tail == [b] + rest && ([b] + rest)[1..] == rest;
      BodyReadable(text[1..], tail);
      LegalHead(text);
      if Space(b) {
        assert NoSpaces([b] + rest) == NoSpaces(rest);
      } else {
        assert NoSpaces([b] + rest) == [b] + NoSpaces(rest);
        assert ([b] + NoSpaces(rest))[1..] == NoSpaces(rest);
        ReadableHead(b, UntilPad(NoSpaces(rest)));
      }
    }
  }

  /** Text is read exactly if every byte before the first `=` is white space or a symbol of either alphabet. */
  lemma DecodesIff(text: seq<byte>, tail: seq<byte>)
    requires (forall i | 0 <= i < |text| :: text[i] != '=' as int) && (tail == [] || tail[0] == '=' as int)
    ensures Decoded(text + tail).Some? <==> AllLegal(text)
  {
    BodyReadable(text, tail);
  }

  /** Spaces anywhere change nothing. */
  lemma SpacesIgnored(s: seq<byte>)
    ensures Decoded(NoSpaces(s)) == Decoded(s)
  {
    NoSpacesHasNone(s);
    NoSpacesKeeps(NoSpaces(s));
  }

  lemma {:induction false} NoSpacesHasNone(s: seq<byte>)
    ensures forall i | 0 <= i < |NoSpaces(s)| :: !Space(NoSpaces(s)[i])
  {
    if s != [] {
      NoSpacesHasNone(s[1..]);
    }
  }

  // ------------------------------------------------------------- provenance

  /** A 32-bit integer, two's complement, least significant byte first. */
  function Little(x: i32): seq<byte> {
    var u := if x < 0 then x + U32 else x;
    [u % 256, u / 0x100 % 256, u / 0x10000 % 256, u / 0x1000000]
  }

  function FromLittle(c: seq<byte>): i32
    requires |c| == 4
  {
    var b0: int, b1: int, b2: int, b3: int := c[0], c[1], c[2], c[3];
    var u := b0 + b1 * 0x100 + b2 * 0x10000 + b3 * 0x1000000;
    if u < 0x8000_0000 then u else u - U32
  }

  function RowBytes(rows: seq<i32>): seq<byte> {
    if rows == [] then [] else Little(rows[0]) + RowBytes(rows[1..])
  }

  function Rows(raw: seq<byte>): seq<i32>
    requires |raw| % 4 == 0
  {
    if raw == [] then [] else [FromLittle(raw[..4])] + Rows(raw[4..])
  }

  /** The provenance of an answer: absent, unreadable, or one input row for each output row. */
  function ParentRows(text: Option<seq<byte>>): Result<Option<seq<i32>>> {
    if text.None? then Ok(None)
    else
      var raw := Decoded(text.value);
      if raw.None? then Err("vgi_rpc.parent_row is not valid base64")
      else if |raw.value| % 4 != 0 then Err("vgi_rpc.parent_row is not a whole number of int32")
      else Ok(Some(Rows(raw.value)))
  }

  /** Least significant byte first, and a negative number as its complement to two to the 32nd. */
  lemma LittleIsNumber(x: i32)
    ensures |Little(x)| == 4
    ensures var c := Little(x);
            c[0] as int + 256 * c[1] as int + 65536 * c[2] as int + 16777216 * c[3] as int
            == if x < 0 then x + 4294967296 else x
  {
    var u := if x < 0 then x + U32 else x;
    var q1, q2, q3 := u / 0x100, u / 0x10000, u / 0x1000000;
    assert u == u % 256 + 256 * q1 && q1 == q1 % 256 + 256 * q2 && q2 == q2 % 256 + 256 * q3;
  }

  lemma LittleRoundTrip(x: i32)
    ensures |Little(x)| == 4 && FromLittle(Little(x)) == x
  {
    var u := if x < 0 then x + U32 else x;
    var q1, q2, q3 := u / 0x100, u / 0x10000, u / 0x1000000;
    assert u == u % 256 + 256 * q1 && q1 == q1 % 256 + 256 * q2 && q2 == q2 % 256 + 256 * q3;
  }

  lemma {:induction false} RowsRoundTrip(rows: seq<i32>)
    ensures |RowBytes(rows)| % 4 == 0 && Rows(RowBytes(rows)) == rows
  {
    if rows != [] {
      RowsRoundTrip(rows[1..]);
      LittleRoundTrip(rows[0]);
      assert RowBytes(rows)[..4] == Little(rows[0]) && RowBytes(rows)[4..] == RowBytes(rows[1..]);
    }
  }

  /** Every array of int32 row numbers survives the trip through metadata. */
  lemma ProvenanceRoundTrip(rows: seq<i32>)
    ensures ParentRows(Some(Encoded(RowBytes(rows)))) == Ok(Some(rows))
  {
    RowsRoundTrip(rows);
    DecodeEncode(RowBytes(rows));
  }
}
