/** The primitive wire format shared by both implementations: QUIC variable-length
    integers (section 16 of RFC 9000), length-prefixed SSH strings and SSH booleans.

    Parsers are functions from the unread bytes to the value and the bytes still unread;
    encoders return the bytes that the source appends to its output buffer. */
module Wire {

  type byte = b: int | 0 <= b < 256
  type Bytes = seq<byte>

  datatype Option<+T> = None | Some(value: T)

  datatype Result<+T, +E> = Ok(value: T) | Err(error: E) {
    predicate IsFailure() { Err? }

    function PropagateFailure<U>(): Result<U, E>
      requires Err?
    {
      Err(error)
    }

    function Extract(): T
      requires Ok?
    {
      value
    }
  }

  const MAX_VARINT_1: nat := 63
  const MAX_VARINT_2: nat := 16_383
  const MAX_VARINT_4: nat := 1_073_741_823
  const MAX_VARINT_8: nat := 4_611_686_018_427_387_903
  const MAX_SSH_STRING_LEN: nat := 16 * 1024 * 1024

  datatype Error =
    | UnexpectedEof
    | InvalidBool(value: byte)
    | InvalidLength(length: nat)
    | UnknownMessageType(kind: nat)
    | UnknownRequestType(name: Bytes)
    | InvalidForwardingProtocol(protocol: nat)
    | InvalidAddressFamily(family: nat)
    | UnexpectedFrameType(frameType: nat)

  /** The outcome of a parser: a value and the unread bytes, or an error. */
  datatype Parsed<+T> = Done(value: T, rest: Bytes) | Fail(error: Error) {
    predicate IsFailure() { Fail? }

    function PropagateFailure<U>(): Parsed<U>
      requires Fail?
    {
      Fail(error)
    }

    function Extract(): (T, Bytes)
      requires Done?
    {
      (value, rest)
    }
  }

  predicate IsSuffix(rest: Bytes, s: Bytes) {
    |rest| <= |s| && rest == s[|s| - |rest|..]
  }

  // ----- Variable-length integers, as the code computes them -----

  function VarIntLen(v: nat): (n: nat)
    requires v <= MAX_VARINT_8
  {
    if v <= MAX_VARINT_1 then 1
    else if v <= MAX_VARINT_2 then 2
    else if v <= MAX_VARINT_4 then 4
    else 8
  }

  /** The shortest encoding; the tag bits never overlap the value bits, so the source's
      bitwise "or" is written as an addition. */
  function VarInt(v: nat): (r: Bytes)
    requires v <= MAX_VARINT_8
    ensures |r| == VarIntLen(v)
  {
    if v <= MAX_VARINT_1 then
      [v]
    else if v <= MAX_VARINT_2 then
      [v / 0x100 + 0x40, v % 0x100]
    else if v <= MAX_VARINT_4 then
      [v / 0x100_0000 + 0x80, v / 0x1_0000 % 0x100, v / 0x100 % 0x100, v % 0x100]
    else
      [v / 0x100_0000_0000_0000 + 0xc0, v / 0x1_0000_0000_0000 % 0x100,
       v / 0x100_0000_0000 % 0x100, v / 0x1_0000_0000 % 0x100,
       v / 0x100_0000 % 0x100, v / 0x1_0000 % 0x100, v / 0x100 % 0x100, v % 0x100]
  }

  function ReadByte(s: Bytes): Parsed<byte> {
    if s == [] then Fail(UnexpectedEof) else Done(s[0], s[1..])
  }

  /** The last four bytes of an eight-byte integer whose first four gave `high`. */
  function ReadLongTail(high: nat, s: Bytes): (r: Parsed<nat>)
    ensures r.Done? <==> |s| >= 4
    ensures r.Done? ==> r.rest == s[4..] && high * 0x1_0000_0000 <= r.value < (high + 1) * 0x1_0000_0000
    ensures r.Fail? ==> r.error == UnexpectedEof
  {
    var (b5, s5) :- ReadByte(s);
    var (b6, s6) :- ReadByte(s5);
    var (b7, s7) :- ReadByte(s6);
    var (b8, s8) :- ReadByte(s7);
    Done(b8 + b7 * 0x100 + b6 * 0x1_0000 + b5 * 0x100_0000 + high * 0x1_0000_0000, s8)
  }

  function ReadVarInt(s: Bytes): (r: Parsed<nat>)
    ensures r.Done? ==> r.value <= MAX_VARINT_8 && IsSuffix(r.rest, s) && VarIntLen(r.value) + |r.rest| <= |s|
  {
    var (first, s1) :- ReadByte(s);
    var tag, b1 := first / 64, first % 64;
    if tag == 0 then Done(b1, s1) else
    var (b2, s2) :- ReadByte(s1);
    if tag == 1 then Done(b2 + b1 * 0x100, s2) else
    var (b3, s3) :- ReadByte(s2);
    var (b4, s4) :- ReadByte(s3);
    var high := b4 + b3 * 0x100 + b2 * 0x1_0000 + b1 * 0x100_0000;
    if tag == 2 then Done(high, s4) else ReadLongTail(high, s4)
  }

  // ----- Section 16 of RFC 9000, independently of the code -----

  /** A length a variable-length integer may have. */
  predicate IsWidth(n: nat) { n == 1 || n == 2 || n == 4 || n == 8 }

  /** How many values fit the `8 * n - 2` usable bits of an encoding of `n` bytes. */
  function Capacity(n: nat): nat
    requires IsWidth(n)
  {
    if n == 1 then 0x40 else if n == 2 then 0x4000 else if n == 4 then 0x4000_0000 else 0x4000_0000_0000_0000
  }

  /** The two most significant bits: the base-2 logarithm of the length. */
  function Tag(n: nat): nat
    requires IsWidth(n)
  {
    if n == 1 then 0 else if n == 2 then 1 else if n == 4 then 2 else 3
  }

  function Width(first: byte): (n: nat)
    ensures IsWidth(n)
  {
    if first < 0x40 then 1 else if first < 0x80 then 2 else if first < 0xc0 then 4 else 8
  }

  /** Network byte order. */
  function BigEndian(v: nat, n: nat): (r: Bytes)
    ensures |r| == n
  {
    if n == 0 then [] else BigEndian(v / 0x100, n - 1) + [v % 0x100]
  }

  function NetworkValue(s: Bytes): nat {
    if s == [] then 0 else NetworkValue(s[..|s| - 1]) * 0x100 + s[|s| - 1]
  }

  /** The encoding of `v` in exactly `n` bytes: the tag above the value, in network order. */
  function Padded(v: nat, n: nat): (r: Bytes)
    requires IsWidth(n) && v < Capacity(n)
    ensures |r| == n
  {
    BigEndian(Tag(n) * Capacity(n) + v, n)
  }

  // ----- The code against the reference -----

  lemma NetworkValueStep(s: Bytes, k: nat)
    requires k < |s|
    ensures NetworkValue(s[..k + 1]) == NetworkValue(s[..k]) * 0x100 + s[k]
  {
    assert s[..k + 1][..k] == s[..k];
  }

  lemma NetworkValueOne(s: Bytes)
    requires |s| >= 1
    ensures NetworkValue(s[..1]) == s[0]
  {
    assert s[..1][..0] == [];
  }

  lemma NetworkValueTwo(s: Bytes)
    requires |s| >= 2
    ensures NetworkValue(s[..2]) == s[1] as int + s[0] as int * 0x100
  {
    NetworkValueOne(s);
    NetworkValueStep(s, 1);
  }

  lemma NetworkValueFour(s: Bytes)
    requires |s| >= 4
    ensures NetworkValue(s[..4]) ==
            s[3] as int + s[2] as int * 0x100 + s[1] as int * 0x1_0000 + s[0] as int * 0x100_0000
  {
    NetworkValueTwo(s);
    NetworkValueStep(s, 2);
    NetworkValueStep(s, 3);
  }

  lemma NetworkValueEight(s: Bytes)
    requires |s| >= 8
    ensures NetworkValue(s[..8]) ==
            s[7] as int + s[6] as int * 0x100 + s[5] as int * 0x1_0000 + s[4] as int * 0x100_0000
            + s[3] as int * 0x1_0000_0000 + s[2] as int * 0x100_0000_0000
            + s[1] as int * 0x1_0000_0000_0000 + s[0] as int * 0x100_0000_0000_0000
  {
    NetworkValueFour(s);
    NetworkValueStep(s, 4);
    NetworkValueStep(s, 5);
    NetworkValueStep(s, 6);
    NetworkValueStep(s, 7);
  }

  lemma {:induction false} NetworkOrderRoundTrip(s: Bytes)
    ensures BigEndian(NetworkValue(s), |s|) == s
  {
    if s != [] {
      NetworkOrderRoundTrip(s[..|s| - 1]);
    }
  }

  lemma DigitsFour(v: nat)
    ensures v == v % 0x100 + v / 0x100 % 0x100 * 0x100 + v / 0x1_0000 % 0x100 * 0x1_0000
                 + v / 0x100_0000 * 0x100_0000
  {
    var q := v / 0x100;
    assert v / 0x1_0000 == q / 0x100;
    assert v / 0x100_0000 == q / 0x100 / 0x100;
  }

  lemma DigitsEight(v: nat)
    ensures v == v % 0x100 + v / 0x100 % 0x100 * 0x100 + v / 0x1_0000 % 0x100 * 0x1_0000
                 + v / 0x100_0000 % 0x100 * 0x100_0000 + v / 0x1_0000_0000 % 0x100 * 0x1_0000_0000
                 + v / 0x100_0000_0000 % 0x100 * 0x100_0000_0000
                 + v / 0x1_0000_0000_0000 % 0x100 * 0x1_0000_0000_0000
                 + v / 0x100_0000_0000_0000 * 0x100_0000_0000_0000
  {
    var q := v / 0x100_0000;
    DigitsFour(v);
    assert v / 0x1_0000_0000 == q / 0x100;
    assert v / 0x100_0000_0000 == q / 0x1_0000;
    assert v / 0x1_0000_0000_0000 == q / 0x100_0000;
    assert v / 0x100_0000_0000_0000 == q / 0x100_0000 / 0x100;
    DigitsFour(q);
  }

  /** The minimal encoder is the reference encoding at the minimal width. */
  lemma VarIntIsPadded(v: nat)
    requires v <= MAX_VARINT_8
    ensures v < Capacity(VarIntLen(v))
    ensures VarInt(v) == Padded(v, VarIntLen(v))
  {
    var n, e := VarIntLen(v), VarInt(v);
    assert NetworkValue(e) == Tag(n) * Capacity(n) + v by {
      assert e[..n] == e;
      if n == 1 {
        NetworkValueOne(e);
      } else if n == 2 {
        NetworkValueTwo(e);
      } else if n == 4 {
        NetworkValueFour(e);
        DigitsFour(v);
      } else {
        NetworkValueEight(e);
        DigitsEight(v);
      }
    }
    NetworkOrderRoundTrip(e);
  }

  lemma ReadVarIntShort(s: Bytes)
    requires s != [] && Width(s[0]) <= 4 && |s| >= Width(s[0])
    ensures var n := Width(s[0]);
            && NetworkValue(s[..n]) >= Tag(n) * Capacity(n)
            && ReadVarInt(s) == Done(NetworkValue(s[..n]) - Tag(n) * Capacity(n), s[n..])
  {
    match Width(s[0])
    case 1 => NetworkValueOne(s);
    case 2 => NetworkValueTwo(s);
    case _ =>
      NetworkValueFour(s);
      assert s[1..][1..] == s[2..] && s[2..][1..] == s[3..] && s[3..][1..] == s[4..];
  }

  lemma ReadVarIntLong(s: Bytes)
    requires |s| >= 8 && Width(s[0]) == 8
    ensures NetworkValue(s[..8]) >= 3 * Capacity(8)
    ensures ReadVarInt(s) == Done(NetworkValue(s[..8]) - 3 * Capacity(8), s[8..])
  {
    NetworkValueEight(s);
    assert s[1..][1..] == s[2..] && s[2..][1..] == s[3..] && s[3..][1..] == s[4..];
    assert s[4..][1..] == s[5..] && s[5..][1..] == s[6..] && s[6..][1..] == s[7..];
  }

  /** The reader accepts exactly when the announced width is available, and returns the
      network-order value of those bytes without the tag. */
  lemma ReadVarIntIsReference(s: Bytes)
    ensures ReadVarInt(s).Done? <==> s != [] && |s| >= Width(s[0])
    ensures ReadVarInt(s).Done? ==>
              var n := Width(s[0]);
              && ReadVarInt(s).rest == s[n..]
              && NetworkValue(s[..n]) == Tag(n) * Capacity(n) + ReadVarInt(s).value
              && ReadVarInt(s).value < Capacity(n)
    ensures ReadVarInt(s).Fail? ==> ReadVarInt(s).error == UnexpectedEof
  {
    if s != [] && |s| >= Width(s[0]) {
      if Width(s[0]) == 8 {
        ReadVarIntLong(s);
      } else {
        ReadVarIntShort(s);
      }
    }
  }

  // ----- Round trips, in both directions and at every width -----

  function Pow256(n: nat): (r: nat)
    ensures r > 0
  {
    if n == 0 then 1 else 0x100 * Pow256(n - 1)
  }

  lemma {:induction false} BigEndianValue(w: nat, n: nat)
    requires w < Pow256(n)
    ensures NetworkValue(BigEndian(w, n)) == w
  {
    if n > 0 {
      BigEndianValue(w / 0x100, n - 1);
      var s := BigEndian(w, n);
      assert s[..n - 1] == BigEndian(w / 0x100, n - 1);
    }
  }

  lemma PowWidths()
    ensures Pow256(1) == 4 * Capacity(1) && Pow256(2) == 4 * Capacity(2)
    ensures Pow256(4) == 4 * Capacity(4) && Pow256(8) == 4 * Capacity(8)
  {
    assert Pow256(3) == 0x100_0000;
    assert Pow256(5) == 0x100_0000_0000;
    assert Pow256(6) == 0x1_0000_0000_0000;
    assert Pow256(7) == 0x100_0000_0000_0000;
  }

  lemma {:induction false} NetworkValueBound(s: Bytes)
    ensures NetworkValue(s) < Pow256(|s|)
  {
    if s != [] {
      NetworkValueBound(s[..|s| - 1]);
    }
  }

  lemma {:induction false} NetworkValueConcat(a: Bytes, b: Bytes)
    ensures NetworkValue(a + b) == NetworkValue(a) * Pow256(|b|) + NetworkValue(b)
  {
    if b == [] {
      assert a + b == a;
    } else {
      var init := b[..|b| - 1];
      NetworkValueConcat(a, init);
      assert (a + b)[..|a + b| - 1] == a + init;
      assert NetworkValue(a) * Pow256(|b|) == NetworkValue(a) * Pow256(|init|) * 0x100;
    }
  }

  lemma LeadingDigit(first: int, p: int, low: int, tag: int, v: int)
    requires first * p + low == tag * 0x40 * p + v
    requires 0 <= low < p && 0 <= v < 0x40 * p
    ensures tag * 0x40 <= first < tag * 0x40 + 0x40
  {
    var d := first - tag * 0x40;
    assert d * p == v - low;
    assert d >= 0x40 ==> (d - 0x40) * p >= 0;
    assert d < 0 ==> (d + 1) * p <= 0;
  }

  lemma WidthPow(n: nat)
    requires IsWidth(n)
    ensures Capacity(n) == 0x40 * Pow256(n - 1)
    ensures Tag(n) * Capacity(n) == Tag(n) * 0x40 * Pow256(n - 1)
  {
    PowWidths();
  }

  /** The first byte carries the tag, so it announces the width. */
  lemma LeadingByteWidth(s: Bytes, v: nat, n: nat)
    requires IsWidth(n) && v < Capacity(n) && |s| == n
    requires NetworkValue(s) == Tag(n) * Capacity(n) + v
    ensures Width(s[0]) == n
  {
    hide NetworkValue, Pow256;
    var p := Pow256(n - 1);
    assert s == s[..1] + s[1..];
    NetworkValueConcat(s[..1], s[1..]);
    NetworkValueOne(s);
    NetworkValueBound(s[1..]);
    WidthPow(n);
    LeadingDigit(s[0], p, NetworkValue(s[1..]), Tag(n), v);
  }

  lemma TaggedFits(v: nat, n: nat)
    requires IsWidth(n) && v < Capacity(n)
    ensures Tag(n) * Capacity(n) + v < Pow256(n)
  {
    PowWidths();
    hide Pow256;
  }

  lemma PaddedFirstByte(v: nat, n: nat)
    requires IsWidth(n) && v < Capacity(n)
    ensures NetworkValue(Padded(v, n)) == Tag(n) * Capacity(n) + v
    ensures Width(Padded(v, n)[0]) == n
  {
    TaggedFits(v, n);
    ghost var w: nat := Tag(n) * Capacity(n) + v;
    assert Padded(v, n) == BigEndian(w, n);
    hide BigEndian, NetworkValue, Pow256, Width, Padded;
    BigEndianValue(w, n);
    LeadingByteWidth(Padded(v, n), v, n);
  }

  lemma PaddedUnique(s: Bytes, v: nat, n: nat)
    requires IsWidth(n) && v < Capacity(n) && |s| == n
    requires NetworkValue(s) == Tag(n) * Capacity(n) + v
    ensures s == Padded(v, n)
  {
    hide BigEndian, NetworkValue;
    NetworkOrderRoundTrip(s);
  }

  /** Every permitted width decodes to the value it was given, whatever follows. */
  lemma PaddedRoundTrip(v: nat, n: nat, tail: Bytes)
    requires IsWidth(n) && v < Capacity(n)
    ensures ReadVarInt(Padded(v, n) + tail) == Done(v, tail)
  {
    var s := Padded(v, n) + tail;
    PaddedFirstByte(v, n);
    ReadVarIntIsReference(s);
    assert s[..n] == Padded(v, n) && s[n..] == tail;
  }

  lemma VarIntRoundTrip(v: nat, tail: Bytes)
    requires v <= MAX_VARINT_8
    ensures ReadVarInt(VarInt(v) + tail) == Done(v, tail)
  {
    VarIntIsPadded(v);
    PaddedRoundTrip(v, VarIntLen(v), tail);
  }

  /** Conversely the reader accepts nothing but the encodings of section 16 of RFC 9000:
      whatever it consumed is the padded encoding of its value, and is never shorter than
      the minimal one. */
  lemma ReadVarIntInverse(s: Bytes)
    requires ReadVarInt(s).Done?
    ensures s != []
    ensures var n, v := Width(s[0]), ReadVarInt(s).value;
            && v < Capacity(n)
            && s == Padded(v, n) + ReadVarInt(s).rest
            && v <= MAX_VARINT_8
            && VarIntLen(v) <= n
  {
    hide ReadVarInt, BigEndian, NetworkValue;
    ReadVarIntIsReference(s);
    var n := Width(s[0]);
    PaddedUnique(s[..n], ReadVarInt(s).value, n);
    assert s == s[..n] + s[n..];
  }

  // ----- The explicit-width encoder, with its two loops -----

  lemma {:induction false} PowAdd(a: nat, b: nat)
    ensures Pow256(a) * Pow256(b) == Pow256(a + b)
  {
    if a > 0 {
      PowAdd(a - 1, b);
      assert Pow256(a) * Pow256(b) == 0x100 * (Pow256(a - 1) * Pow256(b));
    }
  }

  /** `v >> (8 * k)`. */
  function ShiftRight(v: nat, k: nat): nat {
    if k == 0 then v else ShiftRight(v / 0x100, k - 1)
  }

  lemma {:induction false} ShiftRightStep(v: nat, k: nat)
    ensures ShiftRight(v, k + 1) == ShiftRight(v, k) / 0x100
  {
    if k > 0 {
      ShiftRightStep(v / 0x100, k - 1);
    }
  }

  /** A marker byte followed by zero bytes is the marker shifted left. */
  lemma {:induction false} NetworkValueMarker(marker: byte, z: Bytes)
    requires forall i :: 0 <= i < |z| ==> z[i] == 0
    ensures NetworkValue([marker] + z) == marker * Pow256(|z|)
  {
    if z == [] {
      assert ([marker] + z)[..1] == [marker] + z;
      NetworkValueOne([marker]);
      assert [marker][..1] == [marker];
    } else {
      var init := z[..|z| - 1];
      NetworkValueMarker(marker, init);
      assert ([marker] + z)[..|z|] == [marker] + init;
      assert ([marker] + z)[|z|] == 0;
    }
  }

  lemma ShiftedMarker(tag: nat, c: nat, p: nat, q: nat, pq: nat)
    requires p * q == pq && c == 0x40 * pq
    ensures (tag * 0x40 * p) * q == tag * c
  {
    assert (tag * 0x40 * p) * q == tag * 0x40 * (p * q);
  }

  lemma MarkerZerosValue(v: nat, l: nat, n: nat, z: Bytes)
    requires IsWidth(n) && 0 < l < n && v < Pow256(l) && v < Capacity(n)
    requires |z| == n - l - 1 && forall i :: 0 <= i < |z| ==> z[i] == 0
    ensures NetworkValue([Tag(n) * 0x40] + z + BigEndian(v, l)) == Tag(n) * Capacity(n) + v
  {
    BigEndianValue(v, l);
    NetworkValueMarker(Tag(n) * 0x40, z);
    NetworkValueConcat([Tag(n) * 0x40] + z, BigEndian(v, l));
    PowAdd(n - l - 1, l);
    WidthPow(n);
    ShiftedMarker(Tag(n), Capacity(n), Pow256(n - l - 1), Pow256(l), Pow256(n - 1));
  }

  lemma MarkerZerosPadded(v: nat, l: nat, n: nat, z: Bytes)
    requires IsWidth(n) && IsWidth(l) && l < n && v < Capacity(l) && v < Capacity(n)
    requires |z| == n - l - 1 && forall i :: 0 <= i < |z| ==> z[i] == 0
    ensures [Tag(n) * 0x40] + z + BigEndian(v, l) == Padded(v, n)
  {
    PowWidths();
    MarkerZerosValue(v, l, n, z);
    PaddedUnique([Tag(n) * 0x40] + z + BigEndian(v, l), v, n);
  }

  /** The loop that shifts the value out, most significant byte first. */
  method AppendShifted(out: Bytes, v: nat, l: nat) returns (r: Bytes)
    ensures r == out + BigEndian(v, l)
  {
    r := out;
    for j := 0 to l
      invariant r == out + BigEndian(ShiftRight(v, l - j), j)
    {
      ShiftRightStep(v, l - 1 - j);
      r := r + [ShiftRight(v, l - 1 - j) % 0x100];
    }
  }

  /** Appends `v` in exactly `length` bytes. The source panics on a width that is not 1, 2, 4
      or 8 and on one too small for the value. */
  method AppendVarIntWithLen(out: Bytes, v: nat, length: nat) returns (r: Bytes)
    requires v <= MAX_VARINT_8 && IsWidth(length) && VarIntLen(v) <= length
    ensures v < Capacity(length)
    ensures r == out + Padded(v, length)
  {
    hide BigEndian, Padded, VarInt, Pow256;
    var l := VarIntLen(v);
    if l == length {
      VarIntIsPadded(v);
      return out + VarInt(v);
    }
    r := out + [if length == 2 then 0x40 else if length == 4 then 0x80 else 0xc0];
    ghost var z: Bytes := [];
    for j := 1 to length - l
      invariant r == out + ([Tag(length) * 0x40] + z)
      invariant |z| == j - 1 && forall i :: 0 <= i < |z| ==> z[i] == 0
    {
      r, z := r + [0], z + [0];
    }
    PowWidths();
    r := AppendShifted(r, v, l);
    MarkerZerosPadded(v, l, length, z);
    assert r == out + ([Tag(length) * 0x40] + z + BigEndian(v, l));
  }

  // ----- SSH strings and booleans -----

  function SshStringLen(b: Bytes): nat
    requires |b| <= MAX_VARINT_8
  {
    VarIntLen(|b|) + |b|
  }

  function SshString(b: Bytes): (r: Bytes)
    requires |b| <= MAX_VARINT_8
    ensures |r| == SshStringLen(b)
  {
    VarInt(|b|) + b
  }

  function CheckedLength(length: nat): (r: Parsed<nat>) {
    if length > MAX_SSH_STRING_LEN then Fail(InvalidLength(length)) else Done(length, [])
  }

  /** `read_exact`: all the bytes asked for, or an end-of-file error. */
  function ReadExact(s: Bytes, n: nat): Parsed<Bytes> {
    if |s| < n then Fail(UnexpectedEof) else Done(s[..n], s[n..])
  }

  function ReadSshString(s: Bytes): (r: Parsed<Bytes>)
    ensures r.Done? ==>
              && |r.value| <= MAX_SSH_STRING_LEN
              && IsSuffix(r.rest, s)
              && SshStringLen(r.value) + |r.rest| <= |s|
  {
    var (length, s1) :- ReadVarInt(s);
    var _ :- CheckedLength(length);
    ReadExact(s1, length)
  }

  function Flag(b: bool): byte { if b then 1 else 0 }

  function ReadBool(s: Bytes): Parsed<bool> {
    var (b, s1) :- ReadByte(s);
    if b == 0 then Done(false, s1) else if b == 1 then Done(true, s1) else Fail(InvalidBool(b))
  }

  lemma SshStringRoundTrip(b: Bytes, tail: Bytes)
    requires |b| <= MAX_SSH_STRING_LEN
    ensures ReadSshString(SshString(b) + tail) == Done(b, tail)
  {
    assert SshString(b) + tail == VarInt(|b|) + (b + tail);
    VarIntRoundTrip(|b|, b + tail);
  }

  /** The size limit is exact: the encoding of a longer string is rejected. */
  lemma OversizedStringRejected(b: Bytes, tail: Bytes)
    requires MAX_SSH_STRING_LEN < |b| <= MAX_VARINT_8
    ensures ReadSshString(SshString(b) + tail) == Fail(InvalidLength(|b|))
  {
    assert SshString(b) + tail == VarInt(|b|) + (b + tail);
    VarIntRoundTrip(|b|, b + tail);
  }
}
