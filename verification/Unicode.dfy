/** Unicode scalar values and their two encodings: UTF-8 (RFC 3629, section 3) on the
    watch and UTF-16 (RFC 2781, section 2.1) on the phone.  The encoders below are the
    reference; the repository only ever classifies and cuts encoded text. */
module Unicode {
  datatype Option<+T> = None | Some(value: T)

  type Byte = b: int | 0 <= b < 0x100
  type Unit = u: int | 0 <= u < 0x1_0000
  type Scalar = v: int | 0 <= v < 0xD800 || 0xE000 <= v < 0x11_0000

  const UINT32_MAX: int := 0xFFFF_FFFF

  function Utf8(v: Scalar): (bs: seq<Byte>)
    ensures 1 <= |bs| <= 4
  {
    if v < 0x80 then [v]
    else if v < 0x800 then [0xC0 + v / 0x40, 0x80 + v % 0x40]
    else if v < 0x1_0000 then [0xE0 + v / 0x40 / 0x40, 0x80 + v / 0x40 % 0x40, 0x80 + v % 0x40]
    else [0xF0 + v / 0x40 / 0x40 / 0x40, 0x80 + v / 0x40 / 0x40 % 0x40, 0x80 + v / 0x40 % 0x40, 0x80 + v % 0x40]
  }

  function Utf16(v: Scalar): (us: seq<Unit>)
    ensures 1 <= |us| <= 2
  {
    if v < 0x1_0000 then [v]
    else [0xD800 + (v - 0x1_0000) / 0x400, 0xDC00 + (v - 0x1_0000) % 0x400]
  }

  function Utf8All(vs: seq<Scalar>): seq<Byte> {
    if vs == [] then [] else Utf8(vs[0]) + Utf8All(vs[1..])
  }

  function Utf16All(vs: seq<Scalar>): seq<Unit> {
    if vs == [] then [] else Utf16(vs[0]) + Utf16All(vs[1..])
  }

  /** Number of bytes of the UTF-8 form. */
  function Size(v: Scalar): (n: nat)
    ensures 1 <= n <= 4
  {
    |Utf8(v)|
  }

  function Bytes(vs: seq<Scalar>): nat { |Utf8All(vs)| }

  // ---- The watch's code-point classifier ----

  /** `(b & 0xc0) == 0x80` */
  predicate IsTail(b: Byte) { b / 0x40 == 2 }

  /** Length of the code point at the head of `t`, or 0 if none starts there. */
  function CodepointSize(t: seq<Byte>): (n: nat)
    ensures n <= |t| && n <= 4
  {
    if |t| == 0 then 0
    else if t[0] <= 0x7F then 1
    else if 0xC2 <= t[0] <= 0xDF && |t| >= 2 && IsTail(t[1]) then 2
    else if |t| >= 3 && IsTail(t[2]) && ValidSecondOfThree(t[0], t[1]) then 3
    else if |t| >= 4 && IsTail(t[2]) && IsTail(t[3]) && ValidSecondOfFour(t[0], t[1]) then 4
    else 0
  }

  predicate ValidSecondOfThree(first: Byte, second: Byte) {
    || (first == 0xE0 && 0xA0 <= second <= 0xBF)
    || (0xE1 <= first <= 0xEC && IsTail(second))
    || (first == 0xED && 0x80 <= second <= 0x9F)
    || (0xEE <= first <= 0xEF && IsTail(second))
  }

  predicate ValidSecondOfFour(first: Byte, second: Byte) {
    || (first == 0xF0 && 0x90 <= second <= 0xBF)
    || (0xF1 <= first <= 0xF3 && IsTail(second))
    || (first == 0xF4 && 0x80 <= second <= 0x8F)
  }

  /** `high` followed by six more bits. */
  function Shift(high: int, tail: int): (r: int)
    requires 0x80 <= tail < 0xC0
    ensures r / 0x40 == high && r % 0x40 == tail - 0x80
  {
    high * 0x40 + (tail - 0x80)
  }

  /** The scalar value at the head of `t`. */
  function HeadScalar(t: seq<Byte>): (v: Scalar)
    requires CodepointSize(t) > 0
    ensures Utf8(v) == t[..CodepointSize(t)]
  {
    var n := CodepointSize(t);
    if n == 1 then t[0]
    else if n == 2 then Shift(t[0] - 0xC0 as int, t[1])
    else if n == 3 then Shift(Shift(t[0] - 0xE0 as int, t[1]), t[2])
    else Shift(Shift(Shift(t[0] - 0xF0 as int, t[1]), t[2]), t[3])
  }

  /** A byte string starts with the encoding of a scalar value exactly when the classifier
      reports that encoding's length: the table in `CodepointSize` is RFC 3629, section 4. */
  lemma ClassifierIsRfc3629(v: Scalar, t: seq<Byte>)
    ensures Utf8(v) <= t <==> CodepointSize(t) > 0 && HeadScalar(t) == v
    ensures Utf8(v) <= t ==> CodepointSize(t) == Size(v)
  {
    if Utf8(v) <= t {
      PrefixIsClassified(v, t);
    }
  }

  lemma PrefixIsClassified(v: Scalar, t: seq<Byte>)
    requires Utf8(v) <= t
    ensures CodepointSize(t) == Size(v) && HeadScalar(t) == v
  {
    var bs := Utf8(v);
    assert t[0] == bs[0];
    if v >= 0x80 { assert t[1] == bs[1]; }
    if v >= 0x800 { assert t[2] == bs[2]; }
    if v >= 0x1_0000 { assert t[3] == bs[3]; }
    assert CodepointSize(t) == Size(v);
    Utf8Injective(v, HeadScalar(t));
  }

  lemma Utf8Injective(v: Scalar, w: Scalar)
    requires Utf8(v) == Utf8(w)
    ensures v == w
  {
    assert forall i | 0 <= i < Size(v) :: Utf8(v)[i] == Utf8(w)[i];
  }

  // ---- Decoding ----

  /** The unique scalar sequence encoded by `t`, if any. */
  function Decode8(t: seq<Byte>): (r: Option<seq<Scalar>>)
    ensures r.Some? ==> Utf8All(r.value) == t
  {
    if t == [] then Some([])
    else
      var n := CodepointSize(t);
      if n == 0 then None
      else
        match Decode8(t[n..])
        case None => None
        case Some(vs) => Some([HeadScalar(t)] + vs)
  }

  lemma {:induction false} Decode8Encode(vs: seq<Scalar>)
    ensures Decode8(Utf8All(vs)) == Some(vs)
  {
    hide Utf8, CodepointSize, HeadScalar;
    if vs != [] {
      var t := Utf8All(vs);
      ClassifierIsRfc3629(vs[0], t);
      assert t[Size(vs[0])..] == Utf8All(vs[1..]);
      Decode8Encode(vs[1..]);
      assert [vs[0]] + vs[1..] == vs;
    }
  }

  predicate IsHigh(u: Unit) { 0xD800 <= u <= 0xDBFF }

  predicate IsLow(u: Unit) { 0xDC00 <= u <= 0xDFFF }

  function PairScalar(high: Unit, low: Unit): (v: Scalar)
    requires IsHigh(high) && IsLow(low)
    ensures v >= 0x1_0000 && Utf16(v) == [high, low]
  {
    0x1_0000 + (high - 0xD800) * 0x400 + (low - 0xDC00)
  }

  /** RFC 2781, section 2.2; `None` when a surrogate is unpaired. */
  function Decode16(text: seq<Unit>): (r: Option<seq<Scalar>>)
    ensures r.Some? ==> Utf16All(r.value) == text
  {
    if text == [] then Some([])
    else if IsHigh(text[0]) then
      if |text| >= 2 && IsLow(text[1]) then
        match Decode16(text[2..])
        case None => None
        case Some(vs) =>
          assert text == [text[0], text[1]] + text[2..];
          Some([PairScalar(text[0], text[1])] + vs)
      else None
    else if IsLow(text[0]) then None
    else
      match Decode16(text[1..])
      case None => None
      case Some(vs) => Some([text[0]] + vs)
  }

  lemma {:induction false} Decode16Encode(vs: seq<Scalar>)
    ensures Decode16(Utf16All(vs)) == Some(vs)
  {
    if vs != [] {
      var text := Utf16All(vs);
      Decode16Encode(vs[1..]);
      assert text[|Utf16(vs[0])|..] == Utf16All(vs[1..]);
      assert [vs[0]] + vs[1..] == vs;
      assert text[0] == Utf16(vs[0])[0];
      if vs[0] >= 0x1_0000 {
        assert text[1] == Utf16(vs[0])[1];
        assert text == Utf16(vs[0]) + Utf16All(vs[1..]);
        assert PairScalar(text[0], text[1]) == vs[0];
      }
    }
  }

  // ---- Concatenation ----

  lemma {:induction false} Utf8AllConcat(a: seq<Scalar>, b: seq<Scalar>)
    ensures Utf8All(a + b) == Utf8All(a) + Utf8All(b)
    ensures Bytes(a + b) == Bytes(a) + Bytes(b)
  {
    hide Utf8;
    if a == [] {
      assert a + b == b;
    } else {
      Utf8AllConcat(a[1..], b);
      assert (a + b)[0] == a[0] && (a + b)[1..] == a[1..] + b;
      assert Utf8All(a + b) == Utf8(a[0]) + (Utf8All(a[1..]) + Utf8All(b));
    }
  }

  lemma {:induction false} Utf16AllConcat(a: seq<Scalar>, b: seq<Scalar>)
    ensures Utf16All(a + b) == Utf16All(a) + Utf16All(b)
  {
    hide Utf16;
    if a == [] {
      assert a + b == b;
    } else {
      Utf16AllConcat(a[1..], b);
      assert (a + b)[1..] == a[1..] + b;
    }
  }

  /** Well-formed byte strings are closed under concatenation, and decode piecewise. */
  lemma Decode8Concat(a: seq<Byte>, b: seq<Byte>)
    requires Decode8(a).Some? && Decode8(b).Some?
    ensures Decode8(a + b) == Some(Decode8(a).value + Decode8(b).value)
  {
    hide Utf8, CodepointSize, HeadScalar;
    Utf8AllConcat(Decode8(a).value, Decode8(b).value);
    Decode8Encode(Decode8(a).value + Decode8(b).value);
  }

  lemma Decode16Concat(a: seq<Unit>, b: seq<Unit>)
    requires Decode16(a).Some? && Decode16(b).Some?
    ensures Decode16(a + b) == Some(Decode16(a).value + Decode16(b).value)
  {
    Utf16AllConcat(Decode16(a).value, Decode16(b).value);
    Decode16Encode(Decode16(a).value + Decode16(b).value);
  }

  /** Cutting a well-formed string after any prefix of its code points leaves both halves
      well formed; together with `Decode8Encode` this makes the segmentation unique. */
  lemma Decode8Cut(t: seq<Byte>, k: nat)
    requires Decode8(t).Some? && k <= |Decode8(t).value|
    ensures var vs := Decode8(t).value; var n := Bytes(vs[..k]);
            n <= |t| && Decode8(t[..n]) == Some(vs[..k]) && Decode8(t[n..]) == Some(vs[k..])
  {
    hide Utf8, CodepointSize, HeadScalar;
    var vs := Decode8(t).value;
    assert vs == vs[..k] + vs[k..];
    Utf8AllConcat(vs[..k], vs[k..]);
    Decode8Encode(vs[..k]);
    Decode8Encode(vs[k..]);
    assert t[..Bytes(vs[..k])] == Utf8All(vs[..k]);
    assert t[Bytes(vs[..k])..] == Utf8All(vs[k..]);
  }

  /** What the platform does when a C string crosses to JavaScript. */
  function ToJsText(t: seq<Byte>): seq<Unit>
    requires Decode8(t).Some?
  {
    Utf16All(Decode8(t).value)
  }

  /** What the platform does when a JavaScript string crosses to C (without its terminator). */
  function ToCText(text: seq<Unit>): seq<Byte>
    requires Decode16(text).Some?
  {
    Utf8All(Decode16(text).value)
  }

  lemma ToJsTextWellFormed(t: seq<Byte>)
    requires Decode8(t).Some?
    ensures Decode16(ToJsText(t)) == Some(Decode8(t).value)
    ensures ToJsText(t) == [] <==> t == []
  {
    Decode16Encode(Decode8(t).value);
  }
}
