/**
 * Keycode (src/encoding/keycode.rs): an order-preserving, self-delimiting key
 * encoding. Values and their types are data here, so that every statement holds
 * for every key type built from the supported primitives.
 */
module Keycode {
  import opened Common
  import opened Bytes

  datatype Type = TBool | TU64 | TI64 | TF64 | TBytes | TText | TTuple(fields: Types) | TEnum(variants: seq<Types>)
  datatype Types = NoTypes | Types(head: Type, tail: Types)

  /** An f64 is its IEEE 754 bit pattern; a string is its UTF-8 bytes. */
  datatype Value =
    | Bool(b: bool)
    | U64(n: nat)
    | I64(i: int)
    | F64(bits: nat)
    | Str(bytes: Bytes)
    | Tuple(fields: Values)
    | Enum(index: nat, fields: Values)
  datatype Values = NoValues | Values(head: Value, tail: Values)

  const TWO63: int := 0x8000_0000_0000_0000
  const TWO64: int := 0x1_0000_0000_0000_0000

  predicate HasType(v: Value, t: Type) {
    match (v, t)
    case (Bool(_), TBool) => true
    case (U64(n), TU64) => n < TWO64
    case (I64(i), TI64) => -TWO63 <= i < TWO63
    case (F64(bits), TF64) => bits < TWO64
    case (Str(_), TBytes) => true
    case (Str(s), TText) => Utf8(s)
    case (Tuple(vs), TTuple(ts)) => vs.Values? && HaveTypes(vs, ts)
    case (Enum(index, vs), TEnum(variants)) => index < 256 && index < |variants| && HaveTypes(vs, variants[index])
    case _ => false
  }

  predicate HaveTypes(vs: Values, ts: Types) {
    match (vs, ts)
    case (NoValues, NoTypes) => true
    case (Values(v, vs'), Types(t, ts')) => HasType(v, t) && HaveTypes(vs', ts')
    case _ => false
  }

  /** Well-formed UTF-8: the table in section 4 of RFC 3629. */
  predicate Utf8(s: Bytes) {
    s == [] ||
    var n := SequenceLength(s[0]);
    && 0 < n <= |s|
    && (n == 1 || MayFollow(s[0], s[1]))
    && (forall i :: 2 <= i < n ==> 0x80 <= s[i] <= 0xbf)
    && Utf8(s[n..])
  }

  /** How many bytes a character takes that starts with `b`; 0 if none does. */
  function SequenceLength(b: Byte): nat {
    if b <= 0x7f then 1
    else if 0xc2 <= b <= 0xdf then 2
    else if 0xe0 <= b <= 0xef then 3
    else if 0xf0 <= b <= 0xf4 then 4
    else 0
  }

  /** No overlong forms, no surrogates, nothing above U+10FFFF. */
  predicate MayFollow(b: Byte, c: Byte) {
    && (if b == 0xe0 then 0xa0 else if b == 0xf0 then 0x90 else 0x80) <= c
    && c <= if b == 0xed then 0x9f else if b == 0xf4 then 0x8f else 0xbf
  }

  // ---------------------------------------------------------------- order of values

  /** totalOrder of section 5.10 of IEEE 754-2019 on bit patterns: negatives by falling magnitude, then positives. */
  predicate TotalOrder(a: nat, b: nat) {
    if a >= TWO63 && b >= TWO63 then a > b
    else if a < TWO63 && b < TWO63 then a < b
    else a >= TWO63
  }

  predicate Precedes(v: Value, w: Value) {
    match (v, w)
    case (Bool(a), Bool(b)) => !a && b
    case (U64(a), U64(b)) => a < b
    case (I64(a), I64(b)) => a < b
    case (F64(a), F64(b)) => TotalOrder(a, b)
    case (Str(a), Str(b)) => Less(a, b)
    case (Tuple(vs), Tuple(ws)) => PrecedesFields(vs, ws)
    case (Enum(i, vs), Enum(j, ws)) => i < j || (i == j && PrecedesFields(vs, ws))
    case _ => false
  }

  /** Field by field: the first difference decides. */
  predicate PrecedesFields(vs: Values, ws: Values) {
    match (vs, ws)
    case (Values(v, vs'), Values(w, ws')) => Precedes(v, w) || (v == w && PrecedesFields(vs', ws'))
    case _ => false
  }

  // ---------------------------------------------------------------- encoding

  /** The `k` low big-endian bytes of `n`. */
  function BigEndian(n: nat, k: nat): (r: Bytes)
    ensures |r| == k
  {
    if k == 0 then [] else BigEndian(n / 256, k - 1) + [n % 256]
  }

  function FromBigEndian(s: Bytes): nat {
    if s == [] then 0 else FromBigEndian(s[..|s| - 1]) * 256 + s[|s| - 1]
  }

  /** Two's complement bits of an i64, and back. */
  function ToBits(i: int): (r: nat)
    requires -TWO63 <= i
  {
    if i >= 0 then i else i + TWO64
  }

  function FromBits(n: nat): int { if n < TWO63 then n else n - TWO64 }

  /** Flips the top bit of the first byte. */
  function FlipSign(s: Bytes): (r: Bytes)
    ensures |r| == |s|
  {
    if s == [] then [] else var b: int := s[0]; [(b + 128) % 256] + s[1..]
  }

  /** Flips every bit. */
  function FlipAll(s: Bytes): (r: Bytes)
    ensures |r| == |s|
  {
    if s == [] then [] else FlipAll(s[..|s| - 1]) + [255 - s[|s| - 1]]
  }

  /** 0x00 escaped as 0x00ff; the terminator 0x0000 follows separately. */
  function Escape(s: Bytes): Bytes {
    if s == [] then []
    else (if s[0] == 0 then [0, 255] else [s[0]]) + Escape(s[1..])
  }

  /** The encoding of a well-typed value. */
  function Encode(v: Value): Bytes {
    match v
    case Bool(b) => [if b then 1 else 0]
    case U64(n) => BigEndian(n, 8)
    case I64(i) => FlipSign(BigEndian(if -TWO63 <= i then ToBits(i) else 0, 8))
    case F64(bits) => if bits >= TWO63 then FlipAll(BigEndian(bits, 8)) else FlipSign(BigEndian(bits, 8))
    case Str(s) => Escape(s) + [0, 0]
    case Tuple(vs) => EncodeFields(vs)
    case Enum(index, vs) => [index % 256] + EncodeFields(vs)
  }

  function EncodeFields(vs: Values): Bytes {
    match vs
    case NoValues => []
    case Values(v, vs') => Encode(v) + EncodeFields(vs')
  }

  // ---------------------------------------------------------------- decoding

  datatype Decoded<+T> = Decoded(value: T, rest: Bytes)

  /** One escaped, terminated byte string off the front of `s`, if there is a valid one. */
  function Unescape(s: Bytes): Option<Decoded<Bytes>> {
    if s == [] then None
    else if s[0] != 0 then
      match Unescape(s[1..])
      case None => None
      case Some(d) => Some(Decoded([s[0]] + d.value, d.rest))
    else if |s| == 1 then None
    else if s[1] == 0 then Some(Decoded([], s[2..]))
    else if s[1] != 255 then None
    else
      match Unescape(s[2..])
      case None => None
      case Some(d) => Some(Decoded([0] + d.value, d.rest))
  }

  /** One value of type `t` off the front of `s`, if there is a valid one. */
  function Decode(t: Type, s: Bytes): Option<Decoded<Value>> {
    match t
    case TBool =>
      if s == [] || s[0] > 1 then None else Some(Decoded(Bool(s[0] == 1), s[1..]))
    case TU64 =>
      if |s| < 8 then None else Some(Decoded(U64(FromBigEndian(s[..8])), s[8..]))
    case TI64 =>
      if |s| < 8 then None else Some(Decoded(I64(FromBits(FromBigEndian(FlipSign(s[..8])))), s[8..]))
    case TF64 =>
      if |s| < 8 then None
      else
        var bytes := if s[0] < 128 then FlipAll(s[..8]) else FlipSign(s[..8]);
        Some(Decoded(F64(FromBigEndian(bytes)), s[8..]))
    case TBytes =>
      (match Unescape(s)
       case None => None
       case Some(d) => Some(Decoded(Str(d.value), d.rest)))
    case TText =>
      (match Unescape(s)
       case None => None
       case Some(d) => if Utf8(d.value) then Some(Decoded(Str(d.value), d.rest)) else None)
    case TTuple(ts) =>
      if ts.NoTypes? then None
      else
        (match DecodeFields(ts, s)
         case None => None
         case Some(d) => Some(Decoded(Tuple(d.value), d.rest)))
    case TEnum(variants) =>
      if s == [] || s[0] >= |variants| then None
      else
        match DecodeFields(variants[s[0]], s[1..])
        case None => None
        case Some(d) => Some(Decoded(Enum(s[0], d.value), d.rest))
  }

  /** Fields in order; running out of bytes before the last field is an error. */
  function DecodeFields(ts: Types, s: Bytes): Option<Decoded<Values>> {
    match ts
    case NoTypes => Some(Decoded(NoValues, s))
    case Types(t, ts') =>
      if s == [] then None
      else
        match Decode(t, s)
        case None => None
        case Some(d) =>
          match DecodeFields(ts', d.rest)
          case None => None
          case Some(ds) => Some(Decoded(Values(d.value, ds.value), ds.rest))
  }

  /** `deserialize`: the whole input must be one value. */
  function Deserialize(t: Type, s: Bytes): Option<Value> {
    match Decode(t, s)
    case None => None
    case Some(d) => if d.rest == [] then Some(d.value) else None
  }

  // ---------------------------------------------------------------- big-endian numbers

  function Power(k: nat): (r: nat)
    ensures r > 0
  {
    if k == 0 then 1 else 256 * Power(k - 1)
  }

  lemma Power8()
    ensures Power(8) == TWO64 && 128 * Power(7) == TWO63
  {
    assert Power(2) == 65536;
    assert Power(4) == 65536 * 65536;
    assert Power(6) == 65536 * 65536 * 65536;
  }

  lemma {:induction false} BigEndianBack(n: nat, k: nat)
    requires n < Power(k)
    ensures FromBigEndian(BigEndian(n, k)) == n
  {
    if k > 0 {
      BigEndianBack(n / 256, k - 1);
      assert BigEndian(n, k)[..k - 1] == BigEndian(n / 256, k - 1);
    }
  }

  lemma {:induction false} BigEndianForth(s: Bytes)
    ensures FromBigEndian(s) < Power(|s|)
    ensures BigEndian(FromBigEndian(s), |s|) == s
  {
    if s != [] {
      BigEndianForth(s[..|s| - 1]);
      assert FromBigEndian(s) / 256 == FromBigEndian(s[..|s| - 1]);
      assert FromBigEndian(s) % 256 == s[|s| - 1];
    }
  }

  lemma {:induction false} BigEndianOrder(a: nat, b: nat, k: nat)
    requires a < b < Power(k)
    ensures Below(BigEndian(a, k), BigEndian(b, k))
  {
    assert k > 0;
    if a / 256 < b / 256 {
      BigEndianOrder(a / 256, b / 256, k - 1);
      BelowExtends(BigEndian(a / 256, k - 1), BigEndian(b / 256, k - 1), [a % 256], [b % 256]);
    } else {
      assert a / 256 == b / 256 && a % 256 < b % 256;
      assert Below([a % 256], [b % 256]);
      BelowAfter(BigEndian(a / 256, k - 1), [a % 256], [b % 256]);
    }
  }

  /** Bytes beyond the `k` low ones do not show. */
  lemma {:induction false} BigEndianWraps(n: nat, k: nat)
    ensures BigEndian(n + Power(k), k) == BigEndian(n, k)
  {
    if k > 0 {
      BigEndianWraps(n / 256, k - 1);
      assert (n + Power(k)) / 256 == n / 256 + Power(k - 1);
    }
  }

  lemma AddedDigits(n: nat, p: nat)
    ensures (n + 128 * (256 * p)) / 256 == n / 256 + 128 * p && (n + 128 * (256 * p)) % 256 == n % 256
  {
  }

  lemma FlipSignBefore(s: Bytes, b: Byte)
    requires s != []
    ensures FlipSign(s + [b]) == FlipSign(s) + [b]
  {
  }

  lemma BigEndianStep(n: nat, k: nat)
    requires k > 0
    ensures BigEndian(n, k) == BigEndian(n / 256, k - 1) + [n % 256]
  {
  }

  lemma {:induction false} FlipSignAdds(n: nat, k: nat)
    requires k > 0
    ensures FlipSign(BigEndian(n, k)) == BigEndian(n + 128 * Power(k - 1), k)
  {
    if k == 1 {
      FlipSignAddsOne(n);
    } else {
      FlipSignAdds(n / 256, k - 1);
      FlipSignBefore(BigEndian(n / 256, k - 1), n % 256);
      AddedDigits(n, Power(k - 2));
      assert Power(k - 1) == 256 * Power(k - 2);
      BigEndianStep(n, k);
      BigEndianStep(n + 128 * Power(k - 1), k);
      hide FlipSign, BigEndian, Power;
    }
  }

  lemma FlipSignAddsOne(n: nat)
    ensures FlipSign(BigEndian(n, 1)) == BigEndian(n + 128 * Power(0), 1)
  {
    assert Power(0) == 1;
    assert BigEndian(n, 1) == [n % 256] && BigEndian(n + 128, 1) == [(n + 128) % 256];
  }

  lemma ComplementDigits(n: nat, p: nat)
    requires n < 256 * p
    ensures (256 * p - 1 - n) / 256 == p - 1 - n / 256 && (256 * p - 1 - n) % 256 == 255 - n % 256
  {
  }

  lemma {:induction false} FlipAllSubtracts(n: nat, k: nat)
    requires n < Power(k)
    ensures FlipAll(BigEndian(n, k)) == BigEndian(Power(k) - 1 - n, k)
  {
    if k > 0 {
      FlipAllSubtracts(n / 256, k - 1);
      var head := BigEndian(n / 256, k - 1);
      assert (head + [n % 256])[..k - 1] == head;
      ComplementDigits(n, Power(k - 1));
    }
  }

  lemma {:induction false} TopBit(n: nat, k: nat)
    requires k > 0 && n < Power(k)
    ensures BigEndian(n, k)[0] >= 128 <==> n >= 128 * Power(k - 1)
  {
    if k == 1 {
      assert Power(1) == 256 && Power(0) == 1;
    } else {
      TopBit(n / 256, k - 1);
      assert Power(k - 1) == 256 * Power(k - 2);
    }
  }

  /** The unsigned number whose big-endian bytes a 64-bit value encodes to. */
  function Rank(v: Value): nat
    requires v.U64? || (v.I64? && -TWO63 <= v.i) || (v.F64? && v.bits < TWO64)
  {
    match v
    case U64(n) => n
    case I64(i) => i + TWO63
    case F64(bits) => if bits >= TWO63 then TWO64 - 1 - bits else bits + TWO63
  }

  predicate Is64(v: Value) {
    (v.U64? && v.n < TWO64) || (v.I64? && -TWO63 <= v.i < TWO63) || (v.F64? && v.bits < TWO64)
  }

  lemma EncodesRank(v: Value)
    requires Is64(v)
    ensures Rank(v) < TWO64 && Encode(v) == BigEndian(Rank(v), 8)
  {
    Power8();
    match v
    case U64(n) =>
    case I64(i) =>
      FlipSignAdds(ToBits(i), 8);
      if i < 0 { BigEndianWraps(i + TWO63, 8); }
    case F64(bits) =>
      if bits >= TWO63 { FlipAllSubtracts(bits, 8); } else { FlipSignAdds(bits, 8); }
  }

  /** 64-bit values decode from exactly the eight bytes of their rank. */
  lemma Decodes64(t: Type, s: Bytes)
    requires (t.TU64? || t.TI64? || t.TF64?) && |s| >= 8
    ensures Decode(t, s).Some?
    ensures var d := Decode(t, s).value;
      HasType(d.value, t) && Is64(d.value) && Rank(d.value) == FromBigEndian(s[..8]) && d.rest == s[8..]
  {
    hide BigEndian, FromBigEndian, Power, FlipAll, FlipSign;
    Flipped64(s[..8]);
  }

  /** What flipping the sign bit or all bits does to the number that eight bytes spell. */
  lemma Flipped64(b: Bytes)
    requires |b| == 8
    ensures var m := FromBigEndian(b);
      && m < TWO64
      && (b[0] < 128 <==> m < TWO63)
      && FromBigEndian(FlipAll(b)) == TWO64 - 1 - m
      && FromBigEndian(FlipSign(b)) == if m < TWO63 then m + TWO63 else m - TWO63
  {
    hide BigEndian, FromBigEndian, Power, FlipAll, FlipSign;
    var m := FromBigEndian(b);
    Power8();
    BigEndianForth(b);
    TopBit(m, 8);
    FlipAllSubtracts(m, 8);
    BigEndianBack(TWO64 - 1 - m, 8);
    FlippedSign64(m);
  }

  lemma FlippedSign64(m: nat)
    requires m < TWO64
    ensures FromBigEndian(FlipSign(BigEndian(m, 8))) == if m < TWO63 then m + TWO63 else m - TWO63
  {
    hide BigEndian, FromBigEndian, Power, FlipSign;
    Power8();
    FlipSignAdds(m, 8);
    if m < TWO63 {
      BigEndianBack(m + TWO63, 8);
    } else {
      BigEndianWraps(m - TWO63, 8);
      BigEndianBack(m - TWO63, 8);
    }
  }

  lemma RankInjective(v: Value, w: Value, t: Type)
    requires (t.TU64? || t.TI64? || t.TF64?) && HasType(v, t) && HasType(w, t)
    ensures Rank(v) < Rank(w) <==> Precedes(v, w)
    ensures Rank(v) == Rank(w) <==> v == w
  {
  }

  // ---------------------------------------------------------------- round trip

  lemma {:induction false} UnescapeEscaped(s: Bytes, rest: Bytes)
    ensures Unescape(Escape(s) + [0, 0] + rest) == Some(Decoded(s, rest))
  {
    hide Escape, Unescape;
    if s == [] {
      EscapeNothing();
      UnescapeCons(0, rest);
      assert [] + [0, 0] + rest == [0, 0] + rest;
    } else {
      UnescapeEscaped(s[1..], rest);
      EscapeCons(s[0], s[1..]);
      var tail := Escape(s[1..]) + [0, 0] + rest;
      UnescapeCons(s[0], tail);
      assert s == [s[0]] + s[1..];
      assert Escape(s) + [0, 0] + rest == (if s[0] == 0 then [0, 255] else [s[0]]) + tail;
    }
  }

  /** One step of decoding: the terminator, or one escaped byte. */
  lemma UnescapeCons(b: Byte, tail: Bytes)
    ensures Unescape([0, 0] + tail) == Some(Decoded([], tail))
    ensures Unescape((if b == 0 then [0, 255] else [b]) + tail)
         == if Unescape(tail).None? then None
           else Some(Decoded([b] + Unescape(tail).value.value, Unescape(tail).value.rest))
  {
    assert ([0, 0] + tail)[2..] == tail;
    assert ([0, 255] + tail)[2..] == tail;
    assert ([b] + tail)[1..] == tail;
  }

  lemma {:induction false} EscapeUnescaped(s: Bytes)
    requires Unescape(s).Some?
    ensures var d := Unescape(s).value; s == Escape(d.value) + [0, 0] + d.rest
  {
    hide Escape;
    if s[0] != 0 {
      EscapeUnescaped(s[1..]);
      EscapeCons(s[0], Unescape(s[1..]).value.value);
      assert s == [s[0]] + s[1..];
    } else if s[1] == 0 {
      EscapeNothing();
      assert s == [0, 0] + s[2..];
    } else {
      EscapeUnescaped(s[2..]);
      EscapeCons(0, Unescape(s[2..]).value.value);
      assert s == [0, 255] + s[2..];
    }
  }

  lemma EscapeNothing()
    ensures Escape([]) == []
  {
  }

  lemma EscapeCons(b: Byte, s: Bytes)
    ensures Escape([b] + s) == (if b == 0 then [0, 255] else [b]) + Escape(s)
  {
    assert ([b] + s)[1..] == s;
  }

  /** Decoding returns the value and exactly the bytes after it. */
  lemma {:induction false} DecodeEncoded(v: Value, t: Type, rest: Bytes)
    requires HasType(v, t)
    ensures Encode(v) != [] && Decode(t, Encode(v) + rest) == Some(Decoded(v, rest))
  {
    hide BigEndian, FromBigEndian, Power, FlipAll, FlipSign, Escape, Unescape;
    var s := Encode(v) + rest;
    match t
    case TBool => assert s[1..] == rest;
    case TU64 | TI64 | TF64 =>
      Power8();
      EncodesRank(v);
      BigEndianBack(Rank(v), 8);
      Decodes64(t, s);
      assert s[..8] == Encode(v) && s[8..] == rest;
      RankInjective(v, Decode(t, s).value.value, t);
    case TBytes => UnescapeEscaped(v.bytes, rest);
    case TText => UnescapeEscaped(v.bytes, rest);
    case TTuple(ts) => DecodeEncodedFields(v.fields, ts, rest);
    case TEnum(variants) =>
      DecodeEncodedFields(v.fields, variants[v.index], rest);
      assert s[1..] == EncodeFields(v.fields) + rest;
  }

  lemma {:induction false} DecodeEncodedFields(vs: Values, ts: Types, rest: Bytes)
    requires HaveTypes(vs, ts)
    ensures vs.Values? ==> EncodeFields(vs) != []
    ensures DecodeFields(ts, EncodeFields(vs) + rest) == Some(Decoded(vs, rest))
  {
    hide Encode, Decode, HasType;
    match vs
    case NoValues => assert EncodeFields(vs) + rest == rest;
    case Values(v, vs') =>
      var tail := EncodeFields(vs') + rest;
      DecodeEncoded(v, ts.head, tail);
      DecodeEncodedFields(vs', ts.tail, rest);
      assert EncodeFields(vs) + rest == Encode(v) + tail;
  }

  /** Whatever decodes is the encoding of the value it decodes to: each value has one encoding. */
  lemma {:induction false} EncodeDecoded(t: Type, s: Bytes)
    requires Decode(t, s).Some?
    ensures var d := Decode(t, s).value; HasType(d.value, t) && s == Encode(d.value) + d.rest
  {
    hide BigEndian, FromBigEndian, Power, FlipAll, FlipSign, Escape, Unescape, EncodeFields, DecodeFields, HaveTypes;
    match t
    case TBool => assert s == [s[0]] + s[1..];
    case TU64 | TI64 | TF64 => EncodeDecoded64(t, s);
    case TBytes => EscapeUnescaped(s);
    case TText => EscapeUnescaped(s);
    case TTuple(ts) => EncodeDecodedFields(ts, s);
    case TEnum(variants) =>
      EncodeDecodedFields(variants[s[0]], s[1..]);
      assert s == [s[0]] + s[1..];
  }

  lemma EncodeDecoded64(t: Type, s: Bytes)
    requires (t.TU64? || t.TI64? || t.TF64?) && Decode(t, s).Some?
    ensures var d := Decode(t, s).value; HasType(d.value, t) && s == Encode(d.value) + d.rest
  {
    assert |s| >= 8;
    hide Decode, Encode, HasType, BigEndian, FromBigEndian, Power, Rank;
    Decodes64(t, s);
    EncodesRank(Decode(t, s).value.value);
    BigEndianForth(s[..8]);
    assert s == s[..8] + s[8..];
  }

  lemma {:induction false} EncodeDecodedFields(ts: Types, s: Bytes)
    requires DecodeFields(ts, s).Some?
    ensures var d := DecodeFields(ts, s).value; HaveTypes(d.value, ts) && s == EncodeFields(d.value) + d.rest
    ensures ts.Types? ==> DecodeFields(ts, s).value.value.Values?
  {
    match ts
    case NoTypes => assert s == [] + s;
    case Types(t, ts') =>
      hide Decode, Encode, HasType;
      EncodeDecoded(t, s);
      var d := Decode(t, s).value;
      EncodeDecodedFields(ts', d.rest);
      var ds := DecodeFields(ts', d.rest).value;
      assert s == Encode(d.value) + EncodeFields(ds.value) + ds.rest;
  }

  /** Decoding is the exact inverse of encoding, at the front of any input. */
  lemma DecodeInvertsEncode(t: Type, s: Bytes, v: Value, rest: Bytes)
    ensures Decode(t, s) == Some(Decoded(v, rest)) <==> HasType(v, t) && s == Encode(v) + rest
  {
    if Decode(t, s).Some? { EncodeDecoded(t, s); }
    if HasType(v, t) { DecodeEncoded(v, t, rest); }
  }

  /** `deserialize` accepts exactly the encodings of its type, and returns the value that was encoded. */
  lemma RoundTrip(t: Type, s: Bytes, v: Value)
    ensures Deserialize(t, s) == Some(v) <==> HasType(v, t) && s == Encode(v)
  {
    DecodeInvertsEncode(t, s, v, []);
    assert Encode(v) + [] == Encode(v);
  }

  // ---------------------------------------------------------------- order

  lemma {:induction false} EscapeOrder(a: Bytes, b: Bytes)
    requires Less(a, b)
    ensures Below(Escape(a) + [0, 0], Escape(b) + [0, 0])
  {
    var ea, eb := Escape(a) + [0, 0], Escape(b) + [0, 0];
    if a == [] {
      assert ea == [0, 0];
      if b[0] == 0 { assert ea[1..] == [0] && eb[1..][0] == 255; }
    } else if a[0] == b[0] {
      EscapeOrder(a[1..], b[1..]);
      var p: Bytes := if a[0] == 0 then [0, 255] else [a[0]];
      BelowAfter(p, Escape(a[1..]) + [0, 0], Escape(b[1..]) + [0, 0]);
      assert ea == p + (Escape(a[1..]) + [0, 0]) && eb == p + (Escape(b[1..]) + [0, 0]);
    }
  }

  /** Two values of one type: the order of the values is decided by a differing byte of their encodings. */
  lemma {:induction false} OrderIsBelow(v: Value, w: Value, t: Type)
    requires HasType(v, t) && HasType(w, t) && Precedes(v, w)
    ensures Below(Encode(v), Encode(w))
  {
    hide BigEndian, Power, FlipAll, FlipSign, Escape, Rank;
    match t
    case TBool =>
    case TU64 | TI64 | TF64 => OrderIsBelow64(v, w, t);
    case TBytes => EscapeOrder(v.bytes, w.bytes);
    case TText => EscapeOrder(v.bytes, w.bytes);
    case TTuple(ts) => OrderIsBelowFields(v.fields, w.fields, ts);
    case TEnum(variants) =>
      if v.index == w.index {
        OrderIsBelowFields(v.fields, w.fields, variants[v.index]);
        BelowAfter([v.index], EncodeFields(v.fields), EncodeFields(w.fields));
      }
  }

  lemma OrderIsBelow64(v: Value, w: Value, t: Type)
    requires t.TU64? || t.TI64? || t.TF64?
    requires HasType(v, t) && HasType(w, t) && Precedes(v, w)
    ensures Below(Encode(v), Encode(w))
  {
    assert Is64(v) && Is64(w);
    hide HasType, Encode, Precedes, BigEndian, Power, Rank, Below;
    Power8();
    EncodesRank(v);
    EncodesRank(w);
    RankInjective(v, w, t);
    BigEndianOrder(Rank(v), Rank(w), 8);
  }

  lemma {:induction false} OrderIsBelowFields(vs: Values, ws: Values, ts: Types)
    requires HaveTypes(vs, ts) && HaveTypes(ws, ts) && PrecedesFields(vs, ws)
    ensures Below(EncodeFields(vs), EncodeFields(ws))
  {
    if Precedes(vs.head, ws.head) {
      OrderIsBelow(vs.head, ws.head, ts.head);
      BelowExtends(Encode(vs.head), Encode(ws.head), EncodeFields(vs.tail), EncodeFields(ws.tail));
    } else {
      OrderIsBelowFields(vs.tail, ws.tail, ts.tail);
      BelowAfter(Encode(vs.head), EncodeFields(vs.tail), EncodeFields(ws.tail));
    }
  }

  lemma {:induction false} PrecedesTotal(v: Value, w: Value, t: Type)
    requires HasType(v, t) && HasType(w, t)
    ensures v == w || Precedes(v, w) || Precedes(w, v)
  {
    match t
    case TBool | TU64 | TI64 | TF64 =>
    case TBytes => LessTotal(v.bytes, w.bytes);
    case TText => LessTotal(v.bytes, w.bytes);
    case TTuple(ts) => PrecedesTotalFields(v.fields, w.fields, ts);
    case TEnum(variants) =>
      if v.index == w.index { PrecedesTotalFields(v.fields, w.fields, variants[v.index]); }
  }

  lemma {:induction false} PrecedesTotalFields(vs: Values, ws: Values, ts: Types)
    requires HaveTypes(vs, ts) && HaveTypes(ws, ts)
    ensures vs == ws || PrecedesFields(vs, ws) || PrecedesFields(ws, vs)
  {
    if vs.Values? {
      PrecedesTotal(vs.head, ws.head, ts.head);
      PrecedesTotalFields(vs.tail, ws.tail, ts.tail);
    }
  }

  /**
   * Byte order of encodings, with any bytes after them, is the order of the values; and no encoding is a prefix of
   * another.
   */
  lemma OrderPreserved(v: Value, w: Value, t: Type, r: Bytes, s: Bytes)
    requires HasType(v, t) && HasType(w, t)
    ensures Precedes(v, w) <==> Less(Encode(v), Encode(w))
    ensures v != w ==> (Precedes(v, w) <==> Less(Encode(v) + r, Encode(w) + s))
    ensures v != w ==> !(Encode(v) <= Encode(w))
  {
    PrecedesTotal(v, w, t);
    if Precedes(v, w) { OrderIsApart(v, w, t, r, s); }
    if Precedes(w, v) { OrderIsApart(w, v, t, s, r); }
    LessIrreflexive(Encode(v));
  }

  lemma OrderIsApart(v: Value, w: Value, t: Type, r: Bytes, s: Bytes)
    requires HasType(v, t) && HasType(w, t) && Precedes(v, w)
    ensures Less(Encode(v), Encode(w)) && !Less(Encode(w), Encode(v)) && v != w
    ensures Less(Encode(v) + r, Encode(w) + s) && !Less(Encode(w) + s, Encode(v) + r)
    ensures !(Encode(v) <= Encode(w)) && !(Encode(w) <= Encode(v))
  {
    OrderIsBelow(v, w, t);
    BelowLess(Encode(v), Encode(w));
    BelowExtends(Encode(v), Encode(w), r, s);
    LessAsymmetric(Encode(v), Encode(w));
    LessAsymmetric(Encode(v) + r, Encode(w) + s);
  }

  // ---------------------------------------------------------------- the format

  /**
   * Order and round trips leave open which bytes mark booleans, variants and the end of a string: these are as in the
   * repository's own test vectors. An order-preserving encoding of 64-bit numbers in all eight-byte strings is unique.
   */
  lemma TestVectors()
    ensures Encode(Bool(false)) == [0x00] && Encode(Bool(true)) == [0x01]
    ensures Encode(Str([])) == [0x00, 0x00] && Encode(Str([0x01, 0xff])) == [0x01, 0xff, 0x00, 0x00]
    ensures Encode(Str([0x00, 0x01, 0x02])) == [0x00, 0xff, 0x01, 0x02, 0x00, 0x00]
  {}

  /** The same for what is made of these. */
  lemma CompoundVectors()
    ensures Encode(Tuple(Values(Bool(false), Values(Bool(true), Values(Bool(false), NoValues))))) == [0x00, 0x01, 0x00]
    ensures Encode(Enum(0, NoValues)) == [0x00]
    ensures Encode(Enum(2, Values(Bool(false), Values(Str([0x00, 0x01]), NoValues))))
      == [0x02, 0x00, 0x00, 0xff, 0x01, 0, 0]
  {}

  // ---------------------------------------------------------------- prefix ranges

  datatype Bound = Included(key: Bytes) | Excluded(key: Bytes) | Unbounded

  predicate InRange(lo: Bound, hi: Bound, s: Bytes) {
    && (lo.Included? ==> AtMost(lo.key, s))
    && (lo.Excluded? ==> Less(lo.key, s))
    && (hi.Included? ==> AtMost(s, hi.key))
    && (hi.Excluded? ==> Less(s, hi.key))
  }

  /** The position after the last byte that is not 0xff; 0 if there is none. */
  function AfterLastBelowFF(p: Bytes): (i: nat)
    ensures i <= |p|
    ensures i > 0 ==> p[i - 1] != 255
    ensures forall j :: i <= j < |p| ==> p[j] == 255
  {
    if p == [] then 0 else if p[|p| - 1] != 255 then |p| else AfterLastBelowFF(p[..|p| - 1])
  }

  /** The end bound `prefix_range` computes; its start bound is the prefix itself, included. */
  function PrefixEnd(p: Bytes): Bound {
    var i := AfterLastBelowFF(p);
    if i == 0 then Unbounded else Excluded(p[..i - 1] + [p[i - 1] + 1])
  }

  /** The successor of all strings with prefix p·x is after exactly the strings below p·(x+1). */
  lemma {:induction false} BelowSuccessor(p: Bytes, s: Bytes)
    requires p != [] && p[|p| - 1] < 255
    ensures AtMost(p, s) && Less(s, p[..|p| - 1] + [p[|p| - 1] + 1]) <==> p <= s
  {
    var end := p[..|p| - 1] + [p[|p| - 1] + 1];
    if |p| == 1 {
      assert s != [] ==> s == [s[0]] + s[1..];
      assert p == [p[0]] && p[1..] == [] && end == [p[0] + 1] && end[1..] == [];
      if s != [] {
        assert Less(p, s) <==> p[0] < s[0] || (p[0] == s[0] && s[1..] != []);
        assert Less(s, end) <==> s[0] <= p[0];
      }
    } else if s == [] || p[0] != s[0] {
      assert end[0] == p[0];
    } else {
      BelowSuccessor(p[1..], s[1..]);
      assert end[1..] == p[1..][..|p| - 2] + [p[1..][|p| - 2] + 1];
      assert p == s <==> p[1..] == s[1..] by { assert p == [p[0]] + p[1..] && s == [s[0]] + s[1..]; }
      assert p <= s <==> p[1..] <= s[1..] by { assert p == [p[0]] + p[1..] && s == [s[0]] + s[1..]; }
    }
  }

  /** Nothing but its own extensions follows a string of 0xff bytes. */
  lemma {:induction false} AfterAllFF(p: Bytes, s: Bytes)
    requires forall j :: 0 <= j < |p| ==> p[j] == 255
    ensures AtMost(p, s) <==> p <= s
  {
    if p != [] && s != [] && s[0] == 255 {
      AfterAllFF(p[1..], s[1..]);
      assert p == [p[0]] + p[1..] && s == [s[0]] + s[1..];
    }
  }

  /** `prefix_range` contains exactly the byte strings that start with the prefix. */
  lemma PrefixRangeExact(p: Bytes, s: Bytes)
    ensures InRange(Included(p), PrefixEnd(p), s) <==> p <= s
  {
    hide Less;
    var i := AfterLastBelowFF(p);
    var front, back := p[..i], p[i..];
    assert p == front + back;
    if i == 0 {
      assert p == back;
      AfterAllFF(p, s);
    } else {
      BelowSuccessor(front, s);
      assert front[..i - 1] == p[..i - 1];
      if front <= s {
        WithinFront(front, back, s);
      } else {
        assert !(p <= s);
        if AtMost(p, s) { PrefixFirst(front, back, s); }
      }
    }
  }

  /** After `front`, what counts is what follows it. */
  lemma WithinFront(front: Bytes, back: Bytes, s: Bytes)
    requires front <= s && forall j :: 0 <= j < |back| ==> back[j] == 255
    ensures AtMost(front + back, s) <==> front + back <= s
  {
    hide Less;
    var t := s[|front|..];
    assert s == front + t;
    AfterAllFF(back, t);
    LessAfter(front, back, t);
    assert front + back == s <==> back == t;
    assert front + back <= s <==> back <= t;
  }

  /** A string at or after an extension of `front` is at or after `front`. */
  lemma PrefixFirst(front: Bytes, back: Bytes, s: Bytes)
    requires AtMost(front + back, s)
    ensures AtMost(front, s)
  {
    LessAfter(front, [], back);
    assert front + [] == front;
    if back == [] {
      assert front + back == front;
    } else if front + back != s {
      LessTransitive(front, front + back, s);
    }
  }
}
