/**
 * The serializer and deserializer of src/encoding/keycode.rs, which grow an output buffer and consume an input slice.
 */
module KeycodeCodec {
  import opened Common
  import opened Bytes
  import opened Keycode

  class Serializer {
    var output: Bytes

    constructor ()
      ensures output == []
    {
      output := [];
    }

    /** Appends the encoding of a well-typed value. */
    method Serialize(v: Value, ghost t: Type)
      requires HasType(v, t)
      modifies this
      ensures output == old(output) + Encode(v)
      decreases v
    {
      hide BigEndian, EncodeFields, Escape, FlipSign, FlipAll;
      match v
      case Bool(b) => output := output + [if b then 1 else 0];
      case U64(n) => output := output + BigEndian(n, 8);
      case I64(i) =>
        var bytes := WithSignFlipped(BigEndian(ToBits(i), 8));
        output := output + bytes;
      case F64(bits) =>
        var bytes := BigEndian(bits, 8);
        if bits < TWO63 {
          bytes := WithSignFlipped(bytes);
        } else {
          bytes := Complement(bytes);
        }
        output := output + bytes;
      case Str(s) => SerializeBytes(s);
      case Tuple(vs) => SerializeFields(vs, t.fields);
      case Enum(index, vs) =>
        output := output + [index];
        SerializeFields(vs, t.variants[index]);
    }

    method SerializeFields(vs: Values, ghost ts: Types)
      requires HaveTypes(vs, ts)
      modifies this
      ensures output == old(output) + EncodeFields(vs)
      decreases vs
    {
      hide Encode, HasType;
      match vs
      case NoValues =>
      case Values(v, vs') =>
        Serialize(v, ts.head);
        SerializeFields(vs', ts.tail);
    }

    /** Escapes zero bytes and appends the terminator. */
    method SerializeBytes(s: Bytes)
      modifies this
      ensures output == old(output) + Escape(s) + [0, 0]
    {
      var i := 0;
      while i < |s|
        invariant 0 <= i <= |s|
        invariant output + Escape(s[i..]) == old(output) + Escape(s)
      {
        assert s[i..][1..] == s[i + 1..];
        output := output + (if s[i] == 0 then [0, 255] else [s[i]]);
        i := i + 1;
      }
      output := output + [0, 0];
    }
  }

  /** Flips the top bit. */
  method WithSignFlipped(s: Bytes) returns (r: Bytes)
    requires s != []
    ensures r == FlipSign(s)
  {
    var top: int := s[0];
    r := s[0 := (top + 128) % 256];
  }

  /** Flips every bit of every byte, in order. */
  method Complement(s: Bytes) returns (r: Bytes)
    ensures r == FlipAll(s)
  {
    r := [];
    var i := 0;
    while i < |s|
      invariant 0 <= i <= |s|
      invariant r == FlipAll(s[..i])
    {
      assert s[..i + 1][..i] == s[..i];
      r := r + [255 - s[i]];
      i := i + 1;
    }
    assert s[..|s|] == s;
  }

  /** `decoded` bytes already read, before whatever `r` reads next. */
  ghost function Continued(decoded: Bytes, r: Option<Decoded<Bytes>>): Option<Decoded<Bytes>> {
    if r.None? then None else Some(Decoded(decoded + r.value.value, r.value.rest))
  }

  lemma ContinuedMore(decoded: Bytes, b: Bytes, r: Option<Decoded<Bytes>>)
    ensures Continued(decoded + b, r) == Continued(decoded, Continued(b, r))
    ensures Continued([], r) == r
  {
    if r.Some? {
      assert (decoded + b) + r.value.value == decoded + (b + r.value.value);
      assert [] + r.value.value == r.value.value;
    }
  }

  class Deserializer {
    var input: Bytes

    constructor (bytes: Bytes)
      ensures input == bytes
    {
      input := bytes;
    }

    method TakeBytes(len: nat) returns (r: Option<Bytes>)
      modifies this
      ensures r.Some? <==> |old(input)| >= len
      ensures r.Some? ==> |r.value| == len && old(input) == r.value + input
      ensures r.None? ==> input == old(input)
    {
      if |input| < len { return None; }
      r := Some(input[..len]);
      input := input[len..];
    }

    /** Decodes and chops off the next escaped byte string; a failure leaves the input alone. */
    method DecodeNextBytes() returns (r: Option<Bytes>)
      modifies this
      ensures r.Some? ==> Unescape(old(input)) == Some(Decoded(r.value, input))
      ensures r.None? ==> Unescape(old(input)).None? && input == old(input)
    {
      var decoded: Bytes := [];
      var i := 0;
      ContinuedMore([], [], Unescape(input));
      assert input[0..] == input;
      while true
        invariant 0 <= i <= |input|
        invariant input == old(input)
        invariant Unescape(input) == Continued(decoded, Unescape(input[i..]))
        decreases |input| - i
      {
        if i == |input| { return None; }
        var b := input[i];
        if b != 0 {
          assert input[i..][1..] == input[i + 1..];
          ContinuedMore(decoded, [b], Unescape(input[i + 1..]));
          decoded, i := decoded + [b], i + 1;
        } else {
          if i + 1 == |input| { return None; }
          assert input[i..][2..] == input[i + 2..];
          if input[i + 1] == 0 {
            assert decoded + [] == decoded;
            input := input[i + 2..];
            return Some(decoded);
          } else if input[i + 1] == 255 {
            ContinuedMore(decoded, [0], Unescape(input[i + 2..]));
            decoded, i := decoded + [0], i + 2;
          } else {
            return None;
          }
        }
      }
    }

    /** Decodes a value of the given type off the front of the input. */
    method DecodeValue(t: Type) returns (r: Option<Value>)
      modifies this
      ensures r.Some? ==> Decode(t, old(input)) == Some(Decoded(r.value, input))
      ensures r.None? ==> Decode(t, old(input)).None?
      decreases t
    {
      match t
      case TBool =>
        var b := TakeBytes(1);
        assert b.Some? ==> old(input)[0] == b.value[0] && old(input)[1..] == input;
        if b.None? || b.value[0] > 1 { return None; }
        r := Some(Bool(b.value[0] == 1));
      case TU64 =>
        var b := TakeBytes(8);
        if b.None? { return None; }
        assert old(input)[..8] == b.value && old(input)[8..] == input;
        r := Some(U64(FromBigEndian(b.value)));
      case TI64 =>
        var b := TakeBytes(8);
        if b.None? { return None; }
        assert old(input)[..8] == b.value && old(input)[8..] == input;
        var bytes := WithSignFlipped(b.value);
        r := Some(I64(FromBits(FromBigEndian(bytes))));
      case TF64 =>
        var b := TakeBytes(8);
        if b.None? { return None; }
        assert old(input)[..8] == b.value && old(input)[8..] == input;
        var bytes := b.value;
        if bytes[0] < 128 {
          bytes := Complement(bytes);
        } else {
          bytes := WithSignFlipped(bytes);
        }
        r := Some(F64(FromBigEndian(bytes)));
      case TBytes =>
        var b := DecodeNextBytes();
        r := if b.None? then None else Some(Str(b.value));
      case TText =>
        var b := DecodeNextBytes();
        r := if b.None? || !Utf8(b.value) then None else Some(Str(b.value));
      case TTuple(ts) =>
        if ts.NoTypes? { return None; }
        var vs := DecodeValues(ts);
        r := if vs.None? then None else Some(Tuple(vs.value));
      case TEnum(variants) =>
        var b := TakeBytes(1);
        assert b.Some? ==> old(input)[0] == b.value[0] && old(input)[1..] == input;
        if b.None? || b.value[0] >= |variants| { return None; }
        var vs := DecodeValues(variants[b.value[0]]);
        r := if vs.None? then None else Some(Enum(b.value[0], vs.value));
    }

    method DecodeValues(ts: Types) returns (r: Option<Values>)
      modifies this
      ensures r.Some? ==> DecodeFields(ts, old(input)) == Some(Decoded(r.value, input))
      ensures r.None? ==> DecodeFields(ts, old(input)).None?
      decreases ts
    {
      match ts
      case NoTypes => r := Some(NoValues);
      case Types(t, ts') =>
        if input == [] { return None; }
        var v := DecodeValue(t);
        if v.None? { return None; }
        var vs := DecodeValues(ts');
        r := if vs.None? then None else Some(Values(v.value, vs.value));
    }
  }

  /** `deserialize`: a value if and only if the input is exactly its encoding. */
  method DeserializeKey(t: Type, bytes: Bytes) returns (r: Option<Value>)
    ensures r.Some? ==> HasType(r.value, t) && bytes == Encode(r.value)
    ensures r.None? ==> !exists v :: HasType(v, t) && bytes == Encode(v)
  {
    var d := new Deserializer(bytes);
    r := d.DecodeValue(t);
    if r.Some? && d.input != [] { r := None; }
    assert r == Deserialize(t, bytes);
    if r.Some? { RoundTrip(t, bytes, r.value); }
    forall v | HasType(v, t) && bytes == Encode(v) ensures r == Some(v) { RoundTrip(t, bytes, v); }
  }

  /** Serializing a key and deserializing the bytes gives the key back. */
  method SerializeKey(key: Value, t: Type) returns (bytes: Bytes)
    requires HasType(key, t)
    ensures Deserialize(t, bytes) == Some(key)
  {
    var s := new Serializer();
    s.Serialize(key, t);
    bytes := s.output;
    RoundTrip(t, bytes, key);
  }
}
