/** The serializer, which pushes onto an output buffer, and the deserializer,
    which advances through an input slice, proved to compute the encoding. */
module KeyCodec {
  import opened Basics
  import opened KeyCode

  class Serializer {
    var output: Bytes

    constructor ()
      ensures output == []
    {
      output := [];
    }

    method PutBytes(s: Bytes)
      modifies this
      ensures output == old(output) + EncodeBytes(s)
    {
      var i := 0;
      while i < |s|
        invariant i <= |s| && output + EncodeBytes(s[i..]) == old(output) + EncodeBytes(s)
      {
        ghost var before := output;
        output := output + if s[i] == 0 then [0, 255] else [s[i]];
        assert s[i..][1..] == s[i + 1..];
        assert output + EncodeBytes(s[i + 1..]) == before + EncodeBytes(s[i..]);
        i := i + 1;
      }
      output := output + [0, 0];
    }

    method Put(x: Item)
      modifies this
      ensures output == old(output) + Encode(x)
      decreases x
    {
      match x
      case Bool(b) => output := output + [if b then 1 else 0];
      case U64(n) => output := output + BigEndian(n, 8);
      case I64(i) =>
        if -TWO_63 <= i < TWO_63 {
          output := output + FlipSign(BigEndian(ToBits(i), 8));
        }
      case F64(bits) => output := output + EncodeFloat(bits);
      case ByteString(s) => PutBytes(s);
      case Enum(index, fields) =>
        output := output + [index % 256];
        PutAll(fields);
    }

    method PutAll(xs: seq<Item>)
      modifies this
      ensures output == old(output) + EncodeAll(xs)
      decreases xs
    {
      if xs != [] {
        Put(xs[0]);
        PutAll(xs[1..]);
      }
    }
  }

  ghost function Prepend(s: Bytes, r: Option<(Bytes, Bytes)>): Option<(Bytes, Bytes)> {
    if r.None? then None else Some((s + r.value.0, r.value.1))
  }

  lemma PrependTwice(s: Bytes, t: Bytes, r: Option<(Bytes, Bytes)>)
    ensures Prepend([], r) == r && Prepend(s, Prepend(t, r)) == Prepend(s + t, r)
  {
    if r.Some? {
      assert [] + r.value.0 == r.value.0;
      assert s + (t + r.value.0) == (s + t) + r.value.0;
    }
  }

  class Deserializer {
    var input: Bytes

    constructor (bytes: Bytes)
      ensures input == bytes
    {
      input := bytes;
    }

    method TakeBytes(len: nat) returns (bytes: Option<Bytes>)
      modifies this
      ensures if |old(input)| < len then bytes == None && input == old(input)
              else bytes == Some(old(input)[..len]) && input == old(input)[len..]
    {
      if |input| < len {
        return None;
      }
      bytes := Some(input[..len]);
      input := input[len..];
    }

    /** Decodes and chops off the next byte string. */
    method DecodeNextBytes() returns (decoded: Option<Bytes>)
      modifies this
      ensures match DecodeBytes(old(input))
              case None => decoded == None && input == old(input)
              case Some((s, rest)) => decoded == Some(s) && input == rest
    {
      var s: Bytes := [];
      var i := 0;
      assert input[0..] == input;
      PrependTwice([], [], DecodeBytes(input));
      while i < |input|
        invariant i <= |input| && input == old(input)
        invariant DecodeBytes(input) == Prepend(s, DecodeBytes(input[i..]))
      {
        ghost var here := input[i..];
        if input[i] != 0 {
          assert here[1..] == input[i + 1..];
          PrependTwice(s, [input[i]], DecodeBytes(here[1..]));
          s := s + [input[i]];
          i := i + 1;
        } else if i + 1 < |input| && input[i + 1] == 0 {
          assert here[2..] == input[i + 2..] && s + [] == s;
          decoded := Some(s);
          input := input[i + 2..];
          return;
        } else if i + 1 < |input| && input[i + 1] == 255 {
          assert here[2..] == input[i + 2..];
          PrependTwice(s, [0], DecodeBytes(here[2..]));
          s := s + [0];
          i := i + 2;
        } else {
          return None;
        }
      }
      decoded := None;
    }

    method Get(k: Kind) returns (x: Option<Item>)
      modifies this
      ensures match Decode(k, old(input))
              case None => x == None
              case Some((y, rest)) => x == Some(y) && input == rest
      decreases k
    {
      match k
      case BoolKind =>
        var b := TakeBytes(1);
        if b.None? || b.value[0] > 1 { return None; }
        x := Some(Bool(b.value[0] == 1));
      case U64Kind =>
        var b := TakeBytes(8);
        if b.None? { return None; }
        x := Some(U64(FromBigEndian(b.value)));
      case I64Kind =>
        var b := TakeBytes(8);
        if b.None? { return None; }
        BigEndianBound(FlipSign(b.value));
        x := Some(I64(FromBits(FromBigEndian(FlipSign(b.value)))));
      case F64Kind =>
        var b := TakeBytes(8);
        if b.None? { return None; }
        x := Some(F64(DecodeFloat(b.value)));
      case BytesKind(text) =>
        var s := DecodeNextBytes();
        if s.None? || (text && !IsText(s.value)) { return None; }
        x := Some(ByteString(s.value));
      case EnumKind(variants) =>
        var b := TakeBytes(1);
        if b.None? || b.value[0] >= |variants| { return None; }
        var fields := GetAll(variants[b.value[0]].fields);
        if fields.None? { return None; }
        x := Some(Enum(b.value[0], fields.value));
    }

    method GetAll(ks: seq<Kind>) returns (xs: Option<seq<Item>>)
      modifies this
      ensures match DecodeAll(ks, old(input))
              case None => xs == None
              case Some((ys, rest)) => xs == Some(ys) && input == rest
      decreases ks
    {
      if ks == [] {
        return Some([]);
      }
      var x := Get(ks[0]);
      if x.None? { return None; }
      var tail := GetAll(ks[1..]);
      if tail.None? { return None; }
      xs := Some([x.value] + tail.value);
    }

    /** Decodes values until the input is used up. */
    method GetSeq(k: Kind) returns (xs: Option<seq<Item>>)
      modifies this
      ensures xs == DecodeSeq(k, old(input)) && (xs.Some? ==> input == [])
    {
      var done: seq<Item> := [];
      AfterOne(done, Bool(true), DecodeSeq(k, input));
      while input != []
        invariant DecodeSeq(k, old(input)) == After(done, DecodeSeq(k, input))
        decreases |input|
      {
        ghost var before := input;
        var x := Get(k);
        if x.None? { return None; }
        Canonical(k, before);
        EncodeNonEmpty(x.value, k);
        AfterOne(done, x.value, DecodeSeq(k, input));
        done := done + [x.value];
      }
      AfterOne(done, Bool(true), Some([]));
      xs := Some(done);
    }
  }

  ghost function After(done: seq<Item>, r: Option<seq<Item>>): Option<seq<Item>> {
    if r.None? then None else Some(done + r.value)
  }

  lemma AfterOne(done: seq<Item>, x: Item, r: Option<seq<Item>>)
    ensures After([], r) == r && After(done, Some([])) == Some(done)
    ensures After(done, After([x], r)) == After(done + [x], r)
  {
    assert done + [] == done;
    if r.Some? {
      assert [] + r.value == r.value;
      assert done + ([x] + r.value) == (done + [x]) + r.value;
    }
  }

  /** Serializes a key. */
  method Serialize(x: Item) returns (bytes: Bytes)
    ensures bytes == Encode(x)
  {
    var s := new Serializer();
    s.Put(x);
    bytes := s.output;
  }

  /** Deserializes a key, which must use up the whole input. */
  method DeserializeKey(k: Kind, input: Bytes) returns (x: Option<Item>)
    ensures x == Deserialize(k, input)
  {
    var d := new Deserializer(input);
    x := d.Get(k);
    if x.Some? && d.input != [] {
      x := None;
    }
  }
}
