/** The order-preserving key encoding, for keys of any type built from booleans,
    64-bit integers and floats, byte strings, text, and enums of tuples of these, and for
    tuples that end in a sequence of any length. */
module KeyCode {
  import opened Basics
  import opened ByteOrder

  const TWO_63: int := 0x8000_0000_0000_0000
  const TWO_64: int := 0x1_0000_0000_0000_0000

  /** A key type. Bytes can be restricted to text. An enum lists the field types of each
      variant. */
  datatype Kind = BoolKind | U64Kind | I64Kind | F64Kind | BytesKind(text: bool) | EnumKind(variants: seq<Variant>)

  datatype Variant = Variant(fields: seq<Kind>)

  /** A key value. Floats are given by their bits, and text by its bytes. */
  datatype Item =
    | Bool(b: bool)
    | U64(n: nat)
    | I64(i: int)
    | F64(bits: nat)
    | ByteString(bytes: Bytes)
    | Enum(index: nat, fields: seq<Item>)

  // ---- Text ----

  predicate Within(b: Byte, lo: Byte, hi: Byte) {
    lo <= b <= hi
  }

  /** All of some bytes are continuation bytes. */
  predicate Continues(s: Bytes) {
    forall i :: 0 <= i < |s| ==> Within(s[i], 0x80, 0xbf)
  }

  /** The length of the UTF-8 character at the start, as in section 4 of RFC 3629, or 0. */
  function CharLength(s: Bytes): (n: nat)
    ensures n <= |s|
  {
    if s == [] then 0
    else if s[0] < 0x80 then 1
    else if |s| >= 2 && Within(s[0], 0xc2, 0xdf) && Continues(s[1..2]) then 2
    else if |s| >= 3 && Continues(s[2..3])
            && (|| (s[0] == 0xe0 && Within(s[1], 0xa0, 0xbf)) || (s[0] == 0xed && Within(s[1], 0x80, 0x9f))
                || ((Within(s[0], 0xe1, 0xec) || Within(s[0], 0xee, 0xef)) && Within(s[1], 0x80, 0xbf))) then 3
    else if |s| >= 4 && Continues(s[2..4])
            && (|| (s[0] == 0xf0 && Within(s[1], 0x90, 0xbf)) || (s[0] == 0xf4 && Within(s[1], 0x80, 0x8f))
                || (Within(s[0], 0xf1, 0xf3) && Within(s[1], 0x80, 0xbf))) then 4
    else 0
  }

  predicate IsText(s: Bytes)
    decreases |s|
  {
    s == [] || (CharLength(s) > 0 && IsText(s[CharLength(s)..]))
  }

  predicate HasKind(x: Item, k: Kind)
    decreases x
  {
    match x
    case Bool(_) => k.BoolKind?
    case U64(n) => k.U64Kind? && n < TWO_64
    case I64(i) => k.I64Kind? && -TWO_63 <= i < TWO_63
    case F64(bits) => k.F64Kind? && bits < TWO_64
    case ByteString(s) => k.BytesKind? && (k.text ==> IsText(s))
    case Enum(index, fields) =>
      k.EnumKind? && index < |k.variants| && index < 256 && HaveKinds(fields, k.variants[index].fields)
  }

  predicate HaveKinds(xs: seq<Item>, ks: seq<Kind>)
    decreases xs
  {
    |xs| == |ks| && (xs != [] ==> HasKind(xs[0], ks[0]) && HaveKinds(xs[1..], ks[1..]))
  }

  // ---- Encoding ----

  /** Big-endian bytes of a number. */
  function BigEndian(n: nat, len: nat): (s: Bytes)
    ensures |s| == len
  {
    if len == 0 then [] else BigEndian(n / 256, len - 1) + [n % 256]
  }

  function FromBigEndian(s: Bytes): nat {
    if s == [] then 0 else FromBigEndian(s[..|s| - 1]) * 256 + s[|s| - 1]
  }

  /** The 64-bit two's complement pattern of a signed number. */
  function ToBits(i: int): nat
    requires -TWO_63 <= i < TWO_63
  {
    if i < 0 then i + TWO_64 else i
  }

  function FromBits(n: nat): int
    requires n < TWO_64
  {
    if n >= TWO_63 then n - TWO_64 else n
  }

  function FlipSign(s: Bytes): (r: Bytes)
    requires s != []
    ensures |r| == |s|
  {
    [if s[0] >= 128 then s[0] - 128 else s[0] + 128] + s[1..]
  }

  function FlipAll(s: Bytes): (r: Bytes)
    ensures |r| == |s|
  {
    seq(|s|, i requires 0 <= i < |s| => 255 - s[i])
  }

  function EncodeFloat(bits: nat): (s: Bytes)
    ensures |s| == 8
  {
    var s := BigEndian(bits, 8);
    if s[0] < 128 then FlipSign(s) else FlipAll(s)
  }

  /** 0x00 is escaped as 0x00ff, and the end is marked by 0x0000. */
  function EncodeBytes(s: Bytes): Bytes {
    if s == [] then [0, 0]
    else (if s[0] == 0 then [0, 255] else [s[0]]) + EncodeBytes(s[1..])
  }

  function Encode(x: Item): Bytes
    decreases x
  {
    match x
    case Bool(b) => [if b then 1 else 0]
    case U64(n) => BigEndian(n, 8)
    case I64(i) => if -TWO_63 <= i < TWO_63 then FlipSign(BigEndian(ToBits(i), 8)) else []
    case F64(bits) => EncodeFloat(bits)
    case ByteString(bytes) => EncodeBytes(bytes)
    case Enum(index, fields) => [index % 256] + EncodeAll(fields)
  }

  function EncodeAll(xs: seq<Item>): Bytes
    decreases xs
  {
    if xs == [] then [] else Encode(xs[0]) + EncodeAll(xs[1..])
  }

  // ---- Decoding ----

  /** Takes an encoded byte string off the front of the input. */
  function DecodeBytes(input: Bytes): Option<(Bytes, Bytes)>
    decreases |input|
  {
    if input == [] then None
    else if input[0] != 0 then
      (match DecodeBytes(input[1..])
       case None => None
       case Some((s, rest)) => Some(([input[0]] + s, rest)))
    else if |input| == 1 then None
    else if input[1] == 0 then Some(([], input[2..]))
    else if input[1] == 255 then
      (match DecodeBytes(input[2..])
       case None => None
       case Some((s, rest)) => Some(([0] + s, rest)))
    else None
  }

  function DecodeFloat(s: Bytes): nat
    requires |s| == 8
  {
    FromBigEndian(if s[0] >= 128 then FlipSign(s) else FlipAll(s))
  }

  /** Takes a value of a type off the front of the input. */
  function Decode(k: Kind, input: Bytes): Option<(Item, Bytes)>
    decreases k
  {
    match k
    case BoolKind =>
      if input == [] || input[0] > 1 then None else Some((Bool(input[0] == 1), input[1..]))
    case U64Kind =>
      if |input| < 8 then None else Some((U64(FromBigEndian(input[..8])), input[8..]))
    case I64Kind =>
      if |input| < 8 then None
      else
        BigEndianBound(FlipSign(input[..8]));
        Some((I64(FromBits(FromBigEndian(FlipSign(input[..8])))), input[8..]))
    case F64Kind =>
      if |input| < 8 then None else Some((F64(DecodeFloat(input[..8])), input[8..]))
    case BytesKind(text) =>
      (match DecodeBytes(input)
       case None => None
       case Some((s, rest)) => if text && !IsText(s) then None else Some((ByteString(s), rest)))
    case EnumKind(variants) =>
      if input == [] || input[0] >= |variants| then None
      else
        (match DecodeAll(variants[input[0]].fields, input[1..])
         case None => None
         case Some((fields, rest)) => Some((Enum(input[0], fields), rest)))
  }

  function DecodeAll(ks: seq<Kind>, input: Bytes): Option<(seq<Item>, Bytes)>
    decreases ks
  {
    if ks == [] then Some(([], input))
    else
      match Decode(ks[0], input)
      case None => None
      case Some((x, rest)) =>
        match DecodeAll(ks[1..], rest)
        case None => None
        case Some((xs, rest')) => Some(([x] + xs, rest'))
  }

  /** Decodes a whole key: nothing may be left over. */
  function Deserialize(k: Kind, input: Bytes): Option<Item> {
    match Decode(k, input)
    case None => None
    case Some((x, rest)) => if rest == [] then Some(x) else None
  }

  // ---- Numbers ----

  function Limit(len: nat): nat {
    if len == 0 then 1 else 256 * Limit(len - 1)
  }

  lemma Limit8()
    ensures Limit(8) == TWO_64
  {
    assert Limit(4) == 0x1_0000_0000;
    assert Limit(8) == 256 * 256 * 256 * 256 * Limit(4);
  }

  lemma {:induction false} BigEndianBound(s: Bytes)
    ensures FromBigEndian(s) < Limit(|s|)
    ensures |s| == 8 ==> FromBigEndian(s) < TWO_64
  {
    Limit8();
    if s != [] {
      BigEndianBound(s[..|s| - 1]);
    }
  }

  lemma {:induction false} BigEndianRoundTrip(n: nat, len: nat)
    requires n < Limit(len)
    ensures FromBigEndian(BigEndian(n, len)) == n
  {
    if len > 0 {
      BigEndianRoundTrip(n / 256, len - 1);
      assert BigEndian(n, len)[..len - 1] == BigEndian(n / 256, len - 1);
    }
  }

  lemma {:induction false} BigEndianCanonical(s: Bytes)
    ensures BigEndian(FromBigEndian(s), |s|) == s
  {
    if s != [] {
      BigEndianCanonical(s[..|s| - 1]);
      assert s == s[..|s| - 1] + [s[|s| - 1]];
    }
  }

  /** Byte order of big-endian numbers is the order of the numbers. */
  lemma {:induction false} BigEndianOrder(n: nat, m: nat, len: nat)
    requires n < m < Limit(len)
    ensures Before(BigEndian(n, len), BigEndian(m, len))
  {
    var a, b := BigEndian(n / 256, len - 1), BigEndian(m / 256, len - 1);
    if n / 256 < m / 256 {
      BigEndianOrder(n / 256, m / 256, len - 1);
      BeforeExtended(a, b, [n % 256], [m % 256]);
    } else {
      assert DiffersAt([n % 256], [m % 256], 0);
      BeforeAfter(a, [n % 256], [m % 256]);
    }
  }

  lemma FlipSignTwice(s: Bytes)
    requires s != []
    ensures FlipSign(FlipSign(s)) == s
  {
  }

  lemma FlipAllTwice(s: Bytes)
    ensures FlipAll(FlipAll(s)) == s
  {
  }

  /** Flipping the sign bit adds half the range. */
  lemma {:induction false} FlipSignAdds(s: Bytes)
    requires s != []
    ensures var half := 128 * Limit(|s| - 1);
            FromBigEndian(FlipSign(s)) == if s[0] >= 128 then FromBigEndian(s) - half else FromBigEndian(s) + half
  {
    if |s| == 1 {
      assert s[..0] == [] && FlipSign(s)[..0] == [];
    } else {
      FlipSignAdds(s[..|s| - 1]);
      assert FlipSign(s)[..|s| - 1] == FlipSign(s[..|s| - 1]);
    }
  }

  /** The sign bit says whether a number is in the upper half. */
  lemma {:induction false} SignBit(s: Bytes)
    requires s != []
    ensures s[0] >= 128 <==> FromBigEndian(s) >= 128 * Limit(|s| - 1)
  {
    if |s| == 1 {
      assert s[..0] == [];
    } else {
      SignBit(s[..|s| - 1]);
    }
  }

  lemma {:induction false} FlipAllSubtracts(s: Bytes)
    ensures FromBigEndian(FlipAll(s)) == Limit(|s|) - 1 - FromBigEndian(s)
  {
    if s != [] {
      FlipAllSubtracts(s[..|s| - 1]);
      assert FlipAll(s)[..|s| - 1] == FlipAll(s[..|s| - 1]);
    }
  }

  /** The number whose big-endian bytes encode a signed number. */
  lemma SignedCode(i: int)
    requires -TWO_63 <= i < TWO_63
    ensures FlipSign(BigEndian(ToBits(i), 8)) == BigEndian(i + TWO_63, 8)
  {
    Limit8();
    assert 256 * Limit(7) == Limit(8);
    var s := BigEndian(ToBits(i), 8);
    BigEndianRoundTrip(ToBits(i), 8);
    SignBit(s);
    FlipSignAdds(s);
    BigEndianCanonical(FlipSign(s));
  }

  function FloatCode(bits: nat): nat
    requires bits < TWO_64
  {
    if bits < TWO_63 then bits + TWO_63 else TWO_64 - 1 - bits
  }

  lemma FloatCodeIs(bits: nat)
    requires bits < TWO_64
    ensures EncodeFloat(bits) == BigEndian(FloatCode(bits), 8)
  {
    Limit8();
    assert 256 * Limit(7) == Limit(8);
    var s := BigEndian(bits, 8);
    BigEndianRoundTrip(bits, 8);
    SignBit(s);
    FlipSignAdds(s);
    FlipAllSubtracts(s);
    BigEndianCanonical(EncodeFloat(bits));
  }

  // ---- Byte strings ----

  lemma {:induction false} BytesRoundTrip(s: Bytes, rest: Bytes)
    ensures DecodeBytes(EncodeBytes(s) + rest) == Some((s, rest))
  {
    var input := EncodeBytes(s) + rest;
    if s == [] {
      assert input[2..] == rest;
    } else {
      BytesRoundTrip(s[1..], rest);
      var tail := EncodeBytes(s[1..]) + rest;
      assert input == (if s[0] == 0 then [0, 255] else [s[0]]) + tail;
      assert s == [s[0]] + s[1..];
      if s[0] == 0 {
        assert input[2..] == tail;
      } else {
        assert input[1..] == tail;
      }
    }
  }

  lemma {:induction false} BytesCanonical(input: Bytes)
    requires DecodeBytes(input).Some?
    ensures var (s, rest) := DecodeBytes(input).value; input == EncodeBytes(s) + rest
    decreases |input|
  {
    if input[0] != 0 {
      BytesCanonical(input[1..]);
      var (s, rest) := DecodeBytes(input[1..]).value;
      assert ([input[0]] + s)[1..] == s;
      assert input == [input[0]] + input[1..];
    } else if input[1] == 0 {
      assert input == [0, 0] + input[2..];
    } else {
      BytesCanonical(input[2..]);
      var (s, rest) := DecodeBytes(input[2..]).value;
      assert ([0] + s)[1..] == s;
      assert input == [0, 255] + input[2..];
    }
  }

  lemma {:induction false} BytesOrder(s: Bytes, t: Bytes)
    requires Less(s, t)
    ensures Before(EncodeBytes(s), EncodeBytes(t))
  {
    var a, b := EncodeBytes(s), EncodeBytes(t);
    if s != [] && s[0] == t[0] {
      BytesOrder(s[1..], t[1..]);
      BeforeAfter(if s[0] == 0 then [0, 255] else [s[0]], EncodeBytes(s[1..]), EncodeBytes(t[1..]));
    } else if s == [] && t[0] == 0 {
      assert a[..1] == b[..1] == [0];
      assert DiffersAt(a, b, 1);
    } else {
      assert DiffersAt(a, b, 0);
    }
  }

  // ---- Round trips ----

  lemma {:induction false} RoundTrip(x: Item, k: Kind, rest: Bytes)
    requires HasKind(x, k)
    ensures Decode(k, Encode(x) + rest) == Some((x, rest))
    decreases x
  {
    var code := Encode(x);
    var input := code + rest;
    Limit8();
    assert input[|code|..] == rest && input[..|code|] == code;
    match x
    case Bool(_) =>
    case U64(n) => BigEndianRoundTrip(n, 8);
    case I64(i) =>
      BigEndianRoundTrip(ToBits(i), 8);
      FlipSignTwice(BigEndian(ToBits(i), 8));
    case F64(bits) => FloatRoundTrip(bits);
    case ByteString(s) => BytesRoundTrip(s, rest);
    case Enum(index, fields) =>
      RoundTripAll(fields, k.variants[index].fields, rest);
      assert input[1..] == EncodeAll(fields) + rest;
  }

  lemma FloatRoundTrip(bits: nat)
    requires bits < TWO_64
    ensures DecodeFloat(EncodeFloat(bits)) == bits
  {
    Limit8();
    var s := BigEndian(bits, 8);
    BigEndianRoundTrip(bits, 8);
    FlipSignTwice(s);
    FlipAllTwice(s);
  }

  lemma {:induction false} RoundTripAll(xs: seq<Item>, ks: seq<Kind>, rest: Bytes)
    requires HaveKinds(xs, ks)
    ensures DecodeAll(ks, EncodeAll(xs) + rest) == Some((xs, rest))
    decreases xs
  {
    if xs == [] {
      assert EncodeAll(xs) + rest == rest;
    } else {
      RoundTrip(xs[0], ks[0], EncodeAll(xs[1..]) + rest);
      RoundTripAll(xs[1..], ks[1..], rest);
      assert EncodeAll(xs) + rest == Encode(xs[0]) + (EncodeAll(xs[1..]) + rest);
      assert xs == [xs[0]] + xs[1..];
    }
  }

  /** Decoding a key gives back what was encoded. */
  lemma KeyRoundTrip(x: Item, k: Kind)
    requires HasKind(x, k)
    ensures Deserialize(k, Encode(x)) == Some(x)
  {
    RoundTrip(x, k, []);
    assert Encode(x) + [] == Encode(x);
  }

  lemma FloatCanonical(s: Bytes)
    requires |s| == 8
    ensures DecodeFloat(s) < TWO_64 && EncodeFloat(DecodeFloat(s)) == s
  {
    var t := if s[0] >= 128 then FlipSign(s) else FlipAll(s);
    BigEndianBound(t);
    BigEndianCanonical(t);
    FlipSignTwice(s);
    FlipAllTwice(s);
  }

  lemma SignedCanonical(s: Bytes)
    requires |s| == 8
    ensures var n := FromBigEndian(FlipSign(s)); n < TWO_64 && FlipSign(BigEndian(ToBits(FromBits(n)), 8)) == s
  {
    BigEndianBound(FlipSign(s));
    BigEndianCanonical(FlipSign(s));
    FlipSignTwice(s);
  }

  /** Whatever decodes is the encoding of what it decodes to. */
  lemma {:induction false} Canonical(k: Kind, input: Bytes)
    requires Decode(k, input).Some?
    ensures var (x, rest) := Decode(k, input).value; HasKind(x, k) && input == Encode(x) + rest
    decreases k
  {
    if k.EnumKind? {
      CanonicalAll(k.variants[input[0]].fields, input[1..]);
      var (fields, rest) := DecodeAll(k.variants[input[0]].fields, input[1..]).value;
      EnumCode(input, fields, rest);
    } else if k.BytesKind? {
      BytesCanonical(input);
    } else {
      FixedCanonical(k, input);
    }
  }

  lemma EnumCode(input: Bytes, fields: seq<Item>, rest: Bytes)
    requires input != [] && input[1..] == EncodeAll(fields) + rest
    ensures input == Encode(Enum(input[0], fields)) + rest
  {
    assert input == [input[0]] + input[1..];
  }

  /** The types whose encodings have a fixed length. */
  lemma FixedCanonical(k: Kind, input: Bytes)
    requires Decode(k, input).Some? && !k.EnumKind? && !k.BytesKind?
    ensures var (x, rest) := Decode(k, input).value; HasKind(x, k) && input == Encode(x) + rest
  {
    if k.BoolKind? {
      assert input == [input[0]] + input[1..];
    } else {
      var s := input[..8];
      assert input == s + input[8..];
      if k.U64Kind? {
        BigEndianBound(s);
        BigEndianCanonical(s);
      } else if k.I64Kind? {
        SignedCanonical(s);
      } else {
        FloatCanonical(s);
      }
    }
  }

  lemma {:induction false} CanonicalAll(ks: seq<Kind>, input: Bytes)
    requires DecodeAll(ks, input).Some?
    ensures var (xs, rest) := DecodeAll(ks, input).value; HaveKinds(xs, ks) && input == EncodeAll(xs) + rest
    decreases ks
  {
    if ks != [] {
      Canonical(ks[0], input);
      var (x, tail) := Decode(ks[0], input).value;
      CanonicalAll(ks[1..], tail);
      var (xs, rest) := DecodeAll(ks[1..], tail).value;
      assert ([x] + xs)[1..] == xs;
    }
  }

  /** Decoding accepts only encodings: no key has two. */
  lemma KeyCanonical(k: Kind, input: Bytes)
    ensures Deserialize(k, input).Some? ==>
              HasKind(Deserialize(k, input).value, k) && Encode(Deserialize(k, input).value) == input
  {
    if Deserialize(k, input).Some? {
      Canonical(k, input);
    }
  }

  // ---- Sequences ----

  /** Takes values of a type until nothing is left. */
  function DecodeSeq(k: Kind, input: Bytes): Option<seq<Item>>
    decreases |input|
  {
    if input == [] then Some([])
    else
      match Decode(k, input)
      case None => None
      case Some((x, rest)) =>
        Canonical(k, input);
        EncodeNonEmpty(x, k);
        match DecodeSeq(k, rest)
        case None => None
        case Some(xs) => Some([x] + xs)
  }

  lemma EncodeNonEmpty(x: Item, k: Kind)
    requires HasKind(x, k)
    ensures Encode(x) != []
  {
  }

  predicate AllHaveKind(xs: seq<Item>, k: Kind) {
    forall i :: 0 <= i < |xs| ==> HasKind(xs[i], k)
  }

  lemma {:induction false} SeqRoundTrip(xs: seq<Item>, k: Kind)
    requires AllHaveKind(xs, k)
    ensures DecodeSeq(k, EncodeAll(xs)) == Some(xs)
  {
    if xs != [] {
      EncodeNonEmpty(xs[0], k);
      RoundTrip(xs[0], k, EncodeAll(xs[1..]));
      SeqRoundTrip(xs[1..], k);
      assert xs == [xs[0]] + xs[1..];
    }
  }

  lemma {:induction false} SeqCanonical(k: Kind, input: Bytes)
    requires DecodeSeq(k, input).Some?
    ensures AllHaveKind(DecodeSeq(k, input).value, k) && EncodeAll(DecodeSeq(k, input).value) == input
    decreases |input|
  {
    if input != [] {
      var (x, rest) := Decode(k, input).value;
      Canonical(k, input);
      EncodeNonEmpty(x, k);
      SeqCanonical(k, rest);
      var xs := DecodeSeq(k, rest).value;
      assert ([x] + xs)[1..] == xs;
    }
  }

  /** Decodes a tuple that ends in a sequence. */
  function DecodeTail(ks: seq<Kind>, k: Kind, input: Bytes): Option<(seq<Item>, seq<Item>)> {
    match DecodeAll(ks, input)
    case None => None
    case Some((xs, rest)) =>
      match DecodeSeq(k, rest)
      case None => None
      case Some(ys) => Some((xs, ys))
  }

  /** A tuple that ends in a sequence decodes to itself. */
  lemma TailRoundTrip(xs: seq<Item>, ks: seq<Kind>, ys: seq<Item>, k: Kind)
    requires HaveKinds(xs, ks) && AllHaveKind(ys, k)
    ensures DecodeTail(ks, k, EncodeAll(xs) + EncodeAll(ys)) == Some((xs, ys))
  {
    RoundTripAll(xs, ks, EncodeAll(ys));
    SeqRoundTrip(ys, k);
  }

  /** Only encodings decode to one. */
  lemma TailCanonical(ks: seq<Kind>, k: Kind, input: Bytes)
    requires DecodeTail(ks, k, input).Some?
    ensures var (xs, ys) := DecodeTail(ks, k, input).value;
            HaveKinds(xs, ks) && AllHaveKind(ys, k) && input == EncodeAll(xs) + EncodeAll(ys)
  {
    CanonicalAll(ks, input);
    SeqCanonical(k, DecodeAll(ks, input).value.1);
  }

  /** No encoding is a prefix of another of the same type. */
  lemma PrefixFree(x: Item, y: Item, k: Kind)
    requires HasKind(x, k) && HasKind(y, k) && Encode(x) <= Encode(y)
    ensures x == y
  {
    var rest := Encode(y)[|Encode(x)|..];
    assert Encode(y) == Encode(x) + rest == Encode(y) + [];
    RoundTrip(x, k, rest);
    RoundTrip(y, k, []);
  }

  // ---- Order ----

  /** totalOrder of section 5.10 of IEEE 754-2008, on bits: negative values before
      positive ones, the larger magnitude first among negative ones. */
  predicate FloatLess(a: nat, b: nat) {
    if a >= TWO_63 && b >= TWO_63 then a > b else if a < TWO_63 && b < TWO_63 then a < b else a >= TWO_63
  }

  /** The order of keys: fields in turn, enum variants by their position. */
  predicate ItemLess(x: Item, y: Item)
    decreases x
  {
    match (x, y)
    case (Bool(a), Bool(b)) => !a && b
    case (U64(a), U64(b)) => a < b
    case (I64(a), I64(b)) => a < b
    case (F64(a), F64(b)) => FloatLess(a, b)
    case (ByteString(a), ByteString(b)) => Less(a, b)
    case (Enum(a, fs), Enum(b, gs)) => a < b || (a == b && ItemsLess(fs, gs))
    case _ => false
  }

  predicate ItemsLess(xs: seq<Item>, ys: seq<Item>)
    decreases xs
  {
    xs != [] && ys != [] && (ItemLess(xs[0], ys[0]) || (xs[0] == ys[0] && ItemsLess(xs[1..], ys[1..])))
  }

  lemma SignedOrder(i: int, j: int)
    requires -TWO_63 <= i < j < TWO_63
    ensures Before(FlipSign(BigEndian(ToBits(i), 8)), FlipSign(BigEndian(ToBits(j), 8)))
  {
    Limit8();
    SignedCode(i);
    SignedCode(j);
    BigEndianOrder(i + TWO_63, j + TWO_63, 8);
  }

  lemma FloatOrder(a: nat, b: nat)
    requires a < TWO_64 && b < TWO_64 && FloatLess(a, b)
    ensures Before(EncodeFloat(a), EncodeFloat(b))
  {
    Limit8();
    FloatCodeIs(a);
    FloatCodeIs(b);
    BigEndianOrder(FloatCode(a), FloatCode(b), 8);
  }

  lemma EnumOrder(index: nat, index': nat, code: Bytes, code': Bytes)
    requires index < 256 && index' < 256 && (index < index' || (index == index' && Before(code, code')))
    ensures Before([index % 256] + code, [index' % 256] + code')
  {
    if index < index' {
      assert DiffersAt([index % 256] + code, [index' % 256] + code', 0);
    } else {
      BeforeAfter([index % 256], code, code');
    }
  }

  lemma {:induction false} OrderEncoded(x: Item, y: Item, k: Kind)
    requires HasKind(x, k) && HasKind(y, k) && ItemLess(x, y)
    ensures Before(Encode(x), Encode(y))
    decreases x
  {
    Limit8();
    match k
    case BoolKind => assert DiffersAt(Encode(x), Encode(y), 0);
    case U64Kind => BigEndianOrder(x.n, y.n, 8);
    case I64Kind => SignedOrder(x.i, y.i);
    case F64Kind => FloatOrder(x.bits, y.bits);
    case BytesKind(_) => BytesOrder(x.bytes, y.bytes);
    case EnumKind(variants) =>
      if x.index == y.index {
        OrderEncodedAll(x.fields, y.fields, variants[x.index].fields);
      }
      EnumOrder(x.index, y.index, EncodeAll(x.fields), EncodeAll(y.fields));
  }

  lemma {:induction false} OrderEncodedAll(xs: seq<Item>, ys: seq<Item>, ks: seq<Kind>)
    requires HaveKinds(xs, ks) && HaveKinds(ys, ks) && ItemsLess(xs, ys)
    ensures Before(EncodeAll(xs), EncodeAll(ys))
    decreases xs
  {
    if ItemLess(xs[0], ys[0]) {
      OrderEncoded(xs[0], ys[0], ks[0]);
      BeforeExtended(Encode(xs[0]), Encode(ys[0]), EncodeAll(xs[1..]), EncodeAll(ys[1..]));
    } else {
      OrderEncodedAll(xs[1..], ys[1..], ks[1..]);
      BeforeAfter(Encode(xs[0]), EncodeAll(xs[1..]), EncodeAll(ys[1..]));
    }
  }

  lemma {:induction false} OrderTotal(x: Item, y: Item, k: Kind)
    requires HasKind(x, k) && HasKind(y, k)
    ensures x == y || ItemLess(x, y) || ItemLess(y, x)
    decreases x
  {
    match x
    case ByteString(s) => LessTotal(s, y.bytes);
    case Enum(index, fields) =>
      if index == y.index {
        OrderTotalAll(fields, y.fields, k.variants[index].fields);
      }
    case _ =>
  }

  lemma {:induction false} OrderTotalAll(xs: seq<Item>, ys: seq<Item>, ks: seq<Kind>)
    requires HaveKinds(xs, ks) && HaveKinds(ys, ks)
    ensures xs == ys || ItemsLess(xs, ys) || ItemsLess(ys, xs)
    decreases xs
  {
    if xs != [] {
      OrderTotal(xs[0], ys[0], ks[0]);
      OrderTotalAll(xs[1..], ys[1..], ks[1..]);
      assert xs == [xs[0]] + xs[1..] && ys == [ys[0]] + ys[1..];
    }
  }

  /** The order of encoded keys, whatever follows them, is the order of the keys. */
  lemma KeyOrder(x: Item, y: Item, k: Kind, r: Bytes, r': Bytes)
    requires HasKind(x, k) && HasKind(y, k) && x != y
    ensures ItemLess(x, y) <==> Less(Encode(x) + r, Encode(y) + r')
    ensures ItemLess(x, y) <==> Less(Encode(x), Encode(y))
  {
    OrderTotal(x, y, k);
    if ItemLess(x, y) {
      OrderEncoded(x, y, k);
      BeforeExtended(Encode(x), Encode(y), r, r');
      BeforeLess(Encode(x), Encode(y));
      BeforeLess(Encode(x) + r, Encode(y) + r');
    } else {
      OrderEncoded(y, x, k);
      BeforeExtended(Encode(y), Encode(x), r', r);
      BeforeLess(Encode(y), Encode(x));
      BeforeLess(Encode(y) + r', Encode(x) + r);
    }
  }
}
