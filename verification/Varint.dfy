/** Unsigned LEB128 (DWARF Version 5, section 7.6) in the multiformats form:
    seven bits a byte, least significant first, no padding byte at the end. */
module Varint {
  import opened Basics

  datatype Error = Insufficient | Overflow | NotMinimal

  datatype Reading = Reading(value: nat, used: nat)

  const U8: nat := 0x100
  const U64: nat := 0x1_0000_0000_0000_0000

  function Pow128(k: nat): (p: nat)
    ensures p >= 1
  {
    if k == 0 then 1 else 128 * Pow128(k - 1)
  }

  function Encode(v: nat): (b: Bytes)
    ensures |b| >= 1
  {
    if v < 128 then [v] else [128 + v % 128] + Encode(v / 128)
  }

  /** How many bytes a number below `bound` can take. */
  function Width(bound: nat): (w: nat)
    ensures w >= 1
  {
    if bound == 0 then 1 else |Encode(bound - 1)|
  }

  /** Reads one number of at most `room` bytes from the front of b. `first` says
      whether a zero byte may end the number here: it may only when it is the whole
      number. */
  function DecodeRaw(b: Bytes, first: bool, room: nat): (r: Result<Reading, Error>)
    ensures r.Ok? ==> 1 <= r.value.used <= |b| && r.value.used <= room
  {
    if room == 0 then Err(Overflow)
    else if b == [] then Err(Insufficient)
    else if b[0] < 128 then
      if b[0] == 0 && !first then Err(NotMinimal) else Ok(Reading(b[0], 1))
    else match DecodeRaw(b[1..], false, room - 1)
         case Ok(rest) => Ok(Reading(b[0] - 128 + 128 * rest.value, 1 + rest.used))
         case Err(e) => Err(e)
  }

  /** Reads a number that must lie below `bound`. */
  function Decode(b: Bytes, bound: nat): (r: Result<Reading, Error>)
    ensures r.Ok? ==> 1 <= r.value.used <= |b| && r.value.value < bound
  {
    match DecodeRaw(b, true, Width(bound))
    case Err(e) => Err(e)
    case Ok(x) => if x.value < bound then Ok(x) else Err(Overflow)
  }

  lemma {:induction false} RawRoundTrip(v: nat, rest: Bytes, first: bool, room: nat)
    requires first || v > 0
    requires |Encode(v)| <= room
    ensures DecodeRaw(Encode(v) + rest, first, room) == Ok(Reading(v, |Encode(v)|))
  {
    var b := Encode(v) + rest;
    if v < 128 {
    } else {
      RawRoundTrip(v / 128, rest, false, room - 1);
      assert b[1..] == Encode(v / 128) + rest;
    }
  }

  /** Larger numbers take no fewer bytes. */
  lemma {:induction false} EncodeGrows(v: nat, w: nat)
    requires v <= w
    ensures |Encode(v)| <= |Encode(w)|
  {
    if v < 128 {
    } else {
      EncodeGrows(v / 128, w / 128);
    }
  }

  /** Decoding undoes encoding, whatever follows, and takes exactly the encoding. */
  lemma RoundTrip(v: nat, rest: Bytes, bound: nat)
    requires v < bound
    ensures Decode(Encode(v) + rest, bound) == Ok(Reading(v, |Encode(v)|))
  {
    EncodeGrows(v, bound - 1);
    RawRoundTrip(v, rest, true, Width(bound));
  }

  /** A reader gives up as soon as the bytes a number may take have all asked for
      more, whether or not the stream goes on; a stream that ends earlier is cut off. */
  lemma {:induction false} RawContinues(b: Bytes, first: bool, room: nat)
    requires forall i :: 0 <= i < |b| && i < room ==> b[i] >= 128
    ensures DecodeRaw(b, first, room) == if |b| < room then Err(Insufficient) else Err(Overflow)
  {
    if room == 0 || b == [] {
    } else {
      RawContinues(b[1..], false, room - 1);
    }
  }

  /** Ten bytes that all ask for more are too long for a 64-bit number, two for a byte. */
  lemma Continues(b: Bytes, bound: nat)
    requires forall i :: 0 <= i < |b| && i < Width(bound) ==> b[i] >= 128
    ensures Decode(b, bound) == if |b| < Width(bound) then Err(Insufficient) else Err(Overflow)
    ensures Width(U64) == 10 && Width(U8) == 2
  {
    RawContinues(b, true, Width(bound));
    U64Length(U64 - 1);
    EncodeLength(U64 - 1, 9);
    Powers();
    assert Encode(255) == [255] + Encode(1) && Encode(1) == [1];
  }

  lemma {:induction false} RawCutOff(b: Bytes, first: bool, room: nat)
    requires DecodeRaw(b, first, room) == Err(Insufficient)
    ensures |b| < room && forall i :: 0 <= i < |b| ==> b[i] >= 128
  {
    if b == [] {
    } else {
      RawCutOff(b[1..], false, room - 1);
      assert forall i :: 0 < i < |b| ==> b[i] == b[1..][i - 1];
    }
  }

  /** A number is cut off exactly when every byte there is asks for more and fewer than
      it may take are there; too large a number is never taken for one cut off. */
  lemma CutOffExactly(b: Bytes, bound: nat)
    ensures Decode(b, bound) == Err(Insufficient) <==> |b| < Width(bound) && forall i :: 0 <= i < |b| ==> b[i] >= 128
  {
    if Decode(b, bound) == Err(Insufficient) {
      RawCutOff(b, true, Width(bound));
    } else if |b| < Width(bound) && forall i :: 0 <= i < |b| ==> b[i] >= 128 {
      Continues(b, bound);
    }
  }

  lemma {:induction false} RawCanonical(b: Bytes, first: bool, room: nat)
    requires DecodeRaw(b, first, room).Ok?
    ensures var x := DecodeRaw(b, first, room).value; Encode(x.value) == b[..x.used] && (first || x.value > 0)
  {
    if b[0] < 128 {
    } else {
      RawCanonical(b[1..], false, room - 1);
      var rest := DecodeRaw(b[1..], false, room - 1).value;
      var v := b[0] - 128 + 128 * rest.value;
      assert v / 128 == rest.value && v % 128 == b[0] - 128;
      assert b[..1 + rest.used] == [b[0]] + b[1..][..rest.used];
    }
  }

  /** Encoding undoes decoding: the only accepted form of a number is its encoding. */
  lemma Canonical(b: Bytes, bound: nat)
    requires Decode(b, bound).Ok?
    ensures var x := Decode(b, bound).value; Encode(x.value) == b[..x.used]
  {
    RawCanonical(b, true, Width(bound));
  }

  /** No encoding is a prefix of another. */
  lemma PrefixFree(v: nat, w: nat)
    requires Encode(v) <= Encode(w)
    ensures v == w
  {
    var rest := Encode(w)[|Encode(v)|..];
    assert Encode(w) == Encode(v) + rest;
    RawRoundTrip(v, rest, true, |Encode(w)|);
    RawRoundTrip(w, [], true, |Encode(w)|);
    assert Encode(w) + [] == Encode(w);
  }

  /** The i-th base-128 digit of a number, least significant first. */
  function Digit(v: nat, i: nat): nat {
    v / Pow128(i) % 128
  }

  /** The i-th byte holds the i-th base-128 digit and says whether more follow. */
  lemma {:induction false} Digits(v: nat, i: nat)
    requires i < |Encode(v)|
    ensures Encode(v)[i] == Digit(v, i) + if i < |Encode(v)| - 1 then 128 else 0
  {
    if i == 0 {
      FirstDigit(v);
    } else {
      Digits(v / 128, i - 1);
      NextDigit(v, i - 1);
    }
  }

  lemma FirstDigit(v: nat)
    ensures Digit(v, 0) == v % 128
  {
    assert Pow128(0) == 1;
  }

  lemma NextDigit(v: nat, i: nat)
    ensures Digit(v / 128, i) == Digit(v, i + 1)
  {
    var p := Pow128(i);
    var q := v / (128 * p);
    var m := v % (128 * p);
    assert v == 128 * p * q + m;
    assert m / 128 < p by {
      assert m < p * 128;
    }
    assert v / 128 == p * q + m / 128 by {
      assert v == 128 * (p * q) + m;
    }
    DivideSum(p, q, m / 128);
  }

  lemma DivideSum(p: nat, q: nat, r: nat)
    requires r < p
    ensures (p * q + r) / p == q
  {
    var d := (p * q + r) / p;
    assert p * d <= p * q + r < p * d + p;
    if d < q {
      Scaled(p, d + 1, q);
    } else if d > q {
      Scaled(p, q + 1, d);
    }
  }

  lemma Scaled(p: nat, a: nat, b: nat)
    requires a <= b
    ensures p * a <= p * b
  {
  }

  /** A number cut short of its last byte is incomplete, whatever the bound it fits. */
  lemma CutShort(v: nat, k: nat, bound: nat)
    requires v < bound && k < |Encode(v)|
    ensures Decode(Encode(v)[..k], bound) == Err(Insufficient)
  {
    EncodeGrows(v, bound - 1);
    forall i | 0 <= i < k ensures Encode(v)[..k][i] >= 128 {
      Digits(v, i);
    }
    Continues(Encode(v)[..k], bound);
  }

  /** The length of an encoding is the number of base-128 digits of the number. */
  lemma {:induction false} EncodeLength(v: nat, k: nat)
    requires k >= 1
    ensures |Encode(v)| <= k <==> v < Pow128(k)
  {
    if v < 128 {
      assert Pow128(k) == 128 * Pow128(k - 1);
    } else if k == 1 {
      assert Pow128(1) == 128 * Pow128(0);
    } else {
      EncodeLength(v / 128, k - 1);
    }
  }

  /** A 64-bit number takes at most ten bytes. */
  lemma U64Length(v: nat)
    requires v < U64
    ensures |Encode(v)| <= 10
  {
    EncodeLength(v, 10);
    Powers();
  }

  lemma Powers()
    ensures Pow128(9) == 0x8000_0000_0000_0000
    ensures Pow128(10) == 128 * Pow128(9)
  {
    assert Pow128(4) == 0x1000_0000;
    assert Pow128(8) == 0x100_0000_0000_0000;
  }
}
