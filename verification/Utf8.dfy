/**
 Well-formed UTF-8, which is what a text field of a binary frame has to be (src/rust/message.rs).
 */
module Utf8 {
  import opened Messages

  predicate Tail(b: Byte) {
    0x80 <= b <= 0xBF
  }

  /** Well-formed UTF-8, by the grammar in section 4 of RFC 3629. */
  predicate ValidUtf8(s: Text) {
    || |s| == 0
    || (s[0] <= 0x7F && ValidUtf8(s[1..]))
    || (|s| >= 2 && 0xC2 <= s[0] <= 0xDF && Tail(s[1]) && ValidUtf8(s[2..]))
    || (&& |s| >= 3 && 0xE0 <= s[0] <= 0xEF && Tail(s[1]) && Tail(s[2])
        && (s[0] == 0xE0 ==> 0xA0 <= s[1]) && (s[0] == 0xED ==> s[1] <= 0x9F) && ValidUtf8(s[3..]))
    || (&& |s| >= 4 && 0xF0 <= s[0] <= 0xF4 && Tail(s[1]) && Tail(s[2]) && Tail(s[3])
        && (s[0] == 0xF0 ==> 0x90 <= s[1]) && (s[0] == 0xF4 ==> s[1] <= 0x8F) && ValidUtf8(s[4..]))
  }

  /** The Unicode scalar values: no surrogates. */
  predicate Scalar(c: nat) {
    c < 0xD800 || 0xE000 <= c < 0x110000
  }

  function EncodeScalar(c: nat): Text
    requires Scalar(c)
  {
    if c < 0x80 then [c]
    else if c < 0x800 then [0xC0 + c / 64, 0x80 + c % 64]
    else if c < 0x10000 then [0xE0 + c / 4096, 0x80 + c / 64 % 64, 0x80 + c % 64]
    else [0xF0 + c / 262144, 0x80 + c / 4096 % 64, 0x80 + c / 64 % 64, 0x80 + c % 64]
  }

  function EncodeScalars(cs: seq<nat>): Text
    requires forall i | 0 <= i < |cs| :: Scalar(cs[i])
  {
    if |cs| == 0 then [] else EncodeScalar(cs[0]) + EncodeScalars(cs[1..])
  }

  lemma {:induction false} EncodedIsValid(cs: seq<nat>)
    requires forall i | 0 <= i < |cs| :: Scalar(cs[i])
    ensures ValidUtf8(EncodeScalars(cs))
  {
    if |cs| == 0 {
    } else {
      EncodedIsValid(cs[1..]);
      hide ValidUtf8, EncodeScalar;
      StartsWithScalar(cs[0], EncodeScalars(cs[1..]));
    }
  }

  /** The bytes are one character of the grammar. */
  predicate OneCharacter(s: Text) {
    || (|s| == 1 && s[0] <= 0x7F)
    || (|s| == 2 && 0xC2 <= s[0] <= 0xDF && Tail(s[1]))
    || (&& |s| == 3 && 0xE0 <= s[0] <= 0xEF && Tail(s[1]) && Tail(s[2])
        && (s[0] == 0xE0 ==> 0xA0 <= s[1]) && (s[0] == 0xED ==> s[1] <= 0x9F))
    || (&& |s| == 4 && 0xF0 <= s[0] <= 0xF4 && Tail(s[1]) && Tail(s[2]) && Tail(s[3])
        && (s[0] == 0xF0 ==> 0x90 <= s[1]) && (s[0] == 0xF4 ==> s[1] <= 0x8F))
  }

  lemma ShortEncoding(c: nat)
    requires c < 0x800
    ensures OneCharacter(EncodeScalar(c))
  {
  }

  lemma ThreeByteEncoding(c: nat)
    requires 0x800 <= c < 0x10000 && Scalar(c)
    ensures OneCharacter(EncodeScalar(c))
  {
    assert c / 4096 * 4096 + c / 64 % 64 * 64 + c % 64 == c;
  }

  lemma FourByteEncoding(c: nat)
    requires 0x10000 <= c && Scalar(c)
    ensures OneCharacter(EncodeScalar(c))
  {
    assert c / 262144 * 262144 + c / 4096 % 64 * 4096 + c / 64 % 64 * 64 + c % 64 == c;
  }

  lemma EncodedIsOneCharacter(c: nat)
    requires Scalar(c)
    ensures OneCharacter(EncodeScalar(c))
  {
    hide EncodeScalar;
    if c < 0x800 {
      ShortEncoding(c);
    } else if c < 0x10000 {
      ThreeByteEncoding(c);
    } else {
      FourByteEncoding(c);
    }
  }

  lemma CharacterThenText(first: Text, rest: Text)
    requires OneCharacter(first) && ValidUtf8(rest)
    ensures ValidUtf8(first + rest)
  {
    var s := first + rest;
    assert s[|first|..] == rest;
    assert forall i | 0 <= i < |first| :: s[i] == first[i];
  }

  lemma StartsWithScalar(c: nat, rest: Text)
    requires Scalar(c) && ValidUtf8(rest)
    ensures ValidUtf8(EncodeScalar(c) + rest)
  {
    hide EncodeScalar, OneCharacter, ValidUtf8;
    EncodedIsOneCharacter(c);
    CharacterThenText(EncodeScalar(c), rest);
  }

  lemma Digits(a: nat, b: nat, c: nat, d: nat)
    requires b < 64 && c < 64 && d < 64
    ensures (a * 64 + b) / 64 == a && (a * 64 + b) % 64 == b
    ensures var n := a * 4096 + b * 64 + c; n / 4096 == a && n / 64 % 64 == b && n % 64 == c
    ensures var n := a * 262144 + b * 4096 + c * 64 + d;
            n / 262144 == a && n / 4096 % 64 == b && n / 64 % 64 == c && n % 64 == d
  {
    var n := a * 4096 + b * 64 + c;
    assert n / 64 == a * 64 + b;
    var m := a * 262144 + b * 4096 + c * 64 + d;
    assert m / 64 == a * 4096 + b * 64 + c && m / 4096 == a * 64 + b;
  }

  lemma TwoBytes(s0: nat, s1: nat) returns (c: nat)
    requires 0xC2 <= s0 <= 0xDF && 0x80 <= s1 <= 0xBF
    ensures Scalar(c) && EncodeScalar(c) == [s0, s1]
  {
    Digits(s0 - 0xC0, s1 - 0x80, 0, 0);
    c := (s0 - 0xC0) * 64 + (s1 - 0x80);
  }

  lemma ThreeBytes(s0: nat, s1: nat, s2: nat) returns (c: nat)
    requires 0xE0 <= s0 <= 0xEF && 0x80 <= s1 <= 0xBF && 0x80 <= s2 <= 0xBF
    requires (s0 == 0xE0 ==> 0xA0 <= s1) && (s0 == 0xED ==> s1 <= 0x9F)
    ensures Scalar(c) && EncodeScalar(c) == [s0, s1, s2]
  {
    Digits(s0 - 0xE0, s1 - 0x80, s2 - 0x80, 0);
    c := (s0 - 0xE0) * 4096 + (s1 - 0x80) * 64 + (s2 - 0x80);
  }

  lemma FourBytes(s0: nat, s1: nat, s2: nat, s3: nat) returns (c: nat)
    requires 0xF0 <= s0 <= 0xF4 && 0x80 <= s1 <= 0xBF && 0x80 <= s2 <= 0xBF && 0x80 <= s3 <= 0xBF
    requires (s0 == 0xF0 ==> 0x90 <= s1) && (s0 == 0xF4 ==> s1 <= 0x8F)
    ensures Scalar(c) && EncodeScalar(c) == [s0, s1, s2, s3]
  {
    Digits(s0 - 0xF0, s1 - 0x80, s2 - 0x80, s3 - 0x80);
    c := (s0 - 0xF0) * 262144 + (s1 - 0x80) * 4096 + (s2 - 0x80) * 64 + (s3 - 0x80);
  }

  /** The scalar value at the front of well-formed bytes. */
  lemma FirstScalar(s: Text) returns (c: nat, size: nat)
    requires ValidUtf8(s) && s != []
    ensures Scalar(c) && 0 < size <= |s| && EncodeScalar(c) == s[..size] && ValidUtf8(s[size..])
  {
    hide EncodeScalar, Scalar;
    if s[0] <= 0x7F {
      c, size := s[0], 1;
      OneByte(c);
    } else if s[0] <= 0xDF {
      size := 2;
      c := TwoBytes(s[0], s[1]);
    } else if s[0] <= 0xEF {
      size := 3;
      c := ThreeBytes(s[0], s[1], s[2]);
    } else {
      size := 4;
      c := FourBytes(s[0], s[1], s[2], s[3]);
    }
  }

  lemma OneByte(c: nat)
    requires c < 0x80
    ensures Scalar(c) && EncodeScalar(c) == [c]
  {
  }

  /** The grammar accepts exactly the encodings of sequences of Unicode scalar values. */
  lemma {:induction false} ValidUtf8IsEncoded(s: Text)
    ensures ValidUtf8(s)
            <==> exists cs: seq<nat> :: (forall i | 0 <= i < |cs| :: Scalar(cs[i])) && EncodeScalars(cs) == s
  {
    if ValidUtf8(s) {
      var cs := Scalars(s);
    }
    forall cs: seq<nat> | (forall i | 0 <= i < |cs| :: Scalar(cs[i])) && EncodeScalars(cs) == s ensures ValidUtf8(s) {
      EncodedIsValid(cs);
    }
  }

  lemma {:induction false} Scalars(s: Text) returns (cs: seq<nat>)
    requires ValidUtf8(s)
    ensures (forall i | 0 <= i < |cs| :: Scalar(cs[i])) && EncodeScalars(cs) == s
  {
    hide EncodeScalar;
    if s == [] {
      cs := [];
    } else {
      var c, size := FirstScalar(s);
      var rest := Scalars(s[size..]);
      cs := [c] + rest;
      assert cs[1..] == rest;
      assert s == s[..size] + s[size..];
    }
  }
}
