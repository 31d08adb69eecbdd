/** Truncation of error texts to a byte limit without cutting a character; UTF-8 as in section 4 of RFC 3629. */
module Utf8 {
  type Byte = x: int | 0 <= x < 256

  predicate Tail(b: Byte) {
    0x80 <= b <= 0xBF
  }

  /** The length of the well-formed character at the start of s, or 0 if there is none. */
  function CharLen(s: seq<Byte>): (n: nat)
    ensures n <= 4 && n <= |s|
  {
    if s == [] then 0
    else if s[0] <= 0x7F then 1
    else if 0xC2 <= s[0] <= 0xDF then if |s| >= 2 && Tail(s[1]) then 2 else 0
    else if 0xE0 <= s[0] <= 0xEF then if |s| >= 3 && SecondOk(s[0], s[1]) && Tail(s[2]) then 3 else 0
    else if 0xF0 <= s[0] <= 0xF4 then if |s| >= 4 && SecondOk(s[0], s[1]) && Tail(s[2]) && Tail(s[3]) then 4 else 0
    else 0
  }

  /** No overlong forms, no surrogates, nothing above 10FFFF. */
  predicate SecondOk(lead: Byte, b: Byte) {
    if lead == 0xE0 then 0xA0 <= b <= 0xBF
    else if lead == 0xED then 0x80 <= b <= 0x9F
    else if lead == 0xF0 then 0x90 <= b <= 0xBF
    else if lead == 0xF4 then 0x80 <= b <= 0x8F
    else Tail(b)
  }

  predicate Valid(s: seq<Byte>)
    decreases |s|
  {
    s == [] || (CharLen(s) > 0 && Valid(s[CharLen(s)..]))
  }

  method TruncateUTF8(value: seq<Byte>, maxBytes: nat) returns (r: seq<Byte>)
    ensures |value| <= maxBytes ==> r == value
    ensures |value| > maxBytes ==> r <= value && |r| <= maxBytes && Valid(r)
    ensures |value| > maxBytes ==> forall k :: |r| < k <= maxBytes ==> !Valid(value[..k])
    ensures |value| > maxBytes && Valid(value) ==> |r| + 3 >= maxBytes
  {
    if |value| <= maxBytes { return value; }
    r := value[..maxBytes];
    while !Valid(r)
      invariant |r| <= maxBytes && r == value[..|r|]
      invariant forall k :: |r| < k <= maxBytes ==> !Valid(value[..k])
      decreases |r|
    {
      r := r[..|r| - 1];
      assert r == value[..|r|];
    }
    if Valid(value) { ghost var b := BoundaryNearby(value, maxBytes); }
  }

  // ---------------------------------------------------------------- an independent reference: encoding characters

  /** A Unicode scalar value. */
  type Scalar = x: int | 0 <= x < 0xD800 || 0xE000 <= x <= 0x10FFFF

  /** Section 3 of RFC 3629. */
  function Encode(c: Scalar): (s: seq<Byte>)
    ensures 1 <= |s| <= 4
  {
    if c < 0x80 then [c]
    else if c < 0x800 then [0xC0 + c / 64, 0x80 + c % 64]
    else if c < 0x10000 then [0xE0 + c / 64 / 64, 0x80 + c / 64 % 64, 0x80 + c % 64]
    else [0xF0 + c / 64 / 64 / 64, 0x80 + c / 64 / 64 % 64, 0x80 + c / 64 % 64, 0x80 + c % 64]
  }

  lemma EncodedChar(c: Scalar, rest: seq<Byte>)
    ensures CharLen(Encode(c) + rest) == |Encode(c)|
  {
  }

  /** Every encoding of a text is valid. */
  function EncodeAll(cs: seq<Scalar>): (s: seq<Byte>)
    ensures Valid(s)
  {
    if cs == [] then []
    else
      var rest := EncodeAll(cs[1..]);
      EncodedChar(cs[0], rest);
      assert (Encode(cs[0]) + rest)[|Encode(cs[0])|..] == rest;
      Encode(cs[0]) + rest
  }

  /** Every well-formed character is the encoding of a scalar value. */
  lemma FirstChar(s: seq<Byte>) returns (c: Scalar)
    requires CharLen(s) > 0
    ensures Encode(c) == s[..CharLen(s)]
  {
    match CharLen(s)
    case 1 => c := s[0]; assert s[..1] == [s[0]];
    case 2 => c := (s[0] - 0xC0) as int * 64 + (s[1] - 0x80); assert s[..2] == [s[0], s[1]];
    case 3 => c := FirstChar3(s);
    case _ => c := FirstChar4(s);
  }

  lemma FirstChar3(s: seq<Byte>) returns (c: Scalar)
    requires CharLen(s) == 3
    ensures Encode(c) == s[..3]
  {
    var b0: nat, b1: nat, b2: nat := s[0] - 0xE0, s[1] - 0x80, s[2] - 0x80;
    c := (b0 * 64 + b1) * 64 + b2;
    assert s[..3] == [s[0], s[1], s[2]];
  }

  lemma FirstChar4(s: seq<Byte>) returns (c: Scalar)
    requires CharLen(s) == 4
    ensures Encode(c) == s[..4]
  {
    var b0: nat, b1: nat, b2: nat, b3: nat := s[0] - 0xF0, s[1] - 0x80, s[2] - 0x80, s[3] - 0x80;
    Decoded4(b0, b1, b2, b3);
    c := ((b0 * 64 + b1) * 64 + b2) * 64 + b3;
    assert s[..4] == [s[0], s[1], s[2], s[3]];
  }

  lemma Decoded4(a: nat, b: nat, c: nat, d: nat)
    requires a <= 4 && b < 64 && c < 64 && d < 64 && (a == 0 ==> b >= 16)
    ensures var x := ((a * 64 + b) * 64 + c) * 64 + d;
            0x10000 <= x && x / 64 / 64 / 64 == a && x / 64 / 64 % 64 == b && x / 64 % 64 == c && x % 64 == d
  {
  }

  lemma CharAndRest(s: seq<Byte>, n: nat, c: Scalar, rest: seq<Scalar>)
    requires n <= |s| && Encode(c) == s[..n] && EncodeAll(rest) == s[n..]
    ensures EncodeAll([c] + rest) == s
  {
    assert s[..n] + s[n..] == s;
  }

  /** The byte grammar accepts exactly the encodings of character sequences. */
  lemma {:induction false} ValidIsEncoded(s: seq<Byte>) returns (cs: seq<Scalar>)
    requires Valid(s)
    ensures EncodeAll(cs) == s
    decreases |s|
  {
    if s == [] {
      return [];
    }
    var n := CharLen(s);
    var c := FirstChar(s);
    var rest := ValidIsEncoded(s[n..]);
    CharAndRest(s, n, c, rest);
    cs := [c] + rest;
  }

  lemma SliceTwice(s: seq<Byte>, n: nat, k: nat)
    requires n <= k <= |s|
    ensures s[..k][n..] == s[n..][..k - n]
    ensures s[..k] == s[..n] + s[n..][..k - n]
  {
  }

  /** A valid prefix of encoded text ends between two characters. */
  lemma {:induction false} PrefixEndsAtCharacter(cs: seq<Scalar>, k: nat) returns (j: nat)
    requires k <= |EncodeAll(cs)| && Valid(EncodeAll(cs)[..k])
    ensures j <= |cs| && EncodeAll(cs)[..k] == EncodeAll(cs[..j])
    decreases cs
  {
    if k == 0 {
      return 0;
    }
    var s, n, rest := EncodeAll(cs), |Encode(cs[0])|, cs[1..];
    EncodedChar(cs[0], EncodeAll(rest));
    SliceTwice(s, n, k);
    assert s[..n] == Encode(cs[0]) && s[n..] == EncodeAll(rest);
    j := PrefixEndsAtCharacter(rest, k - n);
    assert cs[..j + 1] == [cs[0]] + rest[..j];
    j := j + 1;
  }

  /** Every position of a valid text is less than four bytes past the end of a character. */
  lemma {:induction false} BoundaryNearby(s: seq<Byte>, k: nat) returns (b: nat)
    requires Valid(s) && k <= |s|
    ensures b <= k < b + 4 && Valid(s[..b])
    decreases |s|
  {
    var c := CharLen(s);
    if k == 0 || k < c {
      return 0;
    }
    var rest := BoundaryNearby(s[c..], k - c);
    b := c + rest;
    assert s[..b][c..] == s[c..][..rest];
  }

  /**
   Truncating the encoding of a text keeps its longest run of leading characters that fits, and loses
   at most three bytes of the limit. `r` is any result that meets the contract of TruncateUTF8.
   */
  lemma TruncationCutsWholeCharacters(cs: seq<Scalar>, maxBytes: nat, r: seq<Byte>) returns (j: nat)
    requires |EncodeAll(cs)| > maxBytes
    requires r <= EncodeAll(cs) && |r| <= maxBytes && Valid(r)
    requires forall k :: |r| < k <= maxBytes ==> !Valid(EncodeAll(cs)[..k])
    ensures j < |cs|
    ensures r == EncodeAll(cs[..j])
    ensures |EncodeAll(cs[..j + 1])| > maxBytes
    ensures |r| + 3 >= maxBytes
  {
    var s := EncodeAll(cs);
    var b := BoundaryNearby(s, maxBytes);
    assert s[..|r|] == r;
    j := PrefixEndsAtCharacter(cs, |r|);
    assert cs[..|cs|] == cs;
    PrefixEncodes(cs, j + 1);
    AppendEncodes(cs[..j], cs[j]);
    assert cs[..j] + [cs[j]] == cs[..j + 1];
  }

  lemma {:induction false} PrefixEncodes(cs: seq<Scalar>, j: nat)
    requires j <= |cs|
    ensures |EncodeAll(cs[..j])| <= |EncodeAll(cs)|
    ensures EncodeAll(cs)[..|EncodeAll(cs[..j])|] == EncodeAll(cs[..j])
    decreases cs
  {
    if j > 0 {
      PrefixEncodes(cs[1..], j - 1);
      assert cs[..j][1..] == cs[1..][..j - 1];
    }
  }

  lemma {:induction false} AppendEncodes(cs: seq<Scalar>, c: Scalar)
    ensures EncodeAll(cs + [c]) == EncodeAll(cs) + Encode(c)
    decreases cs
  {
    if cs != [] {
      assert (cs + [c])[1..] == cs[1..] + [c];
      AppendEncodes(cs[1..], c);
    } else {
      assert EncodeAll([c]) == Encode(c) + EncodeAll([]);
    }
  }

  /** On text that is not valid UTF-8 the rule is the same, but a bad first byte loses everything. */
  lemma BadLeadLosesAll(value: seq<Byte>, maxBytes: nat, r: seq<Byte>)
    requires |value| > maxBytes && CharLen(value) == 0
    requires r <= value && |r| <= maxBytes && Valid(r)
    ensures r == []
  {
  }
}
