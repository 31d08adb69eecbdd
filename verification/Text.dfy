/** Strings as the Go standard library treats them; characters are Unicode scalar values. */
module Text {
  import opened Common

  /** unicode.IsSpace */
  predicate IsSpace(c: char) {
    var n := c as int;
    || (9 <= n <= 13) || n == 0x20 || n == 0x85 || n == 0xA0 || n == 0x1680 || (0x2000 <= n <= 0x200A)
    || n == 0x2028 || n == 0x2029 || n == 0x202F || n == 0x205F || n == 0x3000
  }

  function TrimLeft(s: string): string {
    if s != [] && IsSpace(s[0]) then TrimLeft(s[1..]) else s
  }

  function TrimRight(s: string): string {
    if s != [] && IsSpace(s[|s|-1]) then TrimRight(s[..|s|-1]) else s
  }

  /** strings.TrimSpace */
  function Trim(s: string): string {
    TrimRight(TrimLeft(s))
  }

  /** Nothing to trim at either end. */
  predicate Tight(s: string) {
    s != [] && !IsSpace(s[0]) && !IsSpace(s[|s|-1])
  }

  /** strings.Cut at the first occurrence of a character. */
  function Cut(s: string, sep: char): Option<(string, string)> {
    if s == [] then None
    else if s[0] == sep then Some(("", s[1..]))
    else match Cut(s[1..], sep)
         case Some((a, b)) => Some(([s[0]] + a, b))
         case None => None
  }

  lemma {:induction false} CutAt(a: string, b: string, sep: char)
    requires sep !in a
    ensures Cut(a + [sep] + b, sep) == Some((a, b))
  {
    var s := a + [sep] + b;
    if a != [] {
      assert s[1..] == a[1..] + [sep] + b;
      CutAt(a[1..], b, sep);
      assert [a[0]] + a[1..] == a;
    }
  }

  /** Simple case folding onto lower case, as far as strings.EqualFold needs it here. */
  function Fold(c: char): char {
    if 'A' <= c <= 'Z' then c - 'A' + 'a' else if c as int == 0x212A then 'k' else if c as int == 0x17F then 's' else c
  }

  predicate EqualFold(a: string, b: string) {
    && |a| == |b|
    && forall i :: 0 <= i < |a| ==> Fold(a[i]) == Fold(b[i])
  }

  function Join(parts: seq<string>, sep: char): string {
    if parts == [] then "" else if |parts| == 1 then parts[0] else parts[0] + [sep] + Join(parts[1..], sep)
  }

  /** strings.Split */
  function SplitOn(s: string, sep: char): (r: seq<string>)
    ensures r != []
  {
    if s == [] then [""]
    else if s[0] == sep then [""] + SplitOn(s[1..], sep)
    else
      var rest := SplitOn(s[1..], sep);
      [[s[0]] + rest[0]] + rest[1..]
  }

  lemma {:induction false} SplitConcat(a: string, b: string, sep: char)
    ensures SplitOn(a + [sep] + b, sep) == SplitOn(a, sep) + SplitOn(b, sep)
    decreases |a|
  {
    var s := a + [sep] + b;
    if a == [] {
      assert s[0] == sep && s[1..] == b;
    } else {
      assert s[0] == a[0] && s[1..] == a[1..] + [sep] + b;
      SplitConcat(a[1..], b, sep);
    }
  }

  lemma {:induction false} SplitFree(s: string, sep: char)
    requires sep !in s
    ensures SplitOn(s, sep) == [s]
  {
    if s != [] {
      SplitFree(s[1..], sep);
      assert [s[0]] + s[1..] == s;
    }
  }

  lemma JoinCons(a: string, rest: seq<string>, sep: char)
    requires rest != []
    ensures Join([a] + rest, sep) == a + [sep] + Join(rest, sep)
  {
    assert ([a] + rest)[1..] == rest;
  }

  /** Splitting is undone by joining. */
  lemma {:induction false} JoinSplit(s: string, sep: char)
    ensures Join(SplitOn(s, sep), sep) == s
  {
    if s != [] {
      JoinSplit(s[1..], sep);
      var rest := SplitOn(s[1..], sep);
      if s[0] == sep {
        JoinCons("", rest, sep);
        assert "" + [sep] + s[1..] == s;
      } else {
        JoinPrefix([s[0]], rest, sep);
        assert [s[0]] + s[1..] == s;
      }
    }
  }

  lemma JoinPrefix(a: string, parts: seq<string>, sep: char)
    requires parts != []
    ensures Join([a + parts[0]] + parts[1..], sep) == a + Join(parts, sep)
  {
    var longer := [a + parts[0]] + parts[1..];
    assert longer[1..] == parts[1..];
    var tail := [sep] + Join(parts[1..], sep);
    assert (a + parts[0]) + tail == a + (parts[0] + tail);
    assert parts[0] + [sep] + Join(parts[1..], sep) == parts[0] + tail;
    assert longer[0] + [sep] + Join(parts[1..], sep) == longer[0] + tail;
  }

  // ---------------------------------------------------------------- padding

  lemma {:induction false} TrimPadding(pad: string, s: string)
    requires forall i :: 0 <= i < |pad| ==> IsSpace(pad[i])
    ensures Trim(pad + s) == Trim(s)
    decreases |pad|
  {
    if pad == "" {
      assert pad + s == s;
    } else {
      assert (pad + s)[1..] == pad[1..] + s;
      TrimPadding(pad[1..], s);
    }
  }

  lemma {:induction false} TrimRightBlank(s: string, pad: string)
    requires Tight(s) && forall i :: 0 <= i < |pad| ==> IsSpace(pad[i])
    ensures TrimRight(s + pad) == s
    decreases |pad|
  {
    if pad == "" {
      assert s + pad == s;
    } else {
      var n := |pad| - 1;
      assert (s + pad)[..|s + pad|-1] == s + pad[..n];
      TrimRightBlank(s, pad[..n]);
    }
  }

  lemma TrimBothSides(left: string, s: string, right: string)
    requires Tight(s) && (forall i :: 0 <= i < |left| ==> IsSpace(left[i]))
    requires forall i :: 0 <= i < |right| ==> IsSpace(right[i])
    ensures Trim(left + s + right) == s
  {
    assert left + s + right == left + (s + right);
    TrimPadding(left, s + right);
    TrimRightBlank(s, right);
  }

  /** The length of a string in UTF-8 bytes. */
  function Bytes(s: string): nat {
    if s == [] then 0
    else
      var n := s[|s|-1] as int;
      Bytes(s[..|s|-1]) + if n < 0x80 then 1 else if n < 0x800 then 2 else if n < 0x10000 then 3 else 4
  }
}
