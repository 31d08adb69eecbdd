/** Printing a chain of addresses as a Forwarded header and parsing it gives the chain back. */
module ForwardedRoundTrip {
  import opened Common
  import opened Text
  import opened Forwarded

  // ---------------------------------------------------------------- printing

  predicate TokenChar(c: char) {
    && !IsSpace(c)
    && !Control(c)
    && c !in ['"', ',', ';', '=', '\\']
  }

  predicate Token(s: string) {
    && s != []
    && forall i :: 0 <= i < |s| ==> TokenChar(s[i])
  }

  /** A character of a quoted-string, and whether it is written with a backslash. */
  datatype QChar = QChar(c: char, escaped: bool)

  predicate ValidQuoted(body: seq<QChar>) {
    forall i :: 0 <= i < |body| ==> !Control(body[i].c) && (body[i].c in ['"', '\\'] ==> body[i].escaped)
  }

  function Encode(body: seq<QChar>): string {
    if body == [] then "" else (if body[0].escaped then "\\" else "") + [body[0].c] + Encode(body[1..])
  }

  datatype Value = TokenValue(text: string) | QuotedValue(body: seq<QChar>)

  /** An extension parameter: any name but `for`. */
  datatype Ext = Ext(name: string, value: Value)

  /** Optional whitespace around a separator. */
  datatype Pad = Pad(left: string, right: string)

  predicate Blank(s: string) {
    forall i :: 0 <= i < |s| ==> s[i] == ' ' || s[i] == '\t'
  }

  /**
   One element: its parameters, the whitespace around each of them, and the whitespace around the whole.
   At the ends of an element there is only the latter.
   */
  datatype Element = Element(before: seq<Ext>, forName: string, addr: Addr, quoted: bool, after: seq<Ext>,
                             pads: seq<Pad>, around: Pad)

  predicate ValidExt(p: Ext) {
    Token(p.name) && !EqualFold(p.name, "for")
    && match p.value case TokenValue(t) => Token(t) case QuotedValue(b) => ValidQuoted(b)
  }

  /** An address there is: 32 or 128 bits. */
  predicate Real(a: Addr) {
    a.zone == "" && a.bits < if a.is6 then IPV6_SIZE else IPV4_SIZE
  }

  const IPV4_SIZE: nat := 0x1_0000_0000
  const IPV6_SIZE: nat := 0x1_0000_0000_0000_0000_0000_0000_0000_0000

  /** Zone-free, not unspecified, not IPv4-mapped. */
  predicate Printable(a: Addr) {
    Real(a) && !Unspecified(a) && !Mapped(a)
  }

  predicate ValidPads(pads: seq<Pad>, n: nat) {
    && |pads| == n > 0
    && (forall i :: 0 <= i < n ==> Blank(pads[i].left) && Blank(pads[i].right))
    && pads[0].left == "" && pads[n - 1].right == ""
  }

  predicate ValidElement(e: Element) {
    && (forall i :: 0 <= i < |e.before| ==> ValidExt(e.before[i]))
    && (forall i :: 0 <= i < |e.after| ==> ValidExt(e.after[i]))
    && EqualFold(e.forName, "for")
    && Printable(e.addr)
    && ValidPads(e.pads, |e.before| + 1 + |e.after|)
    && Blank(e.around.left)
    && Blank(e.around.right)
  }

  function ValueText(v: Value): string {
    match v case TokenValue(t) => t case QuotedValue(b) => "\"" + Encode(b) + "\""
  }

  /** IPv6 addresses stand in brackets and quotes; IPv4 addresses may be quoted. */
  function NodeText(codec: Codec, a: Addr, quoted: bool): string {
    if a.is6 then "\"[" + codec.format(a) + "]\"" else if quoted then "\"" + codec.format(a) + "\"" else codec.format(a)
  }

  function ExtTexts(ps: seq<Ext>): seq<string> {
    seq(|ps|, i requires 0 <= i < |ps| => ps[i].name + "=" + ValueText(ps[i].value))
  }

  function ParamTexts(codec: Codec, e: Element): seq<string> {
    ExtTexts(e.before) + [e.forName + "=" + NodeText(codec, e.addr, e.quoted)] + ExtTexts(e.after)
  }

  function Padded(s: string, p: Pad): string {
    p.left + s + p.right
  }

  function AllPadded(parts: seq<string>, pads: seq<Pad>): seq<string>
    requires |pads| == |parts|
  {
    seq(|parts|, i requires 0 <= i < |parts| => Padded(parts[i], pads[i]))
  }

  function ElementText(codec: Codec, e: Element): string
    requires ValidElement(e)
  {
    Join(AllPadded(ParamTexts(codec, e), e.pads), ';')
  }

  ghost predicate ValidElements(es: seq<Element>) {
    forall i :: 0 <= i < |es| ==> ValidElement(es[i])
  }

  function ElementTexts(codec: Codec, es: seq<Element>): seq<string>
    requires ValidElements(es)
  {
    seq(|es|, i requires 0 <= i < |es| => ElementText(codec, es[i]))
  }

  function Arounds(es: seq<Element>): seq<Pad> {
    seq(|es|, i requires 0 <= i < |es| => es[i].around)
  }

  function HeaderText(codec: Codec, es: seq<Element>): string
    requires ValidElements(es)
  {
    Join(AllPadded(ElementTexts(codec, es), Arounds(es)), ',')
  }

  predicate AddressChar(c: char) {
    '0' <= c <= '9' || 'a' <= c <= 'f' || c == '.' || c == ':'
  }

  /** What the address library promises about zone-free addresses. */
  ghost predicate Lawful(codec: Codec) {
    forall a: Addr :: Real(a) ==>
      && codec.parse(codec.format(a)) == Some(a)
      && codec.format(a) != ""
      && (forall i :: 0 <= i < |codec.format(a)| ==> AddressChar(codec.format(a)[i]))
      && codec.parsePort(codec.format(a)).None?
      && codec.parsePort("[" + codec.format(a) + "]").None?
  }

  // ---------------------------------------------------------------- sealed texts

  /** Reading s from mode m never meets the separator outside quotes. */
  predicate Sealed(m: Mode, s: string, sep: char)
    decreases |s|
  {
    s == [] || (!(m.Plain? && s[0] == sep) && Sealed(Next(m, s[0]), s[1..], sep))
  }

  lemma {:induction false} SealedConcat(m: Mode, a: string, b: string, sep: char)
    requires Sealed(m, a, sep) && Sealed(Scan(m, a), b, sep)
    ensures Sealed(m, a + b, sep)
    decreases |a|
  {
    if a == [] {
      assert a + b == b;
    } else {
      assert (a + b)[0] == a[0] && (a + b)[1..] == a[1..] + b;
      SealedConcat(Next(m, a[0]), a[1..], b, sep);
    }
  }

  lemma {:induction false} SealedIsOnePiece(m: Mode, a: string, sep: char)
    requires Sealed(m, a, sep)
    ensures Pieces(m, a, sep) == [a]
    decreases |a|
  {
    if a != [] {
      SealedIsOnePiece(Next(m, a[0]), a[1..], sep);
      assert [a[0]] + a[1..] == a;
    }
  }

  lemma {:induction false} SealedThenSeparator(m: Mode, a: string, b: string, sep: char)
    requires Sealed(m, a, sep) && Scan(m, a).Plain?
    ensures Pieces(m, a + [sep] + b, sep) == [a] + Pieces(Plain, b, sep)
    decreases |a|
  {
    var s := a + [sep] + b;
    if a == [] {
      assert s[0] == sep && s[1..] == b;
    } else {
      assert s[0] == a[0] && s[1..] == a[1..] + [sep] + b;
      SealedThenSeparator(Next(m, a[0]), a[1..], b, sep);
      assert [a[0]] + a[1..] == a;
    }
  }

  /** Balanced and unsplittable. */
  ghost predicate Even(s: string, sep: char) {
    && NoControl(s)
    && Scan(Plain, s).Plain?
    && Sealed(Plain, s, sep)
  }

  /** A text that can stand as a parameter: even, and with nothing to trim. */
  ghost predicate Neat(s: string, sep: char) {
    Tight(s) && Even(s, sep)
  }

  ghost predicate AllEven(parts: seq<string>, sep: char) {
    forall i :: 0 <= i < |parts| ==> Even(parts[i], sep)
  }

  ghost predicate AllNeat(parts: seq<string>, sep: char) {
    forall i :: 0 <= i < |parts| ==> Neat(parts[i], sep)
  }

  lemma {:induction false} PiecesOfJoin(parts: seq<string>, sep: char)
    requires parts != [] && AllEven(parts, sep)
    ensures Pieces(Plain, Join(parts, sep), sep) == parts
    decreases parts
  {
    if |parts| == 1 {
      SealedIsOnePiece(Plain, parts[0], sep);
    } else {
      PiecesOfJoin(parts[1..], sep);
      SealedThenSeparator(Plain, parts[0], Join(parts[1..], sep), sep);
      assert [parts[0]] + parts[1..] == parts;
    }
  }

  lemma EvenConcat(a: string, b: string, sep: char)
    requires Even(a, sep) && Even(b, sep)
    ensures Even(a + b, sep)
  {
    ScanConcat(Plain, a, b);
    SealedConcat(Plain, a, b, sep);
  }

  lemma SeparatorEven(sep: char, outer: char)
    requires sep != outer && sep != '"' && !Control(sep)
    ensures Even([sep], outer)
  {
  }

  /** Even parts joined by one separator are even towards the other. */
  lemma {:induction false} JoinEven(parts: seq<string>, sep: char, outer: char)
    requires parts != [] && sep != outer && sep != '"' && !Control(sep) && AllEven(parts, outer)
    ensures Even(Join(parts, sep), outer)
    decreases parts
  {
    if |parts| > 1 {
      JoinEven(parts[1..], sep, outer);
      SeparatorEven(sep, outer);
      EvenConcat(parts[0], [sep], outer);
      EvenConcat(parts[0] + [sep], Join(parts[1..], sep), outer);
    }
  }

  lemma {:induction false} JoinBalanced(parts: seq<string>, sep: char)
    requires parts != [] && sep != '"' && !Control(sep) && AllEven(parts, sep)
    ensures NoControl(Join(parts, sep))
    ensures Scan(Plain, Join(parts, sep)).Plain?
    decreases parts
  {
    if |parts| > 1 {
      JoinBalanced(parts[1..], sep);
      ScanConcat(Plain, parts[0], [sep]);
      ScanConcat(Plain, parts[0] + [sep], Join(parts[1..], sep));
    }
  }

  /** The ends of a joined text are those of its first and last part. */
  lemma {:induction false} JoinEnds(parts: seq<string>, sep: char)
    requires parts != [] && forall i :: 0 <= i < |parts| ==> parts[i] != ""
    ensures var s, first, last := Join(parts, sep), parts[0], parts[|parts|-1];
            s != "" && s[0] == first[0] && s[|s|-1] == last[|last|-1]
    decreases parts
  {
    if |parts| > 1 { JoinEnds(parts[1..], sep); }
  }

  lemma BlankEven(s: string, sep: char)
    requires Blank(s) && sep in [',', ';']
    ensures Even(s, sep) && forall i :: 0 <= i < |s| ==> IsSpace(s[i])
  {
    SafeSealed(s, sep);
  }

  lemma PaddedEven(s: string, p: Pad, sep: char)
    requires Even(s, sep) && Blank(p.left) && Blank(p.right) && sep in [',', ';']
    ensures Even(Padded(s, p), sep)
  {
    BlankEven(p.left, sep);
    BlankEven(p.right, sep);
    EvenConcat(p.left, s, sep);
    EvenConcat(p.left + s, p.right, sep);
  }

  lemma PaddedTrims(s: string, p: Pad)
    requires Tight(s) && Blank(p.left) && Blank(p.right)
    ensures Trim(Padded(s, p)) == s
  {
    TrimBothSides(p.left, s, p.right);
  }

  ghost predicate AllBlank(pads: seq<Pad>) {
    forall i :: 0 <= i < |pads| ==> Blank(pads[i].left) && Blank(pads[i].right)
  }

  /** Neat parts come back from a text that joins them, with whitespace around any separator. */
  lemma SplitOfPadded(parts: seq<string>, pads: seq<Pad>, sep: char)
    requires parts != [] && |pads| == |parts| && AllNeat(parts, sep) && AllBlank(pads) && sep in [',', ';']
    ensures Split(Join(AllPadded(parts, pads), sep), sep) == Some(parts)
  {
    var all := AllPadded(parts, pads);
    forall i | 0 <= i < |all| ensures Even(all[i], sep) && Trim(all[i]) == parts[i] && parts[i] != "" {
      PaddedEven(parts[i], pads[i], sep);
      PaddedTrims(parts[i], pads[i]);
    }
    PiecesOfJoin(all, sep);
    JoinBalanced(all, sep);
    assert Trimmed(all) == parts;
  }

  /** Neat parts with whitespace between them make a text that is neat towards the other separator. */
  lemma JoinNeat(parts: seq<string>, pads: seq<Pad>, sep: char, outer: char)
    requires ValidPads(pads, |parts|) && AllNeat(parts, outer) && sep in [',', ';'] && outer in [',', ';']
               && sep != outer
    ensures Neat(Join(AllPadded(parts, pads), sep), outer)
  {
    var all := AllPadded(parts, pads);
    forall i | 0 <= i < |all| ensures Even(all[i], outer) && all[i] != "" {
      PaddedEven(parts[i], pads[i], outer);
    }
    JoinEven(all, sep, outer);
    JoinEnds(all, sep);
    var n := |parts| - 1;
    assert all[0] == parts[0] + pads[0].right && all[n] == pads[n].left + parts[n];
  }

  // ---------------------------------------------------------------- parameters are neat

  predicate SafeChar(c: char) {
    !Control(c) && c !in ['"', ',', ';']
  }

  lemma {:induction false} SafeSealed(s: string, sep: char)
    requires sep in [',', ';'] && forall i :: 0 <= i < |s| ==> SafeChar(s[i])
    ensures Sealed(Plain, s, sep) && Scan(Plain, s).Plain? && NoControl(s)
  {
    if s != [] { SafeSealed(s[1..], sep); }
  }

  lemma CharSealed(m: Mode, c: char, sep: char)
    requires !(m.Plain? && c == sep)
    ensures Sealed(m, [c], sep) && Scan(m, [c]) == Next(m, c)
  {
  }

  lemma {:induction false} EncodeSealed(body: seq<QChar>, sep: char)
    requires ValidQuoted(body)
    ensures Sealed(Quoted, Encode(body), sep)
    ensures Scan(Quoted, Encode(body)).Quoted?
    ensures NoControl(Encode(body))
    decreases body
  {
    if body != [] {
      EncodeSealed(body[1..], sep);
      var head := (if body[0].escaped then "\\" else "") + [body[0].c];
      assert Encode(body) == head + Encode(body[1..]);
      CharSealed(Next(Quoted, head[0]), body[0].c, sep);
      CharSealed(Quoted, head[0], sep);
      assert body[0].escaped ==> head[1..] == [body[0].c];
      assert !body[0].escaped ==> head == [body[0].c];
      ScanConcat(Quoted, head, Encode(body[1..]));
      SealedConcat(Quoted, head, Encode(body[1..]), sep);
    }
  }

  /** A quoted-string is neat towards any separator but the quote itself. */
  lemma QuotedNeat(inner: string, sep: char)
    requires sep != '"' && Sealed(Quoted, inner, sep) && Scan(Quoted, inner).Quoted? && NoControl(inner)
    ensures Neat("\"" + inner + "\"", sep)
  {
    var q := "\"";
    assert q[1..] == [];
    ScanConcat(Plain, q, inner);
    SealedConcat(Plain, q, inner, sep);
    ScanConcat(Plain, q + inner, q);
    SealedConcat(Plain, q + inner, q, sep);
  }

  lemma ParamNeat(name: string, value: string, sep: char)
    requires sep in [',', ';'] && Token(name) && Neat(value, sep)
    ensures Neat(name + "=" + value, sep)
  {
    SafeSealed(name + "=", sep);
    ScanConcat(Plain, name + "=", value);
    SealedConcat(Plain, name + "=", value, sep);
  }

  lemma ValueNeat(v: Value, sep: char)
    requires sep in [',', ';']
    requires match v case TokenValue(t) => Token(t) case QuotedValue(b) => ValidQuoted(b)
    ensures Neat(ValueText(v), sep)
  {
    match v
    case TokenValue(t) => SafeSealed(t, sep);
    case QuotedValue(b) =>
      EncodeSealed(b, sep);
      QuotedNeat(Encode(b), sep);
  }

  lemma {:induction false} PlainInQuotes(s: string, sep: char)
    requires forall i :: 0 <= i < |s| ==> !Control(s[i]) && s[i] != '"' && s[i] != '\\'
    ensures Sealed(Quoted, s, sep)
    ensures Scan(Quoted, s).Quoted?
    ensures NoControl(s)
    ensures Unescape(s) == Some(s)
  {
    if s != [] {
      PlainInQuotes(s[1..], sep);
      assert [s[0]] + s[1..] == s;
    }
  }

  lemma NodeNeat(codec: Codec, a: Addr, quoted: bool, sep: char)
    requires Lawful(codec) && Real(a) && sep in [',', ';']
    ensures Neat(NodeText(codec, a, quoted), sep)
  {
    var text := codec.format(a);
    if a.is6 {
      PlainInQuotes("[" + text + "]", sep);
      QuotedNeat("[" + text + "]", sep);
      assert "\"" + ("[" + text + "]") + "\"" == "\"[" + text + "]\"";
    } else if quoted {
      PlainInQuotes(text, sep);
      QuotedNeat(text, sep);
    } else {
      SafeSealed(text, sep);
    }
  }

  lemma ForNameIsToken(name: string)
    requires EqualFold(name, "for")
    ensures Token(name)
  {
  }

  lemma ParamsNeat(codec: Codec, e: Element, sep: char)
    requires Lawful(codec) && ValidElement(e) && sep in [',', ';']
    ensures AllNeat(ParamTexts(codec, e), sep)
  {
    var n := |e.before|;
    forall i | 0 <= i < |ParamTexts(codec, e)| ensures Neat(ParamTexts(codec, e)[i], sep) {
      if i == n {
        ForNameIsToken(e.forName);
        NodeNeat(codec, e.addr, e.quoted, sep);
        ParamNeat(e.forName, NodeText(codec, e.addr, e.quoted), sep);
      } else {
        var p := if i < n then e.before[i] else e.after[i - n - 1];
        ValueNeat(p.value, sep);
        ParamNeat(p.name, ValueText(p.value), sep);
      }
    }
  }

  // ---------------------------------------------------------------- parsing back

  lemma ParamParses(name: string, value: string)
    requires Token(name) && Tight(value)
    ensures ParseParam(name + "=" + value) == Some((name, value))
  {
    CutAt(name, value, '=');
  }

  lemma Node6Parses(codec: Codec, a: Addr)
    requires Lawful(codec) && Printable(a) && a.is6
    ensures ParseNode(codec, "\"[" + codec.format(a) + "]\"") == Some(a)
  {
    var text := codec.format(a);
    var body := "[" + text + "]";
    forall i | 0 <= i < |body| ensures !Control(body[i]) && body[i] != '"' && body[i] != '\\' {
      if 0 < i < |body| - 1 { assert AddressChar(text[i - 1]); }
    }
    PlainInQuotes(body, ',');
    assert "\"[" + text + "]\"" == "\"" + body + "\"";
    assert body[1..|body|-1] == text;
    assert Fold(body[0]) != Fold("unknown"[0]);
  }

  lemma Node4Parses(codec: Codec, a: Addr, quoted: bool)
    requires Lawful(codec) && Printable(a) && !a.is6
    ensures ParseBody(codec, codec.format(a), quoted) == Some(a)
  {
    var text := codec.format(a);
    assert AddressChar(text[0]) && '[' !in text && ']' !in text;
    assert Fold(text[0]) != Fold("unknown"[0]);
  }

  lemma NodeParses(codec: Codec, a: Addr, quoted: bool)
    requires Lawful(codec) && Printable(a)
    ensures ParseNode(codec, NodeText(codec, a, quoted)) == Some(a)
  {
    var text := codec.format(a);
    if a.is6 {
      Node6Parses(codec, a);
    } else {
      Node4Parses(codec, a, quoted);
      assert AddressChar(text[0]) && AddressChar(text[|text|-1]);
      PlainInQuotes(text, ',');
    }
  }

  lemma {:induction false} ExtsSkipped(codec: Codec, ps: seq<Ext>, rest: seq<string>, found: Option<Addr>)
    requires forall i :: 0 <= i < |ps| ==> ValidExt(ps[i])
    ensures ParseParams(codec, ExtTexts(ps) + rest, found) == ParseParams(codec, rest, found)
    decreases ps
  {
    var all := ExtTexts(ps) + rest;
    if ps == [] {
      assert all == rest;
    } else {
      var p := ps[0];
      ValueNeat(p.value, ',');
      ParamParses(p.name, ValueText(p.value));
      assert all[0] == p.name + "=" + ValueText(p.value);
      assert all[1..] == ExtTexts(ps[1..]) + rest;
      ExtsSkipped(codec, ps[1..], rest, found);
    }
  }

  lemma ForParamParses(codec: Codec, e: Element)
    requires Lawful(codec) && ValidElement(e)
    ensures ParseParam(e.forName + "=" + NodeText(codec, e.addr, e.quoted))
              == Some((e.forName, NodeText(codec, e.addr, e.quoted)))
  {
    ForNameIsToken(e.forName);
    NodeNeat(codec, e.addr, e.quoted, ';');
    ParamParses(e.forName, NodeText(codec, e.addr, e.quoted));
  }

  lemma ParamsParse(codec: Codec, e: Element)
    requires Lawful(codec) && ValidElement(e)
    ensures ParseParams(codec, ParamTexts(codec, e), None) == Some(e.addr)
  {
    var here := e.forName + "=" + NodeText(codec, e.addr, e.quoted);
    var tail := [here] + ExtTexts(e.after);
    assert ParamTexts(codec, e) == ExtTexts(e.before) + tail;
    ExtsSkipped(codec, e.before, tail, None);
    ForParamParses(codec, e);
    NodeParses(codec, e.addr, e.quoted);
    assert tail[0] == here && tail[1..] == ExtTexts(e.after) + [];
    ExtsSkipped(codec, e.after, [], Some(e.addr));
  }

  lemma ElementParses(codec: Codec, e: Element)
    requires Lawful(codec) && ValidElement(e)
    ensures ParseElement(codec, ElementText(codec, e)) == Some(e.addr)
  {
    ParamsNeat(codec, e, ';');
    SplitOfPadded(ParamTexts(codec, e), e.pads, ';');
    ParamsParse(codec, e);
  }

  lemma ElementNeat(codec: Codec, e: Element)
    requires Lawful(codec) && ValidElement(e)
    ensures Neat(ElementText(codec, e), ',')
  {
    ParamsNeat(codec, e, ',');
    JoinNeat(ParamTexts(codec, e), e.pads, ';', ',');
  }

  function Addrs(es: seq<Element>): seq<Addr> {
    seq(|es|, i requires 0 <= i < |es| => es[i].addr)
  }

  lemma SnocParses(codec: Codec, texts: seq<string>, text: string, chain: seq<Addr>, a: Addr)
    requires ParseElements(codec, texts) == Some(chain) && ParseElement(codec, text) == Some(a)
    ensures ParseElements(codec, texts + [text]) == Some(chain + [a])
  {
  }

  ghost predicate Each(codec: Codec, texts: seq<string>, chain: seq<Addr>) {
    && |texts| == |chain|
    && forall i :: 0 <= i < |texts| ==> ParseElement(codec, texts[i]) == Some(chain[i])
  }

  lemma {:induction false} AllParse(codec: Codec, texts: seq<string>, chain: seq<Addr>)
    requires Each(codec, texts, chain)
    ensures ParseElements(codec, texts) == Some(chain)
    decreases |texts|
  {
    if texts != [] {
      var n := |texts| - 1;
      assert Each(codec, texts[..n], chain[..n]);
      AllParse(codec, texts[..n], chain[..n]);
      assert ParseElement(codec, texts[n]) == Some(chain[n]);
      SnocParses(codec, texts[..n], texts[n], chain[..n], chain[n]);
      assert texts == texts[..n] + [texts[n]] && chain == chain[..n] + [chain[n]];
    }
  }

  /**
   For any chain of 1 to 32 printable addresses, written with any extension parameters, whose quoted
   values may hold commas, semicolons and escapes, and any whitespace around the separators, parsing
   gives back exactly the chain.
   */
  lemma RoundTrip(codec: Codec, es: seq<Element>)
    requires Lawful(codec) && 1 <= |es| <= MAX_HOPS && ValidElements(es)
    ensures Parse(codec, HeaderText(codec, es)) == Some(Addrs(es))
  {
    var texts := ElementTexts(codec, es);
    forall i | 0 <= i < |texts| ensures Neat(texts[i], ',') {
      ElementNeat(codec, es[i]);
    }
    SplitOfPadded(texts, Arounds(es), ',');
    forall i | 0 <= i < |texts| ensures ParseElement(codec, texts[i]) == Some(Addrs(es)[i]) {
      ElementParses(codec, es[i]);
    }
    AllParse(codec, texts, Addrs(es));
  }

  // ---------------------------------------------------------------- a lawful library exists

  function Unary(a: Addr): string {
    [if a.is6 then ':' else '.'] + seq(a.bits, _ => '1')
  }

  function ParseUnary(s: string): Option<Addr> {
    if s == "" then None
    else
      var a := Addr(s[0] == ':', |s| - 1, "");
      if Unary(a) == s && Real(a) then Some(a) else None
  }

  /** One whose parser, like any real one, only ever yields addresses of 32 or 128 bits. */
  lemma LawfulCodecExists()
    ensures Lawful(Codec(ParseUnary, _ => None, Unary))
    ensures forall s :: ParseUnary(s).Some? ==> Real(ParseUnary(s).value)
  {
  }
}
