/** What Resolve gives for headers in several lines, for chains that print and parse back, and for bad ones. */
module ClientIpTheorems {
  import opened Common
  import opened Text
  import opened Forwarded
  import opened ForwardedRoundTrip
  import opened ClientIp

  // ---------------------------------------------------------------- which address

  /** The header of the priority list that counts. */
  ghost predicate FirstPresent(priority: seq<Header>, headers: Header -> seq<string>, k: nat) {
    && k < |priority| && headers(priority[k]) != []
    && forall i :: 0 <= i < k ==> headers(priority[i]) == []
  }

  /** The hop i is untrusted and every hop to its right is trusted. */
  ghost predicate Decides(chain: seq<Addr>, trusted: Addr -> bool, i: nat) {
    && i < |chain| && !trusted(Unmap(chain[i]))
    && forall j :: i < j < |chain| ==> trusted(Unmap(chain[j]))
  }

  lemma {:induction false} WalkDecides(chain: seq<Addr>, trusted: Addr -> bool, i: nat)
    requires Decides(chain, trusted, i)
    ensures RightmostUntrusted(chain, trusted) == Some(chain[i])
    decreases |chain|
  {
    var n := |chain| - 1;
    if i < n {
      assert Decides(chain[..n], trusted, i);
      WalkDecides(chain[..n], trusted, i);
    }
  }

  /**
   Behind a trusted peer, the first present header alone decides: its rightmost untrusted hop, or the peer if
   it is malformed or has no such hop. Without any present header it is the peer.
   */
  lemma ResolutionExactly(codec: Codec, peer: Peer, trusted: Addr -> bool, priority: seq<Header>,
                          headers: Header -> seq<string>, k: nat)
    requires trusted(Unmap(peer.addr))
    ensures (forall i :: 0 <= i < |priority| ==> headers(priority[i]) == []) ==>
              Resolution(codec, Some(peer), trusted, priority, headers) == peer.text
    ensures FirstPresent(priority, headers, k) ==>
              var r := Resolution(codec, Some(peer), trusted, priority, headers);
              match ParseHeader(codec, priority[k], headers(priority[k]))
              case None => r == peer.text
              case Some(chain) =>
                && (forall i: nat :: Decides(chain, trusted, i) ==> r == codec.format(chain[i]))
                && ((forall i :: 0 <= i < |chain| ==> trusted(Unmap(chain[i]))) ==> r == peer.text)
  {
    if forall i :: 0 <= i < |priority| ==> headers(priority[i]) == [] {
      NonePresent(codec, peer, trusted, priority, headers);
    }
    if FirstPresent(priority, headers, k) {
      LookupDependsOnFirst(codec, peer, trusted, priority, headers, headers, k);
      var parsed := ParseHeader(codec, priority[k], headers(priority[k]));
      if parsed.Some? {
        WalkFindsRightmost(parsed.value, trusted);
        forall i: nat | Decides(parsed.value, trusted, i)
          ensures RightmostUntrusted(parsed.value, trusted) == Some(parsed.value[i])
        {
          WalkDecides(parsed.value, trusted, i);
        }
      }
    }
  }

  lemma {:induction false} NonePresent(codec: Codec, peer: Peer, trusted: Addr -> bool, priority: seq<Header>,
                                       headers: Header -> seq<string>)
    requires forall i :: 0 <= i < |priority| ==> headers(priority[i]) == []
    ensures Lookup(codec, peer, trusted, priority, headers) == peer.text
    decreases priority
  {
    if priority != [] { NonePresent(codec, peer, trusted, priority[1..], headers); }
  }

  // ---------------------------------------------------------------- Forwarded in several lines

  ghost predicate ValidLines(lines: seq<seq<Element>>) {
    forall i :: 0 <= i < |lines| ==> lines[i] != [] && ValidElements(lines[i])
  }

  function Map<T, U>(f: T -> U, xs: seq<T>): seq<U> {
    seq(|xs|, i requires 0 <= i < |xs| => f(xs[i]))
  }

  lemma MapTail<T, U>(f: T -> U, xs: seq<T>)
    requires xs != []
    ensures Map(f, xs)[0] == f(xs[0]) && Map(f, xs)[1..] == Map(f, xs[1..])
  {
  }

  ghost function LineText(codec: Codec, line: seq<Element>): string {
    if ValidElements(line) then HeaderText(codec, line) else ""
  }

  ghost function LineTexts(codec: Codec, lines: seq<seq<Element>>): seq<string> {
    Map(line => LineText(codec, line), lines)
  }

  function Flatten<T>(xss: seq<seq<T>>): seq<T> {
    if xss == [] then [] else xss[0] + Flatten(xss[1..])
  }

  lemma {:induction false} JoinConcat(a: seq<string>, b: seq<string>, sep: char)
    requires a != [] && b != []
    ensures Join(a + b, sep) == Join(a, sep) + [sep] + Join(b, sep)
    decreases a
  {
    JoinCons(a[0], a[1..] + b, sep);
    assert a + b == [a[0]] + (a[1..] + b);
    if |a| == 1 {
      assert a[1..] + b == b;
    } else {
      JoinConcat(a[1..], b, sep);
    }
  }

  function Part(codec: Codec, e: Element): string {
    if ValidElement(e) then Padded(ElementText(codec, e), e.around) else ""
  }

  lemma MapConcat<T, U>(f: T -> U, a: seq<T>, b: seq<T>)
    ensures Map(f, a + b) == Map(f, a) + Map(f, b)
  {
  }

  function Parts(codec: Codec, es: seq<Element>): seq<string> {
    Map((e: Element) => Part(codec, e), es)
  }

  lemma HeaderIsParts(codec: Codec, es: seq<Element>)
    requires ValidElements(es)
    ensures HeaderText(codec, es) == Join(Parts(codec, es), ',')
  {
    assert AllPadded(ElementTexts(codec, es), Arounds(es)) == Parts(codec, es);
  }

  lemma HeaderConcat(codec: Codec, a: seq<Element>, b: seq<Element>)
    requires ValidElements(a) && ValidElements(b) && a != [] && b != []
    ensures ValidElements(a + b)
    ensures HeaderText(codec, a + b) == HeaderText(codec, a) + "," + HeaderText(codec, b)
  {
    HeaderIsParts(codec, a);
    HeaderIsParts(codec, b);
    HeaderIsParts(codec, a + b);
    MapConcat((e: Element) => Part(codec, e), a, b);
    JoinConcat(Parts(codec, a), Parts(codec, b), ',');
  }

  lemma {:induction false} FlattenValid(lines: seq<seq<Element>>)
    requires ValidLines(lines)
    ensures ValidElements(Flatten(lines)) && (lines != [] ==> Flatten(lines) != [])
    decreases lines
  {
    if lines != [] { FlattenValid(lines[1..]); }
  }

  lemma JoinHead(texts: seq<string>, first: string, rest: seq<string>)
    requires |texts| > 1 && texts[0] == first && texts[1..] == rest
    ensures Join(texts, ',') == first + [','] + Join(rest, ',')
  {
  }

  lemma LinesCons(codec: Codec, lines: seq<seq<Element>>)
    requires ValidLines(lines) && |lines| > 1
    ensures Join(LineTexts(codec, lines), ',')
            == HeaderText(codec, lines[0]) + [','] + Join(LineTexts(codec, lines[1..]), ',')
  {
    MapTail(line => LineText(codec, line), lines);
    JoinHead(LineTexts(codec, lines), HeaderText(codec, lines[0]), LineTexts(codec, lines[1..]));
  }

  /** The lines joined by commas are the header of all their elements. */
  lemma {:induction false} LinesJoin(codec: Codec, lines: seq<seq<Element>>)
    requires ValidLines(lines) && lines != []
    ensures ValidElements(Flatten(lines))
    ensures Join(LineTexts(codec, lines), ',') == HeaderText(codec, Flatten(lines))
    decreases lines
  {
    FlattenValid(lines);
    if |lines| == 1 {
      assert Flatten(lines) == lines[0] + [] == lines[0];
    } else {
      LinesJoin(codec, lines[1..]);
      LinesCons(codec, lines);
      FlattenValid(lines[1..]);
      HeaderConcat(codec, lines[0], Flatten(lines[1..]));
    }
  }

  /**
   However the elements are spread over header lines, the parsed chain is that of all their addresses, in
   the order of the lines.
   */
  lemma LinesRoundTrip(codec: Codec, lines: seq<seq<Element>>)
    requires Lawful(codec) && ValidLines(lines) && 1 <= |Flatten(lines)| <= MAX_HOPS
    requires HeaderBytes(LineTexts(codec, lines)) <= MAX_HEADER_BYTES
    ensures ParseHeader(codec, ForwardedHeader, LineTexts(codec, lines)) == Some(Addrs(Flatten(lines)))
  {
    LinesJoin(codec, lines);
    RoundTrip(codec, Flatten(lines));
  }

  /** So Resolve gives the rightmost untrusted of them, whichever line it stands in. */
  lemma LinesResolve(codec: Codec, peer: Peer, trusted: Addr -> bool, priority: seq<Header>,
                     headers: Header -> seq<string>, k: nat, lines: seq<seq<Element>>, i: nat)
    requires Lawful(codec) && ValidLines(lines) && 1 <= |Flatten(lines)| <= MAX_HOPS
    requires HeaderBytes(LineTexts(codec, lines)) <= MAX_HEADER_BYTES
    requires trusted(Unmap(peer.addr)) && FirstPresent(priority, headers, k) && priority[k] == ForwardedHeader
    requires headers(ForwardedHeader) == LineTexts(codec, lines)
    requires Decides(Addrs(Flatten(lines)), trusted, i)
    ensures Resolution(codec, Some(peer), trusted, priority, headers) == codec.format(Flatten(lines)[i].addr)
  {
    LinesRoundTrip(codec, lines);
    ResolutionExactly(codec, peer, trusted, priority, headers, k);
  }

  // ---------------------------------------------------------------- lines put in front

  lemma LongerHead(c: char, x: seq<string>, y: seq<string>)
    requires x != []
    ensures [[c] + (x + y)[0]] + (x + y)[1..] == [[c] + x[0]] + x[1..] + y
  {
  }

  lemma {:induction false} PiecesConcat(m: Mode, a: string, b: string, sep: char)
    requires Scan(m, a).Plain? && sep != '"' && sep != '\\'
    ensures Pieces(m, a + [sep] + b, sep) == Pieces(m, a, sep) + Pieces(Plain, b, sep)
    decreases |a|
  {
    var s, rest := a + [sep] + b, Pieces(Plain, b, sep);
    if a == [] {
      assert s[0] == sep && s[1..] == b;
    } else {
      assert s[0] == a[0] && s[1..] == a[1..] + [sep] + b;
      PiecesConcat(Next(m, a[0]), a[1..], b, sep);
      var x := Pieces(Next(m, a[0]), a[1..], sep);
      if m.Plain? && a[0] == sep {
        assert [""] + (x + rest) == [""] + x + rest;
      } else {
        LongerHead(a[0], x, rest);
      }
    }
  }

  lemma SplitJoined(a: string, b: string, sep: char)
    requires sep in [',', ';'] && Split(a, sep).Some? && Split(b, sep).Some?
    ensures Split(a + [sep] + b, sep) == Some(Split(a, sep).value + Split(b, sep).value)
  {
    PiecesConcat(Plain, a, b, sep);
    ScanConcat(Plain, a, [sep]);
    ScanConcat(Plain, a + [sep], b);
    var x, y := Pieces(Plain, a, sep), Pieces(Plain, b, sep);
    assert Trimmed(x + y) == Trimmed(x) + Trimmed(y);
  }

  lemma {:induction false} EachParsed(codec: Codec, texts: seq<string>)
    requires ParseElements(codec, texts).Some?
    ensures Each(codec, texts, ParseElements(codec, texts).value)
    decreases |texts|
  {
    if texts != [] { EachParsed(codec, texts[..|texts|-1]); }
  }

  lemma EachConcat(codec: Codec, a: seq<string>, x: seq<Addr>, b: seq<string>, y: seq<Addr>)
    requires Each(codec, a, x) && Each(codec, b, y)
    ensures Each(codec, a + b, x + y)
  {
  }

  lemma ElementsConcat(codec: Codec, a: seq<string>, b: seq<string>)
    requires ParseElements(codec, a).Some? && ParseElements(codec, b).Some?
    ensures ParseElements(codec, a + b) == Some(ParseElements(codec, a).value + ParseElements(codec, b).value)
  {
    EachParsed(codec, a);
    EachParsed(codec, b);
    EachConcat(codec, a, ParseElements(codec, a).value, b, ParseElements(codec, b).value);
    AllParse(codec, a + b, ParseElements(codec, a).value + ParseElements(codec, b).value);
  }

  lemma ForwardedConcat(codec: Codec, a: string, b: string)
    requires Parse(codec, a).Some? && Parse(codec, b).Some?
    requires |Parse(codec, a).value| + |Parse(codec, b).value| <= MAX_HOPS
    ensures Parse(codec, a + "," + b) == Some(Parse(codec, a).value + Parse(codec, b).value)
  {
    SplitJoined(a, b, ',');
    ElementCount(codec, Split(a, ',').value);
    ElementCount(codec, Split(b, ',').value);
    ElementsConcat(codec, Split(a, ',').value, Split(b, ',').value);
  }

  /**
   Once a Forwarded chain holds an untrusted hop, whatever valid elements a client puts in front, as a header
   line of its own or at the start of the first one, changes nothing, within the limits.
   */
  lemma PrependingElementsChangesNothing(codec: Codec, peer: Peer, trusted: Addr -> bool, front: string,
                                         values: seq<string>)
    requires values != [] && ParseHeader(codec, ForwardedHeader, values).Some? && Parse(codec, front).Some?
    requires RightmostUntrusted(ParseHeader(codec, ForwardedHeader, values).value, trusted).Some?
    requires |Parse(codec, front).value| + |ParseHeader(codec, ForwardedHeader, values).value| <= MAX_HOPS
    ensures Bytes(front) + HeaderBytes(values) <= MAX_HEADER_BYTES ==>
              Choose(codec, peer, trusted, ForwardedHeader, [front] + values)
              == Choose(codec, peer, trusted, ForwardedHeader, values)
    ensures HeaderBytes([front + "," + values[0]] + values[1..]) <= MAX_HEADER_BYTES ==>
              Choose(codec, peer, trusted, ForwardedHeader, [front + "," + values[0]] + values[1..])
              == Choose(codec, peer, trusted, ForwardedHeader, values)
  {
    ForwardedConcat(codec, front, Join(values, ','));
    JoinCons(front, values, ',');
    JoinPrefix(front + ",", values, ',');
    assert front + "," + Join(values, ',') == front + [','] + Join(values, ',');
    PrefixIrrelevant(Parse(codec, front).value, ParseHeader(codec, ForwardedHeader, values).value, trusted);
  }

  // ---------------------------------------------------------------- bare addresses

  /** A bare address is accepted exactly if it parses, without brackets, to a zone-free, specified address. */
  lemma BareExactly(codec: Codec, raw: string, a: Addr)
    ensures ParseBare(codec, raw) == Some(a) <==>
              && raw != "" && '[' !in raw && ']' !in raw && codec.parse(raw).Some?
              && var b := codec.parse(raw).value; b.zone == "" && !Unspecified(b) && a == Unmap(b)
  {
  }

  /** X-Real-IP and CF-Connecting-IP are accepted exactly as one value that is one bare address. */
  lemma SingleAddressExactly(codec: Codec, header: Header, values: seq<string>, chain: seq<Addr>)
    requires header.XRealIP? || header.CFConnectingIP?
    ensures ParseHeader(codec, header, values) == Some(chain) <==>
              && |values| == 1 && ',' !in values[0]
              && |chain| == 1 && ParseBare(codec, Trim(values[0])) == Some(chain[0])
  {
    if |chain| == 1 { assert chain == [chain[0]]; }
  }

  lemma BareParses(codec: Codec, a: Addr, pad: Pad)
    requires Lawful(codec) && Printable(a) && Blank(pad.left) && Blank(pad.right)
    ensures ParseBare(codec, Trim(Padded(codec.format(a), pad))) == Some(a)
    ensures ',' !in Padded(codec.format(a), pad)
  {
    var text := codec.format(a);
    assert AddressChar(text[0]) && AddressChar(text[|text|-1]) && '[' !in text && ']' !in text;
    PaddedTrims(text, pad);
  }

  function BareTexts(codec: Codec, chain: seq<Addr>, pads: seq<Pad>): seq<string>
    requires |pads| == |chain|
  {
    seq(|chain|, i requires 0 <= i < |chain| => Padded(codec.format(chain[i]), pads[i]))
  }

  lemma {:induction false} SplitJoin(parts: seq<string>, sep: char)
    requires parts != [] && forall i :: 0 <= i < |parts| ==> sep !in parts[i]
    ensures SplitOn(Join(parts, sep), sep) == parts
    decreases parts
  {
    SplitFree(parts[0], sep);
    if |parts| > 1 {
      SplitConcat(parts[0], Join(parts[1..], sep), sep);
      SplitJoin(parts[1..], sep);
    }
  }

  ghost predicate PrintableChain(chain: seq<Addr>, pads: seq<Pad>) {
    && |pads| == |chain| && 1 <= |chain| <= MAX_HOPS
    && (forall i :: 0 <= i < |chain| ==> Printable(chain[i]))
    && AllBlank(pads)
  }

  /**
   Printed addresses parse back: a chain in X-Forwarded-For, in one value or one value for each hop, with any
   whitespace around the commas, and an address in a single-address header.
   */
  lemma BareRoundTrip(codec: Codec, chain: seq<Addr>, pads: seq<Pad>, single: Header)
    requires Lawful(codec) && PrintableChain(chain, pads) && (single.XRealIP? || single.CFConnectingIP?)
    ensures var texts := BareTexts(codec, chain, pads);
            && (HeaderBytes(texts) <= MAX_HEADER_BYTES ==> ParseHeader(codec, XForwardedFor, texts) == Some(chain))
            && (HeaderBytes([Join(texts, ',')]) <= MAX_HEADER_BYTES ==>
                  ParseHeader(codec, XForwardedFor, [Join(texts, ',')]) == Some(chain))
            && (|chain| == 1 ==> ParseHeader(codec, single, texts) == Some(chain))
  {
    var texts := BareTexts(codec, chain, pads);
    forall i | 0 <= i < |texts| ensures ',' !in texts[i] && Hop(codec, texts[i]) == Some(chain[i]) {
      BareParses(codec, chain[i], pads[i]);
    }
    SplitJoin(texts, ',');
    HopsIff(codec, texts, chain);
    if |chain| == 1 { SingleAddressExactly(codec, single, texts, chain); }
  }
}
