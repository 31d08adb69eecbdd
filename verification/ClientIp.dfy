/** Resolving the client address from the direct peer and the forwarding headers it may set. */
module ClientIp {
  import opened Common
  import opened Text
  import opened Forwarded

  const MAX_HEADER_BYTES := 8192

  datatype Header = ForwardedHeader | XForwardedFor | XRealIP | CFConnectingIP

  function HeaderBytes(values: seq<string>): nat {
    if values == [] then 0 else Bytes(values[0]) + HeaderBytes(values[1..])
  }

  function Hop(codec: Codec, part: string): Option<Addr> {
    ParseBare(codec, Trim(part))
  }

  /** The addresses of bare hops; None as soon as one is malformed. */
  function Hops(codec: Codec, parts: seq<string>): Option<seq<Addr>> {
    if parts == [] then Some([])
    else match (Hop(codec, parts[0]), Hops(codec, parts[1..]))
         case (Some(a), Some(rest)) => Some([a] + rest)
         case _ => None
  }

  /** parseHeader */
  function ParseHeader(codec: Codec, header: Header, values: seq<string>): Option<seq<Addr>> {
    if header.CFConnectingIP? || header.XRealIP? then
      if |values| != 1 || ',' in values[0] then None
      else match ParseBare(codec, Trim(values[0])) case Some(a) => Some([a]) case None => None
    else if HeaderBytes(values) > MAX_HEADER_BYTES then None
    else if header.ForwardedHeader? then Parse(codec, Join(values, ','))
    else
      var parts := SplitOn(Join(values, ','), ',');
      if |parts| > MAX_HOPS then None else Hops(codec, parts)
  }

  /** A chain that a header gives has 1 to 32 hops, a single one for the single-address headers. */
  lemma HeaderChainBounds(codec: Codec, header: Header, values: seq<string>, chain: seq<Addr>)
    requires ParseHeader(codec, header, values) == Some(chain)
    ensures 1 <= |chain| <= MAX_HOPS
    ensures (header.CFConnectingIP? || header.XRealIP? ==> |chain| == 1 == |values|)
    ensures header.ForwardedHeader? || header.XForwardedFor? ==> HeaderBytes(values) <= MAX_HEADER_BYTES
    ensures !header.ForwardedHeader? ==> forall i :: 0 <= i < |chain| ==> Canonical(chain[i])
  {
    match header
    case ForwardedHeader => ElementCount(codec, Split(Join(values, ','), ',').value);
    case XForwardedFor =>
      var parts := SplitOn(Join(values, ','), ',');
      HopsIff(codec, parts, chain);
      forall i | 0 <= i < |chain| ensures Canonical(chain[i]) { BareIsCanonical(codec, Trim(parts[i]), chain[i]); }
    case _ => BareIsCanonical(codec, Trim(values[0]), chain[0]);
  }

  lemma {:induction false} ElementCount(codec: Codec, elements: seq<string>)
    requires ParseElements(codec, elements).Some?
    ensures |ParseElements(codec, elements).value| == |elements|
  {
    if elements != [] { ElementCount(codec, elements[..|elements|-1]); }
  }

  /** X-Forwarded-For is accepted exactly within both limits and with every comma-separated hop a bare address. */
  lemma XForwardedForExactly(codec: Codec, values: seq<string>, chain: seq<Addr>)
    ensures ParseHeader(codec, XForwardedFor, values) == Some(chain) <==>
              && HeaderBytes(values) <= MAX_HEADER_BYTES
              && |SplitOn(Join(values, ','), ',')| <= MAX_HOPS
              && HopsAre(codec, SplitOn(Join(values, ','), ','), chain)
  {
    HopsIff(codec, SplitOn(Join(values, ','), ','), chain);
  }

  /** The rightmost hop outside the trusted networks. */
  function RightmostUntrusted(chain: seq<Addr>, trusted: Addr -> bool): Option<Addr> {
    if chain == [] then None
    else if !trusted(Unmap(chain[|chain|-1])) then Some(chain[|chain|-1])
    else RightmostUntrusted(chain[..|chain|-1], trusted)
  }

  /** The direct peer, as parseRemoteAddr gives it: None when the remote address is malformed. */
  datatype Peer = Peer(addr: Addr, text: string)

  /** What Resolve should give, from the header that counts. */
  function Choose(codec: Codec, peer: Peer, trusted: Addr -> bool, header: Header, values: seq<string>): string {
    match ParseHeader(codec, header, values)
    case None => peer.text
    case Some(chain) =>
      match RightmostUntrusted(chain, trusted) case Some(a) => codec.format(a) case None => peer.text
  }

  function Lookup(codec: Codec, peer: Peer, trusted: Addr -> bool, priority: seq<Header>,
                  headers: Header -> seq<string>): string {
    if priority == [] then peer.text
    else if headers(priority[0]) == [] then Lookup(codec, peer, trusted, priority[1..], headers)
    else Choose(codec, peer, trusted, priority[0], headers(priority[0]))
  }

  function Resolution(codec: Codec, peer: Option<Peer>, trusted: Addr -> bool, priority: seq<Header>,
                      headers: Header -> seq<string>): string {
    match peer
    case None => ""
    case Some(p) => if trusted(Unmap(p.addr)) then Lookup(codec, p, trusted, priority, headers) else p.text
  }

  // ---------------------------------------------------------------- the loops

  method ParseXForwardedFor(codec: Codec, joined: string) returns (r: Option<seq<Addr>>)
    ensures r == if |SplitOn(joined, ',')| > MAX_HOPS then None else Hops(codec, SplitOn(joined, ','))
  {
    var parts := SplitOn(joined, ',');
    if |parts| > MAX_HOPS { return None; }
    var chain: seq<Addr> := [];
    var i := 0;
    assert parts[0..] == parts;
    assert Hops(codec, parts).Some? ==> [] + Hops(codec, parts).value == Hops(codec, parts).value;
    while i < |parts|
      invariant i <= |parts|
      invariant Hops(codec, parts) ==
                match Hops(codec, parts[i..]) case Some(rest) => Some(chain + rest) case None => None
    {
      assert parts[i..][0] == parts[i] && parts[i..][1..] == parts[i + 1..];
      var addr := Hop(codec, parts[i]);
      if addr.None? { return None; }
      ghost var rest := Hops(codec, parts[i + 1..]);
      if rest.Some? { assert chain + ([addr.value] + rest.value) == chain + [addr.value] + rest.value; }
      chain, i := chain + [addr.value], i + 1;
    }
    assert parts[i..] == [];
    assert chain + [] == chain;
    return Some(chain);
  }

  method ParseHeaderValues(codec: Codec, header: Header, values: seq<string>) returns (r: Option<seq<Addr>>)
    ensures r == ParseHeader(codec, header, values)
  {
    if header.CFConnectingIP? || header.XRealIP? {
      if |values| != 1 || ',' in values[0] { return None; }
      var addr := ParseBare(codec, Trim(values[0]));
      return if addr.Some? then Some([addr.value]) else None;
    }
    if HeaderBytes(values) > MAX_HEADER_BYTES { return None; }
    if header.ForwardedHeader? {
      r := ParseForwarded(codec, Join(values, ','));
    } else {
      r := ParseXForwardedFor(codec, Join(values, ','));
    }
  }

  /**
   Resolve: the peer's own text, or the rightmost untrusted hop of the first present header; every
   hop to the right of the one returned is trusted.
   */
  method Resolve(codec: Codec, peer: Option<Peer>, trusted: Addr -> bool, priority: seq<Header>,
                 headers: Header -> seq<string>)
    returns (r: string)
    ensures r == Resolution(codec, peer, trusted, priority, headers)
  {
    if peer.None? { return ""; }
    var p := peer.value;
    if !trusted(Unmap(p.addr)) { return p.text; }
    var k := 0;
    assert priority[0..] == priority;
    while k < |priority|
      invariant k <= |priority|
      invariant Lookup(codec, p, trusted, priority, headers) == Lookup(codec, p, trusted, priority[k..], headers)
    {
      assert priority[k..][0] == priority[k] && priority[k..][1..] == priority[k + 1..];
      var values := headers(priority[k]);
      if values == [] { k := k + 1; continue; }
      var parsed := ParseHeaderValues(codec, priority[k], values);
      if parsed.None? { return p.text; }
      var chain := parsed.value;
      var i := |chain|;
      assert chain[..i] == chain;
      while i > 0
        invariant i <= |chain|
        invariant RightmostUntrusted(chain, trusted) == RightmostUntrusted(chain[..i], trusted)
      {
        assert chain[..i][..i - 1] == chain[..i - 1];
        i := i - 1;
        if !trusted(Unmap(chain[i])) { return codec.format(chain[i]); }
      }
      return p.text;
    }
    assert priority[k..] == [];
    return p.text;
  }

  // ---------------------------------------------------------------- what the result depends on

  /** The walk finds the rightmost untrusted hop, with every hop to its right trusted. */
  lemma {:induction false} WalkFindsRightmost(chain: seq<Addr>, trusted: Addr -> bool)
    ensures RightmostUntrusted(chain, trusted).None? <==> forall i :: 0 <= i < |chain| ==> trusted(Unmap(chain[i]))
    ensures RightmostUntrusted(chain, trusted).Some? ==>
              exists i :: 0 <= i < |chain| && RightmostUntrusted(chain, trusted) == Some(chain[i])
                && !trusted(Unmap(chain[i]))
                          && forall j :: i < j < |chain| ==> trusted(Unmap(chain[j]))
    decreases |chain|
  {
    if chain != [] {
      var n := |chain| - 1;
      WalkFindsRightmost(chain[..n], trusted);
      if trusted(Unmap(chain[n])) && RightmostUntrusted(chain[..n], trusted).Some? {
        var i :| 0 <= i < n && RightmostUntrusted(chain[..n], trusted) == Some(chain[..n][i])
          && !trusted(Unmap(chain[..n][i]))
                 && forall j :: i < j < n ==> trusted(Unmap(chain[..n][j]));
        forall j | i < j < |chain| ensures trusted(Unmap(chain[j])) {
          if j < n { assert chain[..n][j] == chain[j]; }
        }
        assert chain[i] == chain[..n][i];
      }
    }
  }

  lemma {:induction false} LookupDependsOnFirst(codec: Codec, peer: Peer, trusted: Addr -> bool, priority: seq<Header>,
                                                a: Header -> seq<string>, b: Header -> seq<string>, k: nat)
    requires k < |priority| && a(priority[k]) != [] && a(priority[k]) == b(priority[k])
    requires forall i :: 0 <= i < k ==> a(priority[i]) == [] && b(priority[i]) == []
    ensures Lookup(codec, peer, trusted, priority, a) == Lookup(codec, peer, trusted, priority, b)
            == Choose(codec, peer, trusted, priority[k], a(priority[k]))
    decreases k
  {
    if k > 0 {
      LookupDependsOnFirst(codec, peer, trusted, priority[1..], a, b, k - 1);
    }
  }

  /**
   The result depends only on the peer and on the values of the first present header; with an
   untrusted peer it depends on no header at all. A lower-priority header never matters.
   */
  lemma ResolutionDependence(codec: Codec, peer: Option<Peer>, trusted: Addr -> bool, priority: seq<Header>,
                             a: Header -> seq<string>, b: Header -> seq<string>)
    ensures (peer.None? || !trusted(Unmap(peer.value.addr))) ==>
              Resolution(codec, peer, trusted, priority, a) == (if peer.Some? then peer.value.text else "")
    ensures forall k :: 0 <= k < |priority| && a(priority[k]) != [] && a(priority[k]) == b(priority[k])
                        && (forall i :: 0 <= i < k ==> a(priority[i]) == [] && b(priority[i]) == []) ==>
              Resolution(codec, peer, trusted, priority, a) == Resolution(codec, peer, trusted, priority, b)
  {
    forall k | 0 <= k < |priority| && a(priority[k]) != [] && a(priority[k]) == b(priority[k])
               && (forall i :: 0 <= i < k ==> a(priority[i]) == [] && b(priority[i]) == [])
      ensures Resolution(codec, peer, trusted, priority, a) == Resolution(codec, peer, trusted, priority, b)
    {
      if peer.Some? && trusted(Unmap(peer.value.addr)) {
        LookupDependsOnFirst(codec, peer.value, trusted, priority, a, b, k);
      }
    }
  }

  // ---------------------------------------------------------------- prepending hops

  ghost predicate HopsAre(codec: Codec, parts: seq<string>, chain: seq<Addr>) {
    && |parts| == |chain|
    && forall i :: 0 <= i < |parts| ==> Hop(codec, parts[i]) == Some(chain[i])
  }

  lemma {:induction false} HopsIff(codec: Codec, parts: seq<string>, chain: seq<Addr>)
    ensures Hops(codec, parts) == Some(chain) <==> HopsAre(codec, parts, chain)
    decreases parts
  {
    if parts != [] && chain != [] {
      HopsIff(codec, parts[1..], chain[1..]);
      assert chain == [chain[0]] + chain[1..];
      if |parts| == |chain| {
        assert forall i :: 0 < i < |parts| ==> parts[i] == parts[1..][i - 1] && chain[i] == chain[1..][i - 1];
      }
      assert HopsAre(codec, parts, chain) ==> HopsAre(codec, parts[1..], chain[1..]);
    }
  }

  lemma HopsAreConcat(codec: Codec, a: seq<string>, x: seq<Addr>, b: seq<string>, y: seq<Addr>)
    requires HopsAre(codec, a, x) && HopsAre(codec, b, y)
    ensures HopsAre(codec, a + b, x + y)
  {
  }

  lemma HopsConcat(codec: Codec, a: seq<string>, b: seq<string>)
    requires Hops(codec, a).Some? && Hops(codec, b).Some?
    ensures Hops(codec, a + b) == Some(Hops(codec, a).value + Hops(codec, b).value)
  {
    var x, y := Hops(codec, a).value, Hops(codec, b).value;
    HopsIff(codec, a, x);
    HopsIff(codec, b, y);
    HopsAreConcat(codec, a, x, b, y);
    HopsIff(codec, a + b, x + y);
  }

  lemma {:induction false} PrefixIrrelevant(front: seq<Addr>, chain: seq<Addr>, trusted: Addr -> bool)
    requires RightmostUntrusted(chain, trusted).Some?
    ensures RightmostUntrusted(front + chain, trusted) == RightmostUntrusted(chain, trusted)
    decreases |chain|
  {
    var n := |chain| - 1;
    assert (front + chain)[..|front| + n] == front + chain[..n];
    if trusted(Unmap(chain[n])) {
      PrefixIrrelevant(front, chain[..n], trusted);
    }
  }

  lemma PrependedChain(codec: Codec, front: string, values: seq<string>)
    requires values != [] && ParseHeader(codec, XForwardedFor, values).Some? && Hops(codec, SplitOn(front, ',')).Some?
    requires |SplitOn(front, ',')| + |SplitOn(Join(values, ','), ',')| <= MAX_HOPS
    requires Bytes(front) + HeaderBytes(values) <= MAX_HEADER_BYTES
    ensures ParseHeader(codec, XForwardedFor, [front] + values)
            == Some(Hops(codec, SplitOn(front, ',')).value + ParseHeader(codec, XForwardedFor, values).value)
  {
    SplitConcat(front, Join(values, ','), ',');
    HopsConcat(codec, SplitOn(front, ','), SplitOn(Join(values, ','), ','));
  }

  /**
   Once an X-Forwarded-For chain holds an untrusted hop, whatever valid hops a client puts in front,
   within the limits, changes nothing.
   */
  lemma PrependingHopsChangesNothing(codec: Codec, peer: Peer, trusted: Addr -> bool, front: string,
                                     values: seq<string>)
    requires values != [] && ParseHeader(codec, XForwardedFor, values).Some?
    requires RightmostUntrusted(ParseHeader(codec, XForwardedFor, values).value, trusted).Some?
    requires Hops(codec, SplitOn(front, ',')).Some?
    requires |SplitOn(front, ',')| + |SplitOn(Join(values, ','), ',')| <= MAX_HOPS
    requires Bytes(front) + HeaderBytes(values) <= MAX_HEADER_BYTES
    ensures Choose(codec, peer, trusted, XForwardedFor, [front] + values)
              == Choose(codec, peer, trusted, XForwardedFor, values)
  {
    PrependedChain(codec, front, values);
    PrefixIrrelevant(Hops(codec, SplitOn(front, ',')).value, ParseHeader(codec, XForwardedFor, values).value, trusted);
  }

  lemma {:induction false} SplitPadding(pad: string, s: string, sep: char)
    requires sep !in pad
    ensures SplitOn(pad + s, sep) == [pad + SplitOn(s, sep)[0]] + SplitOn(s, sep)[1..]
    decreases |pad|
  {
    if pad == "" {
      assert pad + s == s && pad + SplitOn(s, sep)[0] == SplitOn(s, sep)[0];
    } else {
      assert (pad + s)[0] == pad[0] && (pad + s)[1..] == pad[1..] + s;
      SplitPadding(pad[1..], s, sep);
      assert [pad[0]] + (pad[1..] + SplitOn(s, sep)[0]) == pad + SplitOn(s, sep)[0];
    }
  }

  /** Spaces before the first hop do not matter. */
  lemma PaddedHops(codec: Codec, pad: string, s: string)
    requires forall i :: 0 <= i < |pad| ==> IsSpace(pad[i]) && pad[i] != ','
    ensures |SplitOn(pad + s, ',')| == |SplitOn(s, ',')|
    ensures Hops(codec, SplitOn(pad + s, ',')) == Hops(codec, SplitOn(s, ','))
  {
    SplitPadding(pad, s, ',');
    TrimPadding(pad, SplitOn(s, ',')[0]);
  }

  lemma JoinInValue(front: string, pad: string, values: seq<string>)
    requires values != []
    ensures Join([front + "," + pad + values[0]] + values[1..], ',') == front + [','] + (pad + Join(values, ','))
  {
    JoinPrefix(front + "," + pad, values, ',');
  }

  lemma PrependedInValue(codec: Codec, front: string, pad: string, values: seq<string>)
    requires values != [] && ParseHeader(codec, XForwardedFor, values).Some?
    requires Hops(codec, SplitOn(front, ',')).Some? && forall i :: 0 <= i < |pad| ==> IsSpace(pad[i]) && pad[i] != ','
    requires |SplitOn(front, ',')| + |SplitOn(Join(values, ','), ',')| <= MAX_HOPS
    requires HeaderBytes([front + "," + pad + values[0]] + values[1..]) <= MAX_HEADER_BYTES
    ensures ParseHeader(codec, XForwardedFor, [front + "," + pad + values[0]] + values[1..])
            == Some(Hops(codec, SplitOn(front, ',')).value + ParseHeader(codec, XForwardedFor, values).value)
  {
    var joined := Join(values, ',');
    JoinInValue(front, pad, values);
    SplitConcat(front, pad + joined, ',');
    PaddedHops(codec, pad, joined);
    HopsConcat(codec, SplitOn(front, ','), SplitOn(pad + joined, ','));
  }

  /** The same within one value, as in "hop, rest": the client's text, a comma and spaces before the first value. */
  lemma PrependingInValueChangesNothing(codec: Codec, peer: Peer, trusted: Addr -> bool, front: string, pad: string,
                                        values: seq<string>)
    requires values != [] && ParseHeader(codec, XForwardedFor, values).Some?
    requires RightmostUntrusted(ParseHeader(codec, XForwardedFor, values).value, trusted).Some?
    requires Hops(codec, SplitOn(front, ',')).Some? && forall i :: 0 <= i < |pad| ==> IsSpace(pad[i]) && pad[i] != ','
    requires |SplitOn(front, ',')| + |SplitOn(Join(values, ','), ',')| <= MAX_HOPS
    requires HeaderBytes([front + "," + pad + values[0]] + values[1..]) <= MAX_HEADER_BYTES
    ensures Choose(codec, peer, trusted, XForwardedFor, [front + "," + pad + values[0]] + values[1..])
            == Choose(codec, peer, trusted, XForwardedFor, values)
  {
    PrependedInValue(codec, front, pad, values);
    PrefixIrrelevant(Hops(codec, SplitOn(front, ',')).value, ParseHeader(codec, XForwardedFor, values).value, trusted);
  }
}
