/**
 The Forwarded header (sections 4, 5.2 and 6 of RFC 7239, with quoted-string from section 5.6.4 of
 RFC 9110): a quote- and escape-aware splitter used at two levels, and the node parser.
 */
module Forwarded {
  import opened Common
  import opened Text

  const MAX_HOPS := 32

  // ---------------------------------------------------------------- scanning

  predicate Control(c: char) {
    (c as int < 0x20 && c != '\t') || c as int == 0x7F
  }

  predicate NoControl(s: string) {
    forall i :: 0 <= i < |s| ==> !Control(s[i])
  }

  datatype Mode = Plain | Quoted | Escaped

  function Next(m: Mode, c: char): Mode {
    match m
    case Escaped => Quoted
    case Quoted => if c == '\\' then Escaped else if c == '"' then Plain else Quoted
    case Plain => if c == '"' then Quoted else Plain
  }

  /** The mode after reading s. */
  function Scan(m: Mode, s: string): Mode
    decreases |s|
  {
    if s == [] then m else Scan(Next(m, s[0]), s[1..])
  }

  /** s cut at every separator that stands outside quotes. */
  function Pieces(m: Mode, s: string, sep: char): (r: seq<string>)
    ensures r != []
    decreases |s|
  {
    if s == [] then [""]
    else if m.Plain? && s[0] == sep then [""] + Pieces(Plain, s[1..], sep)
    else
      var rest := Pieces(Next(m, s[0]), s[1..], sep);
      [[s[0]] + rest[0]] + rest[1..]
  }

  function Trimmed(parts: seq<string>): seq<string> {
    seq(|parts|, i requires 0 <= i < |parts| => Trim(parts[i]))
  }

  /** What splitting should give: the trimmed pieces, unless one is empty or the text is malformed. */
  function Split(raw: string, sep: char): Option<seq<string>> {
    if NoControl(raw) && Scan(Plain, raw).Plain? && "" !in Trimmed(Pieces(Plain, raw, sep))
    then Some(Trimmed(Pieces(Plain, raw, sep))) else None
  }

  function ModeOf(quoted: bool, escaped: bool): Mode {
    if escaped then Escaped else if quoted then Quoted else Plain
  }

  lemma TrimmedSnoc(parts: seq<string>, part: string)
    ensures Trimmed(parts + [part]) == Trimmed(parts) + [Trim(part)]
  {
  }

  /** How far the loop is: the pieces cut so far, the piece under way, and what is left. */
  ghost predicate SoFar(raw: string, sep: char, cut: seq<string>, start: nat, i: nat, m: Mode) {
    && start <= i <= |raw|
    && Scan(Plain, raw) == Scan(m, raw[i..])
    && var rest := Pieces(m, raw[i..], sep);
       Pieces(Plain, raw, sep) == cut + [raw[start..i] + rest[0]] + rest[1..]
  }

  lemma AdvanceInPiece(raw: string, sep: char, cut: seq<string>, start: nat, i: nat, m: Mode)
    requires SoFar(raw, sep, cut, start, i, m) && i < |raw| && !(m.Plain? && raw[i] == sep)
    ensures SoFar(raw, sep, cut, start, i + 1, Next(m, raw[i]))
  {
    assert raw[i..][0] == raw[i] && raw[i..][1..] == raw[i + 1..];
    var rest := Pieces(Next(m, raw[i]), raw[i + 1..], sep);
    assert raw[start..i] + ([raw[i]] + rest[0]) == raw[start..i + 1] + rest[0];
  }

  lemma AdvanceOverSeparator(raw: string, sep: char, cut: seq<string>, start: nat, i: nat)
    requires SoFar(raw, sep, cut, start, i, Plain) && i < |raw| && raw[i] == sep && sep != '"'
    ensures SoFar(raw, sep, cut + [raw[start..i]], i + 1, i + 1, Plain)
  {
    assert raw[i..][0] == raw[i] && raw[i..][1..] == raw[i + 1..];
    var rest := Pieces(Plain, raw[i + 1..], sep);
    assert raw[start..i] + "" == raw[start..i];
    assert raw[i + 1..i + 1] + rest[0] == rest[0];
    assert cut + [raw[start..i]] + ([""] + rest)[1..] == cut + [raw[start..i]] + [rest[0]] + rest[1..];
  }

  /** What the loop knows at position i: the pieces cut so far are not blank and hold no control character. */
  ghost predicate Scanned(raw: string, sep: char, cut: seq<string>, start: nat, i: nat, quoted: bool, escaped: bool) {
    && SoFar(raw, sep, cut, start, i, ModeOf(quoted, escaped))
    && (escaped ==> quoted)
    && "" !in Trimmed(cut) && NoControl(raw[..i])
  }

  lemma ScanOn(raw: string, sep: char, cut: seq<string>, start: nat, i: nat, quoted: bool, escaped: bool)
    requires Scanned(raw, sep, cut, start, i, quoted, escaped) && i < |raw| && !Control(raw[i])
    requires !(raw[i] == sep && !quoted && !escaped)
    ensures var c := raw[i];
            Scanned(raw, sep, cut, start, i + 1,
                    if !escaped && c == '"' then !quoted else quoted, !escaped && quoted && c == '\\')
  {
    AdvanceInPiece(raw, sep, cut, start, i, ModeOf(quoted, escaped));
  }

  lemma CutHere(raw: string, sep: char, cut: seq<string>, start: nat, i: nat)
    requires Scanned(raw, sep, cut, start, i, false, false) && i < |raw| && !Control(raw[i])
    requires raw[i] == sep && sep != '"'
    ensures if Trim(raw[start..i]) == "" then Split(raw, sep).None?
            else Scanned(raw, sep, cut + [raw[start..i]], i + 1, i + 1, false, false)
                 && Trimmed(cut + [raw[start..i]]) == Trimmed(cut) + [Trim(raw[start..i])]
  {
    AdvanceOverSeparator(raw, sep, cut, start, i);
    TrimmedSnoc(cut, raw[start..i]);
    if Trim(raw[start..i]) == "" { EmptyPieceFails(raw, sep, cut + [raw[start..i]], i + 1, i + 1, Plain); }
  }

  /** splitOutsideQuotes, with its three loop variables. */
  method SplitOutsideQuotes(raw: string, sep: char) returns (r: Option<seq<string>>)
    requires sep != '"' && sep != '\\'
    ensures r == Split(raw, sep)
  {
    var parts: seq<string> := [];
    ghost var cut: seq<string> := [];
    var start, quoted, escaped := 0, false, false;
    var i := 0;
    assert raw[0..] == raw && raw[0..0] + Pieces(Plain, raw, sep)[0] == Pieces(Plain, raw, sep)[0];
    while i < |raw|
      invariant Scanned(raw, sep, cut, start, i, quoted, escaped) && parts == Trimmed(cut)
    {
      var c := raw[i];
      if Control(c) {
        return None;
      }
      if c == sep && !quoted && !escaped {
        CutHere(raw, sep, cut, start, i);
      } else {
        ScanOn(raw, sep, cut, start, i, quoted, escaped);
      }
      if escaped {
        escaped := false;
      } else if quoted && c == '\\' {
        escaped := true;
      } else if c == '"' {
        quoted := !quoted;
      } else if c == sep && !quoted {
        cut := cut + [raw[start..i]];
        var part := Trim(raw[start..i]);
        if part == "" { return None; }
        parts := parts + [part];
        start := i + 1;
      }
      i := i + 1;
    }
    assert raw[..i] == raw;
    LastPiece(raw, sep, cut, start, ModeOf(quoted, escaped));
    if quoted || escaped { return None; }
    var last := Trim(raw[start..]);
    return if last == "" then None else Some(parts + [last]);
  }

  lemma LastPiece(raw: string, sep: char, cut: seq<string>, start: nat, m: Mode)
    requires SoFar(raw, sep, cut, start, |raw|, m) && NoControl(raw) && "" !in Trimmed(cut)
    ensures Split(raw, sep) ==
            if !m.Plain? || Trim(raw[start..]) == "" then None else Some(Trimmed(cut) + [Trim(raw[start..])])
  {
    assert raw[|raw|..] == "";
    assert raw[start..|raw|] + "" == raw[start..];
    assert Pieces(Plain, raw, sep) == cut + [raw[start..]];
    TrimmedSnoc(cut, raw[start..]);
    if Trim(raw[start..]) == "" { assert Trimmed(cut + [raw[start..]])[|cut|] == ""; }
  }

  lemma EmptyPieceFails(raw: string, sep: char, cut: seq<string>, start: nat, i: nat, m: Mode)
    requires SoFar(raw, sep, cut, start, i, m) && cut != [] && Trim(cut[|cut|-1]) == ""
    ensures Split(raw, sep).None?
  {
    var pieces := Pieces(Plain, raw, sep);
    assert pieces[|cut|-1] == cut[|cut|-1];
    assert Trimmed(pieces)[|cut|-1] == "";
  }

  // ---------------------------------------------------------------- splitting twice

  lemma {:induction false} ScanConcat(m: Mode, a: string, b: string)
    ensures Scan(m, a + b) == Scan(Scan(m, a), b)
    decreases |a|
  {
    if a == [] {
      assert a + b == b;
    } else {
      assert (a + b)[0] == a[0] && (a + b)[1..] == a[1..] + b;
      ScanConcat(Next(m, a[0]), a[1..], b);
    }
  }

  /** In a text that ends outside quotes, every piece starts and ends outside quotes. */
  lemma {:induction false} PiecesBalanced(m: Mode, s: string, sep: char, k: nat)
    requires sep != '"' && Scan(m, s).Plain? && k < |Pieces(m, s, sep)|
    ensures Scan(if k == 0 then m else Plain, Pieces(m, s, sep)[k]).Plain?
    ensures NoControl(s) ==> NoControl(Pieces(m, s, sep)[k])
    decreases |s|
  {
    if s != [] {
      if m.Plain? && s[0] == sep {
        if k > 0 { PiecesBalanced(Plain, s[1..], sep, k - 1); }
      } else {
        PiecesBalanced(Next(m, s[0]), s[1..], sep, k);
        var rest := Pieces(Next(m, s[0]), s[1..], sep);
        assert ([s[0]] + rest[0])[1..] == rest[0];
      }
    }
  }

  lemma {:induction false} TrimLeftBalanced(s: string)
    requires Scan(Plain, s).Plain? && NoControl(s)
    ensures Scan(Plain, TrimLeft(s)).Plain? && NoControl(TrimLeft(s))
  {
    if s != [] && IsSpace(s[0]) { TrimLeftBalanced(s[1..]); }
  }

  lemma {:induction false} TrimRightBalanced(s: string)
    requires Scan(Plain, s).Plain? && NoControl(s)
    ensures Scan(Plain, TrimRight(s)).Plain? && NoControl(TrimRight(s))
    decreases |s|
  {
    if s != [] && IsSpace(s[|s|-1]) {
      var init, last := s[..|s|-1], s[|s|-1..];
      assert s == init + last;
      ScanConcat(Plain, init, last);
      assert last[1..] == [];
      TrimRightBalanced(init);
    }
  }

  /**
   Every element the comma split accepts re-scans from unquoted to unquoted, so the semicolon split
   can fail on it only through an empty parameter.
   */
  lemma SemicolonSplitFailsOnlyOnEmpty(raw: string, elements: seq<string>, k: nat)
    requires Split(raw, ',') == Some(elements) && k < |elements|
    ensures Scan(Plain, elements[k]).Plain? && NoControl(elements[k])
    ensures Split(elements[k], ';').None? <==> "" in Trimmed(Pieces(Plain, elements[k], ';'))
  {
    var piece := Pieces(Plain, raw, ',')[k];
    PiecesBalanced(Plain, raw, ',', k);
    TrimLeftBalanced(piece);
    TrimRightBalanced(TrimLeft(piece));
  }

  // ---------------------------------------------------------------- addresses and nodes

  const MAPPED_BASE: nat := 0xFFFF_0000_0000
  const MAPPED_SIZE: nat := 0x1_0000_0000

  datatype Addr = Addr(is6: bool, bits: nat, zone: string)

  predicate Mapped(a: Addr) {
    && a.is6
    && MAPPED_BASE <= a.bits < MAPPED_BASE + MAPPED_SIZE
  }

  function Unmap(a: Addr): Addr {
    if Mapped(a) then Addr(false, a.bits - MAPPED_BASE, "") else a
  }

  predicate Unspecified(a: Addr) {
    a.bits == 0 && a.zone == ""
  }

  /** The address text library: ParseAddr, ParseAddrPort and String. */
  datatype Codec = Codec(parse: string -> Option<Addr>, parsePort: string -> Option<Addr>, format: Addr -> string)

  function ParseBare(codec: Codec, raw: string): Option<Addr> {
    if raw == "" || '[' in raw || ']' in raw then None
    else match codec.parse(raw)
         case None => None
         case Some(a) => if a.zone != "" || Unspecified(a) then None else Some(Unmap(a))
  }

  /** The text of a quoted-string body; None when a backslash escapes nothing. */
  function Unescape(s: string): Option<string> {
    if s == [] then Some("")
    else if s[0] == '\\' then
      if |s| == 1 then None
      else match Unescape(s[2..]) case Some(t) => Some([s[1]] + t) case None => None
    else match Unescape(s[1..]) case Some(t) => Some([s[0]] + t) case None => None
  }

  /** The unescaping loop of parseForwardedNode. */
  method UnescapeBody(s: string) returns (r: Option<string>)
    ensures r == Unescape(s)
  {
    var out, i := "", 0;
    assert s[0..] == s;
    assert Unescape(s).Some? ==> "" + Unescape(s).value == Unescape(s).value;
    while i < |s|
      invariant i <= |s|
      invariant Unescape(s) == match Unescape(s[i..]) case Some(t) => Some(out + t) case None => None
    {
      ghost var rest := s[i..];
      assert rest[0] == s[i] && rest[1..] == s[i + 1..];
      if s[i] == '\\' {
        i := i + 1;
        if i >= |s| { return None; }
        assert rest[1] == s[i] && rest[2..] == s[i + 1..];
      }
      ghost var t := Unescape(s[i + 1..]);
      if t.Some? { assert out + ([s[i]] + t.value) == out + [s[i]] + t.value; }
      out, i := out + [s[i]], i + 1;
    }
    assert s[i..] == "";
    assert out + "" == out;
    return Some(out);
  }

  function Bracketed(codec: Codec, raw: string): Option<Addr>
    requires raw != "" && raw[0] == '['
  {
    match codec.parsePort(raw)
    case Some(a) => if a.is6 && a.zone == "" && !Unspecified(a) then Some(Unmap(a)) else None
    case None =>
      if raw[|raw|-1] != ']' then None
      else match codec.parse(raw[1..|raw|-1])
           case Some(a) => if a.is6 && a.zone == "" && !Unspecified(a) then Some(Unmap(a)) else None
           case None => None
  }

  function ParseBody(codec: Codec, raw: string, quoted: bool): Option<Addr> {
    if EqualFold(raw, "unknown") || raw == "" || raw[0] == '_' then None
    else if raw[0] == '[' then Bracketed(codec, raw)
    else if quoted && codec.parsePort(raw).Some? then
      var a := codec.parsePort(raw).value;
      if !a.is6 && !Unspecified(a) then Some(Unmap(a)) else None
    else match ParseBare(codec, raw)
         case Some(a) => if !a.is6 then Some(a) else None
         case None => None
  }

  /** parseForwardedNode */
  function ParseNode(codec: Codec, raw: string): Option<Addr> {
    var opens, closes := raw != "" && raw[0] == '"', raw != "" && raw[|raw|-1] == '"';
    if opens != closes then None
    else if |raw| >= 2 && opens then
      match Unescape(raw[1..|raw|-1]) case Some(t) => ParseBody(codec, t, true) case None => None
    else ParseBody(codec, raw, false)
  }

  /** Zone-free and not an IPv4-mapped IPv6 address. */
  predicate Canonical(a: Addr) {
    a.zone == "" && !Mapped(a)
  }

  /**
   A bare address is accepted in canonical form. It is unspecified exactly when the text was the mapped
   form of 0.0.0.0: the check for unspecified addresses comes before unmapping.
   */
  lemma BareIsCanonical(codec: Codec, raw: string, a: Addr)
    requires ParseBare(codec, raw) == Some(a)
    ensures Canonical(a)
    ensures codec.parse(raw).Some?
    ensures a == Unmap(codec.parse(raw).value)
    ensures Unspecified(a) <==> codec.parse(raw) == Some(Addr(true, MAPPED_BASE, ""))
  {
  }

  /** The mapped form of 0.0.0.0 is accepted, and comes out as the unspecified address. */
  lemma MappedZeroIsAccepted(codec: Codec, raw: string)
    requires raw != "" && '[' !in raw && ']' !in raw && codec.parse(raw) == Some(Addr(true, MAPPED_BASE, ""))
    ensures ParseBare(codec, raw) == Some(Addr(false, 0, "")) && Unspecified(Addr(false, 0, ""))
  {
  }

  /** An address of a node is never IPv4-mapped; an IPv6 one is zone-free, specified, and was bracketed. */
  lemma NodeIsCanonical(codec: Codec, raw: string, a: Addr)
    requires ParseNode(codec, raw) == Some(a)
    ensures raw != "" && !Mapped(a)
    ensures a.is6 ==> a.zone == "" && !Unspecified(a) && (raw[0] == '[' || (raw[0] == '"' && |raw| > 2))
  {
  }

  // ---------------------------------------------------------------- elements

  /** One parameter: its trimmed name and value, or None when it is malformed. */
  function ParseParam(param: string): Option<(string, string)> {
    match Cut(Trim(param), '=')
    case Some((name, value)) =>
      if Trim(name) == "" || Trim(value) == "" then None else Some((Trim(name), Trim(value)))
    case None => None
  }

  /** The address of an element: exactly one `for` parameter, and no malformed parameter. */
  function ParseParams(codec: Codec, params: seq<string>, found: Option<Addr>): Option<Addr>
    decreases params
  {
    if params == [] then found
    else match ParseParam(params[0])
         case None => None
         case Some((name, value)) =>
           if !EqualFold(name, "for") then ParseParams(codec, params[1..], found)
           else if found.Some? || ParseNode(codec, value).None? then None
           else ParseParams(codec, params[1..], ParseNode(codec, value))
  }

  function ParseElement(codec: Codec, element: string): Option<Addr> {
    match Split(element, ';') case Some(params) => ParseParams(codec, params, None) case None => None
  }

  function ParseElements(codec: Codec, elements: seq<string>): Option<seq<Addr>> {
    if elements == [] then Some([])
    else
      var n := |elements| - 1;
      match (ParseElements(codec, elements[..n]), ParseElement(codec, elements[n]))
      case (Some(chain), Some(a)) => Some(chain + [a])
      case _ => None
  }

  /** What parseForwarded should give. */
  function Parse(codec: Codec, raw: string): Option<seq<Addr>> {
    match Split(raw, ',')
    case Some(elements) => if |elements| > MAX_HOPS then None else ParseElements(codec, elements)
    case None => None
  }

  method ParseNodeText(codec: Codec, raw: string) returns (r: Option<Addr>)
    ensures r == ParseNode(codec, raw)
  {
    var opens, closes := raw != "" && raw[0] == '"', raw != "" && raw[|raw|-1] == '"';
    if opens != closes { return None; }
    if |raw| >= 2 && opens {
      var body := UnescapeBody(raw[1..|raw|-1]);
      if body.None? { return None; }
      return ParseBody(codec, body.value, true);
    }
    return ParseBody(codec, raw, false);
  }

  method ParseElementText(codec: Codec, element: string) returns (r: Option<Addr>)
    ensures r == ParseElement(codec, element)
  {
    var params := SplitOutsideQuotes(element, ';');
    if params.None? { return None; }
    var ps, found := params.value, None;
    var i := 0;
    assert ps[0..] == ps;
    while i < |ps|
      invariant i <= |ps|
      invariant ParseElement(codec, element) == ParseParams(codec, ps[i..], found)
    {
      assert ps[i..][0] == ps[i] && ps[i..][1..] == ps[i + 1..];
      var param := ParseParam(ps[i]);
      if param.None? { return None; }
      if EqualFold(param.value.0, "for") {
        if found.Some? { return None; }
        found := ParseNodeText(codec, param.value.1);
        if found.None? { return None; }
      }
      i := i + 1;
    }
    assert ps[i..] == [];
    return found;
  }

  method ParseForwarded(codec: Codec, raw: string) returns (r: Option<seq<Addr>>)
    ensures r == Parse(codec, raw)
  {
    var elements := SplitOutsideQuotes(raw, ',');
    if elements.None? || |elements.value| > MAX_HOPS { return None; }
    var es, chain := elements.value, [];
    for i := 0 to |es|
      invariant ParseElements(codec, es[..i]) == Some(chain)
    {
      assert es[..i + 1][..i] == es[..i];
      var addr := ParseElementText(codec, es[i]);
      if addr.None? {
        OneBadElement(codec, es, i);
        return None;
      }
      chain := chain + [addr.value];
    }
    assert es[..|es|] == es;
    return Some(chain);
  }

  lemma ElementsSnoc(codec: Codec, elements: seq<string>, last: string)
    ensures ParseElements(codec, elements).None? || ParseElement(codec, last).None? ==>
              ParseElements(codec, elements + [last]).None?
  {
    assert (elements + [last])[..|elements|] == elements;
  }

  lemma {:induction false} OneBadElement(codec: Codec, elements: seq<string>, k: nat)
    requires k < |elements| && ParseElement(codec, elements[k]).None?
    ensures ParseElements(codec, elements).None?
    decreases |elements|
  {
    var n := |elements| - 1;
    if k < n { OneBadElement(codec, elements[..n], k); }
    ElementsSnoc(codec, elements[..n], elements[n]);
    assert elements[..n] + [elements[n]] == elements;
  }
}
