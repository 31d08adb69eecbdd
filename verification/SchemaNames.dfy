/** Which table names make the drift report independent of every map iteration order. */
module SchemaNames {
  import opened Common
  import opened Text
  import opened SchemaDiff
  import opened SchemaReport
  import opened SchemaTheorems

  // ---------------------------------------------------------------- composite keys

  predicate NoSlash(s: string) {
    '/' !in s
  }

  /** The table and the rest of a composite key whose table has no slash. */
  lemma KeySplits(a: string, x: string, b: string, y: string)
    requires NoSlash(a) && NoSlash(b) && a + "/" + x == b + "/" + y
    ensures a == b && x == y
  {
    var s := a + "/" + x;
    CutAt(a, x, '/');
    CutAt(b, y, '/');
    assert a + ['/'] + x == a + "/" + x && b + ['/'] + y == b + "/" + y;
  }

  lemma KindRoundTrip(k: Kind)
    ensures KindFrom(KindText(k)) == Some(k) && NoSlash(KindText(k))
  {
  }

  function KindFrom(text: string): Option<Kind> {
    match text
    case "table_added" => Some(TableAdded)
    case "table_removed" => Some(TableRemoved)
    case "column_added" => Some(ColumnAdded)
    case "column_removed" => Some(ColumnRemoved)
    case "column_changed" => Some(ColumnChanged)
    case "index_added" => Some(IndexAdded)
    case "index_removed" => Some(IndexRemoved)
    case "index_changed" => Some(IndexChanged)
    case "constraint_added" => Some(ConstraintAdded)
    case "constraint_removed" => Some(ConstraintRemoved)
    case "constraint_changed" => Some(ConstraintChanged)
    case "sequence_added" => Some(SequenceAdded)
    case "sequence_removed" => Some(SequenceRemoved)
    case "sequence_changed" => Some(SequenceChanged)
    case "enum_changed" => Some(EnumChanged)
    case _ => None
  }

  /** The table name goes on after t, a slash and the kind, so a key of t can be read as one of its own. */
  predicate Extends(t: string, k: Kind, longer: string) {
    t + "/" + KindText(k) + "/" <= longer + "/"
  }

  lemma NoSlashAt(t: string, k: Kind, i: nat)
    requires |t| < i < |t| + 1 + |KindText(k)|
    ensures (t + "/" + KindText(k) + "/")[i] != '/'
  {
    KindRoundTrip(k);
    assert (t + "/" + KindText(k) + "/")[i] == KindText(k)[i - |t| - 1];
  }

  lemma KeyPrefixes(a: Entry)
    ensures a.table + "/" <= Key(a) && a.table + "/" + KindText(a.kind) + "/" <= Key(a)
    ensures |Key(a)| == |a.table| + 1 + |KindText(a.kind)| + 1 + |a.name|
  {
  }

  lemma PrefixOfPrefix(q: string, p: string, s: string)
    requires q <= s && p <= s && |q| <= |p|
    ensures q <= p
  {
  }

  /** Equal keys under different table names: the longer name extends the shorter one. */
  lemma CollisionExtends(a: Entry, b: Entry)
    requires Key(a) == Key(b) && |a.table| < |b.table|
    ensures Extends(a.table, a.kind, b.table) && a.name != ""
  {
    var q, p := a.table + "/" + KindText(a.kind) + "/", b.table + "/";
    KeyPrefixes(a);
    KeyPrefixes(b);
    if |q| <= |p| {
      PrefixOfPrefix(q, p, Key(a));
    } else {
      PrefixOfPrefix(p, q, Key(a));
      assert q[|b.table|] == p[|b.table|] == '/';
      NoSlashAt(a.table, a.kind, |b.table|);
    }
  }

  lemma SameStart(a: string, x: string, b: string, y: string)
    requires a + x == b + y && |a| == |b|
    ensures a == b && x == y
  {
    assert a == (a + x)[..|a|] && x == (a + x)[|a|..];
    assert b == (b + y)[..|b|] && y == (b + y)[|b|..];
  }

  lemma KeyParts(e: Entry)
    ensures Key(e) == e.table + "/" + (KindText(e.kind) + "/" + e.name)
  {
  }

  lemma SameTableSameEntry(a: Entry, b: Entry)
    requires Key(a) == Key(b) && |a.table| == |b.table|
    ensures a.table == b.table && a.kind == b.kind && a.name == b.name
  {
    var k, l := KindText(a.kind), KindText(b.kind);
    KeyParts(a);
    KeyParts(b);
    SameStart(a.table + "/", k + "/" + a.name, b.table + "/", l + "/" + b.name);
    SameStart(a.table, "/", b.table, "/");
    KindRoundTrip(a.kind);
    KindRoundTrip(b.kind);
    KeySplits(k, a.name, l, b.name);
  }

  // ---------------------------------------------------------------- names that clash

  /** Entries with an object: those of a table, or of the database, under the empty table name. */
  predicate Owner(names: set<string>, t: string, k: Kind) {
    if OfTable(k) then t in names else t == "" && Group(k) >= 3
  }

  /** Some name extends another one, or the empty name of sequences and enums. */
  ghost predicate Clash(names: set<string>) {
    exists t, k, longer :: Owner(names, t, k) && longer in names && Extends(t, k, longer)
  }

  ghost predicate Over(names: set<string>, base: Snapshot, live: Snapshot) {
    && base.tables.Keys <= names
    && live.tables.Keys <= names
  }

  lemma TableEntryOwner(base: Snapshot, live: Snapshot, e: Entry)
    requires e in TableSet(base, live)
    ensures e.name == ""
    ensures Group(e.kind) <= 1
    ensures (e.table in base.tables || e.table in live.tables)
  {
  }

  lemma NamedEntryOwner(base: Snapshot, live: Snapshot, e: Entry)
    requires e in SequenceDiff(base, live) || e in DiffOf(ENUMS, "", base.enums, live.enums)
    ensures e.table == "" && Group(e.kind) >= 3 && !OfTable(e.kind)
  {
    DiffKinds(SequenceFamily(base.version >= 2), "", SequencesOf(base), SequencesOf(live));
    DiffKinds(ENUMS, "", base.enums, live.enums);
  }

  /** Where an entry of the comparison stands. */
  lemma EntryOwner(names: set<string>, base: Snapshot, live: Snapshot, e: Entry)
    requires Over(names, base, live) && e in DiffSet(base, live)
    ensures e.table == "" || e.table in names
    ensures if Group(e.kind) <= 1 then e.name == "" else Owner(names, e.table, e.kind)
  {
    if e in TableSet(base, live) {
      TableEntryOwner(base, live, e);
    } else if e in TableDiffs(base, live, base.tables.Keys) {
      TableDiffsKinds(base, live, base.tables.Keys);
    } else {
      NamedEntryOwner(base, live, e);
    }
  }

  lemma ShorterFirst(names: set<string>, base: Snapshot, live: Snapshot, a: Entry, b: Entry)
    requires Over(names, base, live) && a in DiffSet(base, live) && b in DiffSet(base, live)
    requires Key(a) == Key(b) && |a.table| < |b.table|
    ensures Clash(names)
  {
    EntryOwner(names, base, live, a);
    EntryOwner(names, base, live, b);
    CollisionExtends(a, b);
    assert Owner(names, a.table, a.kind) && b.table in names;
  }

  /** Without a clash no two differences share a key. */
  lemma NoClashDistinct(names: set<string>, base: Snapshot, live: Snapshot)
    requires Over(names, base, live) && !Clash(names)
    ensures DistinctKeys(DiffSet(base, live))
  {
    var S := DiffSet(base, live);
    forall a, b | a in S && b in S && Key(a) == Key(b) ensures a == b {
      if |a.table| < |b.table| {
        ShorterFirst(names, base, live, a, b);
      } else if |b.table| < |a.table| {
        ShorterFirst(names, base, live, b, a);
      } else {
        SameTableSameEntry(a, b);
        EntriesUnique(base, live, a, b);
      }
    }
  }

  // ---------------------------------------------------------------- a clash can be seen

  const EMPTY := Table([], [], [])

  function OneColumn(name: string, dataType: string): Table {
    Table([Column(name, dataType, false, None, 1)], [], [])
  }

  function OneIndex(name: string, definition: string): Table {
    Table([], [Index(name, false, false, [], definition)], [])
  }

  function OneConstraint(name: string, definition: string): Table {
    Table([], [], [Constraint(name, "", definition)])
  }

  function OneSequence(name: string, start: string): Sequence {
    Sequence(name, "", start, "", "", "", false, "")
  }

  /** A table before and after a difference of kind k in an object of that name. */
  function Before(k: Kind, name: string): Table {
    match k
    case ColumnRemoved => OneColumn(name, "int")
    case ColumnChanged => OneColumn(name, "int")
    case IndexRemoved => OneIndex(name, "old")
    case IndexChanged => OneIndex(name, "old")
    case ConstraintRemoved => OneConstraint(name, "old")
    case ConstraintChanged => OneConstraint(name, "old")
    case _ => EMPTY
  }

  function Afterwards(k: Kind, name: string): Table {
    match k
    case ColumnAdded => OneColumn(name, "int")
    case ColumnChanged => OneColumn(name, "text")
    case IndexAdded => OneIndex(name, "new")
    case IndexChanged => OneIndex(name, "new")
    case ConstraintAdded => OneConstraint(name, "new")
    case ConstraintChanged => OneConstraint(name, "new")
    case _ => EMPTY
  }

  lemma NamedOne<X>(x: X, name: X -> string)
    ensures Named([x], name) == map[name(x) := x]
  {
  }

  /** An object that only one side has, or that differs, makes an entry of the family's kind. */
  lemma FamilyShows<X>(f: Family<X>, t: string, base: seq<X>, live: seq<X>, name: X -> string, o: string)
    returns (e: Entry)
    requires |base| <= 1 && |live| <= 1 && |base| + |live| >= 1
    requires (forall x :: x in base ==> name(x) == o) && forall x :: x in live ==> name(x) == o
    requires |base| + |live| == 2 ==> f.differs(base[0], live[0])
    ensures e in DiffOf(f, t, Named(base, name), Named(live, name))
    ensures e.table == t
    ensures e.name == o
    ensures e.kind == if base == [] then f.added else if live == [] then f.removed else f.changed
  {
    var b, l := Named(base, name), Named(live, name);
    if base != [] { NamedOne(base[0], name); assert base == [base[0]]; }
    if live != [] { NamedOne(live[0], name); assert live == [live[0]]; }
    assert o in b.Keys + l.Keys && EntryFor(f, t, b, l, o).Some?;
    e := EntryFor(f, t, b, l, o).value;
  }

  lemma TableShows(k: Kind, t: string, o: string) returns (e: Entry)
    requires OfTable(k)
    ensures e in TableDiff(t, Before(k, o), Afterwards(k, o))
    ensures e.kind == k
    ensures e.table == t
    ensures e.name == o
  {
    var b, l := Before(k, o), Afterwards(k, o);
    if k.ColumnAdded? || k.ColumnRemoved? || k.ColumnChanged? {
      e := FamilyShows(COLUMNS, t, b.columns, l.columns, ColumnName, o);
    } else if k.IndexAdded? || k.IndexRemoved? || k.IndexChanged? {
      e := FamilyShows(INDEXES, t, b.indexes, l.indexes, IndexName, o);
    } else {
      e := FamilyShows(CONSTRAINTS, t, b.constraints, l.constraints, ConstraintName, o);
    }
  }

  /** Two snapshots over t and `longer` that differ by k in object o of t, and by a column d of `longer`. */
  function ShowBase(t: string, k: Kind, o: string, longer: string): Snapshot {
    Snapshot(2, if OfTable(k) then map[t := Before(k, o), longer := EMPTY] else map[longer := EMPTY], map[],
             if k.SequenceRemoved? || k.SequenceChanged? then [OneSequence(o, "1")] else [])
  }

  function ShowLive(t: string, k: Kind, o: string, longer: string, d: string): Snapshot {
    var column := OneColumn(d, "int");
    Snapshot(2, if OfTable(k) then map[t := Afterwards(k, o), longer := column] else map[longer := column],
             if k.EnumChanged? then map[o := []] else map[],
             if k.SequenceAdded? then [OneSequence(o, "1")]
             else if k.SequenceChanged? then [OneSequence(o, "2")] else [])
  }

  lemma OwnerShows(names: set<string>, t: string, k: Kind, o: string, longer: string, d: string) returns (e: Entry)
    requires Owner(names, t, k) && t != longer
    ensures e in DiffSet(ShowBase(t, k, o, longer), ShowLive(t, k, o, longer, d))
    ensures e.kind == k
    ensures e.table == t
    ensures e.name == o
  {
    var base, live := ShowBase(t, k, o, longer), ShowLive(t, k, o, longer, d);
    if OfTable(k) {
      e := TableShows(k, t, o);
      assert base.tables[t] == Before(k, o) && live.tables[t] == Afterwards(k, o);
    } else if k.EnumChanged? {
      assert o in base.enums.Keys + live.enums.Keys && EntryFor(ENUMS, "", base.enums, live.enums, o).Some?;
      e := EntryFor(ENUMS, "", base.enums, live.enums, o).value;
    } else {
      e := FamilyShows(SequenceFamily(true), "", base.sequences, live.sequences, SequenceName, o);
    }
  }

  lemma LongerShows(t: string, k: Kind, o: string, longer: string, d: string) returns (e: Entry)
    requires OfTable(k) ==> t != longer
    ensures e in DiffSet(ShowBase(t, k, o, longer), ShowLive(t, k, o, longer, d))
    ensures e.kind == ColumnAdded && e.table == longer && e.name == d
  {
    var base, live := ShowBase(t, k, o, longer), ShowLive(t, k, o, longer, d);
    e := FamilyShows(COLUMNS, longer, [], [Column(d, "int", false, None, 1)], ColumnName, d);
    assert base.tables[longer] == EMPTY && live.tables[longer] == OneColumn(d, "int");
    assert e in TableDiff(longer, EMPTY, OneColumn(d, "int"));
  }

  lemma Regroup(longer: string, d: string)
    ensures longer + "/" + "column_added" + "/" + d == longer + "/" + ("column_added" + "/" + d)
  {
  }

  /** The object that makes the keys equal. */
  lemma SameKey(t: string, k: Kind, longer: string, d: string) returns (o: string)
    requires Extends(t, k, longer)
    ensures Key(Entry(k, t, o, NoDetail)) == Key(Entry(ColumnAdded, longer, d, NoDetail))
    ensures t != longer
  {
    var q, p, tail := t + "/" + KindText(k) + "/", longer + "/", "column_added" + "/" + d;
    var middle := p[|q|..];
    o := middle + tail;
    assert p == q + middle;
    assert q + (middle + tail) == q + middle + tail;
    Regroup(longer, d);
    assert |q| > |t| + 1;
  }

  /** With a clash some snapshots over the names have two differences that share a key. */
  lemma ClashCollides(names: set<string>) returns (base: Snapshot, live: Snapshot)
    requires Clash(names)
    ensures Over(names, base, live) && !DistinctKeys(DiffSet(base, live))
  {
    var t, k, longer :| Owner(names, t, k) && longer in names && Extends(t, k, longer);
    var o := SameKey(t, k, longer, "c");
    base, live := ShowBase(t, k, o, longer), ShowLive(t, k, o, longer, "c");
    var a := OwnerShows(names, t, k, o, longer, "c");
    var b := LongerShows(t, k, o, longer, "c");
    assert Key(a) == Key(Entry(k, t, o, NoDetail)) && Key(b) == Key(Entry(ColumnAdded, longer, "c", NoDetail));
    assert a != b;
  }

  // ---------------------------------------------------------------- the exact condition

  /** For snapshots over these names, the sorted report is the same for every iteration order. */
  ghost predicate OrderIrrelevant(names: set<string>) {
    forall base, live, s, t ::
      Over(names, base, live) && SortedListing(s, DiffSet(base, live)) && SortedListing(t, DiffSet(base, live)) ==>
        s == t
  }

  lemma {:induction false} ListingExists(S: set<Entry>) returns (s: seq<Entry>)
    ensures SortedListing(s, S)
    decreases |S|
  {
    if S == {} {
      return [];
    }
    var e :| e in S;
    var rest := ListingExists(S - {e});
    InsertSorted(e, rest);
    InsertLists(e, rest, S - {e}, Position(e, rest));
    s := InsertAt(e, rest, Position(e, rest));
    assert S - {e} + {e} == S;
  }

  /**
   The report is independent of iteration order for all snapshots over a set of table names exactly
   when no name goes on, after another name or the empty one, with a slash and the text of a kind.
   */
  lemma OrderIrrelevantIff(names: set<string>)
    ensures OrderIrrelevant(names) <==> !Clash(names)
  {
    if Clash(names) {
      var base, live := ClashCollides(names);
      var s := ListingExists(DiffSet(base, live));
      var t := AnotherListing(s, DiffSet(base, live));
    } else {
      forall base, live, s, t |
        Over(names, base, live) && SortedListing(s, DiffSet(base, live)) && SortedListing(t, DiffSet(base, live))
        ensures s == t
      {
        NoClashDistinct(names, base, live);
        SortedListingUnique(s, t, DiffSet(base, live));
      }
    }
  }

  lemma ExtendedHasSlash(t: string, k: Kind, longer: string)
    requires Extends(t, k, longer)
    ensures !NoSlash(longer)
  {
    var q, p := t + "/" + KindText(k) + "/", longer + "/";
    assert q[|t|] == '/' && |q| > |t| + 1;
    assert p[|t|] == q[|t|];
    assert longer[|t|] == '/';
  }

  /** Names without a slash never clash. */
  lemma SlashFreeNamesDoNotClash(names: set<string>)
    requires forall n :: n in names ==> NoSlash(n)
    ensures !Clash(names)
  {
    forall t, k, longer | Extends(t, k, longer) ensures longer !in names {
      ExtendedHasSlash(t, k, longer);
    }
  }
}
