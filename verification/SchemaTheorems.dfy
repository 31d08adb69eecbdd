/** Exactness, uniqueness, order independence and symmetry of the drift report. */
module SchemaTheorems {
  import opened Common
  import opened Text
  import opened SchemaDiff
  import opened SchemaReport

  // ---------------------------------------------------------------- exactness

  /** What two tables must have in common: defaults read as text, positions ignored, definitions only. */
  function ColumnView(t: Table): map<string, (string, bool, string)> {
    map n | n in ColumnsOf(t) :: (ColumnsOf(t)[n].dataType, ColumnsOf(t)[n].nullable, DefaultText(ColumnsOf(t)[n]))
  }

  function IndexView(t: Table): map<string, string> {
    map n | n in IndexesOf(t) :: IndexesOf(t)[n].definition
  }

  function ConstraintView(t: Table): map<string, string> {
    map n | n in ConstraintsOf(t) :: ConstraintsOf(t)[n].definition
  }

  function EnumView(s: Snapshot): map<string, string> {
    map n | n in s.enums :: EnumText(s.enums[n])
  }

  ghost predicate TablesAgree(base: Snapshot, live: Snapshot) {
    base.tables.Keys == live.tables.Keys
    && forall t :: t in base.tables ==>
         && ColumnView(base.tables[t]) == ColumnView(live.tables[t])
         && IndexView(base.tables[t]) == IndexView(live.tables[t])
         && ConstraintView(base.tables[t]) == ConstraintView(live.tables[t])
  }

  /** The equivalence the report decides. */
  ghost predicate Agree(base: Snapshot, live: Snapshot) {
    && TablesAgree(base, live)
    && (if base.version >= 2 then SequencesOf(base) == SequencesOf(live)
        else SequencesOf(base).Keys == SequencesOf(live).Keys)
    && EnumView(base) == EnumView(live)
  }

  lemma DiffEmptyIff<X>(f: Family<X>, table: string, base: map<string, X>, live: map<string, X>)
    ensures DiffOf(f, table, base, live) == {} <==>
              base.Keys == live.Keys && forall n :: n in base ==> !f.differs(base[n], live[n])
  {
    var D := DiffOf(f, table, base, live);
    assert forall n :: n in base.Keys + live.Keys && EntryFor(f, table, base, live, n).Some? ==>
        EntryFor(f, table, base, live, n).value in D;
    if D == {} {
      assert forall n :: n in base.Keys + live.Keys ==> EntryFor(f, table, base, live, n).None?;
      forall n ensures n in base <==> n in live {
        assert n in base.Keys + live.Keys ==> EntryFor(f, table, base, live, n).None?;
      }
      forall n | n in base ensures !f.differs(base[n], live[n]) {
        assert EntryFor(f, table, base, live, n).None?;
      }
    }
  }

  lemma TableDiffEmptyIff(name: string, base: Table, live: Table)
    ensures TableDiff(name, base, live) == {} <==>
              ColumnView(base) == ColumnView(live) && IndexView(base) == IndexView(live)
                && ConstraintView(base) == ConstraintView(live)
  {
    ColumnsEmptyIff(name, base, live);
    IndexesEmptyIff(name, base, live);
    ConstraintsEmptyIff(name, base, live);
  }

  lemma ColumnsEmptyIff(name: string, base: Table, live: Table)
    ensures DiffOf(COLUMNS, name, ColumnsOf(base), ColumnsOf(live)) == {} <==> ColumnView(base) == ColumnView(live)
  {
    DiffEmptyIff(COLUMNS, name, ColumnsOf(base), ColumnsOf(live));
    ViewsEqualIff(ColumnsOf(base), ColumnsOf(live), (c: Column) => (c.dataType, c.nullable, DefaultText(c)),
                  ColumnView(base), ColumnView(live));
  }

  lemma IndexesEmptyIff(name: string, base: Table, live: Table)
    ensures DiffOf(INDEXES, name, IndexesOf(base), IndexesOf(live)) == {} <==> IndexView(base) == IndexView(live)
  {
    DiffEmptyIff(INDEXES, name, IndexesOf(base), IndexesOf(live));
    ViewsEqualIff(IndexesOf(base), IndexesOf(live), (i: Index) => i.definition, IndexView(base), IndexView(live));
  }

  lemma ConstraintsEmptyIff(name: string, base: Table, live: Table)
    ensures DiffOf(CONSTRAINTS, name, ConstraintsOf(base), ConstraintsOf(live)) == {} <==>
              ConstraintView(base) == ConstraintView(live)
  {
    DiffEmptyIff(CONSTRAINTS, name, ConstraintsOf(base), ConstraintsOf(live));
    ViewsEqualIff(ConstraintsOf(base), ConstraintsOf(live), (c: Constraint) => c.definition,
                  ConstraintView(base), ConstraintView(live));
  }

  /** Two views are equal iff the names agree and every name shows the same. */
  lemma ViewsEqualIff<X, V>(base: map<string, X>, live: map<string, X>, view: X -> V,
                            bv: map<string, V>, lv: map<string, V>)
    requires bv == (map n | n in base :: view(base[n])) && lv == (map n | n in live :: view(live[n]))
    ensures bv == lv <==> base.Keys == live.Keys && forall n :: n in base ==> view(base[n]) == view(live[n])
  {
    assert bv.Keys == base.Keys && lv.Keys == live.Keys;
    if bv == lv {
      forall n | n in base ensures view(base[n]) == view(live[n]) {
        assert bv[n] == lv[n];
      }
    }
  }

  /** No entry is reported exactly when the snapshots agree. */
  lemma DiffExact(base: Snapshot, live: Snapshot)
    ensures DiffSet(base, live) == {} <==> Agree(base, live)
  {
    TablesExact(base, live);
    SequencesExact(base, live);
    DiffEmptyIff(ENUMS, "", base.enums, live.enums);
    ViewsEqualIff(base.enums, live.enums, EnumText, EnumView(base), EnumView(live));
  }

  lemma SequencesExact(base: Snapshot, live: Snapshot)
    ensures SequenceDiff(base, live) == {} <==>
              if base.version >= 2 then SequencesOf(base) == SequencesOf(live)
              else SequencesOf(base).Keys == SequencesOf(live).Keys
  {
    DiffEmptyIff(SequenceFamily(base.version >= 2), "", SequencesOf(base), SequencesOf(live));
  }

  lemma MissingEmptyIff(names: set<string>, other: set<string>, kind: Kind)
    ensures Missing(names, other, kind) == {} <==> names <= other
  {
    assert forall t :: t in names && t !in other ==> Entry(kind, t, "", NoDetail) in Missing(names, other, kind);
  }

  lemma TablesExact(base: Snapshot, live: Snapshot)
    ensures TableSet(base, live) + TableDiffs(base, live, base.tables.Keys) == {} <==> TablesAgree(base, live)
  {
    MissingEmptyIff(live.tables.Keys, base.tables.Keys, TableAdded);
    MissingEmptyIff(base.tables.Keys, live.tables.Keys, TableRemoved);
    InnerExact(base, live);
  }

  lemma InnerExact(base: Snapshot, live: Snapshot)
    ensures TableDiffs(base, live, base.tables.Keys) == {} <==>
              forall t :: t in base.tables && t in live.tables ==>
                && ColumnView(base.tables[t]) == ColumnView(live.tables[t])
                && IndexView(base.tables[t]) == IndexView(live.tables[t])
                && ConstraintView(base.tables[t]) == ConstraintView(live.tables[t])
  {
    forall t | t in base.tables && t in live.tables
      ensures TableDiff(t, base.tables[t], live.tables[t]) == {} <==>
                && ColumnView(base.tables[t]) == ColumnView(live.tables[t])
                && IndexView(base.tables[t]) == IndexView(live.tables[t])
                && ConstraintView(base.tables[t]) == ConstraintView(live.tables[t])
    {
      TableDiffEmptyIff(t, base.tables[t], live.tables[t]);
    }
    forall t | t in base.tables && t in live.tables
      ensures TableDiff(t, base.tables[t], live.tables[t]) <= TableDiffs(base, live, base.tables.Keys)
    {
    }
  }

  // ---------------------------------------------------------------- uniqueness

  lemma DiffUnique<X>(f: Family<X>, table: string, base: map<string, X>, live: map<string, X>, a: Entry, b: Entry)
    requires a in DiffOf(f, table, base, live) && b in DiffOf(f, table, base, live) && a.name == b.name
    ensures a == b
  {
  }

  lemma TableDiffUnique(name: string, base: Table, live: Table, a: Entry, b: Entry)
    requires a in TableDiff(name, base, live) && b in TableDiff(name, base, live) && a.kind == b.kind
               && a.name == b.name
    ensures a == b
  {
    DiffKinds(COLUMNS, name, ColumnsOf(base), ColumnsOf(live));
    DiffKinds(INDEXES, name, IndexesOf(base), IndexesOf(live));
    DiffKinds(CONSTRAINTS, name, ConstraintsOf(base), ConstraintsOf(live));
    if a in DiffOf(COLUMNS, name, ColumnsOf(base), ColumnsOf(live)) {
      DiffUnique(COLUMNS, name, ColumnsOf(base), ColumnsOf(live), a, b);
    } else if a in DiffOf(INDEXES, name, IndexesOf(base), IndexesOf(live)) {
      DiffUnique(INDEXES, name, IndexesOf(base), IndexesOf(live), a, b);
    } else {
      DiffUnique(CONSTRAINTS, name, ConstraintsOf(base), ConstraintsOf(live), a, b);
    }
  }

  lemma InnerUnique(base: Snapshot, live: Snapshot, a: Entry, b: Entry)
    requires a in TableDiffs(base, live, base.tables.Keys) && b in TableDiffs(base, live, base.tables.Keys)
    requires a.table == b.table && a.kind == b.kind && a.name == b.name
    ensures a == b
  {
    var s :| s in base.tables && s in live.tables && a in TableDiff(s, base.tables[s], live.tables[s]);
    var t :| t in base.tables && t in live.tables && b in TableDiff(t, base.tables[t], live.tables[t]);
    TableDiffKinds(s, base.tables[s], live.tables[s]);
    TableDiffKinds(t, base.tables[t], live.tables[t]);
    TableDiffUnique(s, base.tables[s], live.tables[s], a, b);
  }

  /** At most one entry per (table, kind, object). */
  lemma EntriesUnique(base: Snapshot, live: Snapshot, a: Entry, b: Entry)
    requires a in DiffSet(base, live) && b in DiffSet(base, live)
    requires a.table == b.table && a.kind == b.kind && a.name == b.name
    ensures a == b
  {
    InnerGroup(base, live);
    SequenceGroup(base, live);
    EnumGroup(base, live);
    if Group(a.kind) == 2 {
      InnerUnique(base, live, a, b);
    } else if Group(a.kind) == 3 {
      DiffUnique(SequenceFamily(base.version >= 2), "", SequencesOf(base), SequencesOf(live), a, b);
    } else if Group(a.kind) == 4 {
      DiffUnique(ENUMS, "", base.enums, live.enums, a, b);
    }
  }

  // ---------------------------------------------------------------- order independence

  ghost predicate DistinctKeys(S: set<Entry>) {
    forall a, b :: a in S && b in S && Key(a) == Key(b) ==> a == b
  }

  lemma ListsTail(s: seq<Entry>, S: set<Entry>)
    requires Lists(s, S) && s != []
    ensures s[0] in S && Lists(s[1..], S - {s[0]})
  {
  }

  /** A sorted listing of a set with distinct keys is unique. */
  lemma {:induction false} SortedListingUnique(a: seq<Entry>, b: seq<Entry>, S: set<Entry>)
    requires Lists(a, S) && Lists(b, S) && SortedByKey(a) && SortedByKey(b) && DistinctKeys(S)
    ensures a == b
    decreases |a|
  {
    assert (a != [] ==> a[0] in S) && (b != [] ==> b[0] in S);
    if a != [] {
      FirstIsLeast(a, b, S);
      ListsTail(a, S);
      ListsTail(b, S);
      SortedListingUnique(a[1..], b[1..], S - {a[0]});
      assert a == [a[0]] + a[1..] && b == [b[0]] + b[1..];
    }
  }

  lemma FirstIsLeast(a: seq<Entry>, b: seq<Entry>, S: set<Entry>)
    requires Lists(a, S) && Lists(b, S) && SortedByKey(a) && SortedByKey(b) && DistinctKeys(S) && a != [] && b != []
    ensures a[0] == b[0]
  {
    assert a[0] in S && b[0] in S;
    var i :| 0 <= i < |b| && b[i] == a[0];
    var j :| 0 <= j < |a| && a[j] == b[0];
    LexAntisym(Key(a[0]), Key(b[0]));
  }

  /** With equal keys on two distinct entries, the sorted report is not determined. */
  lemma EqualKeysLeaveChoice(s: seq<Entry>, S: set<Entry>, i: nat, j: nat)
    requires Lists(s, S) && SortedByKey(s) && i < j < |s| && Key(s[i]) == Key(s[j])
    ensures var t := s[i := s[j]][j := s[i]]; Lists(t, S) && SortedByKey(t) && t != s
  {
    var t := s[i := s[j]][j := s[i]];
    forall k ensures 0 <= k < |s| ==> Key(t[k]) == Key(s[k]) {}
    forall x ensures x in t <==> x in s {
      if x in s {
        var k :| 0 <= k < |s| && s[k] == x;
        assert t[if k == i then j else if k == j then i else k] == x;
      }
    }
  }

  ghost predicate SortedListing(s: seq<Entry>, S: set<Entry>) {
    Lists(s, S) && SortedByKey(s)
  }

  lemma Exchanged(s: seq<Entry>, S: set<Entry>, i: nat, j: nat) returns (t: seq<Entry>)
    requires SortedListing(s, S) && i < |s| && j < |s| && s[i] != s[j] && Key(s[i]) == Key(s[j])
    ensures SortedListing(t, S) && t != s
  {
    var lo, hi := if i < j then i else j, if i < j then j else i;
    EqualKeysLeaveChoice(s, S, lo, hi);
    t := s[lo := s[hi]][hi := s[lo]];
  }

  lemma AnotherListing(s: seq<Entry>, S: set<Entry>) returns (t: seq<Entry>)
    requires SortedListing(s, S) && !DistinctKeys(S)
    ensures SortedListing(t, S) && t != s
  {
    var a, b :| a in S && b in S && Key(a) == Key(b) && a != b;
    assert a in s && b in s;
    var i :| 0 <= i < |s| && s[i] == a;
    var j :| 0 <= j < |s| && s[j] == b;
    t := Exchanged(s, S, i, j);
  }

  /**
   The report is the same for every map iteration order and every sort that respects the key, exactly
   when no two differences share a key.
   */
  lemma ReportDeterminedIff(s: seq<Entry>, S: set<Entry>)
    requires SortedListing(s, S)
    ensures DistinctKeys(S) <==> forall t :: SortedListing(t, S) ==> t == s
  {
    if DistinctKeys(S) {
      forall t | SortedListing(t, S) ensures t == s {
        SortedListingUnique(t, s, S);
      }
    } else {
      var t := AnotherListing(s, S);
    }
  }

  // ---------------------------------------------------------------- swapping the snapshots

  function MirrorKind(k: Kind): Kind {
    match k
    case TableAdded => TableRemoved
    case TableRemoved => TableAdded
    case ColumnAdded => ColumnRemoved
    case ColumnRemoved => ColumnAdded
    case IndexAdded => IndexRemoved
    case IndexRemoved => IndexAdded
    case ConstraintAdded => ConstraintRemoved
    case ConstraintRemoved => ConstraintAdded
    case SequenceAdded => SequenceRemoved
    case SequenceRemoved => SequenceAdded
    case _ => k
  }

  predicate Mirrors(a: Entry, b: Entry) {
    && b.kind == MirrorKind(a.kind)
    && b.table == a.table
    && b.name == a.name
  }

  ghost predicate Mirrored(e: Entry, S: set<Entry>) {
    exists m :: m in S && Mirrors(e, m)
  }

  lemma DiffMirrors<X>(f: Family<X>, table: string, a: map<string, X>, b: map<string, X>, e: Entry)
    requires e in DiffOf(f, table, a, b)
    requires MirrorKind(f.added) == f.removed && MirrorKind(f.removed) == f.added && MirrorKind(f.changed) == f.changed
    requires forall n :: n in a && n in b ==> (f.differs(a[n], b[n]) <==> f.differs(b[n], a[n]))
    ensures Mirrored(e, DiffOf(f, table, b, a))
  {
    var n :| n in a.Keys + b.Keys && EntryFor(f, table, a, b, n) == Some(e);
    var m := EntryFor(f, table, b, a, n);
    assert m.Some? && n in b.Keys + a.Keys;
    assert m.value in DiffOf(f, table, b, a) && Mirrors(e, m.value);
  }

  lemma ColumnsMirror(t: string, a: Table, b: Table, e: Entry)
    requires e in DiffOf(COLUMNS, t, ColumnsOf(a), ColumnsOf(b))
    ensures Mirrored(e, DiffOf(COLUMNS, t, ColumnsOf(b), ColumnsOf(a)))
  {
    DiffMirrors(COLUMNS, t, ColumnsOf(a), ColumnsOf(b), e);
  }

  lemma IndexesMirror(t: string, a: Table, b: Table, e: Entry)
    requires e in DiffOf(INDEXES, t, IndexesOf(a), IndexesOf(b))
    ensures Mirrored(e, DiffOf(INDEXES, t, IndexesOf(b), IndexesOf(a)))
  {
    DiffMirrors(INDEXES, t, IndexesOf(a), IndexesOf(b), e);
  }

  lemma ConstraintsMirror(t: string, a: Table, b: Table, e: Entry)
    requires e in DiffOf(CONSTRAINTS, t, ConstraintsOf(a), ConstraintsOf(b))
    ensures Mirrored(e, DiffOf(CONSTRAINTS, t, ConstraintsOf(b), ConstraintsOf(a)))
  {
    DiffMirrors(CONSTRAINTS, t, ConstraintsOf(a), ConstraintsOf(b), e);
  }

  lemma TableDiffMirrors(t: string, a: Table, b: Table, e: Entry)
    requires e in TableDiff(t, a, b)
    ensures Mirrored(e, TableDiff(t, b, a))
  {
    if e in DiffOf(COLUMNS, t, ColumnsOf(a), ColumnsOf(b)) {
      ColumnsMirror(t, a, b, e);
      MirroredIn(e, DiffOf(COLUMNS, t, ColumnsOf(b), ColumnsOf(a)), TableDiff(t, b, a));
    } else if e in DiffOf(INDEXES, t, IndexesOf(a), IndexesOf(b)) {
      IndexesMirror(t, a, b, e);
      MirroredIn(e, DiffOf(INDEXES, t, IndexesOf(b), IndexesOf(a)), TableDiff(t, b, a));
    } else {
      ConstraintsMirror(t, a, b, e);
      MirroredIn(e, DiffOf(CONSTRAINTS, t, ConstraintsOf(b), ConstraintsOf(a)), TableDiff(t, b, a));
    }
  }

  lemma InnerMirrors(a: Snapshot, b: Snapshot, e: Entry)
    requires e in TableDiffs(a, b, a.tables.Keys)
    ensures Mirrored(e, TableDiffs(b, a, b.tables.Keys))
  {
    var t :| t in a.tables && t in b.tables && e in TableDiff(t, a.tables[t], b.tables[t]);
    TableDiffMirrors(t, a.tables[t], b.tables[t], e);
    var m :| m in TableDiff(t, b.tables[t], a.tables[t]) && Mirrors(e, m);
    assert m in TableDiffs(b, a, b.tables.Keys);
  }

  lemma TablesMirror(a: Snapshot, b: Snapshot, e: Entry)
    requires e in TableSet(a, b)
    ensures Mirrored(e, TableSet(b, a))
  {
    var m := Entry(MirrorKind(e.kind), e.table, "", NoDetail);
    assert m in TableSet(b, a) && Mirrors(e, m);
  }

  /** Swapping two snapshots of version 2 exchanges added and removed and keeps changed. */
  lemma SwapExchanges(a: Snapshot, b: Snapshot, e: Entry)
    requires a.version >= 2 && b.version >= 2 && e in DiffSet(a, b)
    ensures Mirrored(e, DiffSet(b, a))
  {
    if e in TableSet(a, b) {
      TablesMirror(a, b, e);
      MirroredIn(e, TableSet(b, a), DiffSet(b, a));
    } else if e in TableDiffs(a, b, a.tables.Keys) {
      InnerMirrors(a, b, e);
      MirroredIn(e, TableDiffs(b, a, b.tables.Keys), DiffSet(b, a));
    } else if e in SequenceDiff(a, b) {
      DiffMirrors(SequenceFamily(true), "", SequencesOf(a), SequencesOf(b), e);
      MirroredIn(e, SequenceDiff(b, a), DiffSet(b, a));
    } else {
      DiffMirrors(ENUMS, "", a.enums, b.enums, e);
      MirroredIn(e, DiffOf(ENUMS, "", b.enums, a.enums), DiffSet(b, a));
    }
  }

  lemma MirroredIn(e: Entry, S: set<Entry>, T: set<Entry>)
    requires Mirrored(e, S) && S <= T
    ensures Mirrored(e, T)
  {
  }

  // ---------------------------------------------------------------- what the projection does not see

  function OnlyEnum(labels: seq<string>): Snapshot {
    Snapshot(2, map[], map["e" := labels], [])
  }

  /** The labels as the joined text shows them: each cut at its commas, and no label read as one empty label. */
  function Cells(labels: seq<string>): seq<string> {
    if labels == [] then [""]
    else if |labels| == 1 then SplitOn(labels[0], ',')
    else SplitOn(labels[0], ',') + Cells(labels[1..])
  }

  lemma {:induction false} CellsOfText(labels: seq<string>)
    ensures SplitOn(EnumText(labels), ',') == Cells(labels)
    decreases labels
  {
    if |labels| > 1 {
      CellsOfText(labels[1..]);
      SplitConcat(labels[0], EnumText(labels[1..]), ',');
    }
  }

  /** A changed label list goes unreported exactly when its labels, cut at their commas, are the same. */
  lemma EnumTextEqualIff(a: seq<string>, b: seq<string>)
    ensures EnumText(a) == EnumText(b) <==> Cells(a) == Cells(b)
  {
    CellsOfText(a);
    CellsOfText(b);
    JoinSplit(EnumText(a), ',');
    JoinSplit(EnumText(b), ',');
  }

  /** Labels that are not empty and hold no comma. */
  predicate SafeLabels(labels: seq<string>) {
    forall i :: 0 <= i < |labels| ==> labels[i] != "" && ',' !in labels[i]
  }

  lemma {:induction false} SafeCells(labels: seq<string>)
    requires SafeLabels(labels)
    ensures Cells(labels) == if labels == [] then [""] else labels
    decreases labels
  {
    if labels != [] {
      SplitFree(labels[0], ',');
      SafeCells(labels[1..]);
      assert [labels[0]] + labels[1..] == labels;
    }
  }

  /** Between lists of such labels no change is hidden. */
  lemma SafeLabelsExact(a: seq<string>, b: seq<string>)
    requires SafeLabels(a) && SafeLabels(b)
    ensures EnumText(a) == EnumText(b) <==> a == b
  {
    EnumTextEqualIff(a, b);
    SafeCells(a);
    SafeCells(b);
  }

  ghost predicate SafeEnums(s: Snapshot) {
    forall n :: n in s.enums ==> SafeLabels(s.enums[n])
  }

  /** No enum entry exactly when the enums have the same names and cells; with safe labels, when they are equal. */
  lemma EnumsExact(base: Snapshot, live: Snapshot)
    ensures DiffOf(ENUMS, "", base.enums, live.enums) == {} <==>
              && base.enums.Keys == live.enums.Keys
              && forall n :: n in base.enums ==> Cells(base.enums[n]) == Cells(live.enums[n])
    ensures SafeEnums(base) && SafeEnums(live) ==>
              (DiffOf(ENUMS, "", base.enums, live.enums) == {} <==> base.enums == live.enums)
  {
    DiffEmptyIff(ENUMS, "", base.enums, live.enums);
    forall n | n in base.enums && n in live.enums
      ensures EnumText(base.enums[n]) == EnumText(live.enums[n]) <==> Cells(base.enums[n]) == Cells(live.enums[n])
      ensures SafeEnums(base) && SafeEnums(live) ==>
                (EnumText(base.enums[n]) == EnumText(live.enums[n]) <==> base.enums[n] == live.enums[n])
    {
      EnumTextEqualIff(base.enums[n], live.enums[n]);
      if SafeEnums(base) && SafeEnums(live) { SafeLabelsExact(base.enums[n], live.enums[n]); }
    }
  }

  /** A label with a comma, and two labels. */
  lemma CommaLabelsHideChange(x: string, y: string)
    ensures OnlyEnum([x + "," + y]) != OnlyEnum([x, y])
    ensures DiffSet(OnlyEnum([x + "," + y]), OnlyEnum([x, y])) == {}
  {
    var a, b := OnlyEnum([x + "," + y]), OnlyEnum([x, y]);
    assert |a.enums["e"]| != |b.enums["e"]|;
    assert [x, y][1..] == [y] && Join([y], ',') == y;
    assert x + [','] + y == x + "," + y;
    assert EnumText([x + "," + y]) == EnumText([x, y]);
    assert EnumView(a) == EnumView(b);
    DiffExact(a, b);
  }

  /** No label, and one empty label. */
  lemma EmptyLabelHidesChange()
    ensures OnlyEnum([]) != OnlyEnum([""])
    ensures DiffSet(OnlyEnum([]), OnlyEnum([""])) == {}
  {
    var a, b := OnlyEnum([]), OnlyEnum([""]);
    assert |a.enums["e"]| != |b.enums["e"]|;
    assert EnumView(a) == EnumView(b);
    DiffExact(a, b);
  }
}
