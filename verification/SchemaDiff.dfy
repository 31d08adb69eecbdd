/** Drift between two schema snapshots. */
module SchemaDiff {
  import opened Common
  import opened Text

  // ---------------------------------------------------------------- snapshots

  datatype Column = Column(name: string, dataType: string, nullable: bool, default: Option<string>, position: int)
  datatype Index = Index(name: string, unique: bool, primary: bool, columns: seq<string>, definition: string)
  datatype Constraint = Constraint(name: string, kind: string, definition: string)
  datatype Sequence = Sequence(name: string, dataType: string, start: string, minValue: string, maxValue: string,
                               increment: string, cycle: bool, cache: string)
  datatype Table = Table(columns: seq<Column>, indexes: seq<Index>, constraints: seq<Constraint>)
  datatype Snapshot = Snapshot(version: int, tables: map<string, Table>, enums: map<string, seq<string>>,
                               sequences: seq<Sequence>)

  datatype Kind =
    | TableAdded | TableRemoved
    | ColumnAdded | ColumnRemoved | ColumnChanged
    | IndexAdded | IndexRemoved | IndexChanged
    | ConstraintAdded | ConstraintRemoved | ConstraintChanged
    | SequenceAdded | SequenceRemoved | SequenceChanged
    | EnumChanged

  datatype Detail =
    | NoDetail | DataType(text: string) | Columns(base: Column, live: Column) | Definitions(was: string, now: string)
    | Sequences(from: Sequence, to: Sequence) | Labels(before: seq<string>, after: seq<string>) | RemovedText

  datatype Entry = Entry(kind: Kind, table: string, name: string, detail: Detail)

  // ---------------------------------------------------------------- comparing named things

  /** Filing items under their names; a later item replaces an earlier one of the same name. */
  function Named<X>(items: seq<X>, name: X -> string): map<string, X> {
    if items == [] then map[] else Named(items[..|items|-1], name)[name(items[|items|-1]) := items[|items|-1]]
  }

  method FileByName<X>(items: seq<X>, name: X -> string) returns (m: map<string, X>)
    ensures m == Named(items, name)
  {
    m := map[];
    for i := 0 to |items|
      invariant m == Named(items[..i], name)
    {
      assert items[..i + 1][..i] == items[..i];
      m := m[name(items[i]) := items[i]];
    }
    assert items[..|items|] == items;
  }

  /** A name is filed exactly if an item has it, and stands for the last such item. */
  lemma {:induction false} NamedIsLast<X>(items: seq<X>, name: X -> string)
    ensures forall n :: n in Named(items, name) <==> exists i :: 0 <= i < |items| && name(items[i]) == n
    ensures forall i :: 0 <= i < |items| && (forall j :: i < j < |items| ==> name(items[j]) != name(items[i])) ==>
              Named(items, name)[name(items[i])] == items[i]
  {
    if items != [] {
      var k := |items| - 1;
      NamedIsLast(items[..k], name);
      assert forall i :: 0 <= i < k ==> items[..k][i] == items[i];
      forall n | n in Named(items[..k], name) ensures exists i :: 0 <= i < |items| && name(items[i]) == n {
        var i :| 0 <= i < k && name(items[..k][i]) == n;
        assert name(items[i]) == n;
      }
    }
  }

  /** How one family of named things is compared and reported. */
  datatype Family<!X> = Family(added: Kind, removed: Kind, changed: Kind, differs: (X, X) -> bool,
                               showAdded: X -> Detail, showRemoved: X -> Detail, showChanged: (X, X) -> Detail)

  function Added<X>(f: Family<X>, table: string, name: string, live: X): Entry {
    Entry(f.added, table, name, f.showAdded(live))
  }

  function Removed<X>(f: Family<X>, table: string, name: string, base: X): Entry {
    Entry(f.removed, table, name, f.showRemoved(base))
  }

  function Changed<X>(f: Family<X>, table: string, name: string, base: X, live: X): Entry {
    Entry(f.changed, table, name, f.showChanged(base, live))
  }

  /** The entry a name gives rise to, if any. */
  function EntryFor<X>(f: Family<X>, table: string, base: map<string, X>, live: map<string, X>,
                       name: string): Option<Entry> {
    if name in live && name !in base then Some(Added(f, table, name, live[name]))
    else if name in base && name !in live then Some(Removed(f, table, name, base[name]))
    else if name in base && f.differs(base[name], live[name]) then Some(Changed(f, table, name, base[name], live[name]))
    else None
  }

  ghost function DiffOf<X>(f: Family<X>, table: string, base: map<string, X>, live: map<string, X>): set<Entry> {
    set name | name in base.Keys + live.Keys && EntryFor(f, table, base, live, name).Some? ::
      EntryFor(f, table, base, live, name).value
  }

  /** s lists exactly the members of S, each once. */
  ghost predicate Lists<T(!new)>(s: seq<T>, S: set<T>) {
    && (forall x :: x in s <==> x in S)
    && forall i, j :: 0 <= i < j < |s| ==> s[i] != s[j]
  }

  /** Some iteration order of a map: Go promises nothing about it. */
  ghost predicate Enumerates(order: seq<string>, keys: set<string>) {
    Lists(order, keys)
  }

  lemma ListsConcat<T(!new)>(a: seq<T>, A: set<T>, b: seq<T>, B: set<T>)
    requires Lists(a, A) && Lists(b, B) && A !! B
    ensures Lists(a + b, A + B)
  {
    var s := a + b;
    forall i, j | 0 <= i < j < |s| ensures s[i] != s[j] {
      if i < |a| <= j { assert s[i] in A && s[j] in B; }
    }
  }

  /** Two passes: names only the live side has, then names the base side has. */
  method DiffNamed<X>(f: Family<X>, table: string, base: map<string, X>, live: map<string, X>,
                      liveOrder: seq<string>, baseOrder: seq<string>)
    returns (entries: seq<Entry>)
    requires Enumerates(liveOrder, live.Keys) && Enumerates(baseOrder, base.Keys)
    ensures Lists(entries, DiffOf(f, table, base, live))
  {
    entries := [];
    ghost var names: set<string> := {};
    for i := 0 to |liveOrder|
      invariant names == set k | 0 <= k < i && liveOrder[k] !in base :: liveOrder[k]
      invariant Reports(f, table, base, live, entries, names)
    {
      var name := liveOrder[i];
      assert name in live;
      if name !in base {
        ReportOne(f, table, base, live, entries, names, name);
        entries := entries + [Added(f, table, name, live[name])];
        names := names + {name};
      }
    }
    for i := 0 to |baseOrder|
      invariant names == (set n | n in live && n !in base) + set k | 0 <= k < i :: baseOrder[k]
      invariant Reports(f, table, base, live, entries, names)
    {
      var name := baseOrder[i];
      assert name in base;
      ReportOne(f, table, base, live, entries, names, name);
      names := names + {name};
      if name !in live {
        entries := entries + [Removed(f, table, name, base[name])];
      } else if f.differs(base[name], live[name]) {
        entries := entries + [Changed(f, table, name, base[name], live[name])];
      }
    }
    assert names == base.Keys + live.Keys;
  }

  /** The entries so far are exactly those of the names handled so far. */
  ghost predicate Reports<X>(f: Family<X>, table: string, base: map<string, X>, live: map<string, X>,
                             entries: seq<Entry>, names: set<string>) {
    Lists(entries, set name | name in names && EntryFor(f, table, base, live, name).Some? ::
                     EntryFor(f, table, base, live, name).value)
  }

  lemma ReportOne<X>(f: Family<X>, table: string, base: map<string, X>, live: map<string, X>,
                     entries: seq<Entry>, names: set<string>, name: string)
    requires Reports(f, table, base, live, entries, names) && name !in names
    ensures var e := EntryFor(f, table, base, live, name);
            Reports(f, table, base, live, if e.Some? then entries + [e.value] else entries, names + {name})
  {
    var e := EntryFor(f, table, base, live, name);
    var before := set n | n in names && EntryFor(f, table, base, live, n).Some? ::
                    EntryFor(f, table, base, live, n).value;
    var after := set n | n in names + {name} && EntryFor(f, table, base, live, n).Some? ::
                   EntryFor(f, table, base, live, n).value;
    if e.Some? {
      assert forall x :: x in before ==> x.name in names;
      assert after == before + {e.value};
      ListsConcat(entries, before, [e.value], {e.value});
    } else {
      assert after == before;
    }
  }

  // ---------------------------------------------------------------- the families

  function DefaultText(c: Column): string {
    match c.default case Some(t) => t case None => ""
  }

  function EnumText(labels: seq<string>): string {
    Join(labels, ',')
  }

  const COLUMNS: Family<Column> :=
    Family(ColumnAdded, ColumnRemoved, ColumnChanged,
           (a: Column, b: Column) => a.dataType != b.dataType || a.nullable != b.nullable
             || DefaultText(a) != DefaultText(b),
           (a: Column) => DataType(a.dataType), _ => NoDetail, (a: Column, b: Column) => Columns(a, b))

  const INDEXES: Family<Index> :=
    Family(IndexAdded, IndexRemoved, IndexChanged, (a: Index, b: Index) => a.definition != b.definition,
           _ => NoDetail, _ => NoDetail, (a: Index, b: Index) => Definitions(a.definition, b.definition))

  const CONSTRAINTS: Family<Constraint> :=
    Family(ConstraintAdded, ConstraintRemoved, ConstraintChanged,
           (a: Constraint, b: Constraint) => a.definition != b.definition,
           _ => NoDetail, _ => NoDetail, (a: Constraint, b: Constraint) => Definitions(a.definition, b.definition))

  /** A version 1 snapshot knows only the names of its sequences. */
  function SequenceFamily(configured: bool): Family<Sequence> {
    Family(SequenceAdded, SequenceRemoved, SequenceChanged, (a: Sequence, b: Sequence) => configured && a != b,
           _ => NoDetail, _ => NoDetail, (a: Sequence, b: Sequence) => Sequences(a, b))
  }

  const ENUMS: Family<seq<string>> :=
    Family(EnumChanged, EnumChanged, EnumChanged, (a: seq<string>, b: seq<string>) => EnumText(a) != EnumText(b),
           (b: seq<string>) => Labels([], b), _ => RemovedText, (a: seq<string>, b: seq<string>) => Labels(a, b))

  function ColumnName(c: Column): string { c.name }
  function IndexName(i: Index): string { i.name }
  function ConstraintName(c: Constraint): string { c.name }
  function SequenceName(q: Sequence): string { q.name }

  function ColumnsOf(t: Table): map<string, Column> {
    Named(t.columns, ColumnName)
  }

  function IndexesOf(t: Table): map<string, Index> {
    Named(t.indexes, IndexName)
  }

  function ConstraintsOf(t: Table): map<string, Constraint> {
    Named(t.constraints, ConstraintName)
  }

  function SequencesOf(s: Snapshot): map<string, Sequence> {
    Named(s.sequences, SequenceName)
  }

  // ---------------------------------------------------------------- the whole comparison

  ghost function TableDiff(name: string, base: Table, live: Table): set<Entry> {
    DiffOf(COLUMNS, name, ColumnsOf(base), ColumnsOf(live))
    + DiffOf(INDEXES, name, IndexesOf(base), IndexesOf(live))
    + DiffOf(CONSTRAINTS, name, ConstraintsOf(base), ConstraintsOf(live))
  }

  ghost function TableDiffs(base: Snapshot, live: Snapshot, names: set<string>): set<Entry> {
    set t, e |
      t in names && t in base.tables && t in live.tables && e in TableDiff(t, base.tables[t], live.tables[t]) ::
      e
  }

  ghost function SequenceDiff(base: Snapshot, live: Snapshot): set<Entry> {
    DiffOf(SequenceFamily(base.version >= 2), "", SequencesOf(base), SequencesOf(live))
  }

  /** Every difference between two snapshots. */
  ghost function DiffSet(base: Snapshot, live: Snapshot): set<Entry> {
    TableSet(base, live)
    + TableDiffs(base, live, base.tables.Keys)
    + SequenceDiff(base, live)
    + DiffOf(ENUMS, "", base.enums, live.enums)
  }

  /** Tables are reported under their own name, without an object. */
  ghost function TableSet(base: Snapshot, live: Snapshot): set<Entry> {
    Missing(live.tables.Keys, base.tables.Keys, TableAdded) + Missing(base.tables.Keys, live.tables.Keys, TableRemoved)
  }

  /** Each range over a map may run in any order; `site` tells the loops apart. */
  datatype Orders = Orders(of: (string, string, set<string>) -> seq<string>)

  ghost predicate Fair(o: Orders) {
    forall site, table, keys :: Enumerates(o.of(site, table, keys), keys)
  }

  method DiffColumns(name: string, base: Table, live: Table, o: Orders) returns (entries: seq<Entry>)
    requires Fair(o)
    ensures Lists(entries, DiffOf(COLUMNS, name, ColumnsOf(base), ColumnsOf(live)))
  {
    var b := FileByName(base.columns, ColumnName);
    var l := FileByName(live.columns, ColumnName);
    entries := DiffNamed(COLUMNS, name, b, l, o.of("columns live", name, l.Keys), o.of("columns base", name, b.Keys));
  }

  method DiffIndexes(name: string, base: Table, live: Table, o: Orders) returns (entries: seq<Entry>)
    requires Fair(o)
    ensures Lists(entries, DiffOf(INDEXES, name, IndexesOf(base), IndexesOf(live)))
  {
    var b := FileByName(base.indexes, IndexName);
    var l := FileByName(live.indexes, IndexName);
    entries := DiffNamed(INDEXES, name, b, l, o.of("indexes live", name, l.Keys), o.of("indexes base", name, b.Keys));
  }

  method DiffConstraints(name: string, base: Table, live: Table, o: Orders) returns (entries: seq<Entry>)
    requires Fair(o)
    ensures Lists(entries, DiffOf(CONSTRAINTS, name, ConstraintsOf(base), ConstraintsOf(live)))
  {
    var b := FileByName(base.constraints, ConstraintName);
    var l := FileByName(live.constraints, ConstraintName);
    entries := DiffNamed(CONSTRAINTS, name, b, l, o.of("constraints live", name, l.Keys),
                         o.of("constraints base", name, b.Keys));
  }

  lemma TableParts(name: string, base: Table, live: Table, columns: seq<Entry>, indexes: seq<Entry>,
                   constraints: seq<Entry>)
    requires Lists(columns, DiffOf(COLUMNS, name, ColumnsOf(base), ColumnsOf(live)))
    requires Lists(indexes, DiffOf(INDEXES, name, IndexesOf(base), IndexesOf(live)))
    requires Lists(constraints, DiffOf(CONSTRAINTS, name, ConstraintsOf(base), ConstraintsOf(live)))
    ensures Lists(columns + indexes + constraints, TableDiff(name, base, live))
  {
    var C := DiffOf(COLUMNS, name, ColumnsOf(base), ColumnsOf(live));
    var I := DiffOf(INDEXES, name, IndexesOf(base), IndexesOf(live));
    var K := DiffOf(CONSTRAINTS, name, ConstraintsOf(base), ConstraintsOf(live));
    DiffKinds(COLUMNS, name, ColumnsOf(base), ColumnsOf(live));
    DiffKinds(INDEXES, name, IndexesOf(base), IndexesOf(live));
    DiffKinds(CONSTRAINTS, name, ConstraintsOf(base), ConstraintsOf(live));
    ListsConcat(columns, C, indexes, I);
    ListsConcat(columns + indexes, C + I, constraints, K);
  }

  method DiffTable(name: string, base: Table, live: Table, o: Orders) returns (entries: seq<Entry>)
    requires Fair(o)
    ensures Lists(entries, TableDiff(name, base, live))
  {
    var columns := DiffColumns(name, base, live, o);
    var indexes := DiffIndexes(name, base, live, o);
    var constraints := DiffConstraints(name, base, live, o);
    TableParts(name, base, live, columns, indexes, constraints);
    return columns + indexes + constraints;
  }

  lemma DiffKinds<X>(f: Family<X>, table: string, base: map<string, X>, live: map<string, X>)
    ensures forall e :: e in DiffOf(f, table, base, live) ==>
              e.table == table && (e.kind == f.added || e.kind == f.removed || e.kind == f.changed)
  {
  }

  predicate OfTable(k: Kind) {
    k.ColumnAdded? || k.ColumnRemoved? || k.ColumnChanged? || k.IndexAdded? || k.IndexRemoved? || k.IndexChanged?
    || k.ConstraintAdded? || k.ConstraintRemoved? || k.ConstraintChanged?
  }

  lemma TableDiffKinds(name: string, base: Table, live: Table)
    ensures forall e :: e in TableDiff(name, base, live) ==> e.table == name && OfTable(e.kind)
  {
    DiffKinds(COLUMNS, name, ColumnsOf(base), ColumnsOf(live));
    DiffKinds(INDEXES, name, IndexesOf(base), IndexesOf(live));
    DiffKinds(CONSTRAINTS, name, ConstraintsOf(base), ConstraintsOf(live));
  }

  lemma TableDiffsKinds(base: Snapshot, live: Snapshot, names: set<string>)
    ensures forall e :: e in TableDiffs(base, live, names) ==> e.table in names && OfTable(e.kind)
  {
    forall e | e in TableDiffs(base, live, names) ensures e.table in names && OfTable(e.kind) {
      var t :| t in names && t in base.tables && t in live.tables && e in TableDiff(t, base.tables[t], live.tables[t]);
      TableDiffKinds(t, base.tables[t], live.tables[t]);
    }
  }

  lemma AddTable(base: Snapshot, live: Snapshot, names: set<string>, t: string, entries: seq<Entry>, more: seq<Entry>)
    requires t in base.tables && t in live.tables && t !in names
    requires Lists(entries, TableDiffs(base, live, names)) && Lists(more, TableDiff(t, base.tables[t], live.tables[t]))
    ensures Lists(entries + more, TableDiffs(base, live, names + {t}))
  {
    TableDiffsKinds(base, live, names);
    TableDiffKinds(t, base.tables[t], live.tables[t]);
    ListsConcat(entries, TableDiffs(base, live, names), more, TableDiff(t, base.tables[t], live.tables[t]));
    assert TableDiffs(base, live, names + {t})
      == TableDiffs(base, live, names) + TableDiff(t, base.tables[t], live.tables[t]);
  }

  ghost function Missing(names: set<string>, other: set<string>, kind: Kind): set<Entry> {
    set t | t in names && t !in other :: Entry(kind, t, "", NoDetail)
  }

  lemma MissingOne(names: set<string>, other: set<string>, kind: Kind, t: string, entries: seq<Entry>)
    requires t !in names && Lists(entries, Missing(names, other, kind))
    ensures Lists(if t in other then entries else entries + [Entry(kind, t, "", NoDetail)],
                  Missing(names + {t}, other, kind))
  {
    var e := Entry(kind, t, "", NoDetail);
    if t in other {
      assert Missing(names + {t}, other, kind) == Missing(names, other, kind);
    } else {
      assert Missing(names + {t}, other, kind) == Missing(names, other, kind) + {e};
      ListsConcat(entries, Missing(names, other, kind), [e], {e});
    }
  }

  /** Tables added: the loop over the live side. */
  method AddedTables(base: Snapshot, live: Snapshot, order: seq<string>) returns (entries: seq<Entry>)
    requires Enumerates(order, live.tables.Keys)
    ensures Lists(entries, Missing(live.tables.Keys, base.tables.Keys, TableAdded))
  {
    entries := [];
    ghost var names: set<string> := {};
    for i := 0 to |order|
      invariant names == set k | 0 <= k < i :: order[k]
      invariant Lists(entries, Missing(names, base.tables.Keys, TableAdded))
    {
      MissingOne(names, base.tables.Keys, TableAdded, order[i], entries);
      if order[i] !in base.tables { entries := entries + [Entry(TableAdded, order[i], "", NoDetail)]; }
      names := names + {order[i]};
    }
    assert names == live.tables.Keys;
  }

  /** Tables removed or compared: the loop over the base side. */
  method KeptTables(base: Snapshot, live: Snapshot, order: seq<string>, o: Orders)
    returns (removed: seq<Entry>, inner: seq<Entry>)
    requires Fair(o) && Enumerates(order, base.tables.Keys)
    ensures Lists(removed, Missing(base.tables.Keys, live.tables.Keys, TableRemoved))
    ensures Lists(inner, TableDiffs(base, live, base.tables.Keys))
  {
    removed, inner := [], [];
    ghost var names: set<string> := {};
    for i := 0 to |order|
      invariant names == set k | 0 <= k < i :: order[k]
      invariant Lists(removed, Missing(names, live.tables.Keys, TableRemoved))
      invariant Lists(inner, TableDiffs(base, live, names))
    {
      var t := order[i];
      assert t in base.tables;
      MissingOne(names, live.tables.Keys, TableRemoved, t, removed);
      if t !in live.tables {
        removed := removed + [Entry(TableRemoved, t, "", NoDetail)];
        assert TableDiffs(base, live, names + {t}) == TableDiffs(base, live, names);
      } else {
        var more := DiffTable(t, base.tables[t], live.tables[t], o);
        AddTable(base, live, names, t, inner, more);
        inner := inner + more;
      }
      names := names + {t};
    }
    assert names == base.tables.Keys;
  }
}
