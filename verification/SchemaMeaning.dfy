/** What each reported difference says about the two snapshots, and that everything it could say is reported. */
module SchemaMeaning {
  import opened Common
  import opened SchemaDiff

  // ---------------------------------------------------------------- the meaning of an entry

  predicate Gained<X>(base: map<string, X>, live: map<string, X>, n: string) {
    n in live && n !in base
  }

  predicate Both<X>(base: map<string, X>, live: map<string, X>, n: string) {
    n in base && n in live
  }

  /** The entry tells the truth: the kind is what happened to the object, and the detail shows base before live. */
  predicate Says(base: Snapshot, live: Snapshot, e: Entry) {
    match e.kind
    case TableAdded => Gained(base.tables, live.tables, e.table) && e.name == "" && e.detail == NoDetail
    case TableRemoved => Gained(live.tables, base.tables, e.table) && e.name == "" && e.detail == NoDetail
    case SequenceAdded =>
      e.table == "" && Gained(SequencesOf(base), SequencesOf(live), e.name) && e.detail == NoDetail
    case SequenceRemoved =>
      e.table == "" && Gained(SequencesOf(live), SequencesOf(base), e.name) && e.detail == NoDetail
    case SequenceChanged =>
      && e.table == "" && base.version >= 2 && Both(SequencesOf(base), SequencesOf(live), e.name)
      && var a, b := SequencesOf(base)[e.name], SequencesOf(live)[e.name];
         a != b && e.detail == Sequences(a, b)
    case EnumChanged =>
      && e.table == ""
      && if Gained(base.enums, live.enums, e.name) then e.detail == Labels([], live.enums[e.name])
         else if Gained(live.enums, base.enums, e.name) then e.detail == RemovedText
         else Both(base.enums, live.enums, e.name)
              && EnumText(base.enums[e.name]) != EnumText(live.enums[e.name])
              && e.detail == Labels(base.enums[e.name], live.enums[e.name])
    case _ => Both(base.tables, live.tables, e.table) && SaysOfTable(base.tables[e.table], live.tables[e.table], e)
  }

  predicate SaysOfTable(base: Table, live: Table, e: Entry) {
    match e.kind
    case ColumnAdded =>
      Gained(ColumnsOf(base), ColumnsOf(live), e.name) && e.detail == DataType(ColumnsOf(live)[e.name].dataType)
    case ColumnRemoved => Gained(ColumnsOf(live), ColumnsOf(base), e.name) && e.detail == NoDetail
    case ColumnChanged =>
      && Both(ColumnsOf(base), ColumnsOf(live), e.name)
      && var a, b := ColumnsOf(base)[e.name], ColumnsOf(live)[e.name];
         && (a.dataType != b.dataType || a.nullable != b.nullable || DefaultText(a) != DefaultText(b))
         && e.detail == Columns(a, b)
    case IndexAdded => Gained(IndexesOf(base), IndexesOf(live), e.name) && e.detail == NoDetail
    case IndexRemoved => Gained(IndexesOf(live), IndexesOf(base), e.name) && e.detail == NoDetail
    case IndexChanged =>
      && Both(IndexesOf(base), IndexesOf(live), e.name)
      && var a, b := IndexesOf(base)[e.name].definition, IndexesOf(live)[e.name].definition;
         a != b && e.detail == Definitions(a, b)
    case ConstraintAdded => Gained(ConstraintsOf(base), ConstraintsOf(live), e.name) && e.detail == NoDetail
    case ConstraintRemoved => Gained(ConstraintsOf(live), ConstraintsOf(base), e.name) && e.detail == NoDetail
    case ConstraintChanged =>
      && Both(ConstraintsOf(base), ConstraintsOf(live), e.name)
      && var a, b := ConstraintsOf(base)[e.name].definition, ConstraintsOf(live)[e.name].definition;
         a != b && e.detail == Definitions(a, b)
    case _ => false
  }

  // ---------------------------------------------------------------- reported exactly

  lemma MemberOf<X>(f: Family<X>, table: string, base: map<string, X>, live: map<string, X>, e: Entry)
    ensures e in DiffOf(f, table, base, live) <==> EntryFor(f, table, base, live, e.name) == Some(e)
  {
    if EntryFor(f, table, base, live, e.name) == Some(e) {
      assert e.name in base.Keys + live.Keys;
    }
  }

  predicate OfColumn(k: Kind) {
    k.ColumnAdded? || k.ColumnRemoved? || k.ColumnChanged?
  }

  predicate OfIndex(k: Kind) {
    k.IndexAdded? || k.IndexRemoved? || k.IndexChanged?
  }

  predicate OfConstraint(k: Kind) {
    k.ConstraintAdded? || k.ConstraintRemoved? || k.ConstraintChanged?
  }

  lemma ColumnsSayExactly(table: string, base: Table, live: Table, e: Entry)
    ensures e in DiffOf(COLUMNS, table, ColumnsOf(base), ColumnsOf(live)) <==>
              e.table == table && OfColumn(e.kind) && SaysOfTable(base, live, e)
  {
    MemberOf(COLUMNS, table, ColumnsOf(base), ColumnsOf(live), e);
  }

  lemma IndexesSayExactly(table: string, base: Table, live: Table, e: Entry)
    ensures e in DiffOf(INDEXES, table, IndexesOf(base), IndexesOf(live)) <==>
              e.table == table && OfIndex(e.kind) && SaysOfTable(base, live, e)
  {
    MemberOf(INDEXES, table, IndexesOf(base), IndexesOf(live), e);
  }

  lemma ConstraintsSayExactly(table: string, base: Table, live: Table, e: Entry)
    ensures e in DiffOf(CONSTRAINTS, table, ConstraintsOf(base), ConstraintsOf(live)) <==>
              e.table == table && OfConstraint(e.kind) && SaysOfTable(base, live, e)
  {
    MemberOf(CONSTRAINTS, table, ConstraintsOf(base), ConstraintsOf(live), e);
  }

  lemma TableSaysExactly(table: string, base: Table, live: Table, e: Entry)
    ensures e in TableDiff(table, base, live) <==> e.table == table && SaysOfTable(base, live, e)
  {
    ColumnsSayExactly(table, base, live, e);
    IndexesSayExactly(table, base, live, e);
    ConstraintsSayExactly(table, base, live, e);
  }

  lemma TablesSayExactly(base: Snapshot, live: Snapshot, e: Entry)
    ensures e in TableDiffs(base, live, base.tables.Keys) <==>
              Both(base.tables, live.tables, e.table) && SaysOfTable(base.tables[e.table], live.tables[e.table], e)
  {
    if Both(base.tables, live.tables, e.table) {
      TableSaysExactly(e.table, base.tables[e.table], live.tables[e.table], e);
    }
    forall t | Both(base.tables, live.tables, t)
      ensures e in TableDiff(t, base.tables[t], live.tables[t]) ==> e.table == t
    {
      TableSaysExactly(t, base.tables[t], live.tables[t], e);
    }
  }

  lemma SequencesSayExactly(base: Snapshot, live: Snapshot, e: Entry)
    ensures e in SequenceDiff(base, live) <==>
              (e.kind.SequenceAdded? || e.kind.SequenceRemoved? || e.kind.SequenceChanged?) && Says(base, live, e)
  {
    MemberOf(SequenceFamily(base.version >= 2), "", SequencesOf(base), SequencesOf(live), e);
  }

  lemma EnumsSayExactly(base: Snapshot, live: Snapshot, e: Entry)
    ensures e in DiffOf(ENUMS, "", base.enums, live.enums) <==> e.kind.EnumChanged? && Says(base, live, e)
  {
    MemberOf(ENUMS, "", base.enums, live.enums, e);
  }

  /** The differences between two snapshots are exactly the entries that tell the truth about them. */
  lemma ReportSaysExactly(base: Snapshot, live: Snapshot, e: Entry)
    ensures e in DiffSet(base, live) <==> Says(base, live, e)
  {
    TablesSayExactly(base, live, e);
    SequencesSayExactly(base, live, e);
    EnumsSayExactly(base, live, e);
  }
}
