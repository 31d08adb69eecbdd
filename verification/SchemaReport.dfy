/** The sorted drift report, and what it says about the two snapshots. */
module SchemaReport {
  import opened SchemaDiff

  // ---------------------------------------------------------------- the sort key

  function KindText(k: Kind): string {
    match k
    case TableAdded => "table_added"
    case TableRemoved => "table_removed"
    case ColumnAdded => "column_added"
    case ColumnRemoved => "column_removed"
    case ColumnChanged => "column_changed"
    case IndexAdded => "index_added"
    case IndexRemoved => "index_removed"
    case IndexChanged => "index_changed"
    case ConstraintAdded => "constraint_added"
    case ConstraintRemoved => "constraint_removed"
    case ConstraintChanged => "constraint_changed"
    case SequenceAdded => "sequence_added"
    case SequenceRemoved => "sequence_removed"
    case SequenceChanged => "sequence_changed"
    case EnumChanged => "enum_changed"
  }

  function Key(e: Entry): string {
    e.table + "/" + KindText(e.kind) + "/" + e.name
  }

  /** String order; on UTF-8 text it is the order of code points. */
  predicate LexLeq(a: string, b: string) {
    a == [] || (b != [] && (a[0] < b[0] || (a[0] == b[0] && LexLeq(a[1..], b[1..]))))
  }

  lemma {:induction false} LexTotal(a: string, b: string)
    ensures LexLeq(a, b) || LexLeq(b, a)
  {
    if a != [] && b != [] { LexTotal(a[1..], b[1..]); }
  }

  lemma {:induction false} LexTrans(a: string, b: string, c: string)
    requires LexLeq(a, b) && LexLeq(b, c)
    ensures LexLeq(a, c)
  {
    if a != [] && a[0] == b[0] && b[0] == c[0] { LexTrans(a[1..], b[1..], c[1..]); }
  }

  lemma {:induction false} LexAntisym(a: string, b: string)
    requires LexLeq(a, b) && LexLeq(b, a)
    ensures a == b
  {
    if a != [] {
      LexAntisym(a[1..], b[1..]);
      assert a == [a[0]] + a[1..] && b == [b[0]] + b[1..];
    }
  }

  ghost predicate SortedByKey(s: seq<Entry>) {
    forall i, j :: 0 <= i <= j < |s| ==> LexLeq(Key(s[i]), Key(s[j]))
  }

  // ---------------------------------------------------------------- sorting

  /** Where an entry belongs in a sorted list. */
  function Position(e: Entry, s: seq<Entry>): (k: nat)
    ensures k <= |s|
  {
    if s == [] || LexLeq(Key(e), Key(s[0])) then 0 else 1 + Position(e, s[1..])
  }

  lemma {:induction false} PositionSplits(e: Entry, s: seq<Entry>)
    requires SortedByKey(s)
    ensures forall i :: 0 <= i < Position(e, s) ==> LexLeq(Key(s[i]), Key(e))
    ensures forall i :: Position(e, s) <= i < |s| ==> LexLeq(Key(e), Key(s[i]))
  {
    if s == [] {
    } else if LexLeq(Key(e), Key(s[0])) {
      forall i | 0 <= i < |s| ensures LexLeq(Key(e), Key(s[i])) {
        LexTrans(Key(e), Key(s[0]), Key(s[i]));
      }
    } else {
      LexTotal(Key(e), Key(s[0]));
      PositionSplits(e, s[1..]);
      assert forall i :: 1 <= i < |s| ==> s[i] == s[1..][i - 1];
    }
  }

  function InsertAt<T>(e: T, s: seq<T>, k: nat): seq<T>
    requires k <= |s|
  {
    s[..k] + [e] + s[k..]
  }

  lemma {:induction false} LexRefl(a: string)
    ensures LexLeq(a, a)
  {
    if a != [] { LexRefl(a[1..]); }
  }

  lemma SortedConcat(a: seq<Entry>, b: seq<Entry>)
    requires SortedByKey(a) && SortedByKey(b)
    requires forall i, j :: 0 <= i < |a| && 0 <= j < |b| ==> LexLeq(Key(a[i]), Key(b[j]))
    ensures SortedByKey(a + b)
  {
  }

  lemma InsertSorted(e: Entry, s: seq<Entry>)
    requires SortedByKey(s)
    ensures SortedByKey(InsertAt(e, s, Position(e, s)))
  {
    var k := Position(e, s);
    PositionSplits(e, s);
    LexRefl(Key(e));
    SortedConcat(s[..k], [e]);
    forall i, j | 0 <= i < k + 1 && 0 <= j < |s| - k ensures LexLeq(Key((s[..k] + [e])[i]), Key(s[k..][j])) {
      assert s[k..][j] == s[k + j];
      if i < k { assert (s[..k] + [e])[i] == s[i]; }
    }
    SortedConcat(s[..k] + [e], s[k..]);
  }

  lemma InsertLists<T(!new)>(e: T, s: seq<T>, S: set<T>, k: nat)
    requires Lists(s, S) && e !in S && k <= |s|
    ensures Lists(InsertAt(e, s, k), S + {e})
  {
  }

  /** sort.Slice by the composite key. */
  method SortEntries(entries: seq<Entry>, ghost S: set<Entry>) returns (sorted: seq<Entry>)
    requires Lists(entries, S)
    ensures Lists(sorted, S) && SortedByKey(sorted)
  {
    sorted := [];
    ghost var done: set<Entry> := {};
    for i := 0 to |entries|
      invariant done == set k | 0 <= k < i :: entries[k]
      invariant Lists(sorted, done) && SortedByKey(sorted)
    {
      var k := Position(entries[i], sorted);
      InsertSorted(entries[i], sorted);
      InsertLists(entries[i], sorted, done, k);
      sorted := InsertAt(entries[i], sorted, k);
      done := done + {entries[i]};
    }
    assert done == S;
  }

  /** compare: the report lists every difference exactly once, in key order, whatever the iteration orders. */
  method Compare(base: Snapshot, live: Snapshot, o: Orders) returns (hasDrift: bool, report: seq<Entry>)
    requires Fair(o)
    ensures Lists(report, DiffSet(base, live)) && SortedByKey(report)
    ensures hasDrift <==> DiffSet(base, live) != {}
  {
    var added := AddedTables(base, live, o.of("tables live", "", live.tables.Keys));
    var removed, inner := KeptTables(base, live, o.of("tables base", "", base.tables.Keys), o);
    var bs := FileByName(base.sequences, SequenceName);
    var ls := FileByName(live.sequences, SequenceName);
    var sequences := DiffNamed(SequenceFamily(base.version >= 2), "", bs, ls, o.of("sequences live", "", ls.Keys),
                              o.of("sequences base", "", bs.Keys));
    var enums := DiffNamed(ENUMS, "", base.enums, live.enums, o.of("enums live", "", live.enums.Keys),
                          o.of("enums base", "", base.enums.Keys));
    AllParts(base, live, added, removed, inner, sequences, enums);
    report := SortEntries(added + removed + inner + sequences + enums, DiffSet(base, live));
    hasDrift := |report| > 0;
    assert hasDrift ==> report[0] in DiffSet(base, live);
  }

  function Group(k: Kind): nat {
    if k.TableAdded? then 0
    else if k.TableRemoved? then 1
    else if OfTable(k) then 2
    else if k.EnumChanged? then 4
    else 3
  }

  ghost predicate AllOf(S: set<Entry>, group: nat) {
    forall e :: e in S ==> Group(e.kind) == group
  }

  lemma InnerGroup(base: Snapshot, live: Snapshot)
    ensures AllOf(TableDiffs(base, live, base.tables.Keys), 2)
  {
    TableDiffsKinds(base, live, base.tables.Keys);
  }

  lemma SequenceGroup(base: Snapshot, live: Snapshot)
    ensures AllOf(SequenceDiff(base, live), 3)
  {
  }

  lemma EnumGroup(base: Snapshot, live: Snapshot)
    ensures AllOf(DiffOf(ENUMS, "", base.enums, live.enums), 4)
  {
  }

  lemma FiveParts<T(!new)>(a: seq<T>, A: set<T>, b: seq<T>, B: set<T>, c: seq<T>, C: set<T>, d: seq<T>, D: set<T>,
                           e: seq<T>, E: set<T>)
    requires Lists(a, A) && Lists(b, B) && Lists(c, C) && Lists(d, D) && Lists(e, E) && A !! B !! C !! D !! E
    ensures Lists(a + b + c + d + e, A + B + C + D + E)
  {
    ListsConcat(a, A, b, B);
    ListsConcat(a + b, A + B, c, C);
    ListsConcat(a + b + c, A + B + C, d, D);
    ListsConcat(a + b + c + d, A + B + C + D, e, E);
  }

  lemma AllParts(base: Snapshot, live: Snapshot, added: seq<Entry>, removed: seq<Entry>, inner: seq<Entry>,
                 sequences: seq<Entry>, enums: seq<Entry>)
    requires Lists(added, Missing(live.tables.Keys, base.tables.Keys, TableAdded))
    requires Lists(removed, Missing(base.tables.Keys, live.tables.Keys, TableRemoved))
    requires Lists(inner, TableDiffs(base, live, base.tables.Keys))
    requires Lists(sequences, SequenceDiff(base, live))
    requires Lists(enums, DiffOf(ENUMS, "", base.enums, live.enums))
    ensures Lists(added + removed + inner + sequences + enums, DiffSet(base, live))
  {
    InnerGroup(base, live);
    SequenceGroup(base, live);
    EnumGroup(base, live);
    FiveParts(added, Missing(live.tables.Keys, base.tables.Keys, TableAdded),
              removed, Missing(base.tables.Keys, live.tables.Keys, TableRemoved),
              inner, TableDiffs(base, live, base.tables.Keys),
              sequences, SequenceDiff(base, live), enums, DiffOf(ENUMS, "", base.enums, live.enums));
  }
}
