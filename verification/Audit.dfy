/** The audit log: entries move from a table into archive files, and the log is exported a page at a
    time (server/src/modules/audit/service.ts). */
module Audit {
  import opened Common

  datatype Entry = Entry(id: nat, createdAt: nat, action: string, actor: Option<nat>)

  /** audit-<day>_<day>_<id>-<id>, for the first and the last entry of a file. */
  datatype Name = Name(firstDay: nat, lastDay: nat, firstId: nat, lastId: nat)

  const DAY_MS := 86_400_000
  const ARCHIVE_BATCH := 5000
  const EXPORT_PAGE := 1000

  /** The table in the order of its ids, the completed archive files, and the entries ever recorded. */
  datatype Store = Store(table: seq<Entry>, files: map<Name, seq<Entry>>, log: set<Entry>)

  // ---- archiving ----

  function First(rows: seq<Entry>, limit: nat): seq<Entry> { if |rows| <= limit then rows else rows[..limit] }

  function OlderThan(table: seq<Entry>, before: nat): seq<Entry> {
    if table == [] then []
    else (if table[0].createdAt < before then [table[0]] else []) + OlderThan(table[1..], before)
  }

  function NameOf(rows: seq<Entry>): Name
    requires rows != []
  {
    var last := rows[|rows| - 1];
    Name(rows[0].createdAt / DAY_MS, last.createdAt / DAY_MS, rows[0].id, last.id)
  }

  predicate HasId(table: seq<Entry>, id: nat) { exists i :: 0 <= i < |table| && table[i].id == id }

  function Without(table: seq<Entry>, rows: seq<Entry>): seq<Entry> {
    if table == [] then []
    else (if HasId(rows, table[0].id) then [] else [table[0]]) + Without(table[1..], rows)
  }

  function Written(st: Store, rows: seq<Entry>): Store
    requires rows != []
  {
    st.(files := st.files[NameOf(rows) := rows])
  }

  function Destroyed(st: Store, rows: seq<Entry>): Store { st.(table := Without(st.table, rows)) }

  function Recorded(st: Store, e: Entry): Store { st.(table := st.table + [e], log := st.log + {e}) }

  function RecordedAll(st: Store, es: seq<Entry>): Store {
    if es == [] then st else Recorded(RecordedAll(st, es[..|es| - 1]), es[|es| - 1])
  }

  lemma {:induction false} OlderIsShorter(table: seq<Entry>, before: nat)
    ensures |OlderThan(table, before)| <= |table|
    ensures forall e :: e in OlderThan(table, before) ==> e in table && e.createdAt < before
  {
    if table != [] {
      OlderIsShorter(table[1..], before);
    }
  }

  lemma InHasId(table: seq<Entry>, e: Entry)
    requires e in table
    ensures HasId(table, e.id)
  {
  }

  lemma {:induction false} WithoutHas(table: seq<Entry>, rows: seq<Entry>, e: Entry)
    ensures e in Without(table, rows) <==> e in table && !HasId(rows, e.id)
  {
    if table != [] {
      WithoutHas(table[1..], rows, e);
      assert table == [table[0]] + table[1..];
    }
  }

  /** The next entries to archive. */
  function Batch(st: Store, before: nat): seq<Entry> { First(OlderThan(st.table, before), ARCHIVE_BATCH) }

  /** Where an archive run is between two of its effects: reading a batch, writing it to a file, deleting
      its rows, and recording the closing entry. */
  datatype Run =
    | Idle
    | Reading(before: nat)
    | Writing(before: nat, rows: seq<Entry>)
    | Deleting(before: nat, rows: seq<Entry>)
    | Closing(before: nat)

  /** archived counts the run's deleted rows; late has the entries recorded since it read last. */
  datatype State = State(st: Store, run: Run, archived: nat, late: set<Entry>)

  function Begun(st: Store, before: nat): State { State(st, Reading(before), 0, {}) }

  function Finished(s: State, before: nat): State { s.(run := if s.archived > 0 then Closing(before) else Idle) }

  predicate HasEffect(run: Run) {
    run.Reading? || (run.Writing? && run.rows != []) || run.Deleting?
  }

  /** The next effect of the run that is under way. */
  function Effected(s: State): State
    requires HasEffect(s.run)
  {
    match s.run
    case Reading(before) =>
      var rows := Batch(s.st, before);
      var read := s.(late := {});
      if rows == [] then Finished(read, before) else read.(run := Writing(before, rows))
    case Writing(before, rows) => s.(st := Written(s.st, rows), run := Deleting(before, rows))
    case Deleting(before, rows) =>
      var pruned := s.(st := Destroyed(s.st, rows), archived := s.archived + |rows|);
      if |rows| < ARCHIVE_BATCH then Finished(pruned, before) else pruned.(run := Reading(before))
  }

  /** What others record while the run waits for its next effect. */
  function Arrived(s: State, es: seq<Entry>): State {
    s.(st := RecordedAll(s.st, es), late := s.late + set e | e in es)
  }

  function Closed(s: State, e: Entry): State { Arrived(s, [e]).(run := Idle) }

  /** A run that has |arrivals| effects before it is interrupted, unless it is over sooner; arrivals[k] is
      recorded while it waits for its k-th effect. */
  function Proceeded(s: State, arrivals: seq<seq<Entry>>, closing: Entry): State
    decreases |arrivals|
  {
    if arrivals == [] || !(HasEffect(s.run) || s.run.Closing?) then s
    else
      var ready := Arrived(s, arrivals[0]);
      Proceeded(if s.run.Closing? then Closed(ready, closing) else Effected(ready), arrivals[1..], closing)
  }

  lemma {:induction false} ProceededStep(s: State, arrivals: seq<seq<Entry>>, closing: Entry, k: nat)
    requires k < |arrivals| && (HasEffect(s.run) || s.run.Closing?)
    ensures
      var ready := Arrived(s, arrivals[k]);
      Proceeded(s, arrivals[k..], closing)
        == Proceeded(if s.run.Closing? then Closed(ready, closing) else Effected(ready), arrivals[k + 1..], closing)
  {
    assert arrivals[k..][0] == arrivals[k] && arrivals[k..][1..] == arrivals[k + 1..];
  }

  class Log {
    var table: seq<Entry>
    var files: map<Name, seq<Entry>>
    ghost var log: set<Entry>

    ghost function View(): Store
      reads this
    {
      Store(table, files, log)
    }

    constructor ()
      ensures View() == Store([], map[], {})
    {
      table, files, log := [], map[], {};
    }

    method Record(e: Entry)
      modifies this
      ensures View() == Recorded(old(View()), e)
    {
      table := table + [e];
      log := log + {e};
    }

    method RecordAll(es: seq<Entry>)
      modifies this
      ensures View() == RecordedAll(old(View()), es)
    {
      ghost var start := View();
      for i := 0 to |es|
        invariant View() == RecordedAll(start, es[..i])
      {
        assert es[..i + 1][..i] == es[..i];
        Record(es[i]);
      }
      assert es[..|es|] == es;
    }

    method ReadBatch(before: nat, es: seq<Entry>) returns (rows: seq<Entry>)
      modifies this
      ensures View() == RecordedAll(old(View()), es) && rows == Batch(View(), before)
    {
      RecordAll(es);
      rows := First(OlderThan(table, before), ARCHIVE_BATCH);
    }

    method WriteBatch(rows: seq<Entry>, es: seq<Entry>)
      requires rows != []
      modifies this
      ensures View() == Written(RecordedAll(old(View()), es), rows)
    {
      RecordAll(es);
      files := files[NameOf(rows) := rows];
    }

    method DeleteBatch(rows: seq<Entry>, es: seq<Entry>)
      modifies this
      ensures View() == Destroyed(RecordedAll(old(View()), es), rows)
    {
      RecordAll(es);
      table := Without(table, rows);
    }

    /** A batch's file and the deletion of its rows, unless it is interrupted before one of them. */
    method MoveBatch(ghost s: State, before: nat, rows: seq<Entry>, arrivals: seq<seq<Entry>>, k: nat, closing: Entry)
      returns (whole: bool, ghost n: State)
      requires rows != [] && k <= |arrivals| && s.st == View() && s.run == Writing(before, rows)
      modifies this
      ensures n.st == View()
      ensures whole ==>
                && k + 2 <= |arrivals| && n.archived == s.archived + |rows|
                && n.run == AfterDelete(before, rows, n.archived)
                && Proceeded(s, arrivals[k..], closing) == Proceeded(n, arrivals[k + 2..], closing)
      ensures !whole ==>
                Proceeded(s, arrivals[k..], closing) == n && n.archived == s.archived && !n.run.Idle?
    {
      n := s;
      if k == |arrivals| {
        return false, n;
      }
      WriteBatch(rows, arrivals[k]);
      n := Advance(n, arrivals, closing, k);
      if k + 1 == |arrivals| {
        return false, n;
      }
      DeleteBatch(rows, arrivals[k + 1]);
      n := Advance(n, arrivals, closing, k + 1);
      whole := true;
    }

    /** The closing entry, when anything was archived. */
    method CloseRun(ghost s: State, archived: nat, arrivals: seq<seq<Entry>>, k: nat, closing: Entry)
      returns (finished: bool)
      requires k <= |arrivals| && s.st == View() && archived == s.archived
      requires if archived > 0 then s.run.Closing? else s.run.Idle?
      modifies this
      ensures
        var r := Proceeded(s, arrivals[k..], closing);
        View() == r.st && archived == r.archived && finished == r.run.Idle?
    {
      if archived > 0 {
        if k == |arrivals| {
          return false;
        }
        RecordAll(arrivals[k]);
        Record(closing);
        ghost var n := Advance(s, arrivals, closing, k);
      }
      return true;
    }

    /** Writes every old entry to a file before it deletes it. arrivals is what others record while each
        of the effects is awaited; it is interrupted after |arrivals| of them. */
    method ArchiveAndPrune(before: nat, arrivals: seq<seq<Entry>>, closing: Entry)
      returns (finished: bool, archived: nat)
      modifies this
      ensures
        var r := Proceeded(Begun(old(View()), before), arrivals, closing);
        View() == r.st && archived == r.archived && finished == r.run.Idle?
    {
      ghost var s := Begun(View(), before);
      ghost var start := s;
      archived := 0;
      var k := 0;
      assert arrivals[0..] == arrivals;
      while true
        invariant k <= |arrivals| && s == State(View(), Reading(before), archived, s.late)
        invariant Proceeded(start, arrivals, closing) == Proceeded(s, arrivals[k..], closing)
        decreases |arrivals| - k
      {
        if k == |arrivals| {
          return false, archived;
        }
        var rows := ReadBatch(before, arrivals[k]);
        s := Advance(s, arrivals, closing, k);
        k := k + 1;
        if rows == [] {
          break;
        }
        var whole;
        whole, s := MoveBatch(s, before, rows, arrivals, k, closing);
        if !whole {
          return false, archived;
        }
        archived := archived + |rows|;
        k := k + 2;
        if |rows| < ARCHIVE_BATCH {
          break;
        }
      }
      finished := CloseRun(s, archived, arrivals, k, closing);
    }
  }

  function AfterDelete(before: nat, rows: seq<Entry>, archived: nat): Run {
    if |rows| >= ARCHIVE_BATCH then Reading(before) else if archived > 0 then Closing(before) else Idle
  }

  /** The run's next effect, its k-th. */
  lemma Advance(s: State, arrivals: seq<seq<Entry>>, closing: Entry, k: nat) returns (n: State)
    requires k < |arrivals| && (HasEffect(s.run) || s.run.Closing?)
    ensures
      var st := RecordedAll(s.st, arrivals[k]);
      match s.run
      case Reading(before) =>
        var rows := Batch(st, before);
        n.st == st && n.archived == s.archived
        && n.run == if rows != [] then Writing(before, rows) else if s.archived > 0 then Closing(before) else Idle
      case Writing(before, rows) =>
        n.st == Written(st, rows) && n.archived == s.archived && n.run == Deleting(before, rows)
      case Deleting(before, rows) =>
        && n.st == Destroyed(st, rows) && n.archived == s.archived + |rows|
        && n.run == AfterDelete(before, rows, n.archived)
      case _ => n.st == Recorded(st, closing) && n.archived == s.archived && n.run == Idle
    ensures Proceeded(s, arrivals[k..], closing) == Proceeded(n, arrivals[k + 1..], closing)
  {
    var ready := Arrived(s, arrivals[k]);
    ProceededStep(s, arrivals, closing, k);
    RecordOne(ready.st, closing);
    n := if s.run.Closing? then Closed(ready, closing) else Effected(ready);
  }

  lemma {:induction false} RecordOne(st: Store, e: Entry)
    ensures RecordedAll(st, [e]) == Recorded(st, e)
  {
    assert [e][..0] == [];
  }

  // ---- nothing is lost ----

  /** A file that no later run overwrites, since its first entry is not in the table any more. */
  ghost predicate Sealed(st: Store, name: Name) { name in st.files && !HasId(st.table, name.firstId) }

  ghost predicate Kept(st: Store, e: Entry) {
    e in st.table || exists name :: Sealed(st, name) && e in st.files[name]
  }

  ghost predicate Ascending(table: seq<Entry>) {
    forall i, j :: 0 <= i < j < |table| ==> table[i].id < table[j].id
  }

  ghost predicate IdUsed(st: Store, id: nat) { exists e :: e in st.log && e.id == id }

  ghost predicate Inv(st: Store) {
    && Ascending(st.table)
    && (forall e :: e in st.table ==> e in st.log)
    && (forall name :: name in st.files ==> IdUsed(st, name.firstId))
    && (forall e :: e in st.log ==> Kept(st, e))
  }

  /** Ids of new entries are greater than any before. */
  predicate NewEntry(st: Store, e: Entry) { e.id > 0 && forall f :: f in st.log ==> f.id < e.id }

  lemma RecordSeals(st: Store, e: Entry, name: Name)
    requires Inv(st) && NewEntry(st, e) && Sealed(st, name)
    ensures Sealed(Recorded(st, e), name)
  {
    assert IdUsed(st, name.firstId);
    var table := Recorded(st, e).table;
    forall i | 0 <= i < |table| ensures table[i].id != name.firstId {
      assert i < |st.table| ==> table[i] == st.table[i];
    }
  }

  lemma RecordKept(st: Store, e: Entry, f: Entry)
    requires Inv(st) && NewEntry(st, e) && Kept(st, f)
    ensures Kept(Recorded(st, e), f)
  {
    if f !in st.table {
      var name :| Sealed(st, name) && f in st.files[name];
      RecordSeals(st, e, name);
    }
  }

  lemma RecordAscends(st: Store, e: Entry)
    requires Inv(st) && NewEntry(st, e)
    ensures Ascending(Recorded(st, e).table)
  {
    forall i | 0 <= i < |st.table| ensures st.table[i].id < e.id {
      assert st.table[i] in st.table;
    }
  }

  lemma RecordKeeps(st: Store, e: Entry)
    requires Inv(st) && NewEntry(st, e)
    ensures Inv(Recorded(st, e))
  {
    var n := Recorded(st, e);
    RecordAscends(st, e);
    forall name | name in n.files ensures IdUsed(n, name.firstId) {
      assert IdUsed(st, name.firstId);
      var f :| f in st.log && f.id == name.firstId;
      assert f in n.log;
    }
    forall f | f in n.log ensures Kept(n, f) {
      if f in st.log {
        RecordKept(st, e, f);
      } else {
        assert n.table[|st.table|] == e;
      }
    }
  }

  lemma {:induction false} OlderHas(table: seq<Entry>, before: nat, e: Entry)
    ensures e in OlderThan(table, before) <==> e in table && e.createdAt < before
  {
    if table != [] {
      OlderHas(table[1..], before, e);
      assert table == [table[0]] + table[1..];
    }
  }

  lemma {:induction false} WithoutAscends(table: seq<Entry>, rows: seq<Entry>)
    requires Ascending(table)
    ensures Ascending(Without(table, rows))
  {
    if table != [] {
      var rest := Without(table[1..], rows);
      WithoutAscends(table[1..], rows);
      forall i | 0 <= i < |rest| ensures table[0].id < rest[i].id {
        WithoutHas(table[1..], rows, rest[i]);
        var j :| 0 <= j < |table[1..]| && table[1..][j] == rest[i];
        assert table[j + 1].id > table[0].id;
      }
    }
  }

  lemma SameId(table: seq<Entry>, e: Entry, f: Entry)
    requires Ascending(table) && e in table && f in table && e.id == f.id
    ensures e == f
  {
    var i :| 0 <= i < |table| && table[i] == e;
    var j :| 0 <= j < |table| && table[j] == f;
  }

  ghost predicate BatchOf(st: Store, rows: seq<Entry>) {
    rows != [] && forall e :: e in rows ==> e in st.table
  }

  /** A file of entries that are all in the table overwrites only a file that was not sealed. */
  lemma WriteKeeps(st: Store, rows: seq<Entry>)
    requires Inv(st) && BatchOf(st, rows)
    ensures Inv(Written(st, rows))
  {
    var n := Written(st, rows);
    assert rows[0] in rows;
    assert HasId(st.table, rows[0].id) by {
      var i :| 0 <= i < |st.table| && st.table[i] == rows[0];
    }
    forall name | Sealed(st, name) ensures Sealed(n, name) && n.files[name] == st.files[name] {
    }
    forall e | e in n.log ensures Kept(n, e) {
      if e !in st.table {
        var name :| Sealed(st, name) && e in st.files[name];
        assert Sealed(n, name);
      }
    }
  }

  /** Deleting the entries of a written file seals it. */
  lemma DestroyKeeps(st: Store, rows: seq<Entry>)
    requires Inv(st) && BatchOf(st, rows) && NameOf(rows) in st.files && st.files[NameOf(rows)] == rows
    ensures Inv(Destroyed(st, rows))
  {
    var n := Destroyed(st, rows);
    WithoutAscends(st.table, rows);
    forall e | e in n.table ensures e in st.table && !HasId(rows, e.id) {
      WithoutHas(st.table, rows, e);
    }
    assert rows[0].id == rows[0].id && HasId(rows, rows[0].id);
    assert Sealed(n, NameOf(rows));
    forall name | Sealed(st, name) ensures Sealed(n, name) {
      StillMissing(st.table, rows, name.firstId);
    }
    forall e | e in n.log ensures Kept(n, e) {
      if e in st.table {
        WithoutHas(st.table, rows, e);
        if e !in n.table {
          var i :| 0 <= i < |rows| && rows[i].id == e.id;
          assert rows[i] in rows;
          SameId(st.table, e, rows[i]);
        }
      } else {
        var name :| Sealed(st, name) && e in st.files[name];
        assert Sealed(n, name);
      }
    }
  }

  lemma {:induction false} StillMissing(table: seq<Entry>, rows: seq<Entry>, id: nat)
    requires !HasId(table, id)
    ensures !HasId(Without(table, rows), id)
  {
    var rest := Without(table, rows);
    forall i | 0 <= i < |rest| ensures rest[i].id != id {
      WithoutHas(table, rows, rest[i]);
      InHasId(table, rest[i]);
    }
  }

  lemma BatchIs(st: Store, before: nat)
    ensures forall e :: e in Batch(st, before) ==> e in st.table && e.createdAt < before
  {
    OlderIsShorter(st.table, before);
  }

  lemma {:induction false} NoneOlder(table: seq<Entry>, before: nat, e: Entry)
    requires e in Without(table, OlderThan(table, before))
    ensures e.createdAt >= before
  {
    var rows := OlderThan(table, before);
    WithoutHas(table, rows, e);
    OlderHas(table, before, e);
    if e in rows {
      InHasId(rows, e);
    }
  }

  lemma {:induction false} NewerStays(table: seq<Entry>, rows: seq<Entry>, e: Entry)
    requires Ascending(table) && e in table && e !in rows && forall f :: f in rows ==> f in table
    ensures e in Without(table, rows)
  {
    WithoutHas(table, rows, e);
    if i :| 0 <= i < |rows| && rows[i].id == e.id {
      assert rows[i] in rows;
      SameId(table, e, rows[i]);
    }
  }

  // ---- runs of the archiver, with entries recorded between its effects ----

  ghost predicate HasOld(rows: seq<Entry>, late: set<Entry>, table: seq<Entry>, before: nat) {
    forall e :: e in table && e.createdAt < before ==> e in rows || e in late
  }

  /** What a batch in hand is: old entries of the table, all of them but late ones if it is not full. */
  ghost predicate InHand(s: State, before: nat, rows: seq<Entry>) {
    && BatchOf(s.st, rows) && (forall e :: e in rows ==> e.createdAt < before)
    && (|rows| < ARCHIVE_BATCH ==> HasOld(rows, s.late, s.st.table, before))
  }

  ghost predicate RunInv(s: State) {
    && Inv(s.st)
    && match s.run
       case Writing(before, rows) => InHand(s, before, rows)
       case Deleting(before, rows) =>
         InHand(s, before, rows) && NameOf(rows) in s.st.files && s.st.files[NameOf(rows)] == rows
       case Closing(before) => HasOld([], s.late, s.st.table, before)
       case _ => true
  }

  datatype Step = Record(e: Entry) | Begin(before: nat) | Effect | Close(e: Entry) | Interrupt

  predicate Enabled(s: State, step: Step) {
    match step
    case Record(e) => NewEntry(s.st, e)
    case Begin(_) => s.run.Idle?
    case Effect => HasEffect(s.run)
    case Close(e) => s.run.Closing? && NewEntry(s.st, e)
    case Interrupt => true
  }

  function Do(s: State, step: Step): State
    requires Enabled(s, step)
  {
    match step
    case Record(e) => Arrived(s, [e])
    case Begin(before) => Begun(s.st, before)
    case Effect => Effected(s)
    case Close(e) => Closed(s, e)
    case Interrupt => s.(run := Idle)
  }

  lemma ArrivedOne(s: State, e: Entry)
    ensures Arrived(s, [e]) == s.(st := Recorded(s.st, e), late := s.late + {e})
  {
    RecordOne(s.st, e);
    assert (set f | f in [e]) == {e};
  }

  lemma InHandGrows(s: State, e: Entry, before: nat, rows: seq<Entry>)
    requires InHand(s, before, rows)
    ensures InHand(s.(st := Recorded(s.st, e), late := s.late + {e}), before, rows)
  {
  }

  lemma RecordStep(s: State, e: Entry)
    requires RunInv(s) && NewEntry(s.st, e)
    ensures RunInv(Arrived(s, [e])) && RunInv(Closed(s, e))
  {
    ArrivedOne(s, e);
    RecordKeeps(s.st, e);
    if s.run.Writing? || s.run.Deleting? {
      InHandGrows(s, e, s.run.before, s.run.rows);
    }
  }

  lemma ReadStep(s: State)
    requires RunInv(s) && s.run.Reading?
    ensures RunInv(Effected(s))
  {
    var before := s.run.before;
    var rows := Batch(s.st, before);
    BatchIs(s.st, before);
    forall e | e in s.st.table && e.createdAt < before && |rows| < ARCHIVE_BATCH ensures e in rows {
      OlderHas(s.st.table, before, e);
    }
  }

  lemma WriteStep(s: State)
    requires RunInv(s) && s.run.Writing?
    ensures HasEffect(s.run) && RunInv(Effected(s))
  {
    WriteKeeps(s.st, s.run.rows);
  }

  lemma DeleteStep(s: State)
    requires RunInv(s) && s.run.Deleting?
    ensures RunInv(Effected(s))
  {
    var rows := s.run.rows;
    DestroyKeeps(s.st, rows);
    NoneOfThem(s.st.table, rows);
  }

  lemma {:induction false} NoneOfThem(table: seq<Entry>, rows: seq<Entry>)
    ensures forall e :: e in Without(table, rows) ==> e in table && e !in rows
  {
    forall e | e in Without(table, rows) ensures e in table && e !in rows {
      WithoutHas(table, rows, e);
      if e in rows {
        InHasId(rows, e);
      }
    }
  }

  lemma StepKeeps(s: State, step: Step)
    requires RunInv(s) && Enabled(s, step)
    ensures RunInv(Do(s, step))
  {
    match step {
      case Record(e) => RecordStep(s, e);
      case Close(e) => RecordStep(s, e);
      case Effect =>
        if s.run.Reading? {
          ReadStep(s);
        } else if s.run.Writing? {
          WriteStep(s);
        } else {
          DeleteStep(s);
        }
      case _ =>
    }
  }

  function After(steps: seq<Step>): Option<State> {
    if steps == [] then Some(State(Store([], map[], {}), Idle, 0, {}))
    else
      match After(steps[..|steps| - 1])
      case None => None
      case Some(s) =>
        var step := steps[|steps| - 1];
        if Enabled(s, step) then Some(Do(s, step)) else None
  }

  lemma {:induction false} RunKeeps(steps: seq<Step>)
    requires After(steps).Some?
    ensures RunInv(After(steps).value)
  {
    if steps != [] {
      RunKeeps(steps[..|steps| - 1]);
      StepKeeps(After(steps[..|steps| - 1]).value, steps[|steps| - 1]);
    }
  }

  /** Across all runs with any cutoffs, interrupted anywhere, with entries recorded between any two of
      their effects: every entry ever recorded is in the table or in a completed archive file, even where
      a later run overwrote a file of the same name. */
  lemma {:induction false} NothingLost(steps: seq<Step>, e: Entry)
    requires After(steps).Some? && e in After(steps).value.st.log
    ensures
      var st := After(steps).value.st;
      e in st.table || exists name :: name in st.files && e in st.files[name]
  {
    RunKeeps(steps);
    assert Kept(After(steps).value.st, e);
  }

  /** When a run is through with its batches, no entry older than its cutoff is in the table but those
      recorded since it read last. */
  lemma {:induction false} FinishedLeavesNoneOlder(steps: seq<Step>, e: Entry)
    requires After(steps).Some? && HasEffect(After(steps).value.run)
    requires !HasEffect(Effected(After(steps).value).run)
    ensures
      var s := After(steps).value;
      var n := Effected(s);
      e in n.st.table && e.createdAt < s.run.before ==> e in n.late
  {
    RunKeeps(steps);
    var s := After(steps).value;
    BatchIs(s.st, s.run.before);
    if s.run.Reading? {
      OlderHas(s.st.table, s.run.before, e);
    } else {
      DeletedIsOld(s, e);
    }
  }

  lemma DeletedIsOld(s: State, e: Entry)
    requires RunInv(s) && s.run.Deleting?
    ensures
      var n := Effected(s);
      && (e in n.st.table <==> e in s.st.table && e !in s.run.rows)
      && (e in s.run.rows ==> e.createdAt < s.run.before)
  {
    var rows := s.run.rows;
    WithoutHas(s.st.table, rows, e);
    if e in rows {
      InHasId(rows, e);
    } else if e in s.st.table {
      NewerStays(s.st.table, rows, e);
    }
  }

  /** Only a run takes entries out of the table, and only entries older than its cutoff. */
  lemma {:induction false} OnlyOldTaken(steps: seq<Step>, step: Step, e: Entry)
    requires After(steps).Some? && Enabled(After(steps).value, step) && e in After(steps).value.st.table
    ensures
      var s := After(steps).value;
      e in Do(s, step).st.table || (step.Effect? && s.run.Deleting? && e.createdAt < s.run.before && e in s.run.rows)
  {
    RunKeeps(steps);
    var s := After(steps).value;
    match step {
      case Record(f) => ArrivedOne(s, f);
      case Close(f) => ArrivedOne(s, f);
      case Effect =>
        if s.run.Deleting? {
          DeletedIsOld(s, e);
        }
      case _ =>
    }
  }

  // ---- the method's runs are such runs ----

  ghost predicate AllNew(st: Store, es: seq<Entry>) {
    es == [] || (AllNew(st, es[..|es| - 1]) && NewEntry(RecordedAll(st, es[..|es| - 1]), es[|es| - 1]))
  }

  lemma ArrivedMore(s: State, es: seq<Entry>, e: Entry)
    ensures Arrived(s, es + [e]) == Arrived(Arrived(s, es), [e])
  {
    assert (es + [e])[..|es|] == es;
    ArrivedOne(Arrived(s, es), e);
    assert (set f | f in es + [e]) == (set f | f in es) + {e};
  }

  lemma ArrivedNone(s: State)
    ensures Arrived(s, []) == s
  {
    assert s.late + (set e: Entry | e in []) == s.late;
  }

  lemma {:induction false} ArrivedKeeps(s: State, es: seq<Entry>)
    requires RunInv(s) && AllNew(s.st, es)
    ensures RunInv(Arrived(s, es)) && s.st.log <= Arrived(s, es).st.log
  {
    if es == [] {
      ArrivedNone(s);
    } else {
      var before, e := es[..|es| - 1], es[|es| - 1];
      assert es == before + [e];
      ArrivedKeeps(s, before);
      RecordStep(Arrived(s, before), e);
      ArrivedMore(s, before, e);
      ArrivedOne(Arrived(s, before), e);
    }
  }

  /** Everything recorded during the run, and its closing entry, is new. */
  ghost predicate Orderly(s: State, arrivals: seq<seq<Entry>>, closing: Entry)
    decreases |arrivals|
  {
    arrivals == [] || !(HasEffect(s.run) || s.run.Closing?) ||
    (&& AllNew(s.st, arrivals[0])
     && var ready := Arrived(s, arrivals[0]);
        if s.run.Closing? then NewEntry(ready.st, closing)
        else Orderly(Effected(ready), arrivals[1..], closing))
  }

  /** A whole run of the method, interrupted after any of its effects, with entries recorded between any
      two of them, keeps the invariant of the log. */
  lemma {:induction false} ArchiveKeeps(s: State, arrivals: seq<seq<Entry>>, closing: Entry)
    requires RunInv(s) && Orderly(s, arrivals, closing)
    ensures RunInv(Proceeded(s, arrivals, closing)) && s.st.log <= Proceeded(s, arrivals, closing).st.log
    decreases |arrivals|
  {
    if arrivals != [] && (HasEffect(s.run) || s.run.Closing?) {
      ArrivedKeeps(s, arrivals[0]);
      var ready := Arrived(s, arrivals[0]);
      if s.run.Closing? {
        RecordStep(ready, closing);
        ArrivedOne(ready, closing);
      } else {
        StepKeeps(ready, Effect);
        ArchiveKeeps(Effected(ready), arrivals[1..], closing);
      }
    }
  }

  // ---- exporting ----

  datatype Filter = Filter(action: Option<string>, actor: Option<nat>, from: Option<nat>, to: Option<nat>)

  predicate Passes(f: Filter, e: Entry) {
    && (f.action.Some? ==> e.action == f.action.value)
    && (f.actor.Some? ==> e.actor == f.actor)
    && (f.from.Some? ==> e.createdAt >= f.from.value)
    && (f.to.Some? ==> e.createdAt < f.to.value)
  }

  function Select(table: seq<Entry>, f: Filter, afterId: nat): seq<Entry> {
    if table == [] then []
    else (if table[0].id > afterId && Passes(f, table[0]) then [table[0]] else []) + Select(table[1..], f, afterId)
  }

  datatype Export = Export(afterId: nat, out: seq<Entry>, closed: bool)

  const NOT_STARTED := Export(0, [], false)

  function Pull(x: Export, table: seq<Entry>, f: Filter): Export {
    var rows := First(Select(table, f, x.afterId), EXPORT_PAGE);
    Export(if rows != [] then rows[|rows| - 1].id else x.afterId, x.out + rows, |rows| < EXPORT_PAGE)
  }

  /** An export that pulls until it closes, from the table as it is at each pull. */
  function Exported(tables: seq<seq<Entry>>, f: Filter): Export {
    if tables == [] then NOT_STARTED
    else
      var x := Exported(tables[..|tables| - 1], f);
      if x.closed then x else Pull(x, tables[|tables| - 1], f)
  }

  class ExportStream {
    const filter: Filter
    var afterId: nat
    var out: seq<Entry>
    var closed: bool

    ghost function View(): Export
      reads this
    {
      Export(afterId, out, closed)
    }

    constructor (filter: Filter)
      ensures this.filter == filter && View() == NOT_STARTED
    {
      this.filter, afterId, out, closed := filter, 0, [], false;
    }

    method OnPull(table: seq<Entry>)
      requires !closed
      modifies this
      ensures View() == Pull(old(View()), table, filter)
    {
      var rows := First(Select(table, filter, afterId), EXPORT_PAGE);
      if rows != [] {
        afterId := rows[|rows| - 1].id;
      }
      out := out + rows;
      closed := |rows| < EXPORT_PAGE;
    }
  }

  lemma {:induction false} SelectHas(table: seq<Entry>, f: Filter, afterId: nat, e: Entry)
    ensures e in Select(table, f, afterId) <==> e in table && e.id > afterId && Passes(f, e)
  {
    if table != [] {
      SelectHas(table[1..], f, afterId, e);
      assert table == [table[0]] + table[1..];
    }
  }

  lemma {:induction false} SelectAscends(table: seq<Entry>, f: Filter, afterId: nat)
    requires Ascending(table)
    ensures Ascending(Select(table, f, afterId))
  {
    if table != [] {
      var rest := Select(table[1..], f, afterId);
      SelectAscends(table[1..], f, afterId);
      forall i | 0 <= i < |rest| ensures table[0].id < rest[i].id {
        SelectHas(table[1..], f, afterId, rest[i]);
        var j :| 0 <= j < |table[1..]| && table[1..][j] == rest[i];
        assert table[j + 1].id > table[0].id;
      }
    }
  }

  ghost predicate Covers(x: Export, f: Filter, e: Entry) {
    e.id <= x.afterId ==> e in x.out
  }

  ghost predicate SoFar(x: Export, f: Filter) {
    && Ascending(x.out)
    && (forall i :: 0 <= i < |x.out| ==> x.out[i].id <= x.afterId && Passes(f, x.out[i]))
  }

  lemma PullKeeps(x: Export, table: seq<Entry>, f: Filter)
    requires Ascending(table) && SoFar(x, f)
    ensures SoFar(Pull(x, table, f), f)
  {
    var all := Select(table, f, x.afterId);
    var rows := First(all, EXPORT_PAGE);
    SelectAscends(table, f, x.afterId);
    forall i | 0 <= i < |rows|
      ensures x.afterId < rows[i].id && Passes(f, rows[i]) && rows[i].id <= rows[|rows| - 1].id
    {
      assert rows[i] in all;
      SelectHas(table, f, x.afterId, rows[i]);
    }
  }

  lemma PullCovers(x: Export, table: seq<Entry>, f: Filter, e: Entry)
    requires Ascending(table) && e in table && Passes(f, e) && Covers(x, f, e)
    ensures var n := Pull(x, table, f); Covers(n, f, e) && (n.closed ==> e in n.out)
  {
    var all := Select(table, f, x.afterId);
    var rows := First(all, EXPORT_PAGE);
    SelectHas(table, f, x.afterId, e);
    SelectAscends(table, f, x.afterId);
    if e.id > x.afterId {
      var i :| 0 <= i < |all| && all[i] == e;
      if i < |rows| {
        assert rows[i] == e && e in rows;
      } else {
        assert rows[|rows| - 1] == all[|rows| - 1] && all[|rows| - 1].id < e.id;
      }
    }
  }

  /** While entries are added and archived, an export that has closed has every matching entry that
      was in the table throughout, only entries that match, and each once, in the order of their ids. */
  lemma {:induction false} ExportHasAllThatStay(tables: seq<seq<Entry>>, f: Filter, e: Entry)
    requires forall i :: 0 <= i < |tables| ==> Ascending(tables[i])
    ensures SoFar(Exported(tables, f), f)
    ensures e.id > 0 && Passes(f, e) && (forall i :: 0 <= i < |tables| ==> e in tables[i]) ==>
              var x := Exported(tables, f); Covers(x, f, e) && (x.closed ==> e in x.out)
  {
    if tables != [] {
      var n := |tables| - 1;
      ExportHasAllThatStay(tables[..n], f, e);
      var x := Exported(tables[..n], f);
      PullKeeps(x, tables[n], f);
      if Covers(x, f, e) && e in tables[n] && Passes(f, e) {
        PullCovers(x, tables[n], f, e);
      }
    }
  }

  lemma {:induction false} SelectAgain(table: seq<Entry>, f: Filter, a: nat, b: nat)
    requires a <= b
    ensures Select(Select(table, f, a), f, b) == Select(table, f, b)
  {
    if table != [] {
      var rest := Select(table[1..], f, a);
      SelectAgain(table[1..], f, a, b);
      assert Select([table[0]] + rest, f, b) ==
        (if table[0].id > b && Passes(f, table[0]) then [table[0]] else []) + Select(rest, f, b)
      by {
        assert ([table[0]] + rest)[1..] == rest;
      }
      assert [] + rest == rest;
    }
  }

  lemma {:induction false} SelectDrops(all: seq<Entry>, f: Filter, k: nat)
    requires Ascending(all) && 0 < k <= |all| && forall e :: e in all ==> Passes(f, e)
    ensures Select(all, f, all[k - 1].id) == all[k..]
    decreases |all|
  {
    var b := all[k - 1].id;
    assert all[0].id <= b;
    if k == 1 {
      SelectAll(all[1..], f, b);
      assert forall i :: 0 <= i < |all[1..]| ==> all[1..][i] == all[i + 1];
    } else {
      SelectDrops(all[1..], f, k - 1);
      assert all[1..][k - 2] == all[k - 1] && all[1..][k - 1..] == all[k..];
    }
  }

  lemma {:induction false} SelectAll(all: seq<Entry>, f: Filter, b: nat)
    requires forall i :: 0 <= i < |all| ==> all[i].id > b && Passes(f, all[i])
    ensures Select(all, f, b) == all
  {
    if all != [] {
      SelectAll(all[1..], f, b);
      assert all == [all[0]] + all[1..];
    }
  }

  ghost predicate Continues(x: Export, table: seq<Entry>, f: Filter) {
    x.out + (if x.closed then [] else Select(table, f, x.afterId)) == Select(table, f, 0)
  }

  /** After a full page, what is left to select is the rest of what there was. */
  lemma NextPage(table: seq<Entry>, f: Filter, afterId: nat, k: nat)
    requires Ascending(table) && 0 < k <= |Select(table, f, afterId)|
    ensures var all := Select(table, f, afterId); Select(table, f, all[k - 1].id) == all[k..]
  {
    var all := Select(table, f, afterId);
    SelectAscends(table, f, afterId);
    forall e | e in all ensures Passes(f, e) && e.id > afterId {
      SelectHas(table, f, afterId, e);
    }
    assert all[k - 1] in all;
    SelectAgain(table, f, afterId, all[k - 1].id);
    SelectDrops(all, f, k);
  }

  lemma PullContinues(x: Export, table: seq<Entry>, f: Filter)
    requires Ascending(table) && Continues(x, table, f) && !x.closed
    ensures Continues(Pull(x, table, f), table, f)
  {
    var all := Select(table, f, x.afterId);
    if |all| < EXPORT_PAGE {
      assert (x.out + all) + [] == x.out + all;
    } else {
      NextPage(table, f, x.afterId, EXPORT_PAGE);
      assert all[..EXPORT_PAGE] + all[EXPORT_PAGE..] == all;
      assert (x.out + all[..EXPORT_PAGE]) + all[EXPORT_PAGE..] == x.out + all;
      assert First(all, EXPORT_PAGE) == all[..EXPORT_PAGE];
    }
  }

  /** On a table that does not change, the pages are exactly the matching entries in the order of their
      ids, once the export has closed. */
  lemma {:induction false} PagesAreTheFilteredLog(table: seq<Entry>, tables: seq<seq<Entry>>, f: Filter)
    requires Ascending(table) && forall i :: 0 <= i < |tables| ==> tables[i] == table
    ensures
      var x := Exported(tables, f);
      Continues(x, table, f) && (x.closed ==> x.out == Select(table, f, 0))
  {
    if tables == [] {
      assert [] + Select(table, f, 0) == Select(table, f, 0);
    } else {
      var before := tables[..|tables| - 1];
      PagesAreTheFilteredLog(table, before, f);
      var x := Exported(before, f);
      if !x.closed {
        PullContinues(x, table, f);
      }
      if Exported(tables, f).closed {
        ContinuesClosed(Exported(tables, f), table, f);
      }
    }
  }

  lemma {:induction false} ContinuesClosed(x: Export, table: seq<Entry>, f: Filter)
    requires Continues(x, table, f) && x.closed
    ensures x.out == Select(table, f, 0)
  {
    assert x.out + [] == x.out;
  }

  /** While the table stays, an export that has not closed has handed out a full page at each pull. */
  lemma {:induction false} FullPages(table: seq<Entry>, tables: seq<seq<Entry>>, f: Filter)
    requires Ascending(table) && forall i :: 0 <= i < |tables| ==> tables[i] == table
    ensures var x := Exported(tables, f); !x.closed ==> |x.out| == EXPORT_PAGE * |tables|
  {
    if tables != [] {
      FullPages(table, tables[..|tables| - 1], f);
    }
  }

  /** On a table that stays, an export closes, after as many pulls as it has full pages and one more. */
  lemma {:induction false} ExportCloses(table: seq<Entry>, tables: seq<seq<Entry>>, f: Filter)
    requires Ascending(table) && forall i :: 0 <= i < |tables| ==> tables[i] == table
    requires |Select(table, f, 0)| < EXPORT_PAGE * |tables|
    ensures Exported(tables, f).closed && Exported(tables, f).out == Select(table, f, 0)
  {
    PagesAreTheFilteredLog(table, tables, f);
    FullPages(table, tables, f);
  }

  /** A closed export of a table that stays has exactly the entries of the action, of the actor and of the
      period asked for, as far as each was asked for; the period's end is not part of it. */
  lemma {:induction false} ExportedIff(table: seq<Entry>, tables: seq<seq<Entry>>, f: Filter, e: Entry)
    requires Ascending(table) && (forall i :: 0 <= i < |tables| ==> tables[i] == table) && Exported(tables, f).closed
    ensures
      e in Exported(tables, f).out <==>
        && e in table && e.id > 0
        && (f.action == None || f.action == Some(e.action)) && (f.actor == None || f.actor == e.actor)
        && (f.from == None || f.from.value <= e.createdAt) && (f.to == None || e.createdAt < f.to.value)
  {
    PagesAreTheFilteredLog(table, tables, f);
    SelectHas(table, f, 0, e);
  }

  /** Exports of adjacent periods have, together, each entry of the whole period once. */
  lemma {:induction false} AdjacentPeriods(table: seq<Entry>, f: Filter, middle: nat, e: Entry)
    requires f.from.Some? ==> f.from.value <= middle
    requires f.to.Some? ==> middle <= f.to.value
    ensures
      var first, second := Select(table, f.(to := Some(middle)), 0), Select(table, f.(from := Some(middle)), 0);
      && (e in Select(table, f, 0) <==> e in first || e in second)
      && !(e in first && e in second)
  {
    SelectHas(table, f, 0, e);
    SelectHas(table, f.(to := Some(middle)), 0, e);
    SelectHas(table, f.(from := Some(middle)), 0, e);
  }

  // ---- an archive run that nothing disturbs ----

  function NotOlder(table: seq<Entry>, before: nat): seq<Entry> {
    if table == [] then []
    else (if table[0].createdAt < before then [] else [table[0]]) + NotOlder(table[1..], before)
  }

  function Rest(rows: seq<Entry>, n: nat): seq<Entry> { if |rows| <= n then [] else rows[n..] }

  lemma {:induction false} WithoutNone(table: seq<Entry>)
    ensures Without(table, []) == table
  {
    if table != [] {
      WithoutNone(table[1..]);
      assert !HasId([], table[0].id);
    }
  }

  /** A row that is not in the table makes no difference. */
  lemma {:induction false} WithoutMissing(table: seq<Entry>, row: Entry, rows: seq<Entry>)
    requires forall i :: 0 <= i < |table| ==> table[i].id != row.id
    ensures Without(table, [row] + rows) == Without(table, rows)
  {
    if table != [] {
      var id := table[0].id;
      WithoutMissing(table[1..], row, rows);
      if HasId(rows, id) {
        var i :| 0 <= i < |rows| && rows[i].id == id;
        assert ([row] + rows)[i + 1].id == id;
      }
    }
  }

  lemma LaterIds(table: seq<Entry>)
    requires Ascending(table) && table != []
    ensures Ascending(table[1..]) && forall i :: 0 <= i < |table[1..]| ==> table[1..][i].id > table[0].id
  {
  }

  lemma FirstOfMore(row: Entry, rows: seq<Entry>, n: nat)
    requires n > 0
    ensures First([row] + rows, n) == [row] + First(rows, n - 1) && Rest([row] + rows, n) == Rest(rows, n - 1)
  {
  }

  /** Deleting the first n old entries leaves the other old ones and all that are not old. */
  lemma {:induction false} BatchDeleted(table: seq<Entry>, before: nat, n: nat)
    requires Ascending(table)
    ensures
      var left := Without(table, First(OlderThan(table, before), n));
      && OlderThan(left, before) == Rest(OlderThan(table, before), n)
      && NotOlder(left, before) == NotOlder(table, before)
  {
    if table == [] {
    } else if n == 0 {
      WithoutNone(table);
    } else {
      var row, rest := table[0], table[1..];
      LaterIds(table);
      if row.createdAt < before {
        BatchDeleted(rest, before, n - 1);
        OldGoes(row, rest, before, n);
      } else {
        BatchDeleted(rest, before, n);
        NewStays(row, rest, before, n);
      }
      assert table == [row] + rest;
    }
  }

  lemma {:induction false} OldGoes(row: Entry, rest: seq<Entry>, before: nat, n: nat)
    requires row.createdAt < before && n > 0 && forall i :: 0 <= i < |rest| ==> rest[i].id > row.id
    ensures
      var older := OlderThan(rest, before);
      && OlderThan([row] + rest, before) == [row] + older && NotOlder([row] + rest, before) == NotOlder(rest, before)
      && First([row] + older, n) == [row] + First(older, n - 1) && Rest([row] + older, n) == Rest(older, n - 1)
      && Without([row] + rest, [row] + First(older, n - 1)) == Without(rest, First(older, n - 1))
  {
    assert ([row] + rest)[1..] == rest;
    assert [] + NotOlder(rest, before) == NotOlder(rest, before);
    var rows := First(OlderThan(rest, before), n - 1);
    FirstOfMore(row, OlderThan(rest, before), n);
    WithoutMissing(rest, row, rows);
    assert ([row] + rows)[0].id == row.id;
    assert [] + Without(rest, [row] + rows) == Without(rest, [row] + rows);
  }

  lemma {:induction false} NewStays(row: Entry, rest: seq<Entry>, before: nat, n: nat)
    requires row.createdAt >= before && forall i :: 0 <= i < |rest| ==> rest[i].id > row.id
    ensures
      var rows := First(OlderThan(rest, before), n);
      && OlderThan([row] + rest, before) == OlderThan(rest, before)
      && Without([row] + rest, rows) == [row] + Without(rest, rows)
      && NotOlder([row] + rest, before) == [row] + NotOlder(rest, before)
      && OlderThan([row] + Without(rest, rows), before) == OlderThan(Without(rest, rows), before)
      && NotOlder([row] + Without(rest, rows), before) == [row] + NotOlder(Without(rest, rows), before)
  {
    var rows := First(OlderThan(rest, before), n);
    assert ([row] + rest)[1..] == rest && ([row] + Without(rest, rows))[1..] == Without(rest, rows);
    assert [] + OlderThan(rest, before) == OlderThan(rest, before);
    OlderIsShorter(rest, before);
    forall i | 0 <= i < |rows| ensures rows[i].id != row.id {
      assert rows[i] in OlderThan(rest, before);
    }
  }

  lemma {:induction false} NoneOld(table: seq<Entry>, before: nat)
    requires OlderThan(table, before) == []
    ensures NotOlder(table, before) == table
  {
    if table != [] {
      NoneOld(table[1..], before);
    }
  }

  function Quiet(n: nat): seq<seq<Entry>> { seq(n, _ => []) }

  /** One effect of a run while nothing is recorded. */
  lemma QuietStep(s: State, n: nat, closing: Entry)
    requires n > 0
    ensures
      Proceeded(s, Quiet(n), closing) ==
        if HasEffect(s.run) then Proceeded(Effected(s), Quiet(n - 1), closing)
        else if s.run.Closing? then Proceeded(Closed(s, closing), Quiet(n - 1), closing)
        else s
  {
    ArrivedNone(s);
    assert Quiet(n)[1..] == Quiet(n - 1);
  }

  lemma QuietClose(s: State, before: nat, n: nat, closing: Entry)
    requires n > 0 && s.run == (if s.archived > 0 then Closing(before) else Idle)
    ensures
      var r := Proceeded(s, Quiet(n), closing);
      && r.run.Idle? && r.archived == s.archived && r.st.files == s.st.files
      && r.st.table == s.st.table + if s.archived > 0 then [closing] else []
  {
    QuietStep(s, n, closing);
    RecordOne(s.st, closing);
  }

  /** What a run that begins its next batch comes to. */
  ghost predicate Archives(s: State, r: State, before: nat, closing: Entry) {
    var archived := s.archived + |OlderThan(s.st.table, before)|;
    && r.run.Idle? && r.archived == archived
    && r.st.table == NotOlder(s.st.table, before) + if archived > 0 then [closing] else []
  }

  lemma BatchLeft(older: seq<Entry>, n: nat)
    requires n >= 3 * (|older| / ARCHIVE_BATCH) + 4
    ensures
      var rows, rest := First(older, ARCHIVE_BATCH), Rest(older, ARCHIVE_BATCH);
      && |rows| + |rest| == |older| && (|rows| < ARCHIVE_BATCH ==> rest == [])
      && (|rows| == ARCHIVE_BATCH ==> n - 3 >= 3 * (|rest| / ARCHIVE_BATCH) + 4) && |rows| <= ARCHIVE_BATCH
  {
    if |older| >= ARCHIVE_BATCH {
      assert (|older| - ARCHIVE_BATCH) / ARCHIVE_BATCH == |older| / ARCHIVE_BATCH - 1;
    }
  }

  lemma {:induction false} QuietRun(s: State, before: nat, n: nat, closing: Entry)
    requires Ascending(s.st.table) && s.run == Reading(before)
    requires n >= 3 * (|OlderThan(s.st.table, before)| / ARCHIVE_BATCH) + 4
    ensures Archives(s, Proceeded(s, Quiet(n), closing), before, closing)
    decreases n
  {
    var older := OlderThan(s.st.table, before);
    if older == [] {
      QuietNothing(s, before, n, closing);
    } else {
      var deleted := QuietBatch(s, before, n, closing);
      BatchLeft(older, n);
      if |older| < ARCHIVE_BATCH {
        NoneOld(deleted.st.table, before);
        QuietClose(deleted, before, n - 3, closing);
      } else {
        QuietRun(deleted, before, n - 3, closing);
      }
    }
  }

  lemma QuietNothing(s: State, before: nat, n: nat, closing: Entry)
    requires s.run == Reading(before) && OlderThan(s.st.table, before) == [] && n > 1
    ensures Archives(s, Proceeded(s, Quiet(n), closing), before, closing)
  {
    QuietStep(s, n, closing);
    NoneOld(s.st.table, before);
    QuietClose(Effected(s), before, n - 1, closing);
  }

  lemma {:induction false} QuietBatch(s: State, before: nat, n: nat, closing: Entry) returns (d: State)
    requires Ascending(s.st.table) && s.run == Reading(before) && n > 3
    requires OlderThan(s.st.table, before) != []
    ensures
      var all := OlderThan(s.st.table, before);
      var rows := First(all, ARCHIVE_BATCH);
      && d.archived == s.archived + |rows| && d.run == AfterDelete(before, rows, d.archived)
      && Ascending(d.st.table) && OlderThan(d.st.table, before) == Rest(all, ARCHIVE_BATCH)
      && NotOlder(d.st.table, before) == NotOlder(s.st.table, before)
      && Proceeded(s, Quiet(n), closing) == Proceeded(d, Quiet(n - 3), closing)
  {
    var rows := First(OlderThan(s.st.table, before), ARCHIVE_BATCH);
    var writing := Effected(s);
    var deleting := Effected(writing);
    d := Effected(deleting);
    QuietStep(s, n, closing);
    QuietStep(writing, n - 1, closing);
    QuietStep(deleting, n - 2, closing);
    BatchDeleted(s.st.table, before, ARCHIVE_BATCH);
    WithoutAscends(s.st.table, rows);
  }

  /** A run of the archiver that nothing disturbs, on any log: it ends, after three effects for each batch and at
      most four more; the table keeps exactly the entries that are not older than the cutoff, and gets the
      closing entry exactly when there were older ones; and it counts those. */
  lemma {:induction false} UndisturbedArchives(st: Store, before: nat, n: nat, closing: Entry)
    requires Ascending(st.table) && n >= 3 * (|OlderThan(st.table, before)| / ARCHIVE_BATCH) + 4
    ensures
      var older := OlderThan(st.table, before);
      var r := Proceeded(Begun(st, before), Quiet(n), closing);
      && r.run.Idle? && r.archived == |older|
      && r.st.table == NotOlder(st.table, before) + if older != [] then [closing] else []
  {
    QuietRun(Begun(st, before), before, n, closing);
  }
}
