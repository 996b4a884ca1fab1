/** The table of vnStat sources while samples, saves, failed saves and crashes
    interleave, and the sources a bill is added up from. */
module SourceTable {
  import opened Int64
  import opened Options
  import opened Traffic
  import opened Vnstat
  import opened Billing
  import opened Switches
  import opened Network

  /* ---------- the sources of a bill ---------- */

  // The database has each source's own buckets and baseline under its name.
  type Store = string -> Stored

  // readNetworkWindow and networkSince.
  function SourceOf(r: SourceRow, store: Store): Source {
    var kept := store(r.generation);
    Source(Since(kept.raw, r.available, kept.baseline), r.available, r.ended)
  }

  predicate Listed(r: SourceRow, exclude: string, start: int, end: int) {
    r.generation != exclude && r.available < end && (r.ended == 0 || r.ended > start)
  }

  // networkSources: what the table says of the range, without the running source.
  function ListedRows(rows: seq<SourceRow>, exclude: string, start: int, end: int): seq<SourceRow> {
    if rows == [] then []
    else
      var n := |rows| - 1;
      ListedRows(rows[..n], exclude, start, end) + if Listed(rows[n], exclude, start, end) then [rows[n]] else []
  }

  function SourcesIn(rows: seq<SourceRow>, exclude: string, start: int, end: int, store: Store): seq<Source> {
    var listed := ListedRows(rows, exclude, start, end);
    seq(|listed|, i requires 0 <= i < |listed| => SourceOf(listed[i], store))
  }

  lemma {:induction false} ListedMembers(rows: seq<SourceRow>, exclude: string, start: int, end: int)
    ensures forall r :: r in ListedRows(rows, exclude, start, end) <==> r in rows && Listed(r, exclude, start, end)
  {
    if rows != [] {
      var n := |rows| - 1;
      ListedMembers(rows[..n], exclude, start, end);
      assert rows == rows[..n] + [rows[n]];
    }
  }

  lemma TimelineAppend(sources: seq<Source>, s: Source)
    requires Timeline(sources)
    requires forall x, t :: x in sources && Owns(x, t) ==> !Owns(s, t)
    ensures Timeline(sources + [s])
  {
  }

  lemma {:induction false} ListedRowsApart(rows: seq<SourceRow>, exclude: string, start: int, end: int)
    requires NoOverlap(rows)
    ensures NoOverlap(ListedRows(rows, exclude, start, end))
  {
    if rows != [] {
      var n := |rows| - 1;
      var before := ListedRows(rows[..n], exclude, start, end);
      assert NoOverlap(rows[..n]);
      ListedRowsApart(rows[..n], exclude, start, end);
      ListedMembers(rows[..n], exclude, start, end);
      forall i, t | 0 <= i < |before| && before[i].Holds(t) ensures !rows[n].Holds(t) {
        assert before[i] in rows[..n];
        var j :| 0 <= j < n && rows[j] == before[i];
      }
    }
  }

  /** The sources listed from a table without overlap have no overlap. */
  lemma ListedApart(rows: seq<SourceRow>, exclude: string, start: int, end: int, store: Store)
    requires NoOverlap(rows)
    ensures Timeline(SourcesIn(rows, exclude, start, end, store))
  {
    hide Since;
    ListedRowsApart(rows, exclude, start, end);
    var listed, sources := ListedRows(rows, exclude, start, end), SourcesIn(rows, exclude, start, end, store);
    forall i, t | 0 <= i < |sources| ensures Owns(sources[i], t) == listed[i].Holds(t) {}
  }

  // A source switch may not have been saved yet.
  function ClosedAt(s: Source, available: int): Source {
    if s.ended <= 0 || s.ended > available then s.(ended := available) else s
  }

  function AllClosedAt(sources: seq<Source>, available: int): seq<Source> {
    seq(|sources|, i requires 0 <= i < |sources| => ClosedAt(sources[i], available))
  }

  method CloseUnsaved(sources: seq<Source>, available: int) returns (r: seq<Source>)
    ensures r == AllClosedAt(sources, available)
  {
    r := sources;
    for n := 0 to |r|
      invariant |r| == |sources|
      invariant forall i :: 0 <= i < n ==> r[i] == ClosedAt(sources[i], available)
      invariant forall i :: n <= i < |r| ==> r[i] == sources[i]
    {
      if r[n].ended <= 0 || r[n].ended > available { r := r[n := r[n].(ended := available)]; }
    }
  }

  /** Closed at the moment the running source became available, the others leave all
      later time to it. */
  lemma ClosedApart(sources: seq<Source>, available: int, snapshot: Snapshot)
    requires Timeline(sources) && available > 0 && forall s <- sources :: s.available < available
    ensures Timeline(AllClosedAt(sources, available) + [Source(snapshot, available, 0)])
  {
    var closed := AllClosedAt(sources, available);
    forall i, t | 0 <= i < |closed| && Owns(closed[i], t) ensures Owns(sources[i], t) && t < available {}
    forall x, t | x in closed && Owns(x, t) ensures !Owns(Source(snapshot, available, 0), t) {}
    TimelineAppend(closed, Source(snapshot, available, 0));
  }

  // network.go: what the period's usage is added up from.
  function BillSources(rows: seq<SourceRow>, generation: string, available: int, start: int,
                       store: Store): seq<Source> {
    var current := store(generation);
    (if available > start then AllClosedAt(SourcesIn(rows, generation, start, available, store), available) else []) +
      [Source(Since(current.raw, available, current.baseline), available, 0)]
  }

  /** From a table without overlap every bill is on one timeline, also when the last
      switch is not in the table yet. */
  lemma BilledApart(rows: seq<SourceRow>, generation: string, available: int, start: int, store: Store)
    requires NoOverlap(rows) && available > 0
    ensures Timeline(BillSources(rows, generation, available, start, store))
  {
    hide Since;
    var listed := SourcesIn(rows, generation, start, available, store);
    ListedApart(rows, generation, start, available, store);
    ListedMembers(rows, generation, start, available);
    forall s | s in listed ensures s.available < available {
      var i :| 0 <= i < |listed| && listed[i] == s;
      assert ListedRows(rows, generation, start, available)[i] in ListedRows(rows, generation, start, available);
    }
    ClosedApart(listed, available, Since(store(generation).raw, available, store(generation).baseline));
  }

  /* ---------- samples, saves and crashes ---------- */

  // A source waiting to be saved; the revision tells samples apart.
  datatype Record = Record(row: SourceRow, revision: nat)

  // What a save took along: the state and the waiting record.
  datatype Flight = Flight(st: NetState, record: Option<Record>)

  // saved is the state a restart finds; clock is the latest time any sample was taken.
  datatype Desk = Desk(st: NetState, pending: Option<Record>, flight: Option<Flight>, rows: seq<SourceRow>,
    saved: NetState, revision: nat, clock: int)

  datatype Event = Reads(r: Option<Reading>) | Take | Commit | Abort | Crash

  function RowOf(st: NetState): SourceRow {
    SourceRow(st.generation, st.createdAt, st.updatedAt, Max(0, st.sourceStartedAt), 0)
  }

  ghost function Read(d: Desk, r: Reading): Desk {
    var o := Sample(d.st, r);
    var at := d.(clock := Max(d.clock, r.now));
    if o.Failed? then at.(st := Failure(d.st))
    else at.(st := o.st, revision := d.revision + 1, pending := Some(Record(RowOf(o.st), d.revision + 1)))
  }

  ghost function Committed(d: Desk): Desk
    requires d.flight.Some?
  {
    var f := d.flight.value;
    var done := f.record.Some? && d.pending.Some? && d.pending.value.revision == f.record.value.revision;
    d.(flight := None, saved := f.st, rows := Landed(d), pending := if done then None else d.pending)
  }

  // The table once the save in flight is through.
  ghost function Landed(d: Desk): seq<SourceRow> {
    if d.flight.Some? && d.flight.value.record.Some? then SaveSource(d.rows, d.flight.value.record.value.row)
    else d.rows
  }

  ghost function Next(d: Desk, e: Event): Desk {
    match e
    case Reads(r) => if r.None? then d.(st := Failure(d.st)) else Read(d, r.value)
    case Take => if d.flight.None? then d.(flight := Some(Flight(d.st, d.pending))) else d
    case Commit => if d.flight.Some? then Committed(d) else d
    case Abort => d.(flight := None)
    case Crash => d.(st := d.saved, pending := None, flight := None)
  }

  ghost function After(d: Desk, es: seq<Event>): Desk {
    if es == [] then d else Next(After(d, es[..|es| - 1]), es[|es| - 1])
  }

  ghost predicate Unused(name: string, d: Desk) {
    name != "" && name != d.st.generation && IsNamed(d.rows, name) &&
    (d.pending.Some? ==> d.pending.value.row.generation != name) &&
    (d.flight.Some? && d.flight.value.record.Some? ==> d.flight.value.record.value.row.generation != name)
  }

  ghost predicate IsNamed(rows: seq<SourceRow>, name: string) { forall r <- rows :: r.generation != name }

  predicate Recreates(st: NetState, r: Reading) {
    st.generation != "" && GenerationOf(st, r) != st.generation &&
    st.origin == r.origin && r.snapshot.created > st.updatedAt
  }

  // Clocks in order: the panel's never runs back, vnStat's is not ahead of it, and a
  // recreated database is younger than the last sample. A source never seen before
  // gets a name never used.
  ghost predicate OnClock(d: Desk, r: Reading) {
    r.now >= d.clock && 0 < r.snapshot.created <= r.snapshot.updated <= r.now &&
    (Recreates(d.st, r) ==> r.snapshot.created >= d.clock) &&
    Unused(r.newName, d)
  }

  ghost predicate AllOnClock(d: Desk, es: seq<Event>) {
    forall n :: 0 <= n < |es| && es[n].Reads? && es[n].r.Some? ==> OnClock(After(d, es[..n]), es[n].r.value)
  }

  /* ---------- the invariant ---------- */

  // The record refreshes the open source, or is a new one that begins no earlier.
  ghost predicate Fits(rows: seq<SourceRow>, r: SourceRow) {
    r.available > 0 &&
    (rows != [] ==>
       var last := rows[|rows| - 1];
       r.generation == last.generation || (IsNamed(rows, r.generation) && last.available <= r.available))
  }

  // The state is that of the open source of the table, or nothing was ever saved.
  ghost predicate Stands(st: NetState, rows: seq<SourceRow>) {
    if st.generation == "" then rows == []
    else st.sourceStartedAt > 0 && rows != [] && rows[|rows| - 1].generation == st.generation
  }

  ghost predicate Table(rows: seq<SourceRow>, clock: int) {
    Chained(rows) && (rows != [] ==> rows[|rows| - 1].ended == 0) && (forall r <- rows :: r.available <= clock)
  }

  // A record and the state it was made from.
  ghost predicate Pair(st: NetState, r: SourceRow, clock: int) {
    st.generation != "" && 0 < st.sourceStartedAt <= clock &&
    r.generation == st.generation && r.available == st.sourceStartedAt
  }

  ghost predicate FlightFits(d: Desk) {
    d.flight.Some? ==>
      var f := d.flight.value;
      if f.record.None? then Stands(f.st, d.rows) && f.st.sourceStartedAt <= d.clock
      else Pair(f.st, f.record.value.row, d.clock) && Fits(d.rows, f.record.value.row)
  }

  ghost predicate PendingFits(d: Desk) {
    if d.pending.None? then
      Stands(d.st, d.rows) && d.st.sourceStartedAt <= d.clock && (d.flight.Some? ==> d.flight.value.record.None?)
    else
      var p := d.pending.value;
      Pair(d.st, p.row, d.clock) && Fits(d.rows, p.row) && Fits(Landed(d), p.row) && p.revision <= d.revision
  }

  // A record in flight with the revision of the waiting one is of the same source.
  ghost predicate Revisions(d: Desk) {
    d.flight.Some? && d.flight.value.record.Some? ==>
      d.flight.value.record.value.revision <= d.revision &&
      (d.pending.Some? && d.pending.value.revision == d.flight.value.record.value.revision ==>
         d.pending.value.row.generation == d.flight.value.record.value.row.generation)
  }

  ghost predicate Kept(d: Desk) {
    Table(d.rows, d.clock) && Stands(d.saved, d.rows) && d.saved.sourceStartedAt <= d.clock &&
    FlightFits(d) && PendingFits(d) && Revisions(d)
  }

  ghost predicate Begins(d: Desk) {
    d.st.generation == "" && d.saved.generation == "" && d.rows == [] && d.pending.None? && d.flight.None? &&
    d.st.sourceStartedAt <= d.clock && d.saved.sourceStartedAt <= d.clock
  }

  /* ---------- what each event keeps ---------- */

  lemma SavedTable(rows: seq<SourceRow>, r: SourceRow, clock: int)
    requires Table(rows, clock) && Fits(rows, r) && r.available <= clock
    ensures var after := SaveSource(rows, r);
      && Table(after, clock) && after != [] && after[|after| - 1].generation == r.generation
      && (forall name :: IsNamed(rows, name) && name != r.generation ==> IsNamed(after, name))
      && after[|after| - 1].available <= clock
  {
    var after := SaveSource(rows, r);
    var n := |rows|;
    if n > 0 && r.generation == rows[n - 1].generation {
      assert !IsNew(rows, r);
    } else {
      assert n > 0 ==> IsNamed(rows, r.generation);
      forall i | 0 <= i < n ensures rows[i].generation != r.generation { assert rows[i] in rows; }
      forall i | 0 <= i < n ensures rows[i].ended <= r.available {
        if i < n - 1 { assert EndedBefore(rows[i], rows[n - 1]); }
      }
    }
    SaveKeepsChain(rows, r);
    forall x | x in after ensures x.available <= clock {
      var i :| 0 <= i < |after| && after[i] == x;
      assert i < n ==> rows[i] in rows && x.available == rows[i].available;
    }
    forall name | IsNamed(rows, name) && name != r.generation ensures IsNamed(after, name) {
      forall x | x in after ensures x.generation != name {
        var i :| 0 <= i < |after| && after[i] == x;
        assert i < n ==> rows[i] in rows && x.generation == rows[i].generation;
      }
    }
  }

  lemma SampleSource(prev: NetState, r: Reading)
    requires Sample(prev, r).Sampled?
    ensures var st := Sample(prev, r).st;
      st.generation == GenerationOf(prev, r) && st.sourceStartedAt == AvailableFrom(prev, r)
  {
  }

  lemma SourceBegins(d: Desk, r: Reading)
    requires Kept(d) && OnClock(d, r)
    ensures var clock := Max(d.clock, r.now);
      && 0 < AvailableFrom(d.st, r) <= clock
      && (if GenerationOf(d.st, r) == d.st.generation then AvailableFrom(d.st, r) == d.st.sourceStartedAt
          else GenerationOf(d.st, r) == r.newName &&
               (AvailableFrom(d.st, r) >= d.clock || (d.rows == [] && d.st.generation == "")))
  {
  }

  lemma NewFits(rows: seq<SourceRow>, r: SourceRow, clock: int)
    requires Table(rows, clock) && IsNamed(rows, r.generation) && r.available >= clock && r.available > 0
    ensures Fits(rows, r)
  {
    if rows != [] { assert rows[|rows| - 1] in rows; }
  }

  lemma LandedTable(d: Desk)
    requires Kept(d)
    ensures Table(Landed(d), d.clock)
    ensures forall name :: Unused(name, d) ==> IsNamed(Landed(d), name)
  {
    if d.flight.Some? && d.flight.value.record.Some? { SavedTable(d.rows, d.flight.value.record.value.row, d.clock); }
  }

  // A later moment and a failed reading change nothing of this.
  lemma KeptFailed(d: Desk, r: Reading)
    requires Kept(d) && r.now >= d.clock
    ensures Kept(d.(clock := r.now, st := Failure(d.st)))
    ensures Table(d.rows, r.now) && (forall x :: Fits(d.rows, x) && x.available <= d.clock ==> x.available <= r.now)
  {
  }

  lemma KeptRead(d: Desk, r: Reading)
    requires Kept(d) && OnClock(d, r)
    ensures Kept(Read(d, r))
  {
    hide Sample, Table, AvailableFrom, SaveSource;
    KeptFailed(d, r);
    if Sample(d.st, r).Sampled? {
      SampleSource(d.st, r);
      SourceBegins(d, r);
      LandedTable(d);
      var row := RowOf(Sample(d.st, r).st);
      if row.generation != d.st.generation && d.st.generation != "" {
        NewFits(d.rows, row, d.clock);
        NewFits(Landed(d), row, d.clock);
      }
    }
  }

  lemma KeptTake(d: Desk)
    requires Kept(d) && d.flight.None?
    ensures Kept(Next(d, Take))
  {
    if d.pending.Some? { SavedTable(d.rows, d.pending.value.row, d.clock); }
  }

  lemma KeptCommit(d: Desk)
    requires Kept(d) && d.flight.Some?
    ensures Kept(Committed(d))
  {
    LandedTable(d);
    if d.flight.value.record.Some? { SavedTable(d.rows, d.flight.value.record.value.row, d.clock); }
  }

  lemma KeptNext(d: Desk, e: Event)
    requires Kept(d) && (e.Reads? && e.r.Some? ==> OnClock(d, e.r.value))
    ensures Kept(Next(d, e))
  {
    match e
    case Reads(r) => if r.Some? { KeptRead(d, r.value); }
    case Take => if d.flight.None? { KeptTake(d); }
    case Commit => if d.flight.Some? { KeptCommit(d); }
    case Abort =>
    case Crash =>
  }

  lemma {:induction false} AlwaysKept(d: Desk, es: seq<Event>)
    requires Begins(d) && AllOnClock(d, es)
    ensures Kept(After(d, es))
  {
    if es != [] {
      var n := |es| - 1;
      var before := es[..n];
      forall i | 0 <= i < n ensures before[..i] == es[..i] && before[i] == es[i] {}
      assert AllOnClock(d, before);
      AlwaysKept(d, before);
      KeptNext(After(d, before), es[n]);
    }
  }

  lemma ChainedApart(rows: seq<SourceRow>)
    requires Chained(rows)
    ensures NoOverlap(rows)
  {
    forall i, j, t | 0 <= i < j < |rows| && rows[i].Holds(t) ensures !rows[j].Holds(t) {
      assert EndedBefore(rows[i], rows[j]);
    }
  }

  /** With clocks in order, whatever samples, switches, recreations, saves, failed
      saves and crashes interleave: no second belongs to two sources of the table. */
  lemma TableNeverOverlaps(d: Desk, es: seq<Event>)
    requires Begins(d) && AllOnClock(d, es)
    ensures Chained(After(d, es).rows) && NoOverlap(After(d, es).rows)
  {
    AlwaysKept(d, es);
    ChainedApart(After(d, es).rows);
  }

  function ClosedRow(r: SourceRow, available: nat): SourceRow {
    if r.ended == 0 || r.ended > available then r.(ended := available) else r
  }

  // The rows a bill is made from, the running source last.
  function BillRows(rows: seq<SourceRow>, generation: string, available: nat, start: int): seq<SourceRow> {
    var listed := if available > start then ListedRows(rows, generation, start, available) else [];
    seq(|listed|, i requires 0 <= i < |listed| => ClosedRow(listed[i], available)) +
      [SourceRow(generation, 0, 0, available, 0)]
  }

  lemma BillRowsOf(rows: seq<SourceRow>, generation: string, available: nat, start: int, store: Store)
    requires available > 0
    ensures var sources, bill := BillSources(rows, generation, available, start, store),
        BillRows(rows, generation, available, start);
      |sources| == |bill| && forall i :: 0 <= i < |bill| ==> sources[i] == SourceOf(bill[i], store)
  {
    hide Since;
    var listed := ListedRows(rows, generation, start, available);
    forall i | 0 <= i < |listed|
      ensures ClosedAt(SourceOf(listed[i], store), available) == SourceOf(ClosedRow(listed[i], available), store)
    {
    }
  }

  // Each row's source has exact buckets of its own traffic and a baseline read in
  // time, and that traffic is the billed one while the row holds the time.
  ghost predicate AllHonest(rows: seq<SourceRow>, store: Store, fs: string -> Rate, ms: string -> int, g: Rate,
                            d: Direction) {
    forall r <- rows ::
      MadeFrom(SourceOf(r, store), store(r.generation), fs(r.generation), ms(r.generation), d) &&
      forall t :: r.Holds(t) ==> fs(r.generation)(t) == g(t)
  }

  lemma HonestBill(rows: seq<SourceRow>, generation: string, available: nat, store: Store,
                   fs: string -> Rate, ms: string -> int, g: Rate, d: Direction, start: int, end: int)
    requires NoOverlap(rows) && available > 0
    requires AllHonest(BillRows(rows, generation, available, start), store, fs, ms, g, d)
    ensures var bill := SumSources(BillSources(rows, generation, available, start, store), start, end);
      && 0 <= bill.Bytes(d) <= Passed(g, start, end)
      && (!bill.partial ==> bill.Bytes(d) == Cap(Passed(g, start, end)))
  {
    hide MadeFrom, SumSources, BillRows, BillSources, Timeline;
    var bill, sources := BillRows(rows, generation, available, start),
      BillSources(rows, generation, available, start, store);
    BilledApart(rows, generation, available, start, store);
    BillRowsOf(rows, generation, available, start, store);
    var n := |bill|;
    var kept: seq<Stored> := seq(n, i requires 0 <= i < n => store(bill[i].generation));
    var rates: seq<Rate> := seq(n, i requires 0 <= i < n => fs(bill[i].generation));
    var moments := seq(n, i requires 0 <= i < n => ms(bill[i].generation));
    forall i | 0 <= i < n
      ensures MadeFrom(sources[i], kept[i], rates[i], moments[i], d)
      ensures forall t :: Owns(sources[i], t) ==> rates[i](t) == g(t)
    {
      assert bill[i] in bill;
    }
    BillAfterSwitches(sources, kept, rates, moments, g, d, start, end);
  }

  /** So at any moment of any such run: from the sources' own exact buckets and
      baselines read in time, the bill of the next reading counts no byte twice and
      none from outside; not flagged, it is the true traffic. */
  lemma RunningBillExact(d: Desk, es: seq<Event>, r: Reading, store: Store, fs: string -> Rate, ms: string -> int,
                         g: Rate, dir: Direction, start: int, end: int)
    requires Begins(d) && AllOnClock(d, es + [Reads(Some(r))])
    requires var z := After(d, es);
      AllHonest(BillRows(z.rows, GenerationOf(z.st, r), Max(0, AvailableFrom(z.st, r)), start), store, fs, ms, g, dir)
    ensures var z := After(d, es);
      var bill := SumSources(BillSources(z.rows, GenerationOf(z.st, r), AvailableFrom(z.st, r), start, store),
        start, end);
      && 0 <= bill.Bytes(dir) <= Passed(g, start, end)
      && (!bill.partial ==> bill.Bytes(dir) == Cap(Passed(g, start, end)))
  {
    hide AllHonest, BillRows, BillSources, SumSources, GenerationOf, AvailableFrom;
    var all := es + [Reads(Some(r))];
    assert all[..|es|] == es && all[|es|] == Reads(Some(r));
    forall i | 0 <= i < |es| ensures all[..i] == es[..i] && all[i] == es[i] {}
    var z := After(d, es);
    AlwaysKept(d, es);
    ChainedApart(z.rows);
    SourceBegins(z, r);
    HonestBill(z.rows, GenerationOf(z.st, r), AvailableFrom(z.st, r), store, fs, ms, g, dir, start, end);
  }

  /** Which readings give a source a baseline read in time: the first ever, and those
      of a recreated database; after a switch, if and only if every bucket that counts
      began by no sooner than the sample. */
  lemma BaselineInTime(prev: NetState, r: Reading, later: Snapshot)
    requires later.created == r.snapshot.created
    requires prev.generation == "" || GenerationOf(prev, r) != prev.generation
    ensures var s := r.snapshot; var available := AvailableFrom(prev, r);
      AllSeamless(later, available, BaselineMoment(s, available)) <==>
        prev.generation == "" || Recreates(prev, r) || r.now <= s.created || r.now == s.updated ||
        forall k <- ViewOf(later).lookup | CountsSince(later, r.now, k) ::
          if s.updated < r.now then k.1 >= r.now else k.1 > r.now
  {
    hide AllSeamless, CountsSince, ViewOf, BaselineMoment;
    InTime(r.snapshot, later, AvailableFrom(prev, r));
  }
}
