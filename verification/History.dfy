/** internal/traffic/tracker.go and history.go: counters, pending history and the
    durable checkpoint, as the steps that threads and crashes interleave. The
    database is a map of rows with one atomic commit. */
module History {
  import opened Options

  datatype Field = Up | Down | Provider

  // One history row. An upsert adds the bytes and keeps the flag.
  datatype Usage = Usage(upload: int, download: int, provider: int, partial: bool) {
    function Plus(u: Usage): Usage {
      Usage(upload + u.upload, download + u.download, provider + u.provider, partial || u.partial)
    }
    function Bytes(f: Field): int { match f case Up => upload case Down => download case Provider => provider }
    predicate NoBytes() { upload == 0 && download == 0 && provider == 0 }
  }

  const NOTHING: Usage := Usage(0, 0, 0, false)

  // Days or hours, as numbers.
  type Rows = map<int, Usage>

  function Row(m: Rows, k: int): Usage { if k in m then m[k] else NOTHING }

  function Add(m: Rows, k: int, u: Usage): Rows { m[k := Row(m, k).Plus(u)] }

  /* ---------- the core counters ---------- */

  datatype Counters = Counters(upload: int, download: int, lastUpload: int, lastDownload: int, generation: string)

  predicate Restarted(c: Counters, up: int, down: int, generation: string) {
    up < c.lastUpload || down < c.lastDownload ||
    (generation != "" && c.generation != "" && generation != c.generation)
  }

  function UploadDelta(c: Counters, up: int, down: int, generation: string): int {
    if Restarted(c, up, down, generation) then up else up - c.lastUpload
  }

  function DownloadDelta(c: Counters, up: int, down: int, generation: string): int {
    if Restarted(c, up, down, generation) then down else down - c.lastDownload
  }

  // The counter part of applySampleWithConns.
  function Applied(c: Counters, up: int, down: int, generation: string): Counters {
    Counters(c.upload + UploadDelta(c, up, down, generation), c.download + DownloadDelta(c, up, down, generation),
      up, down, if generation != "" then generation else c.generation)
  }

  // Tracker.Reset keeps the baselines.
  function Cleared(c: Counters): Counters { c.(upload := 0, download := 0) }

  /* ---------- the history a sample leaves ---------- */

  datatype Entry = Entry(key: int, usage: Usage)

  // A sample's bytes go to the current row; a gap also flags the row of the last sample.
  function EntriesOf(key: int, up: int, down: int, factor: int, flag: bool, previous: Option<int>): seq<Entry> {
    [Entry(key, Usage(up, down, (up + down) * factor, flag))] +
      if previous.Some? then [Entry(previous.value, Usage(0, 0, 0, true))] else []
  }

  function AddAll(m: Rows, es: seq<Entry>): Rows {
    if es == [] then m else Add(AddAll(m, es[..|es| - 1]), es[|es| - 1].key, es[|es| - 1].usage)
  }

  // What the commit does to the rows.
  function Upserted(rows: Rows, saved: Rows): (m: Rows)
    ensures m.Keys == rows.Keys + saved.Keys
  {
    map k | k in rows.Keys + saved.Keys :: Row(rows, k).Plus(Row(saved, k))
  }

  // What is left of one pending row once saved was committed; None is a deleted row.
  function Remaining(current: Usage, saved: Usage): Option<Usage> {
    var left := Usage(current.upload - saved.upload, current.download - saved.download,
      current.provider - saved.provider, current.partial);
    if left.NoBytes() && left.partial == saved.partial then None else Some(left)
  }

  function Subtracted(pending: Rows, saved: Rows): Rows {
    map k | k in pending.Keys + saved.Keys && (k in saved ==> Remaining(Row(pending, k), saved[k]).Some?) ::
      if k in saved then Remaining(Row(pending, k), saved[k]).value else pending[k]
  }

  /* ---------- the machine ---------- */

  // Where persist is: persistMu allows one at a time.
  datatype Phase =
    | Idle
    | Taken(state: Counters, saved: Rows)      // snapshot copied, not committed
    | Committed(saved: Rows)                   // committed, not yet subtracted

  datatype Sys = Sys(counters: Counters, pending: Rows, rows: Rows, checkpoint: Counters, phase: Phase)

  datatype Event =
    | Sample(up: nat, down: nat, generation: string, key: int, factor: nat, flag: bool, previous: Option<int>)
    | Reset
    | TakeSnapshot
    | Commit
    | CommitFailed
    | Subtract
    | Crash                                    // and reopen from the checkpoint

  function EntriesAt(s: Sys, ev: Event): seq<Entry>
    requires ev.Sample?
  {
    var c := s.counters;
    EntriesOf(ev.key, UploadDelta(c, ev.up, ev.down, ev.generation), DownloadDelta(c, ev.up, ev.down, ev.generation),
      ev.factor, ev.flag || Restarted(c, ev.up, ev.down, ev.generation), ev.previous)
  }

  function Sampled(s: Sys, ev: Event): Sys
    requires ev.Sample?
  {
    s.(counters := Applied(s.counters, ev.up, ev.down, ev.generation), pending := AddAll(s.pending, EntriesAt(s, ev)))
  }

  function Committing(s: Sys): Sys {
    if s.phase.Taken?
    then s.(rows := Upserted(s.rows, s.phase.saved), checkpoint := s.phase.state, phase := Committed(s.phase.saved))
    else s
  }

  function Subtracting(s: Sys): Sys {
    if s.phase.Committed? then s.(pending := Subtracted(s.pending, s.phase.saved), phase := Idle) else s
  }

  function Step(s: Sys, ev: Event): Sys {
    match ev
    case Sample(_, _, _, _, _, _, _) => Sampled(s, ev)
    case Reset => s.(counters := Cleared(s.counters))
    case TakeSnapshot => if s.phase.Idle? then s.(phase := Taken(s.counters, s.pending)) else s
    case Commit => Committing(s)
    case CommitFailed => if s.phase.Taken? then s.(phase := Idle) else s
    case Subtract => Subtracting(s)
    case Crash => Sys(s.checkpoint, map[], s.rows, s.checkpoint, Idle)
  }

  function Run(s: Sys, evs: seq<Event>): Sys {
    if evs == [] then s else Step(Run(s, evs[..|evs| - 1]), evs[|evs| - 1])
  }

  /* ---------- the ledger: what was observed ---------- */

  // log: everything observed that a restart would not observe again; the first
  // durable entries are committed, the first taken are in the snapshot. banked
  // are the final counters of the core generations left behind, now and then.
  datatype Ledger = Ledger(log: seq<Entry>, durable: nat, taken: nat, bank: (int, int), bankTaken: (int, int),
                           bankDurable: (int, int))

  ghost function Booked(log: seq<Entry>, k: int): Usage {
    if log == [] then NOTHING
    else
      var e := log[|log| - 1];
      var before := Booked(log[..|log| - 1], k);
      if e.key == k then before.Plus(e.usage) else before
  }

  ghost function TotalUp(log: seq<Entry>): int {
    if log == [] then 0 else TotalUp(log[..|log| - 1]) + log[|log| - 1].usage.upload
  }

  ghost function TotalDown(log: seq<Entry>): int {
    if log == [] then 0 else TotalDown(log[..|log| - 1]) + log[|log| - 1].usage.download
  }

  ghost function Post(l: Ledger, s: Sys, ev: Event): Ledger {
    match ev
    case Sample(up, down, generation, _, _, _, _) =>
      var c := s.counters;
      l.(log := l.log + EntriesAt(s, ev),
         bank := if Restarted(c, up, down, generation) then (l.bank.0 + c.lastUpload, l.bank.1 + c.lastDownload)
           else l.bank)
    case Reset => l
    case TakeSnapshot => if s.phase.Idle? then l.(taken := |l.log|, bankTaken := l.bank) else l
    case Commit => if s.phase.Taken? then l.(durable := l.taken, bankDurable := l.bankTaken) else l
    case CommitFailed => l
    case Subtract => l
    case Crash => if l.durable <= |l.log| then l.(log := l.log[..l.durable], bank := l.bankDurable) else l
  }

  lemma {:induction false} BookedAppend(log: seq<Entry>, es: seq<Entry>, k: int)
    ensures Sum(Booked(log + es, k), Booked(log, k), Booked(es, k))
    ensures TotalUp(log + es) == TotalUp(log) + TotalUp(es) && TotalDown(log + es) == TotalDown(log) + TotalDown(es)
  {
    if es == [] {
      assert log + es == log;
    } else {
      var n := |es| - 1;
      assert (log + es)[..|log| + n] == log + es[..n];
      BookedAppend(log, es[..n], k);
    }
  }

  lemma RowAdd(m: Rows, j: int, u: Usage, k: int)
    ensures Row(Add(m, j, u), k) == if j == k then Row(m, k).Plus(u) else Row(m, k)
  {
  }

  lemma {:induction false} AddAllRow(m: Rows, es: seq<Entry>, k: int)
    ensures Sum(Row(AddAll(m, es), k), Row(m, k), Booked(es, k))
  {
    if es != [] {
      var n := |es| - 1;
      AddAllRow(m, es[..n], k);
      RowAdd(AddAll(m, es[..n]), es[n].key, es[n].usage, k);
    }
  }

  // u is v and w together.
  predicate Sum(u: Usage, v: Usage, w: Usage) {
    u.upload == v.upload + w.upload && u.download == v.download + w.download &&
    u.provider == v.provider + w.provider && u.partial == (v.partial || w.partial)
  }

  lemma RowSubtracted(pending: Rows, saved: Rows, k: int)
    ensures Row(Subtracted(pending, saved), k) ==
      if k in saved then (var r := Remaining(Row(pending, k), saved[k]); if r.Some? then r.value else NOTHING)
      else Row(pending, k)
  {
  }

  // The snapshot's row, while there is one.
  function SavedRow(p: Phase, k: int): Usage { if p.Idle? then NOTHING else Row(p.saved, k) }

  ghost function Upto(log: seq<Entry>, n: nat, k: int): Usage { if n <= |log| then Booked(log[..n], k) else NOTHING }

  // A key's bytes: the row holds the start and the committed bookings; row and
  // pending hold the start and all bookings, except that between commit and
  // subtraction the snapshot is in both.
  ghost predicate BytesInv(s: Sys, l: Ledger, start: Rows, k: int, f: Field) {
    var row, pending, saved, first := Row(s.rows, k).Bytes(f), Row(s.pending, k).Bytes(f),
      SavedRow(s.phase, k).Bytes(f), Row(start, k).Bytes(f);
    row == first + Upto(l.log, l.durable, k).Bytes(f) &&
    row + pending == first + Booked(l.log, k).Bytes(f) + (if s.phase.Committed? then saved else 0) &&
    (s.phase.Taken? ==> row + saved == first + Upto(l.log, l.taken, k).Bytes(f))
  }

  // A key's partial flag: none is lost, and none is invented.
  ghost predicate FlagInv(s: Sys, l: Ledger, start: Rows, k: int) {
    var row, pending, saved, first := Row(s.rows, k).partial, Row(s.pending, k).partial, SavedRow(s.phase, k).partial,
      Row(start, k).partial;
    var durable, taken, all := Upto(l.log, l.durable, k).partial, Upto(l.log, l.taken, k).partial,
      Booked(l.log, k).partial;
    row == (first || durable) && (durable ==> all) && (pending ==> all) && (all ==> pending || row) &&
    (s.phase.Committed? && saved ==> row) &&
    (s.phase.Taken? ==> (saved ==> taken) && (taken ==> saved || row) && (durable ==> taken) && (taken ==> all))
  }

  ghost predicate KeyInv(s: Sys, l: Ledger, start: Rows, k: int) {
    FlagInv(s, l, start, k) && BytesInv(s, l, start, k, Up) && BytesInv(s, l, start, k, Down) &&
      BytesInv(s, l, start, k, Provider)
  }

  // Bytes on record and core baseline move together.
  ghost predicate Balanced(log: seq<Entry>, c: Counters, bank: (int, int), first: Counters) {
    TotalUp(log) == bank.0 + c.lastUpload - first.lastUpload &&
      TotalDown(log) == bank.1 + c.lastDownload - first.lastDownload
  }

  ghost predicate Consistent(s: Sys, l: Ledger, start: Rows, first: Counters) {
    l.durable <= |l.log| && (s.phase.Taken? ==> l.durable <= l.taken <= |l.log|) &&
    (forall k :: KeyInv(s, l, start, k)) &&
    Balanced(l.log, s.counters, l.bank, first) && Balanced(l.log[..l.durable], s.checkpoint, l.bankDurable, first) &&
    (s.phase.Taken? ==> Balanced(l.log[..l.taken], s.phase.state, l.bankTaken, first))
  }

  // The rows, the phase and the older bookings are the same; the key's pending
  // row and its bookings have both grown by u.
  ghost predicate Grown(s: Sys, l: Ledger, s': Sys, l': Ledger, u: Usage, k: int) {
    s'.rows == s.rows && s'.phase == s.phase && l'.durable == l.durable && l'.taken == l.taken &&
    Upto(l'.log, l.durable, k) == Upto(l.log, l.durable, k) &&
    (s.phase.Taken? ==> Upto(l'.log, l.taken, k) == Upto(l.log, l.taken, k)) &&
    Sum(Row(s'.pending, k), Row(s.pending, k), u) && Sum(Booked(l'.log, k), Booked(l.log, k), u)
  }

  lemma GrownBytes(s: Sys, l: Ledger, s': Sys, l': Ledger, start: Rows, u: Usage, k: int, f: Field)
    requires Grown(s, l, s', l', u, k) && BytesInv(s, l, start, k, f)
    ensures BytesInv(s', l', start, k, f)
  {
    SumBytes(Row(s'.pending, k), Row(s.pending, k), u, f);
    SumBytes(Booked(l'.log, k), Booked(l.log, k), u, f);
  }

  lemma SumBytes(u: Usage, v: Usage, w: Usage, f: Field)
    requires Sum(u, v, w)
    ensures u.Bytes(f) == v.Bytes(f) + w.Bytes(f)
  {
  }

  lemma GrownFlag(s: Sys, l: Ledger, s': Sys, l': Ledger, start: Rows, u: Usage, k: int)
    requires Grown(s, l, s', l', u, k) && FlagInv(s, l, start, k)
    ensures FlagInv(s', l', start, k)
  {
  }

  lemma AddedGrown(s: Sys, l: Ledger, es: seq<Entry>, c: Counters, bank: (int, int), k: int)
    requires l.durable <= |l.log| && (s.phase.Taken? ==> l.taken <= |l.log|)
    ensures Grown(s, l, s.(counters := c, pending := AddAll(s.pending, es)), l.(log := l.log + es, bank := bank),
      Booked(es, k), k)
  {
    UptoSame(l.log, es, l.durable, k);
    if s.phase.Taken? { UptoSame(l.log, es, l.taken, k); }
    BookedAppend(l.log, es, k);
    AddAllRow(s.pending, es, k);
  }

  lemma UptoSame(log: seq<Entry>, es: seq<Entry>, n: nat, k: int)
    requires n <= |log|
    ensures Upto(log + es, n, k) == Upto(log, n, k)
  {
    assert (log + es)[..n] == log[..n];
  }

  lemma AddedKey(s: Sys, l: Ledger, start: Rows, es: seq<Entry>, c: Counters, bank: (int, int), k: int)
    requires l.durable <= |l.log| && (s.phase.Taken? ==> l.taken <= |l.log|) && KeyInv(s, l, start, k)
    ensures KeyInv(s.(counters := c, pending := AddAll(s.pending, es)), l.(log := l.log + es, bank := bank), start, k)
  {
    var s', l', u := s.(counters := c, pending := AddAll(s.pending, es)), l.(log := l.log + es, bank := bank),
      Booked(es, k);
    AddedGrown(s, l, es, c, bank, k);
    GrownFlag(s, l, s', l', start, u, k);
    GrownBytes(s, l, s', l', start, u, k, Up);
    GrownBytes(s, l, s', l', start, u, k, Down);
    GrownBytes(s, l, s', l', start, u, k, Provider);
  }

  lemma AddedConsistent(s: Sys, l: Ledger, start: Rows, first: Counters, es: seq<Entry>, c: Counters, bank: (int, int))
    requires Consistent(s, l, start, first)
    requires TotalUp(es) == bank.0 + c.lastUpload - l.bank.0 - s.counters.lastUpload
    requires TotalDown(es) == bank.1 + c.lastDownload - l.bank.1 - s.counters.lastDownload
    ensures Consistent(s.(counters := c, pending := AddAll(s.pending, es)), l.(log := l.log + es, bank := bank), start,
      first)
  {
    var s', l' := s.(counters := c, pending := AddAll(s.pending, es)), l.(log := l.log + es, bank := bank);
    assert l'.log[..l.durable] == l.log[..l.durable];
    if s.phase.Taken? { assert l'.log[..l.taken] == l.log[..l.taken]; }
    forall k ensures KeyInv(s', l', start, k) {
      assert KeyInv(s, l, start, k);
      AddedKey(s, l, start, es, c, bank, k);
    }
    BookedAppend(l.log, es, 0);
  }

  lemma OneOrTwo(a: Entry, b: Entry)
    ensures TotalUp([a]) == a.usage.upload && TotalDown([a]) == a.usage.download
    ensures TotalUp([a, b]) == a.usage.upload + b.usage.upload &&
      TotalDown([a, b]) == a.usage.download + b.usage.download
  {
    assert [a][..0] == [] && [a, b][..1] == [a];
  }

  lemma EntriesTotal(s: Sys, ev: Event)
    requires ev.Sample?
    ensures TotalUp(EntriesAt(s, ev)) == UploadDelta(s.counters, ev.up, ev.down, ev.generation)
    ensures TotalDown(EntriesAt(s, ev)) == DownloadDelta(s.counters, ev.up, ev.down, ev.generation)
  {
    var es := EntriesAt(s, ev);
    if ev.previous.Some? {
      assert es == [es[0], es[1]];
      OneOrTwo(es[0], es[1]);
    } else {
      assert es == [es[0]];
      OneOrTwo(es[0], es[0]);
    }
  }

  lemma SampleConsistent(s: Sys, l: Ledger, start: Rows, first: Counters, ev: Event)
    requires Consistent(s, l, start, first) && ev.Sample?
    ensures Consistent(Sampled(s, ev), Post(l, s, ev), start, first)
  {
    EntriesTotal(s, ev);
    AddedConsistent(s, l, start, first, EntriesAt(s, ev), Sampled(s, ev).counters, Post(l, s, ev).bank);
  }

  lemma SnapshotConsistent(s: Sys, l: Ledger, start: Rows, first: Counters)
    requires Consistent(s, l, start, first) && s.phase.Idle?
    ensures Consistent(Step(s, TakeSnapshot), Post(l, s, TakeSnapshot), start, first)
  {
    assert l.log[..|l.log|] == l.log;
    forall k ensures KeyInv(Step(s, TakeSnapshot), Post(l, s, TakeSnapshot), start, k) {
      assert KeyInv(s, l, start, k);
    }
  }

  lemma CommitBytes(s: Sys, l: Ledger, start: Rows, k: int, f: Field)
    requires s.phase.Taken? && BytesInv(s, l, start, k, f)
    ensures BytesInv(Committing(s), Post(l, s, Commit), start, k, f)
  {
  }

  lemma CommitFlag(s: Sys, l: Ledger, start: Rows, k: int)
    requires s.phase.Taken? && FlagInv(s, l, start, k)
    ensures FlagInv(Committing(s), Post(l, s, Commit), start, k)
  {
  }

  lemma CommitConsistent(s: Sys, l: Ledger, start: Rows, first: Counters)
    requires Consistent(s, l, start, first) && s.phase.Taken?
    ensures Consistent(Committing(s), Post(l, s, Commit), start, first)
  {
    forall k ensures KeyInv(Committing(s), Post(l, s, Commit), start, k) {
      assert KeyInv(s, l, start, k);
      CommitFlag(s, l, start, k);
      CommitBytes(s, l, start, k, Up);
      CommitBytes(s, l, start, k, Down);
      CommitBytes(s, l, start, k, Provider);
    }
  }

  lemma SubtractBytes(s: Sys, l: Ledger, start: Rows, k: int, f: Field)
    requires s.phase.Committed? && BytesInv(s, l, start, k, f)
    ensures BytesInv(Subtracting(s), l, start, k, f)
  {
    RowSubtracted(s.pending, s.phase.saved, k);
  }

  lemma SubtractFlag(s: Sys, l: Ledger, start: Rows, k: int)
    requires s.phase.Committed? && FlagInv(s, l, start, k)
    ensures FlagInv(Subtracting(s), l, start, k)
  {
    RowSubtracted(s.pending, s.phase.saved, k);
  }

  lemma SubtractConsistent(s: Sys, l: Ledger, start: Rows, first: Counters)
    requires Consistent(s, l, start, first) && s.phase.Committed?
    ensures Consistent(Subtracting(s), Post(l, s, Subtract), start, first)
  {
    forall k ensures KeyInv(Subtracting(s), l, start, k) {
      assert KeyInv(s, l, start, k);
      SubtractFlag(s, l, start, k);
      SubtractBytes(s, l, start, k, Up);
      SubtractBytes(s, l, start, k, Down);
      SubtractBytes(s, l, start, k, Provider);
    }
  }

  lemma CrashConsistent(s: Sys, l: Ledger, start: Rows, first: Counters)
    requires Consistent(s, l, start, first)
    ensures Consistent(Step(s, Crash), Post(l, s, Crash), start, first)
  {
    assert l.log[..l.durable][..l.durable] == l.log[..l.durable];
    forall k ensures KeyInv(Step(s, Crash), Post(l, s, Crash), start, k) {
      assert KeyInv(s, l, start, k);
    }
  }

  lemma RestConsistent(s: Sys, l: Ledger, start: Rows, first: Counters, ev: Event)
    requires Consistent(s, l, start, first) && (ev.Reset? || ev.CommitFailed?)
    ensures Consistent(Step(s, ev), Post(l, s, ev), start, first)
  {
    forall k ensures KeyInv(Step(s, ev), Post(l, s, ev), start, k) {
      assert KeyInv(s, l, start, k);
    }
  }

  lemma StepConsistent(s: Sys, l: Ledger, start: Rows, first: Counters, ev: Event)
    requires Consistent(s, l, start, first)
    ensures Consistent(Step(s, ev), Post(l, s, ev), start, first)
  {
    match ev
    case Sample(_, _, _, _, _, _, _) => SampleConsistent(s, l, start, first, ev);
    case TakeSnapshot => if s.phase.Idle? { SnapshotConsistent(s, l, start, first); }
    case Commit => if s.phase.Taken? { CommitConsistent(s, l, start, first); }
    case CommitFailed => RestConsistent(s, l, start, first, ev);
    case Subtract => if s.phase.Committed? { SubtractConsistent(s, l, start, first); }
    case Reset => RestConsistent(s, l, start, first, ev);
    case Crash => CrashConsistent(s, l, start, first);
  }

  /* ---------- whole runs ---------- */

  ghost predicate Opened(s: Sys) { s.phase.Idle? && s.pending == map[] && s.counters == s.checkpoint }

  ghost function RunLedger(s: Sys, evs: seq<Event>): Ledger {
    if evs == [] then Ledger([], 0, 0, (0, 0), (0, 0), (0, 0))
    else Post(RunLedger(s, evs[..|evs| - 1]), Run(s, evs[..|evs| - 1]), evs[|evs| - 1])
  }

  /** Every interleaving of samples, resets, persists and crashes keeps the rows,
      the pending bytes and the ledger consistent. */
  lemma {:induction false} RunConsistent(s: Sys, evs: seq<Event>)
    requires Opened(s)
    ensures Consistent(Run(s, evs), RunLedger(s, evs), s.rows, s.counters)
  {
    if evs == [] {
      forall k ensures KeyInv(s, RunLedger(s, evs), s.rows, k) {}
    } else {
      var n := |evs| - 1;
      RunConsistent(s, evs[..n]);
      StepConsistent(Run(s, evs[..n]), RunLedger(s, evs[..n]), s.rows, s.counters, evs[n]);
    }
  }

  /* ---------- exactly once ---------- */

  function SumRows(keys: seq<int>, m: Rows, f: Field): int {
    if keys == [] then 0 else SumRows(keys[..|keys| - 1], m, f) + Row(m, keys[|keys| - 1]).Bytes(f)
  }

  ghost function SumBooked(keys: seq<int>, log: seq<Entry>, f: Field): int {
    if keys == [] then 0 else SumBooked(keys[..|keys| - 1], log, f) + Booked(log, keys[|keys| - 1]).Bytes(f)
  }

  ghost predicate Distinct(keys: seq<int>) { forall i, j :: 0 <= i < j < |keys| ==> keys[i] != keys[j] }

  ghost predicate Within(log: seq<Entry>, keys: seq<int>) { forall e <- log :: e.key in keys }

  lemma {:induction false} SumBookedStep(keys: seq<int>, log: seq<Entry>, e: Entry, f: Field)
    requires Distinct(keys)
    ensures SumBooked(keys, log + [e], f) == SumBooked(keys, log, f) + if e.key in keys then e.usage.Bytes(f) else 0
  {
    if keys != [] {
      var n := |keys| - 1;
      SumBookedStep(keys[..n], log, e, f);
      assert (log + [e])[..|log|] == log;
      assert e.key in keys <==> e.key in keys[..n] || e.key == keys[n];
      if e.key == keys[n] { assert e.key !in keys[..n]; }
      assert Booked(log + [e], keys[n]).Bytes(f) ==
        Booked(log, keys[n]).Bytes(f) + if e.key == keys[n] then e.usage.Bytes(f) else 0;
    }
  }

  /** Over all keys the bookings add up to the bytes observed. */
  lemma {:induction false} SumBookedTotal(keys: seq<int>, log: seq<Entry>)
    requires Distinct(keys) && Within(log, keys)
    ensures SumBooked(keys, log, Up) == TotalUp(log) && SumBooked(keys, log, Down) == TotalDown(log)
  {
    if log == [] {
      SumBookedNothing(keys, Up);
      SumBookedNothing(keys, Down);
    } else {
      var n := |log| - 1;
      assert log == log[..n] + [log[n]];
      SumBookedTotal(keys, log[..n]);
      SumBookedStep(keys, log[..n], log[n], Up);
      SumBookedStep(keys, log[..n], log[n], Down);
    }
  }

  lemma {:induction false} SumBookedNothing(keys: seq<int>, f: Field)
    ensures SumBooked(keys, [], f) == 0
  {
    if keys != [] { SumBookedNothing(keys[..|keys| - 1], f); }
  }

  lemma {:induction false} SumCells(s: Sys, l: Ledger, start: Rows, first: Counters, keys: seq<int>, f: Field)
    requires Consistent(s, l, start, first)
    ensures SumRows(keys, s.rows, f) == SumRows(keys, start, f) + SumBooked(keys, l.log[..l.durable], f)
    ensures !s.phase.Committed? ==>
      SumRows(keys, s.rows, f) + SumRows(keys, s.pending, f) == SumRows(keys, start, f) + SumBooked(keys, l.log, f)
  {
    if keys != [] {
      var n := |keys| - 1;
      SumCells(s, l, start, first, keys[..n], f);
      assert KeyInv(s, l, start, keys[n]);
    }
  }

  // No sample of the run is taken for a restart of the core.
  ghost predicate OneGeneration(s: Sys, evs: seq<Event>) {
    forall n :: 0 <= n < |evs| && evs[n].Sample? ==>
      !Restarted(Run(s, evs[..n]).counters, evs[n].up, evs[n].down, evs[n].generation)
  }

  lemma {:induction false} NothingBanked(s: Sys, evs: seq<Event>)
    requires OneGeneration(s, evs)
    ensures var l := RunLedger(s, evs); l.bank == l.bankTaken == l.bankDurable == (0, 0)
  {
    if evs != [] {
      var n := |evs| - 1;
      forall i | 0 <= i < n ensures evs[..n][..i] == evs[..i] {}
      NothingBanked(s, evs[..n]);
    }
  }

  // All days the run touches.
  predicate Touches(evs: seq<Event>, keys: seq<int>) {
    forall ev <- evs :: ev.Sample? ==> ev.key in keys && (ev.previous.Some? ==> ev.previous.value in keys)
  }

  lemma {:induction false} LedgerWithin(s: Sys, evs: seq<Event>, keys: seq<int>)
    requires Touches(evs, keys)
    ensures Within(RunLedger(s, evs).log, keys)
  {
    if evs != [] {
      var n := |evs| - 1;
      LedgerWithin(s, evs[..n], keys);
      assert evs[n] in evs;
    }
  }

  /** While one core generation lasts, the durable rows move exactly with the
      checkpointed baseline, and outside the window between commit and subtraction
      durable and pending rows together move exactly with the last reading: no
      interleaving of samples, resets, persists that succeed or fail, and crashes
      loses a byte or counts one twice. */
  lemma ExactlyOnce(s: Sys, evs: seq<Event>, keys: seq<int>)
    requires Opened(s) && OneGeneration(s, evs) && Distinct(keys) && Touches(evs, keys)
    ensures var r := Run(s, evs);
      SumRows(keys, r.rows, Up) - r.checkpoint.lastUpload == SumRows(keys, s.rows, Up) - s.checkpoint.lastUpload &&
      SumRows(keys, r.rows, Down) - r.checkpoint.lastDownload == SumRows(keys, s.rows, Down) - s.checkpoint.lastDownload
    ensures var r := Run(s, evs);
      !r.phase.Committed? ==>
        SumRows(keys, r.rows, Up) + SumRows(keys, r.pending, Up) ==
          SumRows(keys, s.rows, Up) + r.counters.lastUpload - s.counters.lastUpload &&
        SumRows(keys, r.rows, Down) + SumRows(keys, r.pending, Down) ==
          SumRows(keys, s.rows, Down) + r.counters.lastDownload - s.counters.lastDownload
  {
    var r, l := Run(s, evs), RunLedger(s, evs);
    RunConsistent(s, evs);
    NothingBanked(s, evs);
    LedgerWithin(s, evs, keys);
    SumCells(r, l, s.rows, s.counters, keys, Up);
    SumCells(r, l, s.rows, s.counters, keys, Down);
    SumBookedTotal(keys, l.log);
    SumBookedTotal(keys, l.log[..l.durable]);
  }

  /* ---------- core restarts ---------- */

  // What the core counters go through: a reading of a generation, or a reset of the period.
  datatype Reading = Read(generation: string, up: int, down: int) | Clear

  // Readings are readable, and within a generation they never fall.
  predicate Readings(generation: string, up: int, down: int, rs: seq<Reading>)
    decreases |rs|
  {
    rs == [] ||
    if rs[0].Clear? then Readings(generation, up, down, rs[1..])
    else rs[0].generation != "" && (rs[0].generation == generation ==> rs[0].up >= up && rs[0].down >= down) &&
         Readings(rs[0].generation, rs[0].up, rs[0].down, rs[1..])
  }

  // The last reading of every generation, added up.
  function Observed(generation: string, last: int, rs: seq<Reading>, upload: bool): int
    decreases |rs|
  {
    if rs == [] then last
    else if rs[0].Clear? then Observed(generation, last, rs[1..], upload)
    else
      var now := if upload then rs[0].up else rs[0].down;
      (if rs[0].generation == generation then 0 else last) + Observed(rs[0].generation, now, rs[1..], upload)
  }

  // The counters after the readings, and the totals the resets cleared.
  function Replay(c: Counters, cleared: (int, int), rs: seq<Reading>): (Counters, (int, int))
    decreases |rs|
  {
    if rs == [] then (c, cleared)
    else match rs[0]
      case Read(generation, up, down) => Replay(Applied(c, up, down, generation), cleared, rs[1..])
      case Clear => Replay(Cleared(c), (cleared.0 + c.upload, cleared.1 + c.download), rs[1..])
  }

  // A reading is taken for a restart exactly when it is of another generation than
  // the one before.
  predicate RestartsAreReal(c: Counters, rs: seq<Reading>)
    decreases |rs|
  {
    rs == [] ||
    match rs[0]
    case Read(generation, up, down) =>
      (Restarted(c, up, down, generation) <==> c.generation != "" && generation != c.generation) &&
        RestartsAreReal(Applied(c, up, down, generation), rs[1..])
    case Clear => RestartsAreReal(Cleared(c), rs[1..])
  }

  /** Current and cleared totals are the growth observed in every core generation,
      even when a new generation's counters already exceed the old ones; within one
      generation no reading is ever taken for a restart. The state may be a fresh one,
      with neither an ID nor a baseline. */
  lemma {:induction false} RestartExact(c: Counters, cleared: (int, int), rs: seq<Reading>)
    requires c.generation != "" || (c.lastUpload == 0 && c.lastDownload == 0)
    requires Readings(c.generation, c.lastUpload, c.lastDownload, rs)
    requires forall r <- rs :: r.Read? ==> r.up >= 0 && r.down >= 0
    ensures var (d, gone) := Replay(c, cleared, rs);
      d.upload + gone.0 == c.upload + cleared.0 + Observed(c.generation, c.lastUpload, rs, true) - c.lastUpload &&
      d.download + gone.1 == c.download + cleared.1 + Observed(c.generation, c.lastDownload, rs, false) - c.lastDownload
    ensures RestartsAreReal(c, rs)
    decreases |rs|
  {
    if rs != [] {
      match rs[0]
      case Read(generation, up, down) => RestartExact(Applied(c, up, down, generation), cleared, rs[1..]);
      case Clear => RestartExact(Cleared(c), (cleared.0 + c.upload, cleared.1 + c.download), rs[1..]);
    }
  }

  /** With an unreadable invocation ID, or none stored yet, a real restart is counted
      in full exactly when a counter fell below its baseline, or there was no baseline. */
  lemma UnreadableRestart(c: Counters, up: nat, down: nat, generation: string)
    requires c.lastUpload >= 0 && c.lastDownload >= 0 && (generation == "" || c.generation == "")
    ensures UploadDelta(c, up, down, generation) == up && DownloadDelta(c, up, down, generation) == down <==>
      up < c.lastUpload || down < c.lastDownload || (c.lastUpload == 0 && c.lastDownload == 0)
  {
  }

  /** And it can be lost: a restart between two readings whose new counters already
      exceed the old ones, with no ID to tell. */
  lemma UnreadableRestartLoses() returns (c: Counters, up: nat, down: nat)
    ensures c.generation != "" && c.lastUpload > 0 && !Restarted(c, up, down, "") && Restarted(c, up, down, "new")
    ensures UploadDelta(c, up, down, "") < UploadDelta(c, up, down, "new") == up
  {
    c, up, down := Counters(10, 10, 10, 10, "old"), 20, 15;
  }

  // Samples of one core: its ID or no ID, and counters that never fall.
  ghost predicate OneCore(generation: string, up: int, down: int, evs: seq<Event>) {
    forall n :: 0 <= n < |evs| && evs[n].Sample? ==>
      evs[n].generation in {"", generation} && evs[n].up >= up && evs[n].down >= down &&
      forall m :: 0 <= m < n && evs[m].Sample? ==> evs[m].up <= evs[n].up && evs[m].down <= evs[n].down
  }

  ghost predicate Below(c: Counters, generation: string, up: int, down: int) {
    c.generation in {"", generation} && c.lastUpload <= up && c.lastDownload <= down
  }

  lemma {:induction false} BaselinesBelow(s: Sys, evs: seq<Event>, generation: string, up: int, down: int)
    requires Opened(s) && Below(s.counters, generation, up, down)
    requires forall ev <- evs :: ev.Sample? ==> ev.generation in {"", generation} && ev.up <= up && ev.down <= down
    ensures var r := Run(s, evs);
      Below(r.counters, generation, up, down) && Below(r.checkpoint, generation, up, down) &&
      (r.phase.Taken? ==> Below(r.phase.state, generation, up, down))
  {
    hide AddAll, EntriesAt, Upserted, Subtracted;
    if evs != [] {
      var n := |evs| - 1;
      assert evs[n] in evs;
      BaselinesBelow(s, evs[..n], generation, up, down);
    }
  }

  /** A core that keeps running is never taken for a restarted one, however often
      the panel crashes and goes back to its checkpoint. */
  lemma RunningCoreIsOneGeneration(s: Sys, evs: seq<Event>, generation: string)
    requires Opened(s) && s.counters.generation in {"", generation}
    requires OneCore(generation, s.counters.lastUpload, s.counters.lastDownload, evs)
    ensures OneGeneration(s, evs)
  {
    forall n | 0 <= n < |evs| && evs[n].Sample?
      ensures !Restarted(Run(s, evs[..n]).counters, evs[n].up, evs[n].down, evs[n].generation)
    {
      BaselinesBelow(s, evs[..n], generation, evs[n].up, evs[n].down);
    }
  }

  /* ---------- the tracker's own fields ---------- */

  // Days are numbered in the fixed zone of the history, hours from the epoch. 0 is Go's zero time.
  class HistoryTracker {
    const offset: int
    const startedAt: int
    var counters: Counters
    var pendingHistory: Rows
    var pendingHourlyHistory: Rows
    var historyLastSample: int

    constructor (offset: int, startedAt: int, checkpoint: Counters, lastSample: int)
      ensures counters == checkpoint && pendingHistory == map[] && pendingHourlyHistory == map[]
      ensures historyLastSample == lastSample && this.offset == offset && this.startedAt == startedAt
    {
      this.offset, this.startedAt, counters, historyLastSample := offset, startedAt, checkpoint, lastSample;
      pendingHistory, pendingHourlyHistory := map[], map[];
    }

    function Day(t: int): int { (t + offset) / 86400 }

    function Hour(t: int): int { t / 3600 * 3600 }

    function Gap(now: int): bool
      reads this
    {
      historyLastSample != 0 && now - historyLastSample > 5
    }

    function Flagged(now: int): Option<int>
      reads this
    {
      if Gap(now) && Day(historyLastSample) >= Day(startedAt) then Some(Day(historyLastSample)) else None
    }

    function FlaggedHour(now: int): Option<int>
      reads this
    {
      if Gap(now) && Hour(historyLastSample) >= Hour(startedAt) then Some(Hour(historyLastSample)) else None
    }

    // What one sample adds to the daily rows, and to the hourly rows.
    function DayEntries(now: int, upload: int, download: int, factor: int, restarted: bool): seq<Entry>
      reads this
    {
      EntriesOf(Day(now), upload, download, factor, Gap(now) || restarted || Day(now) == Day(startedAt), Flagged(now))
    }

    function HourEntries(now: int, upload: int, download: int, factor: int, restarted: bool): seq<Entry>
      reads this
    {
      EntriesOf(Hour(now), upload, download, factor,
        Gap(now) || restarted || Hour(now) == Hour(startedAt), FlaggedHour(now))
    }

    /** recordHistory: the daily and the hourly rows of one sample. */
    method RecordHistory(now: int, upload: int, download: int, factor: int, restarted: bool)
      modifies this`pendingHistory, this`pendingHourlyHistory, this`historyLastSample
      ensures pendingHistory == AddAll(old(pendingHistory), old(DayEntries(now, upload, download, factor, restarted)))
      ensures pendingHourlyHistory ==
        AddAll(old(pendingHourlyHistory), old(HourEntries(now, upload, download, factor, restarted)))
      ensures historyLastSample == now
    {
      var gap := historyLastSample != 0 && now - historyLastSample > 5;
      var day, hour := Day(now), Hour(now);
      var previousDay, previousHour := None, None;
      if gap {
        if Day(historyLastSample) >= Day(startedAt) { previousDay := Some(Day(historyLastSample)); }
        if Hour(historyLastSample) >= Hour(startedAt) { previousHour := Some(Hour(historyLastSample)); }
      }
      pendingHistory := AddUsage(pendingHistory, day, upload, download, factor,
        gap || restarted || day == Day(startedAt), previousDay);
      pendingHourlyHistory := AddUsage(pendingHourlyHistory, hour, upload, download, factor,
        gap || restarted || hour == Hour(startedAt), previousHour);
      historyLastSample := now;
    }

    /** The counters and the history of one core reading. */
    method ApplySample(now: int, currentUpload: int, currentDownload: int, generation: string, factor: int)
      returns (ok: bool)
      modifies this
      ensures ok == (currentUpload >= 0 && currentDownload >= 0)
      ensures !ok ==>
        counters == old(counters) && pendingHistory == old(pendingHistory) &&
          pendingHourlyHistory == old(pendingHourlyHistory)
      ensures ok ==> counters == Applied(old(counters), currentUpload, currentDownload, generation)
      ensures ok ==>
        pendingHistory == AddAll(old(pendingHistory),
          old(DayEntries(now, UploadDelta(counters, currentUpload, currentDownload, generation),
            DownloadDelta(counters, currentUpload, currentDownload, generation), factor,
            Restarted(counters, currentUpload, currentDownload, generation))))
      ensures ok ==>
        pendingHourlyHistory == AddAll(old(pendingHourlyHistory),
          old(HourEntries(now, UploadDelta(counters, currentUpload, currentDownload, generation),
            DownloadDelta(counters, currentUpload, currentDownload, generation), factor,
            Restarted(counters, currentUpload, currentDownload, generation))))
      ensures historyLastSample == if ok then now else old(historyLastSample)
    {
      hide AddAll, EntriesOf;
      if currentUpload < 0 || currentDownload < 0 { return false; }
      var restarted := currentUpload < counters.lastUpload || currentDownload < counters.lastDownload;
      if generation != "" && counters.generation != "" && generation != counters.generation { restarted := true; }
      var uploadDelta, downloadDelta := currentUpload, currentDownload;
      if !restarted {
        uploadDelta, downloadDelta := uploadDelta - counters.lastUpload, downloadDelta - counters.lastDownload;
      }
      RecordHistory(now, uploadDelta, downloadDelta, factor, restarted);
      if restarted {
        counters := counters.(upload := counters.upload + currentUpload,
          download := counters.download + currentDownload);
      } else {
        counters := counters.(upload := counters.upload + currentUpload - counters.lastUpload,
          download := counters.download + currentDownload - counters.lastDownload);
      }
      counters := counters.(lastUpload := currentUpload, lastDownload := currentDownload);
      if generation != "" { counters := counters.(generation := generation); }
      return true;
    }

    method Reset()
      modifies this`counters
      ensures counters == Cleared(old(counters))
    {
      counters := counters.(upload := 0, download := 0);
    }

    /** persist after the commit: what was saved leaves the pending rows. */
    method SubtractSaved(saved: Rows, hourlySaved: Rows)
      modifies this`pendingHistory, this`pendingHourlyHistory
      ensures pendingHistory == Subtracted(old(pendingHistory), saved)
      ensures pendingHourlyHistory == Subtracted(old(pendingHourlyHistory), hourlySaved)
    {
      pendingHistory := SubtractRows(pendingHistory, saved);
      pendingHourlyHistory := SubtractRows(pendingHourlyHistory, hourlySaved);
    }
  }

  lemma AddAllOne(m: Rows, a: Entry)
    ensures AddAll(m, [a]) == Add(m, a.key, a.usage)
  {
    assert [a][..0] == [];
  }

  lemma AddAllTwo(m: Rows, a: Entry, b: Entry)
    ensures AddAll(m, [a, b]) == Add(Add(m, a.key, a.usage), b.key, b.usage)
  {
    assert [a, b][..1] == [a];
    AddAllOne(m, a);
  }

  lemma EntriesRows(pending: Rows, key: int, upload: int, download: int, factor: int, flag: bool, previous: Option<int>)
    ensures var first := Add(pending, key, Usage(upload, download, (upload + download) * factor, flag));
      AddAll(pending, EntriesOf(key, upload, download, factor, flag, previous)) ==
      if previous.Some? then Add(first, previous.value, Usage(0, 0, 0, true)) else first
  {
    var a := Entry(key, Usage(upload, download, (upload + download) * factor, flag));
    if previous.Some? {
      var b := Entry(previous.value, Usage(0, 0, 0, true));
      AddAllTwo(pending, a, b);
      assert EntriesOf(key, upload, download, factor, flag, previous) == [a, b];
    } else {
      AddAllOne(pending, a);
      assert EntriesOf(key, upload, download, factor, flag, previous) == [a];
    }
  }

  /** One sample in the rows of one resolution. */
  method AddUsage(pending: Rows, key: int, upload: int, download: int, factor: int, flag: bool, previous: Option<int>)
    returns (rows: Rows)
    ensures rows == AddAll(pending, EntriesOf(key, upload, download, factor, flag, previous))
  {
    hide AddAll, EntriesOf;
    EntriesRows(pending, key, upload, download, factor, flag, previous);
    var usage := Row(pending, key);
    usage := Usage(usage.upload + upload, usage.download + download, usage.provider + (upload + download) * factor,
      usage.partial || flag);
    rows := pending[key := usage];
    if previous.Some? {
      var before := Row(rows, previous.value);
      rows := rows[previous.value := before.(partial := true)];
    }
  }

  // The saved rows that are not left.
  ghost function Without(saved: Rows, left: set<int>): Rows { map k | k in saved && k !in left :: saved[k] }

  // One iteration of the loop over the saved rows.
  function SubtractRow(rows: Rows, day: int, saved: Usage): Rows {
    var current := Row(rows, day);
    var left := Usage(current.upload - saved.upload, current.download - saved.download,
      current.provider - saved.provider, current.partial);
    if left.upload == 0 && left.download == 0 && left.provider == 0 && left.partial == saved.partial then rows - {day}
    else rows[day := left]
  }

  // A day the iteration is not about.
  lemma SubtractOther(pending: Rows, saved: Rows, left: set<int>, day: int, k: int)
    requires k != day
    ensures var rows, next := Subtracted(pending, Without(saved, left)),
      Subtracted(pending, Without(saved, left - {day}));
      (k in next <==> k in rows) && (k in next ==> next[k] == rows[k])
  {
    assert k in Without(saved, left) <==> k in Without(saved, left - {day});
  }

  // The day it is about: still as pending, and then without what was saved.
  lemma SubtractDay(pending: Rows, saved: Rows, left: set<int>, day: int)
    requires day in left && day in saved
    ensures Row(Subtracted(pending, Without(saved, left)), day) == Row(pending, day)
    ensures var next, rest := Subtracted(pending, Without(saved, left - {day})),
      Remaining(Row(pending, day), saved[day]);
      (day in next <==> rest.Some?) && (day in next ==> next[day] == rest.value)
  {
    var gone, kept := Without(saved, left), Without(saved, left - {day});
    assert day !in gone && day in kept && kept[day] == saved[day];
  }

  lemma SubtractedRow(rows: Rows, day: int, saved: Usage)
    ensures var rest := Remaining(Row(rows, day), saved);
      SubtractRow(rows, day, saved) == if rest.None? then rows - {day} else rows[day := rest.value]
  {
  }

  lemma SubtractOne(pending: Rows, saved: Rows, left: set<int>, day: int)
    requires left <= saved.Keys && day in left
    ensures Subtracted(pending, Without(saved, left - {day})) ==
      SubtractRow(Subtracted(pending, Without(saved, left)), day, saved[day])
  {
    hide Without, SubtractRow, Remaining;
    var rows, next := Subtracted(pending, Without(saved, left)), Subtracted(pending, Without(saved, left - {day}));
    SubtractDay(pending, saved, left, day);
    SubtractedRow(rows, day, saved[day]);
    forall k | k != day ensures (k in next <==> k in rows) && (k in next ==> next[k] == rows[k]) {
      SubtractOther(pending, saved, left, day, k);
    }
  }

  lemma SubtractEnds(pending: Rows, saved: Rows)
    ensures Subtracted(pending, Without(saved, saved.Keys)) == pending
    ensures Without(saved, {}) == saved
  {
    assert Without(saved, saved.Keys) == map[];
  }

  lemma Inhabited(left: set<int>) returns (day: int)
    requires left != {}
    ensures day in left
  {
    assert (forall d: int :: d !in left) ==> left == {};
    day :| day in left;
  }

  /** The loop over the saved rows. */
  method SubtractRows(pending: Rows, saved: Rows) returns (rows: Rows)
    ensures rows == Subtracted(pending, saved)
  {
    rows := pending;
    var left: set<int> := saved.Keys;
    SubtractEnds(pending, saved);
    while left != {}
      invariant left <= saved.Keys
      invariant rows == Subtracted(pending, Without(saved, left))
      decreases |left|
    {
      ghost var some := Inhabited(left);
      var day: int :| day in left;
      SubtractOne(pending, saved, left, day);
      rows := SubtractRow(rows, day, saved[day]);
      left := left - {day};
    }
  }
}
