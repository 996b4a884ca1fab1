/** internal/traffic/network.go: the vnStat billing period and the quota stop. A
    time of 0 stands for Go's zero time. */
module Network {
  import opened Int64
  import opened Options
  import opened Traffic
  import V = Vnstat
  import opened Billing

  datatype ResetConfig = ResetConfig(mode: string, day: int, hour: int, timezone: string)

  // The configured quota: stop is NetworkStopBytes, None when that is an error.
  datatype Quota = Quota(billingMode: string, stop: Option<int>)

  // ProviderUsageFactor: a proxied byte crosses the interface twice.
  function Factor(q: Quota): int { if q.billingMode == "bidirectional" then 2 else 1 }

  datatype UsageAdjustment = UsageAdjustment(bytes: int, billingMode: string) {
    // model.go UsageAdjustment.Apply
    function Apply(usage: int, mode: string): int {
      if billingMode == "" || billingMode != mode || bytes == 0 then usage
      else if bytes > 0 && usage > MAX - bytes then MAX
      else Max(0, usage + bytes)
    }
  }

  const NO_ADJUSTMENT: UsageAdjustment := UsageAdjustment(0, "")

  datatype NetState = NetState(
    available: bool, origin: string, generation: string,
    rx: int, tx: int, lastRX: int, lastTX: int,
    periodStartedAt: int, nextResetAt: int, updatedAt: int, createdAt: int,
    recordedFrom: int, sourceStartedAt: int,
    healthy: bool, partial: bool, manual: bool,
    baselineRX: int, baselineTX: int, carryRX: int, carryTX: int,
    reset: ResetConfig,
    proxyAnchor: int, proxyAnchorAt: int, proxyAnchorKnown: bool,
    adjustment: UsageAdjustment)

  const STALE_AFTER: int := 180
  const MARK_WINDOW: int := 900

  /* ---------- one vnStat sample ---------- */

  // Everything SampleNetwork reads besides its own state. The sums over the
  // history database are arbitrary values; None is a failed read.
  datatype Reading = Reading(
    snapshot: V.Snapshot, origin: string, newName: string, now: int, reset: ResetConfig,
    start: int, next: int,              // periodStart(now, reset)
    loaded: bool,                       // retained buckets loaded and merged
    closing: Option<Billed>,            // the new period up to the old source's last update
    billed: Option<Billed>)             // the whole period, over all sources

  // newName is the name of a source never seen before.
  ghost predicate ValidReading(r: Reading) {
    r.snapshot.Valid() && 0 <= r.snapshot.rx <= MAX && 0 <= r.snapshot.tx <= MAX && r.newName != "" &&
    (r.closing.Some? ==> 0 <= r.closing.value.rx <= MAX && 0 <= r.closing.value.tx <= MAX) &&
    (r.billed.Some? ==> 0 <= r.billed.value.rx <= MAX && 0 <= r.billed.value.tx <= MAX)
  }

  function GenerationOf(prev: NetState, r: Reading): string {
    if prev.generation != "" && prev.origin == r.origin && prev.createdAt == r.snapshot.created then prev.generation
    else r.newName
  }

  predicate ResetChanged(prev: NetState, r: Reading) { prev.reset != r.reset }

  predicate PeriodChanged(prev: NetState, r: Reading) {
    prev.generation != "" && r.reset.mode == "monthly" && r.now >= prev.nextResetAt && prev.nextResetAt != 0
  }

  // Counters of the same source that moved backwards, or a stale new source.
  predicate Rejected(prev: NetState, r: Reading) {
    var s := r.snapshot;
    if GenerationOf(prev, r) == prev.generation
    then s.updated < prev.updatedAt || s.rx < prev.lastRX || s.tx < prev.lastTX
    else r.now - s.updated > STALE_AFTER
  }

  // Where a new period begins.
  function PeriodFrom(st: NetState, r: Reading): NetState {
    if r.reset.mode == "monthly" then st.(periodStartedAt := Max(r.start, st.recordedFrom))
    else if st.periodStartedAt == 0
    then st.(periodStartedAt := r.snapshot.created, manual := true, baselineRX := 0, baselineTX := 0)
    else st
  }

  // A first sample, a new period or a new reset rule starts from no usage.
  function OpenPeriod(prev: NetState, r: Reading): NetState {
    if prev.generation == "" || ResetChanged(prev, r) || PeriodChanged(prev, r)
    then PeriodFrom(prev.(adjustment := NO_ADJUSTMENT, manual := false, carryRX := 0, carryTX := 0), r)
    else prev
  }

  // The first sample ever: the host's earlier vnStat history is not imported.
  function FirstSample(st: NetState, s: V.Snapshot): NetState {
    st.(recordedFrom := s.updated, periodStartedAt := s.updated, manual := true,
        baselineRX := s.rx, baselineTX := s.tx, carryRX := 0, carryTX := 0)
  }

  // A switch at a period boundary closes the books of the new period first.
  function Closed(prev: NetState, begun: NetState, r: Reading): NetState {
    if (PeriodChanged(prev, r) || ResetChanged(prev, r)) && r.closing.Some? then
      var sum := r.closing.value;
      var keep := sum.partial && begun.periodStartedAt <= prev.periodStartedAt;
      begun.(rx := if keep then Max(sum.rx, prev.rx) else sum.rx, tx := if keep then Max(sum.tx, prev.tx) else sum.tx)
    else begun
  }

  // What is already inside the period of a database recreated on the same interface.
  function RecreatedBytes(prev: NetState, st: NetState, r: Reading): (int, int) {
    var s := r.snapshot;
    if prev.origin == r.origin && s.created > prev.updatedAt then
      var since := V.SumOf(V.ViewOf(s), Max(st.periodStartedAt, st.recordedFrom), s.updated);
      (since.rx, since.tx)
    else (0, 0)
  }

  // What was counted is carried, and only new bytes are added.
  function TakenOver(prev: NetState, st: NetState, r: Reading): NetState {
    var inside := RecreatedBytes(prev, st, r);
    st.(manual := true, carryRX := st.rx, carryTX := st.tx,
        baselineRX := r.snapshot.rx - inside.0, baselineTX := r.snapshot.tx - inside.1, partial := true)
  }

  // Another source takes over.
  function SwitchSource(prev: NetState, begun: NetState, r: Reading): NetState {
    TakenOver(prev, Closed(prev, begun, r), r)
  }

  // The source's start: where its own bytes begin to count.
  function AvailableFrom(prev: NetState, r: Reading): int {
    var s := r.snapshot;
    if prev.generation == "" then s.updated
    else if GenerationOf(prev, r) != prev.generation then
      if prev.origin == r.origin && s.created > prev.updatedAt then s.created else r.now
    else if prev.sourceStartedAt == 0 then s.created else prev.sourceStartedAt
  }

  function Prepared(prev: NetState, r: Reading): NetState {
    var begun := OpenPeriod(prev, r);
    if prev.generation == "" then FirstSample(begun, r.snapshot)
    else if GenerationOf(prev, r) != prev.generation then SwitchSource(prev, begun, r)
    else begun
  }

  // The usage of the period after a sample.
  function WithUsage(prev: NetState, st: NetState, r: Reading): NetState {
    var s := r.snapshot;
    if st.manual then
      st.(rx := AddSaturating(st.carryRX, Max(0, s.rx - st.baselineRX)),
          tx := AddSaturating(st.carryTX, Max(0, s.tx - st.baselineTX)))
    else if r.billed.None? then st
    else
      var sum := r.billed.value;
      var keep := sum.partial && ResetChanged(prev, r) && st.periodStartedAt <= prev.periodStartedAt;
      var rx, tx := if keep then Max(sum.rx, prev.rx) else sum.rx, if keep then Max(sum.tx, prev.tx) else sum.tx;
      if GenerationOf(prev, r) == prev.generation && !ResetChanged(prev, r) && !PeriodChanged(prev, r) &&
        (rx < prev.rx || tx < prev.tx)
      then st.(rx := Max(rx, prev.rx), tx := Max(tx, prev.tx), partial := true)
      else st.(rx := rx, tx := tx, partial := sum.partial)
  }

  datatype Outcome = Failed | Sampled(st: NetState)

  /** What SampleNetwork makes of a reading, before the proxy anchor is set. */
  function Sample(prev: NetState, r: Reading): Outcome {
    var s := r.snapshot;
    var switched := prev.generation != "" && GenerationOf(prev, r) != prev.generation;
    if Rejected(prev, r) || !r.loaded ||
       (switched && (PeriodChanged(prev, r) || ResetChanged(prev, r)) && r.closing.None?)
    then Failed
    else
      var st := Prepared(prev, r);
      if !st.manual && r.billed.None? then Failed
      else
        Sampled(Finished(prev, WithUsage(prev, st, r), r))
  }

  // The rest of the new state.
  function Finished(prev: NetState, used: NetState, r: Reading): NetState
    requires used.manual || r.billed.Some?
  {
    var s := r.snapshot;
    var available := used.manual || s.updated == used.periodStartedAt || r.billed.value.available;
    used.(origin := r.origin, available := available, generation := GenerationOf(prev, r), createdAt := s.created,
      sourceStartedAt := AvailableFrom(prev, r), updatedAt := s.updated, lastRX := s.rx, lastTX := s.tx,
      nextResetAt := r.next, reset := r.reset, healthy := available && r.now - s.updated <= STALE_AFTER)
  }

  /** A switch between two updates is a reading like any other: the source of
      Billing.EarlierBytesBilled, read 100 seconds after its update, is accepted
      in the middle of a period and available from the moment of the sample. */
  lemma EarlySwitchAccepted(prev: NetState, r: Reading)
    requires prev.generation != "" && prev.origin != r.origin && r.newName != prev.generation
    requires r.snapshot == FIRST_READ && r.now == SWITCHED_AT
    requires r.loaded && !PeriodChanged(prev, r) && !ResetChanged(prev, r)
    ensures Sample(prev, r).Sampled? && Sample(prev, r).st.generation == r.newName
    ensures AvailableFrom(prev, r) == SWITCHED_AT
  {
  }

  function Failure(prev: NetState): NetState { prev.(healthy := false) }

  /* ---------- monotone period usage ---------- */

  // What every sample leaves behind.
  ghost predicate Good(st: NetState) {
    0 <= st.rx <= MAX && 0 <= st.tx <= MAX &&
    (st.generation == "" ==> st.rx == 0 && st.tx == 0) &&
    (st.generation != "" && st.manual ==> Counting(st, st.lastRX, st.lastTX))
  }

  // Usage is the carried bytes plus what the counters gained over the baseline.
  ghost predicate Counting(st: NetState, rx: int, tx: int) {
    0 <= st.carryRX <= MAX && st.rx == AddSaturating(st.carryRX, Max(0, rx - st.baselineRX)) &&
    0 <= st.carryTX <= MAX && st.tx == AddSaturating(st.carryTX, Max(0, tx - st.baselineTX))
  }

  // Neither a period boundary nor a changed reset rule.
  predicate SamePeriod(prev: NetState, r: Reading) {
    prev.generation == "" || (!ResetChanged(prev, r) && !PeriodChanged(prev, r))
  }

  lemma BegunCarry(prev: NetState, r: Reading)
    requires Good(prev)
    ensures var st := OpenPeriod(prev, r);
      && (prev.generation != "" && SamePeriod(prev, r) ==> st == prev)
      && (prev.generation != "" && st.manual ==> 0 <= st.carryRX <= MAX && 0 <= st.carryTX <= MAX)
      && 0 <= st.rx <= MAX && 0 <= st.tx <= MAX
  {
  }

  lemma SwitchCarry(prev: NetState, begun: NetState, r: Reading)
    requires Good(prev) && ValidReading(r) && 0 <= begun.rx <= MAX && 0 <= begun.tx <= MAX
    ensures var st := SwitchSource(prev, begun, r);
      && st.manual && 0 <= st.carryRX <= MAX && 0 <= st.carryTX <= MAX
      && (!PeriodChanged(prev, r) && !ResetChanged(prev, r) ==> st.carryRX == begun.rx && st.carryTX == begun.tx)
  {
  }

  lemma PreparedCarry(prev: NetState, r: Reading)
    requires Good(prev) && ValidReading(r)
    ensures var st := Prepared(prev, r);
      && (prev.generation != "" && GenerationOf(prev, r) == prev.generation && SamePeriod(prev, r) ==> st == prev)
      && (prev.generation != "" && GenerationOf(prev, r) != prev.generation && SamePeriod(prev, r) ==>
            st.manual && st.carryRX == prev.rx && st.carryTX == prev.tx)
      && (st.manual ==> 0 <= st.carryRX <= MAX && 0 <= st.carryTX <= MAX)
  {
    BegunCarry(prev, r);
    SwitchCarry(prev, OpenPeriod(prev, r), r);
  }

  lemma UsageBounds(prev: NetState, st: NetState, r: Reading)
    requires Good(prev) && ValidReading(r) && (st.manual || r.billed.Some?)
    requires st.manual ==> 0 <= st.carryRX <= MAX && 0 <= st.carryTX <= MAX
    ensures var used := WithUsage(prev, st, r);
      && used == st.(rx := used.rx, tx := used.tx, partial := used.partial)
      && 0 <= used.rx <= MAX && 0 <= used.tx <= MAX
      && (st.manual ==> Counting(used, r.snapshot.rx, r.snapshot.tx))
      && (st.manual ==> used.rx >= st.carryRX && used.tx >= st.carryTX)
      && (st.manual && st == prev && prev.generation != "" ==>
            prev.lastRX <= r.snapshot.rx && prev.lastTX <= r.snapshot.tx ==>
            used.rx >= prev.rx && used.tx >= prev.tx)
      && (!st.manual && GenerationOf(prev, r) == prev.generation ==>
            !ResetChanged(prev, r) && !PeriodChanged(prev, r) ==>
            used.rx >= prev.rx && used.tx >= prev.tx)
  {
  }

  lemma SampleKeepsGood(prev: NetState, r: Reading)
    requires Good(prev) && ValidReading(r)
    ensures Sample(prev, r).Sampled? ==> Good(Sample(prev, r).st)
  {
    PreparedCarry(prev, r);
    if Prepared(prev, r).manual || r.billed.Some? { UsageBounds(prev, Prepared(prev, r), r); }
  }

  /** Within a period no sample lowers the usage: not one of the same source, not
      one with missing buckets, not one after vnStat's database was recreated or
      the interface was switched. */
  lemma SampleMonotone(prev: NetState, r: Reading)
    requires Good(prev) && ValidReading(r) && SamePeriod(prev, r)
    ensures Sample(prev, r).Sampled? ==> Sample(prev, r).st.rx >= prev.rx && Sample(prev, r).st.tx >= prev.tx
  {
    PreparedCarry(prev, r);
    if Prepared(prev, r).manual || r.billed.Some? { UsageBounds(prev, Prepared(prev, r), r); }
  }

  /** What a switch counts besides what is carried: nothing of a source with a
      history of its own, and of a recreated database no byte from before the period
      or before the old database's last update, and none twice. */
  lemma SwitchCountsOnce(prev: NetState, begun: NetState, r: Reading, f: Rate, g: Rate)
    requires 0 <= begun.rx <= MAX && 0 <= begun.tx <= MAX
    requires V.Exact(V.ViewOf(r.snapshot), f, V.RX) && V.Exact(V.ViewOf(r.snapshot), g, V.TX)
    ensures var st := TakenOver(prev, begun, r); var inside := RecreatedBytes(prev, begun, r);
      var used := WithUsage(prev, st, r);
      var from := Max(Max(begun.periodStartedAt, begun.recordedFrom), r.snapshot.created);
      && used.rx == AddSaturating(begun.rx, inside.0) && used.tx == AddSaturating(begun.tx, inside.1)
      && 0 <= inside.0 <= Passed(f, from, r.snapshot.updated) && 0 <= inside.1 <= Passed(g, from, r.snapshot.updated)
      && (inside != (0, 0) ==> from > prev.updatedAt)
  {
    var view, start := V.ViewOf(r.snapshot), Max(begun.periodStartedAt, begun.recordedFrom);
    V.SumExact(view, f, V.RX, start, r.snapshot.updated);
    V.SumExact(view, g, V.TX, start, r.snapshot.updated);
  }

  // Failed reads and rejected readings leave the usage as it was.
  ghost function Observe(st: NetState, r: Option<Reading>): NetState {
    if r.None? then Failure(st)
    else
      var o := Sample(st, r.value);
      if o.Sampled? then o.st else Failure(st)
  }

  ghost function ObserveAll(st: NetState, rs: seq<Option<Reading>>): NetState {
    if rs == [] then st else Observe(ObserveAll(st, rs[..|rs| - 1]), rs[|rs| - 1])
  }

  ghost predicate OnePeriod(st: NetState, rs: seq<Option<Reading>>) {
    forall n :: 0 <= n < |rs| && rs[n].Some? ==>
      ValidReading(rs[n].value) && SamePeriod(ObserveAll(st, rs[..n]), rs[n].value)
  }

  /** Over a whole run of readings, failures, switches and recreations inside one
      period the recorded usage never falls. */
  lemma {:induction false} PeriodUsageMonotone(st: NetState, rs: seq<Option<Reading>>)
    requires Good(st) && OnePeriod(st, rs)
    ensures Good(ObserveAll(st, rs))
    ensures ObserveAll(st, rs).rx >= st.rx && ObserveAll(st, rs).tx >= st.tx
  {
    if rs != [] {
      var n := |rs| - 1;
      var before := rs[..n];
      forall i | 0 <= i < n ensures before[..i] == rs[..i] {}
      PeriodUsageMonotone(st, before);
      if rs[n].Some? {
        SampleKeepsGood(ObserveAll(st, before), rs[n].value);
        SampleMonotone(ObserveAll(st, before), rs[n].value);
      }
    }
  }
}
