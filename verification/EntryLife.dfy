/** The entry over its whole life: core samples, vnStat reads, the schedule,
    manual resets, calibrations, saves and restarts, each taken in the critical
    sections the Tracker takes it in, so any two may interleave. */
module EntryLife {
  import opened Int64
  import opened Options
  import opened Network
  import opened EntryQuota
  import opened EntryTracking
  import opened Billing
  import V = Vnstat

  // The running entry and the one last saved.
  datatype Life = Life(live: Entry, disk: Entry)

  // Every action brings the quota configured when it runs.
  datatype Action =
    | Core(now: int, delta: nat, q: Quota)
    | Read(r: Option<Reading>)                       // publishes; a Check follows
    | Check(q: Quota)                                // reconcileNetworkQuota
    | Zero                                           // the reset after its sample
    | Calibrate(q: Quota, used: int, clear: bool)    // the calibration after its sample
    | Save
    | Restart

  // One critical section on the running entry.
  ghost function Acted(e: Entry, a: Action): Entry {
    match a
    case Core(now, delta, q) => Step(e, CoreSample(now, delta), q)
    case Read(r) =>
      if r.None? || Sample(e.net, r.value).Failed? then e.(net := Failure(e.net))
      else AnchoredEntry(e, Sample(e.net, r.value).st)
    case Check(q) => Step(e, Reconcile, q)
    case Zero => if e.net.healthy then ResetEntry(e) else e
    case Calibrate(q, used, clear) => if e.net.healthy then Adjusted(e, q, used, clear) else e
    case Save => e
    case Restart => e
  }

  ghost function Act(l: Life, a: Action): Life {
    match a
    case Save => l.(disk := l.live)
    case Restart => l.(live := l.disk.(marks := []))
    case _ => l.(live := Acted(l.live, a))
  }

  ghost function Lived(l: Life, acts: seq<Action>): Life {
    if acts == [] then l else Act(Lived(l, acts[..|acts| - 1]), acts[|acts| - 1])
  }

  // A panel that never read vnStat; the stop may come from an earlier version.
  ghost predicate Begins(l: Life) {
    l.disk == l.live && l.live.marks == [] && l.live.total >= 0 && l.live.net.generation == "" &&
    l.live.net.rx == 0 && l.live.net.tx == 0 && !l.live.net.proxyAnchorKnown && !l.live.net.healthy
  }

  ghost predicate ValidActions(acts: seq<Action>) {
    forall a :: a in acts && a.Read? && a.r.Some? ==> ValidReading(a.r.value)
  }

  /* ---------- the methods are runs of actions ---------- */

  /** A vnStat read of the Tracker is a Read and, when it is accepted, a Check; a
      reset adds Zero and a Check, a calibration Calibrate and a Check. */
  lemma MethodsAreActions(e: Entry, r: Reading, q: Quota, used: int, clear: bool)
    requires ValidReading(r)
    ensures var read := Acted(e, Read(Some(r)));
      var after := AfterRead(e, r, q);
      && after == (if Sample(e.net, r).Sampled? then Acted(read, Check(q)) else read)
      && (after.net.healthy ==>
            Acted(after, Zero) == ResetEntry(after) &&
            Acted(after, Calibrate(q, used, clear)) == Adjusted(after, q, used, clear))
  {
  }

  /* ---------- why a read is one action ---------- */

  lemma FromIgnoresAnchor(st: NetState, total: int, at: int, known: bool, r: Reading)
    ensures PeriodFrom(WithAnchor(st, total, at, known), r) == WithAnchor(PeriodFrom(st, r), total, at, known)
  {
    hide Max;
    if r.reset.mode == "monthly" {
    } else if st.periodStartedAt == 0 {
    } else {
    }
  }

  lemma OpenIgnoresAnchor(prev: NetState, total: int, at: int, known: bool, r: Reading)
    ensures OpenPeriod(WithAnchor(prev, total, at, known), r) == WithAnchor(OpenPeriod(prev, r), total, at, known)
  {
    hide PeriodFrom;
    var plain := prev.(adjustment := NO_ADJUSTMENT, manual := false, carryRX := 0, carryTX := 0);
    FromIgnoresAnchor(plain, total, at, known, r);
    var moved := WithAnchor(prev, total, at, known);
    assert moved.(adjustment := NO_ADJUSTMENT, manual := false, carryRX := 0, carryTX := 0) ==
      WithAnchor(plain, total, at, known);
  }

  lemma FirstIgnoresAnchor(st: NetState, total: int, at: int, known: bool, r: Reading)
    ensures FirstSample(WithAnchor(st, total, at, known), r.snapshot) ==
      WithAnchor(FirstSample(st, r.snapshot), total, at, known)
  {
  }

  lemma ClosedIgnoresAnchor(prev: NetState, begun: NetState, total: int, at: int, known: bool, r: Reading)
    ensures Closed(WithAnchor(prev, total, at, known), WithAnchor(begun, total, at, known), r) ==
      WithAnchor(Closed(prev, begun, r), total, at, known)
  {
  }

  lemma TakenIgnoresAnchor(prev: NetState, st: NetState, total: int, at: int, known: bool, r: Reading)
    ensures TakenOver(WithAnchor(prev, total, at, known), WithAnchor(st, total, at, known), r) ==
      WithAnchor(TakenOver(prev, st, r), total, at, known)
  {
    hide V.SumOf, V.ViewOf;
  }

  lemma PreparedIgnoresAnchor(prev: NetState, total: int, at: int, known: bool, r: Reading)
    ensures Prepared(WithAnchor(prev, total, at, known), r) == WithAnchor(Prepared(prev, r), total, at, known)
  {
    OpenIgnoresAnchor(prev, total, at, known, r);
    var begun := OpenPeriod(prev, r);
    FirstIgnoresAnchor(begun, total, at, known, r);
    ClosedIgnoresAnchor(prev, begun, total, at, known, r);
    TakenIgnoresAnchor(prev, Closed(prev, begun, r), total, at, known, r);
    hide OpenPeriod, FirstSample, Closed, TakenOver;
  }

  lemma UsageShape(prev: NetState, st: NetState, r: Reading)
    requires st.manual || r.billed.Some?
    ensures var u := WithUsage(prev, st, r); u == st.(rx := u.rx, tx := u.tx, partial := u.partial)
  {
  }

  // The anchor has no part in which source, rule or period a reading is of.
  lemma AskedSame(prev: NetState, total: int, at: int, known: bool, r: Reading)
    ensures var moved := WithAnchor(prev, total, at, known);
      && GenerationOf(moved, r) == GenerationOf(prev, r)
      && ResetChanged(moved, r) == ResetChanged(prev, r) && PeriodChanged(moved, r) == PeriodChanged(prev, r)
  {
  }

  lemma UsageSame(prev: NetState, st: NetState, total: int, at: int, known: bool, r: Reading)
    requires st.manual || r.billed.Some?
    ensures var u := WithUsage(prev, st, r);
      var w := WithUsage(WithAnchor(prev, total, at, known), WithAnchor(st, total, at, known), r);
      u.rx == w.rx && u.tx == w.tx && u.partial == w.partial
  {
    hide GenerationOf, ResetChanged, PeriodChanged, AddSaturating, Max;
    AskedSame(prev, total, at, known, r);
  }

  lemma UsageIgnoresAnchor(prev: NetState, st: NetState, total: int, at: int, known: bool, r: Reading)
    requires st.manual || r.billed.Some?
    ensures WithUsage(WithAnchor(prev, total, at, known), WithAnchor(st, total, at, known), r) ==
      WithAnchor(WithUsage(prev, st, r), total, at, known)
  {
    hide WithUsage;
    UsageShape(prev, st, r);
    UsageShape(WithAnchor(prev, total, at, known), WithAnchor(st, total, at, known), r);
    UsageSame(prev, st, total, at, known, r);
  }

  lemma FinishIgnoresAnchor(prev: NetState, st: NetState, total: int, at: int, known: bool, r: Reading)
    requires st.manual || r.billed.Some?
    ensures Finished(WithAnchor(prev, total, at, known), WithAnchor(st, total, at, known), r) ==
      WithAnchor(Finished(prev, st, r), total, at, known)
  {
  }

  // What a sample computes has nothing to do with the anchor, which it only carries.
  lemma SampleIgnoresAnchor(prev: NetState, total: int, at: int, known: bool, r: Reading)
    ensures Sample(WithAnchor(prev, total, at, known), r) ==
      if Sample(prev, r).Failed? then Failed else Sampled(WithAnchor(Sample(prev, r).st, total, at, known))
  {
    PreparedIgnoresAnchor(prev, total, at, known, r);
    var st := Prepared(prev, r);
    if st.manual || r.billed.Some? {
      UsageIgnoresAnchor(prev, st, total, at, known, r);
      FinishIgnoresAnchor(prev, WithUsage(prev, st, r), total, at, known, r);
    }
  }

  lemma AnchorTakenAnew(st: NetState, total: int, at: int, known: bool, current: NetState, marks: seq<Mark>)
    ensures Anchored(WithAnchor(st, total, at, known), current, marks) == Anchored(st, current, marks)
  {
  }

  lemma CoreMovesAnchor(e: Entry, now: int, delta: nat, q: Quota)
    ensures var after := Acted(e, Core(now, delta, q)).net;
      after == WithAnchor(e.net, after.proxyAnchor, after.proxyAnchorAt, after.proxyAnchorKnown)
  {
  }

  /** The per-source lock lets only core samples and checks in between the moment a
      read takes the old state and the moment it publishes the new one. What it then
      publishes is what a read of the later state would. */
  lemma PublishedLater(e: Entry, now: int, delta: nat, q: Quota, r: Reading)
    ensures var later := Acted(e, Core(now, delta, q));
      Acted(later, Read(Some(r))) ==
        if Sample(e.net, r).Failed? then later.(net := Failure(later.net))
        else AnchoredEntry(later, Sample(e.net, r).st)
    ensures Acted(e, Check(q)).net == e.net
  {
    hide Sample, Anchored, Step;
    var later := Acted(e, Core(now, delta, q));
    CoreMovesAnchor(e, now, delta, q);
    var a := later.net;
    SampleIgnoresAnchor(e.net, a.proxyAnchor, a.proxyAnchorAt, a.proxyAnchorKnown, r);
    if Sample(e.net, r).Sampled? {
      AnchorTakenAnew(Sample(e.net, r).st, a.proxyAnchor, a.proxyAnchorAt, a.proxyAnchorKnown, a, later.marks);
    }
    CheckKeepsNet(e, q);
  }

  lemma CheckKeepsNet(e: Entry, q: Quota)
    ensures Acted(e, Check(q)).net == e.net
  {
  }

  /* ---------- every reachable state is sound ---------- */

  lemma SoundFailed(e: Entry)
    requires Sound(e)
    ensures Sound(e.(net := Failure(e.net)))
    ensures Aligned(e.net) <==> Aligned(Failure(e.net))
  {
  }

  lemma SoundReset(e: Entry)
    requires Sound(e) && e.net.healthy
    ensures Sound(ResetEntry(e))
    ensures Aligned(ResetEntry(e).net) <==> e.net.proxyAnchorAt == e.net.updatedAt
  {
  }

  lemma SoundAdjusted(e: Entry, q: Quota, used: int, clear: bool)
    requires Sound(e)
    ensures Sound(Adjusted(e, q, used, clear))
    ensures Aligned(e.net) <==> Aligned(Adjusted(e, q, used, clear).net)
  {
  }

  lemma SoundStep(e: Entry, moved: Entry, flag: bool)
    requires Sound(moved)
    ensures Sound(moved.(exceeded := flag)) && moved.(exceeded := flag).net == moved.net
  {
  }

  lemma SoundRestart(e: Entry)
    requires Sound(e)
    ensures Sound(e.(marks := []))
  {
  }

  // Whether an action leaves the anchor at the moment the next sample gives it.
  ghost predicate Aligns(e: Entry, a: Action) {
    match a
    case Read(r) => (r.Some? && Sample(e.net, r.value).Sampled?) || Aligned(e.net)
    case Zero => if e.net.healthy then e.net.proxyAnchorAt == e.net.updatedAt else Aligned(e.net)
    case _ => Aligned(e.net)
  }

  /** Every action keeps the entry sound, and leaves it aligned exactly as said. */
  lemma SoundActed(e: Entry, a: Action)
    requires Sound(e) && (a.Read? && a.r.Some? ==> ValidReading(a.r.value))
    ensures Sound(Acted(e, a))
    ensures Aligned(Acted(e, a).net) <==> Aligns(e, a)
  {
    match a
    case Core(now, delta, q) =>
      SoundCore(e, now, delta);
      SoundStep(e, Moved(e, CoreSample(now, delta)),
        StopFlag(Moved(e, CoreSample(now, delta)), CoreSample(now, delta), q));
    case Read(r) =>
      SoundFailed(e);
      if r.Some? && Sample(e.net, r.value).Sampled? { SoundSampled(e, r.value); }
    case Check(q) => SoundStep(e, e, StopFlag(e, Reconcile, q));
    case Zero => if e.net.healthy { SoundReset(e); }
    case Calibrate(q, used, clear) => SoundAdjusted(e, q, used, clear);
    case Save =>
    case Restart =>
  }

  /** Before the first vnStat update of a new monthly period, only a source switched
      right after the boundary can be reset. */
  predicate ResetsInPeriod(e: Entry, a: Action) {
    a.Zero? && e.net.healthy ==> e.net.periodStartedAt <= e.net.updatedAt
  }

  /** From an aligned state a reset leaves the anchor aligned if and only if the
      period had seen a vnStat update. */
  lemma ResetAligns(e: Entry)
    requires Settled(e) && e.net.healthy
    ensures Aligned(Acted(e, Zero).net) <==> ResetsInPeriod(e, Zero)
  {
    SoundReset(e);
  }

  ghost predicate AllResetsInPeriod(l: Life, acts: seq<Action>) {
    forall n :: 0 <= n < |acts| ==> ResetsInPeriod(Lived(l, acts[..n]).live, acts[n])
  }

  lemma LivedStep(l: Life, acts: seq<Action>)
    requires acts != []
    ensures Lived(l, acts) == Act(Lived(l, acts[..|acts| - 1]), acts[|acts| - 1])
  {
  }

  /** Whatever happened, in whatever order: the running and the saved entry are
      sound; and both are aligned when no reset came before its period's first
      update. */
  lemma {:induction false} LifeIsSound(l: Life, acts: seq<Action>)
    requires Begins(l) && ValidActions(acts)
    ensures var z := Lived(l, acts); Sound(z.live) && Sound(z.disk)
    ensures var z := Lived(l, acts);
      AllResetsInPeriod(l, acts) ==> Aligned(z.live.net) && Aligned(z.disk.net)
  {
    if acts != [] {
      var n := |acts| - 1;
      var before := acts[..n];
      forall i | 0 <= i < n ensures before[..i] == acts[..i] && before[i] == acts[i] {}
      assert AllResetsInPeriod(l, acts) ==> AllResetsInPeriod(l, before);
      assert acts[n] in acts;
      LifeIsSound(l, before);
      LivedStep(l, acts);
      var z := Lived(l, before);
      SoundAct(z, acts[n]);
      assert AllResetsInPeriod(l, acts) ==> ResetsInPeriod(z.live, acts[n]);
    }
  }

  lemma SoundAct(l: Life, a: Action)
    requires Sound(l.live) && Sound(l.disk) && (a.Read? && a.r.Some? ==> ValidReading(a.r.value))
    ensures Sound(Act(l, a).live) && Sound(Act(l, a).disk)
    ensures Aligned(l.live.net) && Aligned(l.disk.net) && ResetsInPeriod(l.live, a) ==>
      Aligned(Act(l, a).live.net) && Aligned(Act(l, a).disk.net)
  {
    SoundActed(l.live, a);
    SoundRestart(l.disk);
    if a.Zero? && l.live.net.healthy && Aligned(l.live.net) { ResetAligns(l.live); }
  }

  /* ---------- the stop ---------- */

  /** After a check the stop is on only for a reason that still holds, and core
      samples and failed reads keep that. */
  lemma CheckJustifies(e: Entry, q: Quota)
    requires q.stop.Some?
    ensures Justified(Acted(e, Check(q)), q)
  {
    SameUsage(e, Reconciled(e, q), q);
  }

  /** The main result: take any life of the panel, with restarts, resets,
      calibrations and quota changes, then a check of the quota. While vnStat then
      brings nothing new, the enforced usage never falls and the stop stays. */
  lemma OutageKeepsStopAlways(l: Life, acts: seq<Action>, q: Quota, evs: seq<Event>)
    requires Begins(l) && ValidActions(acts) && AllResetsInPeriod(l, acts)
    requires q.stop.Some? && q.stop.value > 0
    requires AllQuiet(Acted(Lived(l, acts).live, Check(q)), evs, q)
    ensures var e := Acted(Lived(l, acts).live, Check(q));
      && Usage(Run(e, evs, q), q) >= Usage(e, q)
      && (e.exceeded ==> Run(e, evs, q).exceeded)
      && (Run(e, evs, q).exceeded ==> Usage(Run(e, evs, q), q) >= q.stop.value || Blind(Run(e, evs, q).net))
  {
    var e := Lived(l, acts).live;
    LifeIsSound(l, acts);
    SoundStep(e, e, Reconciled(e, q));
    CheckJustifies(e, q);
    OutageKeepsStop(Acted(e, Check(q)), evs, q);
  }

  /** A stop saved after a check is on again after a restart and the first check,
      when vnStat is not read or cannot be read. */
  lemma RestartKeepsStop(l: Life, q: Quota)
    requires q.stop.Some? && q.stop.value > 0 && Justified(l.disk, q) && l.disk.exceeded
    ensures Acted(Act(l, Restart).live, Check(q)).exceeded
    ensures Acted(Acted(Act(l, Restart).live, Read(None)), Check(q)).exceeded
  {
  }

  // An accepted reading whose update time and period are still the last ones.
  ghost predicate NewsFree(prev: NetState, r: Reading) {
    Sample(prev, r).Sampled? && NothingNew(prev, r, Sample(prev, r).st)
  }

  lemma QuietReadKeepsStop(e: Entry, r: Reading, q: Quota)
    requires Settled(e) && NewsFree(e.net, r)
    requires q.stop.Some? && q.stop.value > 0 && Justified(e, q) && e.exceeded
    ensures Acted(Acted(e, Read(Some(r))), Check(q)).exceeded
  {
    QuietVnStat(e, Sample(e.net, r).st, r, q);
    FlagKept(e, AnchoredEntry(e, Sample(e.net, r).st), Reconcile, q);
  }

  /** It is on again as well when the first read succeeds and brings nothing new, if
      the saved anchor is aligned. */
  lemma RestartReadKeepsStop(l: Life, r: Reading, q: Quota)
    requires Sound(l.disk) && Aligned(l.disk.net) && NewsFree(l.disk.net, r)
    requires q.stop.Some? && q.stop.value > 0 && Justified(l.disk, q) && l.disk.exceeded
    ensures Acted(Acted(Act(l, Restart).live, Read(Some(r))), Check(q)).exceeded
  {
    SoundRestart(l.disk);
    QuietReadKeepsStop(Act(l, Restart).live, r, q);
  }

  /** So for every life: a stop that a check left on and a save kept survives a
      restart, whether vnStat is then not read, cannot be read, or brings nothing new. */
  lemma SavedStopSurvives(l: Life, acts: seq<Action>, r: Reading, q: Quota)
    requires Begins(l) && ValidActions(acts) && AllResetsInPeriod(l, acts)
    requires q.stop.Some? && q.stop.value > 0
    ensures var saved := Act(Act(Lived(l, acts), Check(q)), Save); var e := Act(saved, Restart).live;
      saved.disk.exceeded ==>
        && Acted(e, Check(q)).exceeded
        && Acted(Acted(e, Read(None)), Check(q)).exceeded
        && (NewsFree(e.net, r) ==> Acted(Acted(e, Read(Some(r))), Check(q)).exceeded)
  {
    var z := Lived(l, acts);
    var saved := Act(Act(z, Check(q)), Save);
    LifeIsSound(l, acts);
    SoundStep(z.live, z.live, Reconciled(z.live, q));
    CheckJustifies(z.live, q);
    if saved.disk.exceeded {
      RestartKeepsStop(saved, q);
      if NewsFree(saved.disk.net, r) { RestartReadKeepsStop(saved, r, q); }
    }
  }

  /* ---------- a reset before the period's first update ---------- */

  // The proxied bytes counted on top of vnStat, before billing.
  function Above(e: Entry): int { if e.net.proxyAnchorKnown then Max(0, e.total - e.net.proxyAnchor) else 0 }

  /** After such a reset a reading with nothing new takes a new anchor. No counted
      byte is dropped if and only if there was none, or the marks still reach back to
      a total not above the old anchor. */
  lemma UnalignedRead(e: Entry, r: Reading)
    requires Sound(e) && !Aligned(e.net) && NewsFree(e.net, r)
    ensures var after := Acted(e, Read(Some(r)));
      Above(after) >= Above(e) <==>
      Above(e) == 0 || (e.marks != [] && TotalAt(e.marks, AnchorMoment(e.net)) <= e.net.proxyAnchor)
  {
    var st := Sample(e.net, r).st;
    QuietSample(e.net, r);
    AnchoredFields(st, e.net, e.marks);
    if e.marks != [] { TotalAtOne(e.marks, AnchorMoment(st)); }
  }

  // What is counted above the anchor a reading with nothing new takes.
  function Reanchored(e: Entry): int {
    if e.marks == [] then 0 else Max(0, e.total - TotalAt(e.marks, AnchorMoment(e.net)))
  }

  // Enforced usage with these bytes above the anchor.
  function UsageWith(st: NetState, above: int, q: Quota): int {
    st.adjustment.Apply(AddSaturating(NetworkUsage(q, st.rx, st.tx), ScaleSaturating(above, Factor(q))), q.billingMode)
  }

  lemma UsageAbove(e: Entry, q: Quota)
    requires e.net.generation != ""
    ensures Usage(e, q) == UsageWith(e.net, Above(e), q)
  {
  }

  // The reading repeats what the entry has: the same counters, or a bill no higher.
  predicate Repeats(st: NetState, r: Reading) {
    if st.manual then r.snapshot.rx == st.lastRX && r.snapshot.tx == st.lastTX
    else
      r.billed.Some? && r.billed.value.rx <= st.rx && r.billed.value.tx <= st.tx &&
      r.billed.value.available == st.available
  }

  lemma RepeatedUsage(prev: NetState, r: Reading)
    requires Good(prev) && NewsFree(prev, r) && Repeats(prev, r)
    ensures var st := Sample(prev, r).st; st.rx == prev.rx && st.tx == prev.tx
  {
    PreparedCarry(prev, r);
  }

  lemma ReanchoredRead(e: Entry, r: Reading)
    requires Sound(e) && !Aligned(e.net) && NewsFree(e.net, r)
    ensures var after := Acted(e, Read(Some(r)));
      && Above(after) == Reanchored(e) && after.exceeded == e.exceeded && after.net.generation != ""
      && after.net.rx == Sample(e.net, r).st.rx && after.net.tx == Sample(e.net, r).st.tx
      && after.net.adjustment == e.net.adjustment
  {
    var st := Sample(e.net, r).st;
    QuietSample(e.net, r);
    AnchoredFields(st, e.net, e.marks);
    if e.marks != [] { TotalAtOne(e.marks, AnchorMoment(st)); }
  }

  lemma RepeatedBlind(e: Entry, r: Reading)
    requires Sound(e) && NewsFree(e.net, r) && Repeats(e.net, r)
    ensures Blind(Acted(e, Read(Some(r))).net) <==> Blind(e.net)
  {
    QuietSample(e.net, r);
    AnchoredKeeps(Sample(e.net, r).st, e.net, e.marks);
    AnchoredFields(Sample(e.net, r).st, e.net, e.marks);
  }

  /** Whether a stop survives such a reading and the check after it: if and only if
      the usage with the bytes above the new anchor still reaches the limit, or the
      source does not cover the period. */
  lemma UnalignedStop(e: Entry, r: Reading, q: Quota)
    requires Sound(e) && !Aligned(e.net) && NewsFree(e.net, r) && Repeats(e.net, r)
    requires q.stop.Some? && q.stop.value > 0 && e.exceeded
    ensures Acted(Acted(e, Read(Some(r))), Check(q)).exceeded <==>
      UsageWith(e.net, Reanchored(e), q) >= q.stop.value || Blind(e.net)
  {
    ReanchoredRead(e, r);
    RepeatedUsage(e.net, r);
    RepeatedBlind(e, r);
    UsageAbove(Acted(e, Read(Some(r))), q);
  }

  /** A saved stop after a restart and a first reading that repeats the saved one:
      it is on again if and only if the saved anchor is aligned, the usage vnStat has
      seen reaches the limit by itself, or the source does not cover the period. */
  lemma RestartReadStop(l: Life, r: Reading, q: Quota)
    requires Sound(l.disk) && NewsFree(l.disk.net, r) && Repeats(l.disk.net, r)
    requires q.stop.Some? && q.stop.value > 0 && Justified(l.disk, q) && l.disk.exceeded
    ensures Acted(Acted(Act(l, Restart).live, Read(Some(r))), Check(q)).exceeded <==>
      Aligned(l.disk.net) || UsageWith(l.disk.net, 0, q) >= q.stop.value || Blind(l.disk.net)
  {
    SoundRestart(l.disk);
    if Aligned(l.disk.net) {
      RestartReadKeepsStop(l, r, q);
    } else {
      UnalignedStop(Act(l, Restart).live, r, q);
    }
  }

  lemma LivedAppend(l: Life, acts: seq<Action>, a: Action)
    ensures Lived(l, acts + [a]) == Act(Lived(l, acts), a)
  {
    assert (acts + [a])[..|acts|] == acts;
  }

  const MONTHLY: ResetConfig := ResetConfig("monthly", 1, 0, "UTC")
  const LIMITED: Quota := Quota("single", Some(5))

  // The period turns at 1000; vnStat of eth0 was read at 600, and that of eth1,
  // last updated at 950, from 1010 on.
  const FIRST: Reading := Reading(V.Snapshot(300, 600, 40, 40, []), "local/eth0", "a", 600, MONTHLY, 0, 1000,
    true, None, None)

  const SECOND: Reading := Reading(V.Snapshot(300, 950, 90, 90, []), "local/eth1", "b", 1010, MONTHLY, 1000, 2000,
    true, Some(Billed(0, 0, true, true)), None)

  // The entry after the first reading and one core sample, then after the switch,
  // and after the reset.
  function AfterFirst(): Entry {
    Entry(NetState(true, "local/eth0", "a", 0, 0, 40, 40, 600, 1000, 600, 300, 600, 600, true, false, true,
      40, 40, 0, 0, MONTHLY, 7, 600, true, NO_ADJUSTMENT), 7, [Mark(1005, 7)], false)
  }

  function Switched(): Entry {
    Entry(NetState(true, "local/eth1", "b", 0, 0, 90, 90, 1000, 2000, 950, 300, 600, 1010, true, true, true,
      90, 90, 0, 0, MONTHLY, 7, 1000, true, NO_ADJUSTMENT), 7, [Mark(1005, 7)], false)
  }

  const NEVER: NetState := NetState(false, "", "", 0, 0, 0, 0, 0, 0, 0, 0, 0, 0, false, false, false, 0, 0, 0, 0,
    MONTHLY, 0, 0, false, NO_ADJUSTMENT)

  lemma FirstReached(e: Entry)
    requires e == Entry(NEVER, 0, [], false)
    ensures Acted(e, Read(Some(FIRST))) ==
      Entry(AfterFirst().net.(proxyAnchor := 0, proxyAnchorKnown := false), 0, [], false)
  {
    assert Prepared(NEVER, FIRST) == NEVER.(recordedFrom := 600, periodStartedAt := 600, manual := true,
      baselineRX := 40, baselineTX := 40);
  }

  lemma EarlyReached(e: Entry)
    requires e == Entry(NEVER, 0, [], false)
    ensures Acted(Acted(e, Read(Some(FIRST))), Core(1005, 7, LIMITED)) == AfterFirst()
  {
    FirstReached(e);
  }

  lemma SwitchPrepared()
    ensures Prepared(AfterFirst().net, SECOND) == AfterFirst().net.(partial := true, manual := true,
      periodStartedAt := 1000, baselineRX := 90, baselineTX := 90)
  {
    var prev := AfterFirst().net;
    var begun := OpenPeriod(prev, SECOND);
    assert begun == prev.(manual := false, periodStartedAt := 1000);
    assert Closed(prev, begun, SECOND) == begun;
    assert GenerationOf(prev, SECOND) == "b";
  }

  lemma SwitchUsage()
    ensures var st := Prepared(AfterFirst().net, SECOND); WithUsage(AfterFirst().net, st, SECOND) == st
  {
    SwitchPrepared();
  }

  lemma SwitchFinished(st: NetState)
    requires st ==
      AfterFirst().net.(partial := true, manual := true, periodStartedAt := 1000, baselineRX := 90, baselineTX := 90)
    ensures Finished(AfterFirst().net, st, SECOND) == Switched().net.(proxyAnchorAt := 600)
  {
    assert AvailableFrom(AfterFirst().net, SECOND) == 1010 && GenerationOf(AfterFirst().net, SECOND) == "b";
  }

  lemma SwitchSampled()
    ensures Sample(AfterFirst().net, SECOND) == Sampled(Switched().net.(proxyAnchorAt := 600))
  {
    SwitchPrepared();
    SwitchUsage();
    SwitchFinished(Prepared(AfterFirst().net, SECOND));
  }

  lemma SwitchAnchored()
    ensures Anchored(Switched().net.(proxyAnchorAt := 600), AfterFirst().net, AfterFirst().marks) == Switched().net
  {
  }

  lemma SwitchReached()
    ensures Acted(AfterFirst(), Read(Some(SECOND))) == Switched()
  {
    SwitchSampled();
    SwitchAnchored();
  }

  // The same source read again, with nothing new.
  const AGAIN: Reading := SECOND.(now := 1020, loaded := true)

  // After the reset, five more proxied bytes that raise the stop, a save and a restart.
  function Restarted(): Entry {
    Entry(Switched().net.(periodStartedAt := 950, partial := false), 12, [], true)
  }

  lemma RestartReached(l: Life)
    requires l.live == Switched()
    ensures var z := Act(Act(Act(Act(l, Zero), Core(1015, 5, LIMITED)), Save), Restart);
      z.live == Restarted() && z.disk == Restarted().(marks := [Mark(1005, 7), Mark(1015, 12)])
  {
  }

  lemma AgainSampled()
    ensures Sample(Restarted().net, AGAIN) == Sampled(Restarted().net)
    ensures NothingNew(Restarted().net, AGAIN, Restarted().net)
  {
    var st := Restarted().net;
    assert OpenPeriod(st, AGAIN) == st && GenerationOf(st, AGAIN) == "b" && Prepared(st, AGAIN) == st;
    assert WithUsage(st, st, AGAIN) == st;
    assert AvailableFrom(st, AGAIN) == 1010;
  }

  lemma RestartedUsage()
    ensures Usage(Restarted(), LIMITED) == 5
    ensures Usage(AnchoredEntry(Restarted(), Restarted().net), LIMITED) == 0
  {
  }

  lemma StopCleared()
    ensures !Acted(Acted(Restarted(), Read(Some(AGAIN))), Check(LIMITED)).exceeded
  {
    AgainSampled();
    RestartedUsage();
    SameUsage(AnchoredEntry(Restarted(), Restarted().net), false, LIMITED);
  }

  lemma LivedThree(l: Life, a: Action, b: Action, c: Action)
    ensures Lived(l, [a, b, c]) == Act(Act(Act(l, a), b), c)
  {
    hide Act;
    LivedAppend(l, [], a);
    LivedAppend(l, [a], b);
    LivedAppend(l, [a, b], c);
    assert [] + [a] == [a] && [a] + [b] == [a, b] && [a, b] + [c] == [a, b, c];
  }

  lemma ThreeReached(l: Life)
    requires l.live == Entry(NEVER, 0, [], false)
    ensures Act(Act(Act(l, Read(Some(FIRST))), Core(1005, 7, LIMITED)), Read(Some(SECOND))).live == Switched()
  {
    hide Acted, AfterFirst, Switched;
    EarlyReached(l.live);
    SwitchReached();
  }

  lemma ReadingsValid()
    ensures ValidReading(FIRST) && ValidReading(SECOND)
  {
  }

  lemma ValidThree(r: Reading, a: Action, t: Reading)
    requires ValidReading(r) && a.Core? && ValidReading(t)
    ensures ValidActions([Read(Some(r)), a, Read(Some(t))])
  {
    hide ValidReading;
  }

  lemma SwitchLife() returns (l: Life, acts: seq<Action>)
    ensures Begins(l) && ValidActions(acts) && |acts| == 3 && Lived(l, acts).live == Switched()
  {
    l := Life(Entry(NEVER, 0, [], false), Entry(NEVER, 0, [], false));
    acts := [Read(Some(FIRST)), Core(1005, 7, LIMITED), Read(Some(SECOND))];
    hide Act, Switched, ValidReading, ValidActions, Lived;
    ReadingsValid();
    ValidThree(FIRST, Core(1005, 7, LIMITED), SECOND);
    LivedThree(l, Read(Some(FIRST)), Core(1005, 7, LIMITED), Read(Some(SECOND)));
    ThreeReached(l);
  }

  lemma ResetTooEarly()
    ensures !ResetsInPeriod(Switched(), Zero)
  {
  }

  lemma RestartLife(l: Life, first: seq<Action>) returns (acts: seq<Action>)
    requires Lived(l, first).live == Switched() && ValidActions(first)
    ensures ValidActions(acts) && |acts| > |first| && acts[..|first|] == first && acts[|first|] == Zero
    ensures acts[|acts| - 1] == Restart
    ensures Lived(l, acts).live == Restarted()
    ensures Lived(l, acts).disk == Restarted().(marks := [Mark(1005, 7), Mark(1015, 12)])
  {
    hide Acted, Lived;
    var a1 := first + [Zero];
    var a2 := a1 + [Core(1015, 5, LIMITED)];
    var a3 := a2 + [Save];
    acts := a3 + [Restart];
    LivedAppend(l, first, Zero);
    LivedAppend(l, a1, Core(1015, 5, LIMITED));
    LivedAppend(l, a2, Save);
    LivedAppend(l, a3, Restart);
    RestartReached(Lived(l, first));
  }

  /** The period condition is needed: a source switched right after a monthly
      boundary and reset before its first update leaves an anchor that the next
      reading drops after a restart, and with it the proxied bytes and the stop they
      raised. */
  lemma EarlyResetDropsEstimate() returns (l: Life, acts: seq<Action>, r: Reading, q: Quota)
    ensures Begins(l) && ValidActions(acts) && !AllResetsInPeriod(l, acts) && acts[|acts| - 1] == Restart
    ensures var z := Lived(l, acts); var e := z.live;
      && z.disk.exceeded && q.stop == Some(5) && Usage(z.disk, q) == Usage(e, q) == 5
      && NewsFree(e.net, r) && Repeats(e.net, r)
      && Usage(Acted(e, Read(Some(r))), q) == 0
      && !Acted(Acted(e, Read(Some(r))), Check(q)).exceeded
  {
    var first;
    l, first := SwitchLife();
    r, q := AGAIN, LIMITED;
    acts := RestartLife(l, first);
    ResetTooEarly();
    AgainSampled();
    RestartedUsage();
    StopCleared();
    UsageAbove(Lived(l, acts).disk, q);
    UsageAbove(Restarted(), q);
  }
}
