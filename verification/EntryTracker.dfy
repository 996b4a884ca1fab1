/** The Tracker's entry accounting as it runs: network.go's methods over the
    tracker's own fields, each tied to the step it performs. */
module EntryTracking {
  import opened Int64
  import opened Options
  import V = Vnstat
  import opened Network
  import opened EntryQuota

  // The entry after vnStat was read, successfully or not.
  ghost function AfterRead(e: Entry, r: Reading, q: Quota): Entry
    requires ValidReading(r)
  {
    var o := Sample(e.net, r);
    Step(e, VnStat(if o.Sampled? then Some(o.st) else None), q)
  }

  ghost function Adjusted(e: Entry, q: Quota, used: int, clear: bool): Entry {
    if clear then e.(net := e.net.(adjustment := NO_ADJUSTMENT)) else Calibrated(e, q, used)
  }

  class EntryTracker {
    var network: NetState
    var upload: int
    var download: int
    var proxyMarks: seq<Mark>
    var quotaExceeded: bool

    function Value(): Entry
      reads this
    {
      Entry(network, upload + download, proxyMarks, quotaExceeded)
    }

    constructor (network: NetState, upload: int, download: int, quotaExceeded: bool)
      ensures Value() == Entry(network, upload + download, [], quotaExceeded)
    {
      this.network, this.upload, this.download := network, upload, download;
      this.proxyMarks, this.quotaExceeded := [], quotaExceeded;
    }

    method RecordProxyMark(now: int)
      modifies this`network, this`proxyMarks
      ensures Value() == Marked(old(Value()), now, old(Value()).total)
    {
      var total := upload + download;
      proxyMarks := proxyMarks + [Mark(now, total)];
      ghost var all := proxyMarks;
      var cut := 0;
      while cut < |proxyMarks| - 1 && now - proxyMarks[cut].at > MARK_WINDOW
        invariant 0 <= cut < |all| && proxyMarks == all
        invariant Trim(all[cut..], now) == Trim(all, now)
      {
        assert all[cut..][1..] == all[cut + 1..];
        cut := cut + 1;
      }
      if cut > 0 { proxyMarks := proxyMarks[cut..]; }
      assert all[0..] == all;
      if network.generation != "" && !network.proxyAnchorKnown {
        network := network.(proxyAnchor := total, proxyAnchorKnown := true);
      }
    }

    method AnchorProxy(st: NetState) returns (r: NetState)
      ensures r == Anchored(st, network, proxyMarks)
    {
      r := st;
      var at := r.updatedAt;
      if r.periodStartedAt > at { at := r.periodStartedAt; }
      if network.proxyAnchorKnown && network.proxyAnchorAt == at {
        return r.(proxyAnchor := network.proxyAnchor, proxyAnchorAt := network.proxyAnchorAt, proxyAnchorKnown := true);
      }
      r := r.(proxyAnchorAt := at, proxyAnchor := 0, proxyAnchorKnown := false);
      var i := |proxyMarks| - 1;
      assert proxyMarks[..|proxyMarks|] == proxyMarks;
      while i >= 0
        invariant -1 <= i < |proxyMarks|
        invariant proxyMarks != [] ==>
          TotalAt(proxyMarks, at) == if i < 0 then proxyMarks[0].total else TotalAt(proxyMarks[..i + 1], at)
      {
        assert proxyMarks[..i + 1][..i] == proxyMarks[..i];
        if proxyMarks[i].at <= at {
          return r.(proxyAnchor := proxyMarks[i].total, proxyAnchorKnown := true);
        }
        i := i - 1;
      }
      if |proxyMarks| > 0 {
        r := r.(proxyAnchor := proxyMarks[0].total, proxyAnchorKnown := true);
      }
    }

    /** The counters of one core sample, and the stop it may raise. */
    method ApplyCoreDelta(now: int, up: nat, down: nat, q: Quota)
      modifies this
      ensures Value() == Step(old(Value()), CoreSample(now, up + down), q)
    {
      upload, download := upload + up, download + down;
      RecordProxyMark(now);
      if OverLimit(Value(), q) { quotaExceeded := true; }
    }

    method ReconcileNetworkQuota(q: Quota)
      modifies this`quotaExceeded
      ensures Value() == Step(old(Value()), Reconcile, q)
    {
      if q.stop.None? { return; }
      var limit := q.stop.value;
      var usage := Usage(Value(), q);
      var exceeded := limit > 0 && usage >= limit;
      if limit > 0 && (network.generation == "" || !network.available || network.updatedAt < network.periodStartedAt) {
        exceeded := exceeded || quotaExceeded;
      }
      quotaExceeded := exceeded;
    }

    method NetworkFailure()
      modifies this`network
      ensures Value() == old(Value()).(net := Failure(old(network)))
    {
      network := network.(healthy := false);
    }

    // Lines 119-137: a first sample, a new period or a new reset rule.
    static method BeginPeriod(previous: NetState, r: Reading, resetChanged: bool, periodChanged: bool)
      returns (st: NetState)
      requires resetChanged == ResetChanged(previous, r) && periodChanged == PeriodChanged(previous, r)
      ensures st == OpenPeriod(previous, r)
    {
      st := previous;
      if st.generation == "" || resetChanged || periodChanged {
        st := st.(adjustment := NO_ADJUSTMENT, manual := false, carryRX := 0, carryTX := 0);
        if r.reset.mode == "monthly" {
          st := st.(periodStartedAt := r.start);
          if st.recordedFrom > r.start { st := st.(periodStartedAt := st.recordedFrom); }
        } else if st.periodStartedAt == 0 {
          st := st.(periodStartedAt := r.snapshot.created, manual := true, baselineRX := 0, baselineTX := 0);
        }
      }
    }

    // Lines 156-166: the new period up to the old source's last update.
    static method CloseBooks(previous: NetState, begun: NetState, r: Reading, changed: bool)
      returns (ok: bool, st: NetState)
      requires changed == (PeriodChanged(previous, r) || ResetChanged(previous, r))
      ensures ok == !(changed && r.closing.None?)
      ensures ok ==> st == Closed(previous, begun, r)
    {
      ok, st := true, begun;
      if changed {
        if r.closing.None? { return false, begun; }
        var sum := r.closing.value;
        st := st.(rx := sum.rx, tx := sum.tx);
        if sum.partial && !(st.periodStartedAt > previous.periodStartedAt) {
          st := st.(rx := Max(st.rx, previous.rx), tx := Max(st.tx, previous.tx));
        }
      }
    }

    // What a recreated database recorded inside the period.
    static method BytesInside(r: Reading, from: int) returns (rx: int, tx: int)
      requires r.snapshot.Valid()
      ensures var sum := V.SumOf(V.ViewOf(r.snapshot), from, r.snapshot.updated); rx == sum.rx && tx == sum.tx
    {
      hide V.SumOf;
      var index := new V.Index(r.snapshot);
      V.ViewOfValid(r.snapshot);
      var up, down, _ := index.Sum(from, r.snapshot.updated);
      rx, tx := up, down;
    }

    // Lines 167-184: another source takes over.
    static method TakeOver(previous: NetState, closed: NetState, r: Reading) returns (st: NetState, available: int)
      requires r.snapshot.Valid()
      ensures st == TakenOver(previous, closed, r)
      ensures available ==
        if previous.origin == r.origin && r.snapshot.created > previous.updatedAt then r.snapshot.created else r.now
    {
      var s := r.snapshot;
      st := closed.(manual := true, carryRX := closed.rx, carryTX := closed.tx, baselineRX := s.rx, baselineTX := s.tx);
      available := r.now;
      if previous.origin == r.origin && s.created > previous.updatedAt {
        available := s.created;
        var from := st.periodStartedAt;
        if st.recordedFrom > from { from := st.recordedFrom; }
        var rx, tx := BytesInside(r, from);
        st := st.(baselineRX := s.rx - rx, baselineTX := s.tx - tx);
      }
      st := st.(partial := true);
    }

    // Lines 214-256: the usage of the period.
    static method Measure(previous: NetState, prepared: NetState, r: Reading, generation: string, resetChanged: bool,
                          periodChanged: bool)
      returns (st: NetState, periodAvailable: bool)
      requires generation == GenerationOf(previous, r) && (prepared.manual || r.billed.Some?)
      requires resetChanged == ResetChanged(previous, r) && periodChanged == PeriodChanged(previous, r)
      ensures st == WithUsage(previous, prepared, r)
      ensures periodAvailable == (!prepared.manual && r.billed.value.available) && st.manual == prepared.manual
    {
      var s := r.snapshot;
      st, periodAvailable := prepared, false;
      if st.manual {
        st := st.(rx := AddSaturating(st.carryRX, Max(0, s.rx - st.baselineRX)),
          tx := AddSaturating(st.carryTX, Max(0, s.tx - st.baselineTX)));
      } else {
        var sum := r.billed.value;
        st := st.(rx := sum.rx, tx := sum.tx, partial := sum.partial);
        periodAvailable := sum.available;
        if st.partial && resetChanged && !(st.periodStartedAt > previous.periodStartedAt) {
          st := st.(rx := Max(st.rx, previous.rx), tx := Max(st.tx, previous.tx));
        }
        if generation == previous.generation && !resetChanged && !periodChanged &&
          (st.rx < previous.rx || st.tx < previous.tx) {
          st := st.(rx := Max(st.rx, previous.rx), tx := Max(st.tx, previous.tx), partial := true);
        }
      }
    }

    // Lines 113-185: the state the usage of the period is measured on.
    static method Prepare(previous: NetState, r: Reading, generation: string, resetChanged: bool, periodChanged: bool)
      returns (ok: bool, st: NetState, available: int)
      requires r.snapshot.Valid() && generation == GenerationOf(previous, r)
      requires resetChanged == ResetChanged(previous, r) && periodChanged == PeriodChanged(previous, r)
      ensures ok ==
        !(previous.generation != "" && generation != previous.generation && (periodChanged || resetChanged) &&
          r.closing.None?)
      ensures ok ==> st == Prepared(previous, r) && available == AvailableFrom(previous, r)
    {
      var s := r.snapshot;
      st := BeginPeriod(previous, r, resetChanged, periodChanged);
      ok, available := true, st.sourceStartedAt;
      if available == 0 { available := s.created; }
      if previous.generation == "" {
        available := s.updated;
        st := st.(recordedFrom := available, periodStartedAt := available, manual := true,
          baselineRX := s.rx, baselineTX := s.tx, carryRX := 0, carryTX := 0);
      } else if previous.generation != generation {
        ok, st := CloseBooks(previous, st, r, periodChanged || resetChanged);
        if ok { st, available := TakeOver(previous, st, r); }
      }
    }

    // The reading as a new state, or nothing when a check or a database read fails.
    static method TakeSample(previous: NetState, r: Reading) returns (ok: bool, st: NetState)
      requires ValidReading(r)
      ensures if ok then Sample(previous, r) == Sampled(st) else Sample(previous, r) == Failed
    {
      var s := r.snapshot;
      var generation := r.newName;
      if previous.generation != "" && previous.origin == r.origin && previous.createdAt == s.created {
        generation := previous.generation;
      }
      if generation == previous.generation &&
        (s.updated < previous.updatedAt || s.rx < previous.lastRX || s.tx < previous.lastTX) {
        return false, previous;
      }
      if generation != previous.generation && r.now - s.updated > STALE_AFTER { return false, previous; }
      var resetChanged := previous.reset != r.reset;
      var periodChanged := previous.generation != "" && r.reset.mode == "monthly" && r.now >= previous.nextResetAt &&
        previous.nextResetAt != 0;
      var available;
      ok, st, available := Prepare(previous, r, generation, resetChanged, periodChanged);
      if !ok || !r.loaded || (!st.manual && r.billed.None?) { return false, previous; }
      var periodAvailable;
      st, periodAvailable := Measure(previous, st, r, generation, resetChanged, periodChanged);
      st := Finish(previous, st, r, generation, available, periodAvailable);
    }

    // Lines 257-277.
    static method Finish(previous: NetState, used: NetState, r: Reading, generation: string, available: int,
                         periodAvailable: bool)
      returns (st: NetState)
      requires used.manual || r.billed.Some?
      requires generation == GenerationOf(previous, r) && available == AvailableFrom(previous, r)
      requires periodAvailable == (!used.manual && r.billed.value.available)
      ensures st == Finished(previous, used, r)
    {
      var s := r.snapshot;
      st := used.(origin := r.origin, available := used.manual || s.updated == used.periodStartedAt || periodAvailable,
        generation := generation, createdAt := s.created, sourceStartedAt := available, updatedAt := s.updated,
        lastRX := s.rx, lastTX := s.tx, nextResetAt := r.next, reset := r.reset, healthy := true);
      if !st.available { st := st.(healthy := false); }
      if r.now - s.updated > STALE_AFTER { st := st.(healthy := false); }
    }

    /** One read of vnStat. */
    method SampleNetwork(r: Reading, q: Quota) returns (ok: bool)
      requires ValidReading(r)
      modifies this
      ensures ok == Sample(old(network), r).Sampled?
      ensures Value() == AfterRead(old(Value()), r, q)
    {
      var st;
      ok, st := TakeSample(network, r);
      if !ok {
        NetworkFailure();
        return;
      }
      network := AnchorProxy(st);
      ReconcileNetworkQuota(q);
    }

    // A manual reset needs a fresh sample of a healthy source.
    method ResetNetwork(r: Reading, q: Quota) returns (ok: bool)
      requires ValidReading(r)
      modifies this
      ensures ok == (Sample(old(network), r).Sampled? && Sample(old(network), r).st.healthy)
      ensures Value() ==
        if ok then Step(ResetEntry(AfterRead(old(Value()), r, q)), Reconcile, q) else AfterRead(old(Value()), r, q)
    {
      var sampled := SampleNetwork(r, q);
      if !sampled || !network.healthy { return false; }
      network := network.(manual := true, baselineRX := network.lastRX, baselineTX := network.lastTX,
        carryRX := 0, carryTX := 0, rx := 0, tx := 0, partial := false, adjustment := NO_ADJUSTMENT,
        periodStartedAt := network.updatedAt);
      quotaExceeded := false;
      ReconcileNetworkQuota(q);
      return true;
    }

    // The adjustment that makes the enforced usage usedBytes, or none.
    method Adjust(q: Quota, usedBytes: int, clear: bool)
      modifies this`network
      ensures Value() == Adjusted(old(Value()), q, usedBytes, clear)
    {
      network := network.(adjustment := NO_ADJUSTMENT);
      if !clear {
        var measured := Usage(Value(), q);
        network := network.(adjustment := UsageAdjustment(usedBytes - measured, q.billingMode));
      }
    }

    method CalibrateEntryUsage(r: Reading, q: Quota, usedBytes: int, clear: bool) returns (ok: bool)
      requires ValidReading(r)
      modifies this
      ensures ok == (usedBytes >= 0 && Sample(old(network), r).Sampled? && Sample(old(network), r).st.healthy)
      ensures Value() ==
        if usedBytes < 0 then old(Value())
        else if !ok then AfterRead(old(Value()), r, q)
        else Step(Adjusted(AfterRead(old(Value()), r, q), q, usedBytes, clear), Reconcile, q)
    {
      if usedBytes < 0 { return false; }
      var sampled := SampleNetwork(r, q);
      if !sampled || !network.healthy { return false; }
      Adjust(q, usedBytes, clear);
      ReconcileNetworkQuota(q);
      return true;
    }
  }
}
