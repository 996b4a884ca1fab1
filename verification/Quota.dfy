/** internal/traffic/network.go and tracker.go: the proxy estimate that bridges
    vnStat's delay, the enforced entry usage and the quota stop it raises. */
module EntryQuota {
  import opened Int64
  import opened Options
  import opened Network

  // One core sample: the proxy total at a moment.
  datatype Mark = Mark(at: int, total: int)

  // exceeded is the persisted stop flag; total is Upload + Download.
  datatype Entry = Entry(net: NetState, total: int, marks: seq<Mark>, exceeded: bool)

  /* ---------- proxy marks and the anchor ---------- */

  // Marks older than the window go, but the newest always stays.
  function Trim(marks: seq<Mark>, now: int): seq<Mark> {
    if |marks| > 1 && now - marks[0].at > MARK_WINDOW then Trim(marks[1..], now) else marks
  }

  function AnchorMoment(st: NetState): int { Max(st.updatedAt, st.periodStartedAt) }

  // The total at the last mark not after at, or at the first mark if all are later.
  function TotalAt(marks: seq<Mark>, at: int): int
    requires marks != []
  {
    if marks[|marks| - 1].at <= at || |marks| == 1 then marks[|marks| - 1].total else TotalAt(marks[..|marks| - 1], at)
  }

  function WithAnchor(st: NetState, total: int, at: int, known: bool): NetState {
    st.(proxyAnchor := total, proxyAnchorAt := at, proxyAnchorKnown := known)
  }

  // anchorProxyLocked
  function Anchored(st: NetState, current: NetState, marks: seq<Mark>): NetState {
    var at := AnchorMoment(st);
    if current.proxyAnchorKnown && current.proxyAnchorAt == at then WithAnchor(st, current.proxyAnchor, at, true)
    else WithAnchor(st, if marks == [] then 0 else TotalAt(marks, at), at, marks != [])
  }

  /* ---------- usage and the stop ---------- */

  function NetworkUsage(q: Quota, rx: int, tx: int): int {
    if q.billingMode == "single" then tx else if rx > MAX - tx then MAX else rx + tx
  }

  function ScaleSaturating(value: int, factor: int): int {
    if value <= 0 || factor <= 0 then 0 else if value > MAX / factor then MAX else value * factor
  }

  function Estimated(e: Entry, q: Quota): int {
    if e.net.generation != "" && e.net.proxyAnchorKnown
    then ScaleSaturating(Max(0, e.total - e.net.proxyAnchor), Factor(q)) else 0
  }

  // entryUsageLocked
  function Usage(e: Entry, q: Quota): int {
    e.net.adjustment.Apply(AddSaturating(NetworkUsage(q, e.net.rx, e.net.tx), Estimated(e, q)), q.billingMode)
  }

  // No source was ever read, or the one there is does not cover the period.
  predicate Blind(st: NetState) { st.generation == "" || !st.available || st.updatedAt < st.periodStartedAt }

  // reconcileNetworkQuota
  function Reconciled(e: Entry, q: Quota): bool {
    if q.stop.None? then e.exceeded
    else
      var limit := q.stop.value;
      (limit > 0 && Usage(e, q) >= limit) || (limit > 0 && Blind(e.net) && e.exceeded)
  }

  // networkOverLimitLocked
  function OverLimit(e: Entry, q: Quota): bool {
    q.stop.Some? && q.stop.value > 0 && e.net.generation != "" && Usage(e, q) >= q.stop.value
  }

  /* ---------- the steps ---------- */

  datatype Event =
    | CoreSample(now: int, delta: nat)
    | VnStat(sampled: Option<NetState>)   // what SampleNetwork made of a reading; None: failed or refused
    | Reconcile

  // A new proxy total, and recordProxyMarkLocked.
  function Marked(e: Entry, now: int, total: int): Entry {
    e.(total := total, marks := Trim(e.marks + [Mark(now, total)], now),
       net := if e.net.generation != "" && !e.net.proxyAnchorKnown
              then e.net.(proxyAnchor := total, proxyAnchorKnown := true) else e.net)
  }

  function AnchoredEntry(e: Entry, st: NetState): Entry { e.(net := Anchored(st, e.net, e.marks)) }

  // The step up to the stop flag.
  function Moved(e: Entry, ev: Event): Entry {
    match ev
    case CoreSample(now, delta) => Marked(e, now, e.total + delta)
    case VnStat(sampled) => if sampled.None? then e.(net := Failure(e.net)) else AnchoredEntry(e, sampled.value)
    case Reconcile => e
  }

  // A core sample can only raise the stop; a vnStat sample or the schedule reconciles it.
  function StopFlag(moved: Entry, ev: Event, q: Quota): bool {
    match ev
    case CoreSample(_, _) => moved.exceeded || OverLimit(moved, q)
    case VnStat(sampled) => if sampled.None? then moved.exceeded else Reconciled(moved, q)
    case Reconcile => Reconciled(moved, q)
  }

  function Step(e: Entry, ev: Event, q: Quota): Entry {
    Moved(e, ev).(exceeded := StopFlag(Moved(e, ev), ev, q))
  }

  function Run(e: Entry, evs: seq<Event>, q: Quota): Entry {
    if evs == [] then e else Step(Run(e, evs[..|evs| - 1], q), evs[|evs| - 1], q)
  }

  /* ---------- marks ---------- */

  // In order of time, with totals that never fall.
  ghost predicate InTime(marks: seq<Mark>) {
    var n := |marks| - 1;
    n <= 0 || (InTime(marks[..n]) && marks[n - 1].at <= marks[n].at && marks[n - 1].total <= marks[n].total)
  }

  lemma {:induction false} TrimSuffix(marks: seq<Mark>, now: int) returns (cut: nat)
    requires marks != []
    ensures cut < |marks| && Trim(marks, now) == marks[cut..]
    ensures forall i :: 0 <= i < cut ==> now - marks[i].at > MARK_WINDOW
  {
    if |marks| > 1 && now - marks[0].at > MARK_WINDOW {
      var c := TrimSuffix(marks[1..], now);
      cut := c + 1;
      assert marks[1..][c..] == marks[cut..];
    } else {
      cut := 0;
    }
  }

  // What the sample at n of hist reports; start is the total before the first.
  function Delta(hist: seq<Mark>, n: nat, start: int): int
    requires n < |hist|
  {
    hist[n].total - if n == 0 then start else hist[n - 1].total
  }

  // What the samples from lo on report, of those taken strictly after at.
  ghost function Later(hist: seq<Mark>, start: int, lo: int, at: int): int {
    var n := |hist| - 1;
    if n < 0 || n < lo then 0
    else Later(hist[..n], start, lo, at) + if hist[n].at > at then Delta(hist, n, start) else 0
  }

  // What the samples from lo on report, of those taken at or before at.
  ghost function Early(hist: seq<Mark>, start: int, lo: int, at: int): int {
    var n := |hist| - 1;
    if n < 0 || n < lo then 0
    else Early(hist[..n], start, lo, at) + if hist[n].at > at then 0 else Delta(hist, n, start)
  }

  // In order of time, with totals that never fall below the first one.
  ghost predicate Rising(hist: seq<Mark>, start: int) {
    InTime(hist) && (hist != [] ==> hist[0].total >= start)
  }

  lemma RisingPrefix(hist: seq<Mark>, start: int)
    requires Rising(hist, start) && hist != []
    ensures Rising(hist[..|hist| - 1], start) && Delta(hist, |hist| - 1, start) >= 0
  {
    if |hist| == 1 { assert hist[..0] == []; }
  }

  lemma {:induction false} GrowthNonnegative(hist: seq<Mark>, start: int, lo: int, at: int)
    requires Rising(hist, start)
    ensures Later(hist, start, lo, at) >= 0 && Early(hist, start, lo, at) >= 0
  {
    if hist != [] {
      RisingPrefix(hist, start);
      GrowthNonnegative(hist[..|hist| - 1], start, lo, at);
    }
  }

  // No sample from lo on that reports growth was taken at or before at.
  ghost predicate AllLater(hist: seq<Mark>, start: int, lo: int, at: int) {
    forall i :: 0 <= i < |hist| && i >= lo && Delta(hist, i, start) > 0 ==> hist[i].at > at
  }

  lemma AllLaterStep(hist: seq<Mark>, start: int, lo: int, at: int)
    requires hist != [] && |hist| - 1 >= lo
    ensures var n := |hist| - 1;
      AllLater(hist, start, lo, at) <==>
      AllLater(hist[..n], start, lo, at) && (Delta(hist, n, start) > 0 ==> hist[n].at > at)
  {
    var n := |hist| - 1;
    forall i | 0 <= i < n
      ensures Delta(hist[..n], i, start) == Delta(hist, i, start) && hist[..n][i] == hist[i]
    {
    }
  }

  /** No growth was counted early exactly when every sample that reports any came
      after the moment. */
  lemma {:induction false} NothingEarly(hist: seq<Mark>, start: int, lo: int, at: int)
    requires Rising(hist, start)
    ensures Early(hist, start, lo, at) == 0 <==> AllLater(hist, start, lo, at)
  {
    if hist != [] && |hist| - 1 >= lo {
      var n := |hist| - 1;
      RisingPrefix(hist, start);
      NothingEarly(hist[..n], start, lo, at);
      GrowthNonnegative(hist[..n], start, lo, at);
      AllLaterStep(hist, start, lo, at);
    }
  }

  lemma Counts(hist: seq<Mark>, start: int, lo: int, m: Mark, at: int)
    requires lo <= |hist|
    ensures var d := Delta(hist + [m], |hist|, start);
      && Later(hist + [m], start, lo, at) == Later(hist, start, lo, at) + (if m.at > at then d else 0)
      && Early(hist + [m], start, lo, at) == Early(hist, start, lo, at) + (if m.at > at then 0 else d)
  {
    assert (hist + [m])[..|hist|] == hist;
  }

  /** The anchor splits the retained growth exactly: the bytes above it are those
      of the samples taken strictly after the anchor moment. */
  lemma {:induction false} AnchorSplits(hist: seq<Mark>, start: int, from: nat, at: int)
    requires from < |hist| && InTime(hist)
    ensures hist[|hist| - 1].total - TotalAt(hist[from..], at) == Later(hist, start, from + 1, at) >= 0
  {
    var n := |hist| - 1;
    if from < n {
      if hist[n].at <= at {
        NoneLater(hist[..n], start, from + 1, at);
      } else {
        AnchorSplits(hist[..n], start, from, at);
        assert hist[from..][..n - from] == hist[..n][from..];
      }
    }
  }

  lemma {:induction false} NoneLater(hist: seq<Mark>, start: int, lo: int, at: int)
    requires InTime(hist) && (hist != [] ==> hist[|hist| - 1].at <= at)
    ensures Later(hist, start, lo, at) == 0
  {
    if hist != [] { NoneLater(hist[..|hist| - 1], start, lo, at); }
  }

  /* ---------- the estimate over whole runs ---------- */

  // All core samples of a run with the totals they reported, trimmed or not.
  function History(e: Entry, evs: seq<Event>, q: Quota): seq<Mark> {
    if evs == [] then []
    else
      var n := |evs| - 1;
      if evs[n].CoreSample?
      then History(e, evs[..n], q) + [Mark(evs[n].now, Run(e, evs[..n], q).total + evs[n].delta)]
      else History(e, evs[..n], q)
  }

  // What the estimate rests on: the samples from lo on that came after the anchor
  // moment, all samples from since on, which came after anchoring, and the bytes
  // the anchor loaded at the start left open, while that one is in force.
  datatype Basis = Basis(lo: int, since: int, open: int)

  // The basis after one event; n is the number of samples before.
  function BasisAfter(e: Entry, ev: Event, n: nat, b: Basis): Basis {
    match ev
    case CoreSample(_, _) =>
      if e.net.generation != "" && !e.net.proxyAnchorKnown then Basis(n + 1, n + 1, 0) else b
    case VnStat(sampled) =>
      if sampled.None? || (e.net.proxyAnchorKnown && e.net.proxyAnchorAt == AnchorMoment(sampled.value)) then b
      else Basis(n - |e.marks| + 1, n, 0)
    case Reconcile => b
  }

  function LoadedBasis(e: Entry): Basis {
    Basis(0, 0, if e.net.proxyAnchorKnown then e.total - e.net.proxyAnchor else 0)
  }

  function BasisOf(e: Entry, evs: seq<Event>, q: Quota): Basis {
    if evs == [] then LoadedBasis(e)
    else
      var before := evs[..|evs| - 1];
      BasisAfter(Run(e, before, q), evs[|evs| - 1], |History(e, before, q)|, BasisOf(e, before, q))
  }

  // Core samples come in order.
  ghost predicate InOrder(e: Entry, ev: Event) {
    ev.CoreSample? && e.marks != [] ==> ev.now >= e.marks[|e.marks| - 1].at
  }

  ghost predicate AllInOrder(e: Entry, evs: seq<Event>, q: Quota) {
    forall n :: 0 <= n < |evs| ==> InOrder(Run(e, evs[..n], q), evs[n])
  }

  // What the estimate depends on, with all samples since the start: marks are
  // the samples from kept on.
  datatype Book = Book(hist: seq<Mark>, start: int, kept: nat, basis: Basis,
    total: int, sourced: bool, known: bool, anchor: int, at: int)

  ghost predicate Describes(b: Book, e: Entry) {
    b.kept <= |b.hist| && e.marks == b.hist[b.kept..] && e.total == b.total &&
    b.sourced == (e.net.generation != "") && b.known == e.net.proxyAnchorKnown &&
    (b.known ==> b.anchor == e.net.proxyAnchor) && b.at == e.net.proxyAnchorAt
  }

  // The sample before n was older than the retention window at the newest one.
  ghost predicate TooOld(hist: seq<Mark>, n: int) {
    0 < n < |hist| ==> hist[|hist| - 1].at - hist[n - 1].at > MARK_WINDOW
  }

  // The newest sample is retained, with the total it reported.
  ghost predicate Newest(b: Book) {
    if b.hist == [] then b.total == b.start else b.kept < |b.hist| && b.total == b.hist[|b.hist| - 1].total
  }

  ghost predicate Tracked(b: Book) {
    Rising(b.hist, b.start) && b.kept <= |b.hist| && TooOld(b.hist, b.kept) && Newest(b) &&
    (b.hist != [] && b.sourced ==> b.known) && (b.known ==> Accounted(b))
  }

  // The bytes above the anchor, to the byte.
  ghost predicate Accounted(b: Book) {
    var c := b.basis;
    c.lo <= |b.hist| && c.since <= |b.hist| && TooOld(b.hist, c.lo - 1) &&
    b.total - b.anchor == c.open + Later(b.hist, b.start, c.lo, b.at) + Early(b.hist, b.start, c.since, b.at)
  }

  // The book after one more sample.
  function BookMark(b: Book, m: Mark, cut: nat): Book {
    var starts, n := b.sourced && !b.known, |b.hist| + 1;
    b.(hist := b.hist + [m], kept := cut, total := m.total, known := b.known || b.sourced,
       anchor := if starts then m.total else b.anchor, basis := if starts then Basis(n, n, 0) else b.basis)
  }

  lemma TooOldLater(hist: seq<Mark>, m: Mark, n: int)
    requires hist != [] && TooOld(hist, n) && n < |hist| && m.at >= hist[|hist| - 1].at
    ensures TooOld(hist + [m], n)
  {
  }

  lemma SplitSum(b: Book, m: Mark)
    requires Newest(b) && b.basis.lo <= |b.hist| && b.basis.since <= |b.hist|
    ensures var c := b.basis; var all := b.hist + [m];
      Later(all, b.start, c.lo, b.at) + Early(all, b.start, c.since, b.at) ==
      Later(b.hist, b.start, c.lo, b.at) + Early(b.hist, b.start, c.since, b.at) + m.total - b.total
  {
    Counts(b.hist, b.start, b.basis.lo, m, b.at);
    Counts(b.hist, b.start, b.basis.since, m, b.at);
    assert Delta(b.hist + [m], |b.hist|, b.start) == m.total - b.total;
  }

  lemma AccountedMark(b: Book, m: Mark, cut: nat)
    requires Tracked(b) && m.total >= b.total && (b.hist != [] ==> m.at >= b.hist[|b.hist| - 1].at)
    requires b.known || b.sourced
    ensures Accounted(BookMark(b, m, cut))
  {
    if b.known {
      if b.hist != [] { TooOldLater(b.hist, m, b.basis.lo - 1); }
      SplitSum(b, m);
    } else {
      assert b.hist == [];
      assert Later([m], b.start, 1, b.at) == 0 && Early([m], b.start, 1, b.at) == 0;
    }
  }

  lemma TrackedMark(b: Book, m: Mark, cut: nat)
    requires Tracked(b) && m.total >= b.total && (b.hist != [] ==> m.at >= b.hist[|b.hist| - 1].at)
    requires b.kept <= cut <= |b.hist| && (b.kept < cut ==> m.at - b.hist[cut - 1].at > MARK_WINDOW)
    ensures Tracked(BookMark(b, m, cut))
  {
    assert (b.hist + [m])[..|b.hist|] == b.hist;
    if b.known || b.sourced { AccountedMark(b, m, cut); }
  }

  lemma DescribesMark(b: Book, e: Entry, now: int, total: int) returns (cut: nat)
    requires Describes(b, e) && (b.hist != [] ==> b.kept < |b.hist|)
    ensures b.kept <= cut <= |b.hist| && (b.kept < cut ==> now - b.hist[cut - 1].at > MARK_WINDOW)
    ensures Marked(e, now, total).marks == (b.hist + [Mark(now, total)])[cut..]
  {
    var m := Mark(now, total);
    var n := TrimSuffix(e.marks + [m], now);
    cut := b.kept + n;
    assert e.marks + [m] == (b.hist + [m])[b.kept..];
    if n > 0 { assert (e.marks + [m])[n - 1] == b.hist[cut - 1]; }
  }

  // b' is the book after ev, with the basis the run assigns.
  ghost predicate Follows(b: Book, b': Book, e: Entry, ev: Event) {
    b'.start == b.start && b'.basis == BasisAfter(e, ev, |b.hist|, b.basis) &&
    b'.hist == if ev.CoreSample? then b.hist + [Mark(ev.now, e.total + ev.delta)] else b.hist
  }

  lemma LastMark(b: Book, e: Entry)
    requires Tracked(b) && Describes(b, e)
    ensures e.total == b.total && b.sourced == (e.net.generation != "") && b.known == e.net.proxyAnchorKnown
    ensures b.hist != [] ==>
      b.kept < |b.hist| && e.marks != [] && e.marks[|e.marks| - 1] == b.hist[|b.hist| - 1]
  {
  }

  lemma DescribesCore(b: Book, e: Entry, now: int, total: int, cut: nat)
    requires Describes(b, e) && cut <= |b.hist|
    requires Marked(e, now, total).marks == (b.hist + [Mark(now, total)])[cut..]
    ensures Describes(BookMark(b, Mark(now, total), cut), Marked(e, now, total))
  {
    hide Trim;
  }

  lemma TrackedCore(b: Book, e: Entry, now: int, delta: nat) returns (b': Book)
    requires Tracked(b) && Describes(b, e) && InOrder(e, CoreSample(now, delta))
    ensures Tracked(b') && Describes(b', Marked(e, now, e.total + delta)) && Follows(b, b', e, CoreSample(now, delta))
  {
    hide Tracked, Describes, Marked, Trim;
    LastMark(b, e);
    var cut := DescribesMark(b, e, now, e.total + delta);
    b' := BookMark(b, Mark(now, e.total + delta), cut);
    TrackedMark(b, Mark(now, e.total + delta), cut);
    DescribesCore(b, e, now, e.total + delta, cut);
  }

  // The book after an accepted vnStat sample.
  function BookAnchored(b: Book, st: NetState, marks: seq<Mark>): Book {
    var at := AnchorMoment(st);
    if b.known && b.at == at then b.(sourced := st.generation != "")
    else
      b.(sourced := st.generation != "", known := marks != [], at := at,
         anchor := if marks == [] then 0 else TotalAt(marks, at),
         basis := Basis(|b.hist| - |marks| + 1, |b.hist|, 0))
  }

  lemma NoneFrom(hist: seq<Mark>, start: int, at: int)
    ensures Early(hist, start, |hist|, at) == 0
  {
  }

  lemma TrackedAnchor(b: Book, st: NetState, marks: seq<Mark>)
    requires Tracked(b) && marks == b.hist[b.kept..]
    ensures Tracked(BookAnchored(b, st, marks))
  {
    if !(b.known && b.at == AnchorMoment(st)) && b.hist != [] {
      AnchorSplits(b.hist, b.start, b.kept, AnchorMoment(st));
      NoneFrom(b.hist, b.start, AnchorMoment(st));
    }
  }

  lemma AnchoredFields(st: NetState, current: NetState, marks: seq<Mark>)
    ensures var a := Anchored(st, current, marks);
      && a.generation == st.generation && a.proxyAnchorAt == AnchorMoment(st)
      && (if current.proxyAnchorKnown && current.proxyAnchorAt == AnchorMoment(st)
          then a.proxyAnchorKnown && a.proxyAnchor == current.proxyAnchor
          else a.proxyAnchorKnown == (marks != []) &&
               (marks != [] ==> a.proxyAnchor == TotalAt(marks, AnchorMoment(st))))
  {
  }

  lemma DescribesAnchored(b: Book, e: Entry, st: NetState)
    requires Describes(b, e)
    ensures Describes(BookAnchored(b, st, e.marks), AnchoredEntry(e, st))
  {
    AnchoredFields(st, e.net, e.marks);
  }

  lemma TrackedSampled(b: Book, e: Entry, st: NetState) returns (b': Book)
    requires Tracked(b) && Describes(b, e)
    ensures Tracked(b') && Describes(b', AnchoredEntry(e, st)) && Follows(b, b', e, VnStat(Some(st)))
  {
    b' := BookAnchored(b, st, e.marks);
    TrackedAnchor(b, st, e.marks);
    DescribesAnchored(b, e, st);
  }

  lemma DescribesFailed(b: Book, e: Entry)
    requires Describes(b, e)
    ensures Describes(b, e.(net := Failure(e.net)))
  {
  }

  lemma TrackedMoved(b: Book, e: Entry, ev: Event) returns (b': Book)
    requires Tracked(b) && Describes(b, e) && InOrder(e, ev)
    ensures Tracked(b') && Describes(b', Moved(e, ev)) && Follows(b, b', e, ev)
  {
    match ev
    case CoreSample(now, delta) => b' := TrackedCore(b, e, now, delta);
    case VnStat(sampled) =>
      if sampled.Some? {
        b' := TrackedSampled(b, e, sampled.value);
      } else {
        b' := b;
        DescribesFailed(b, e);
      }
    case Reconcile => b' := b;
  }

  lemma DescribesFlagged(b: Book, e: Entry, flag: bool)
    requires Describes(b, e)
    ensures Describes(b, e.(exceeded := flag))
  {
  }

  lemma TrackedStep(b: Book, e: Entry, ev: Event, q: Quota) returns (b': Book)
    requires Tracked(b) && Describes(b, e) && InOrder(e, ev)
    ensures Tracked(b') && Describes(b', Step(e, ev, q)) && Follows(b, b', e, ev)
  {
    b' := TrackedMoved(b, e, ev);
    DescribesFlagged(b', Moved(e, ev), StopFlag(Moved(e, ev), ev, q));
  }

  lemma TrackedLoaded(e: Entry) returns (b: Book)
    requires e.marks == []
    ensures Tracked(b) && Describes(b, e) && b.hist == [] && b.start == e.total && b.basis == LoadedBasis(e)
  {
    b := Book([], e.total, 0, LoadedBasis(e), e.total, e.net.generation != "",
      e.net.proxyAnchorKnown, e.net.proxyAnchor, e.net.proxyAnchorAt);
  }

  lemma {:induction false} RunTracked(e: Entry, evs: seq<Event>, q: Quota) returns (b: Book)
    requires e.marks == [] && AllInOrder(e, evs, q)
    ensures Tracked(b) && Describes(b, Run(e, evs, q))
    ensures b.start == e.total && b.hist == History(e, evs, q) && b.basis == BasisOf(e, evs, q)
  {
    hide Tracked, Describes, Step, BasisAfter, InOrder, LoadedBasis;
    if evs == [] {
      b := TrackedLoaded(e);
    } else {
      var n := |evs| - 1;
      var before := evs[..n];
      forall i | 0 <= i < n ensures before[..i] == evs[..i] {}
      b := RunTracked(e, before, q);
      assert InOrder(Run(e, before, q), evs[n]);
      b := TrackedStep(b, Run(e, before, q), evs[n], q);
      RunStep(e, evs, q);
    }
  }

  lemma RunStep(e: Entry, evs: seq<Event>, q: Quota)
    requires evs != []
    ensures var n := |evs| - 1; var r := Run(e, evs[..n], q); var hist := History(e, evs[..n], q);
      && Run(e, evs, q) == Step(r, evs[n], q)
      && BasisOf(e, evs, q) == BasisAfter(r, evs[n], |hist|, BasisOf(e, evs[..n], q))
      && History(e, evs, q) == if evs[n].CoreSample? then hist + [Mark(evs[n].now, r.total + evs[n].delta)] else hist
  {
  }

  lemma {:induction false} OpenKept(e: Entry, evs: seq<Event>, q: Quota)
    ensures BasisOf(e, evs, q).open in {0, LoadedBasis(e).open}
  {
    if evs != [] { OpenKept(e, evs[..|evs| - 1], q); }
  }

  lemma EstimateOf(e: Entry, q: Quota, above: int)
    requires e.net.proxyAnchorKnown ==> above == e.total - e.net.proxyAnchor
    ensures Estimated(e, q) ==
      if e.net.generation != "" && e.net.proxyAnchorKnown then ScaleSaturating(Max(0, above), Factor(q)) else 0
  {
  }

  // The bytes above the anchor by the sums of a book.
  ghost function Above(hist: seq<Mark>, start: int, c: Basis, at: int): int {
    c.open + Later(hist, start, c.lo, at) + Early(hist, start, c.since, at)
  }

  lemma AboveSplits(hist: seq<Mark>, start: int, c: Basis, at: int)
    requires Rising(hist, start)
    ensures Above(hist, start, c, at) >= c.open + Later(hist, start, c.lo, at) >= c.open
    ensures Above(hist, start, c, at) == c.open + Later(hist, start, c.lo, at) <==> AllLater(hist, start, c.since, at)
  {
    GrowthNonnegative(hist, start, c.lo, at);
    GrowthNonnegative(hist, start, c.since, at);
    NothingEarly(hist, start, c.since, at);
  }

  /** What is counted on top of vnStat, over any run from any stored state: the
      growth of the core samples taken strictly after the anchor moment, save those
      that had left the retention window; the bytes a stored anchor left open, while
      it is in force; and what came in since anchoring with a time at or before the
      anchor moment. Nothing of that last kind is counted exactly when every sample
      since anchoring that reports growth was taken after the moment. */
  lemma EstimateIsLaterGrowth(e: Entry, evs: seq<Event>, q: Quota)
    requires e.marks == [] && AllInOrder(e, evs, q)
    ensures var r := Run(e, evs, q); var hist := History(e, evs, q); var c := BasisOf(e, evs, q);
      var at := r.net.proxyAnchorAt;
      && Rising(hist, e.total) && c.open in {0, LoadedBasis(e).open}
      && (r.net.proxyAnchorKnown ==>
            TooOld(hist, c.lo - 1) && r.total - r.net.proxyAnchor == Above(hist, e.total, c, at))
      && Estimated(r, q) == (if r.net.generation != "" && r.net.proxyAnchorKnown
           then ScaleSaturating(Max(0, Above(hist, e.total, c, at)), Factor(q)) else 0)
      && (Above(hist, e.total, c, at) == c.open + Later(hist, e.total, c.lo, at) <==>
            AllLater(hist, e.total, c.since, at))
      && Above(hist, e.total, c, at) >= c.open + Later(hist, e.total, c.lo, at) >= c.open
  {
    var r, c := Run(e, evs, q), BasisOf(e, evs, q);
    var b := RunTracked(e, evs, q);
    OpenKept(e, evs, q);
    BookAbove(b, r);
    EstimateOf(r, q, Above(b.hist, b.start, c, b.at));
    AboveSplits(b.hist, b.start, c, b.at);
  }

  lemma BookAbove(b: Book, e: Entry)
    requires Tracked(b) && Describes(b, e)
    ensures Rising(b.hist, b.start) && b.at == e.net.proxyAnchorAt
    ensures e.net.proxyAnchorKnown ==>
      TooOld(b.hist, b.basis.lo - 1) && e.total - e.net.proxyAnchor == Above(b.hist, b.start, b.basis, b.at)
  {
  }

  /** With vnStat's clock ahead of the panel's, growth sampled before the anchor
      moment is counted. */
  lemma ClockAheadCountsEarlier() returns (e: Entry, ev: Event, q: Quota)
    ensures e.marks == [] && AllInOrder(e, [ev], q)
    ensures ev.CoreSample? && e.net.proxyAnchorKnown && ev.now <= e.net.proxyAnchorAt
    ensures Estimated(Step(e, ev, q), q) > Estimated(e, q)
  {
    var net := NetState(true, "local/eth0", "g", 0, 0, 0, 0, 10, 0, 50, 10, 10, 10, true, false, true, 0, 0, 0, 0,
      ResetConfig("none", 1, 0, "UTC"), 5, 50, true, NO_ADJUSTMENT);
    e, ev, q := Entry(net, 5, [], false), CoreSample(41, 7), Quota("single", None);
    assert Run(e, [ev][..0], q) == e;
  }

  /* ---------- the stop survives an outage ---------- */

  // A sample whose update time and period are still the last ones.
  ghost predicate NothingNew(prev: NetState, r: Reading, st: NetState) {
    ValidReading(r) && Sample(prev, r) == Sampled(st) &&
    prev.generation != "" && GenerationOf(prev, r) == prev.generation &&
    r.snapshot.updated == prev.updatedAt && !ResetChanged(prev, r) && !PeriodChanged(prev, r) &&
    (r.billed.Some? && r.billed.value.available ==> prev.available)
  }

  // vnStat brings nothing new.
  ghost predicate Quiet(e: Entry, ev: Event) {
    ev.VnStat? && ev.sampled.Some? ==> exists r :: NothingNew(e.net, r, ev.sampled.value)
  }

  ghost predicate AllQuiet(e: Entry, evs: seq<Event>, q: Quota) {
    forall n :: 0 <= n < |evs| ==> Quiet(Run(e, evs[..n], q), evs[n])
  }

  // What holds of the stored state and the marks at every moment.
  ghost predicate Sound(e: Entry) {
    Good(e.net) && e.total >= 0 && (e.net.proxyAnchorKnown ==> e.net.proxyAnchor <= e.total) &&
    (forall m :: m in e.marks ==> m.total <= e.total) &&
    (e.net.generation == "" ==> !e.net.healthy) && (e.net.healthy ==> e.net.available) &&
    (e.net.generation != "" ==>
       (e.marks != [] ==> e.net.proxyAnchorKnown) &&
       (e.net.manual || e.net.updatedAt == e.net.periodStartedAt ==> e.net.available))
  }

  // The anchor stands for the moment the next sample would give it.
  predicate Aligned(st: NetState) { st.generation == "" || st.proxyAnchorAt == AnchorMoment(st) }

  ghost predicate Settled(e: Entry) { Sound(e) && Aligned(e.net) }

  // The stop is on only for a reason that still holds.
  ghost predicate Justified(e: Entry, q: Quota)
    requires q.stop.Some?
  {
    e.exceeded ==> Usage(e, q) >= q.stop.value || Blind(e.net)
  }

  lemma UsageMonotone(e: Entry, e': Entry, q: Quota)
    requires Good(e.net) && Good(e'.net) && e'.net.rx >= e.net.rx && e'.net.tx >= e.net.tx
    requires Estimated(e', q) >= Estimated(e, q) && e'.net.adjustment == e.net.adjustment
    ensures Usage(e', q) >= Usage(e, q)
  {
  }

  lemma ScaleMonotone(a: int, b: int, factor: int)
    requires a <= b && factor in {1, 2}
    ensures 0 <= ScaleSaturating(a, factor) <= ScaleSaturating(b, factor)
  {
  }

  /* ---------- what every step keeps ---------- */

  lemma MarksBelow(e: Entry, now: int, total: int)
    requires total >= e.total && forall m :: m in e.marks ==> m.total <= e.total
    ensures Marked(e, now, total).marks != []
    ensures forall m :: m in Marked(e, now, total).marks ==> m.total <= total
  {
    var all := e.marks + [Mark(now, total)];
    var cut := TrimSuffix(all, now);
    forall m | m in all[cut..] ensures m in all {}
  }

  /** A core sample keeps the entry sound. */
  lemma SoundCore(e: Entry, now: int, delta: nat)
    requires Sound(e)
    ensures Sound(Marked(e, now, e.total + delta)) && Marked(e, now, e.total + delta).net.rx == e.net.rx
    ensures Aligned(Marked(e, now, e.total + delta).net) <==> Aligned(e.net)
  {
    MarksBelow(e, now, e.total + delta);
  }

  lemma {:induction false} TotalAtOne(marks: seq<Mark>, at: int)
    requires marks != []
    ensures exists m :: m in marks && m.total == TotalAt(marks, at)
  {
    var n := |marks| - 1;
    if marks[n].at <= at || n == 0 {
      assert marks[n] in marks;
    } else {
      TotalAtOne(marks[..n], at);
      var m :| m in marks[..n] && m.total == TotalAt(marks[..n], at);
      assert m in marks;
    }
  }

  lemma FinishedFields(prev: NetState, used: NetState, r: Reading)
    requires used.manual || r.billed.Some?
    requires r.newName != ""
    ensures var st := Finished(prev, used, r);
      st.generation != "" && (st.healthy ==> st.available) &&
      (st.manual || st.updatedAt == st.periodStartedAt ==> st.available)
  {
  }

  lemma SampledFields(prev: NetState, r: Reading)
    requires ValidReading(r) && Sample(prev, r).Sampled?
    ensures var st := Sample(prev, r).st;
      st.generation != "" && (st.healthy ==> st.available) &&
      (st.manual || st.updatedAt == st.periodStartedAt ==> st.available)
  {
    FinishedFields(prev, WithUsage(prev, Prepared(prev, r), r), r);
  }

  lemma WithAnchorKeeps(st: NetState, total: int, at: int, known: bool)
    ensures var a := WithAnchor(st, total, at, known);
      a.healthy == st.healthy && a.available == st.available && a.manual == st.manual &&
      a.updatedAt == st.updatedAt && a.periodStartedAt == st.periodStartedAt && (Good(st) ==> Good(a))
  {
  }

  lemma AnchoredKeeps(st: NetState, current: NetState, marks: seq<Mark>)
    ensures var a := Anchored(st, current, marks);
      a.healthy == st.healthy && a.available == st.available && a.manual == st.manual &&
      a.updatedAt == st.updatedAt && a.periodStartedAt == st.periodStartedAt && (Good(st) ==> Good(a))
  {
    WithAnchorKeeps(st, Anchored(st, current, marks).proxyAnchor, AnchorMoment(st), true);
    WithAnchorKeeps(st, Anchored(st, current, marks).proxyAnchor, AnchorMoment(st), false);
  }

  /** An accepted vnStat sample of any kind keeps the entry sound and aligns the
      anchor. */
  lemma SoundSampled(e: Entry, r: Reading)
    requires Sound(e) && ValidReading(r) && Sample(e.net, r).Sampled?
    ensures Settled(AnchoredEntry(e, Sample(e.net, r).st))
  {
    var st := Sample(e.net, r).st;
    SampleKeepsGood(e.net, r);
    SampledFields(e.net, r);
    AnchoredFields(st, e.net, e.marks);
    AnchoredKeeps(st, e.net, e.marks);
    if e.marks != [] { TotalAtOne(e.marks, AnchorMoment(st)); }
  }

  lemma QuietCore(e: Entry, now: int, delta: nat, q: Quota)
    requires Settled(e)
    ensures Settled(Marked(e, now, e.total + delta)) && Usage(Marked(e, now, e.total + delta), q) >= Usage(e, q)
  {
    var after := Marked(e, now, e.total + delta);
    if e.net.proxyAnchorKnown {
      ScaleMonotone(Max(0, e.total - e.net.proxyAnchor), Max(0, after.total - after.net.proxyAnchor), Factor(q));
    }
    SoundCore(e, now, delta);
    UsageMonotone(e, after, q);
  }

  lemma QuietVnStat(e: Entry, st: NetState, r: Reading, q: Quota)
    requires Settled(e) && NothingNew(e.net, r, st)
    ensures var after := AnchoredEntry(e, st);
      Settled(after) && Usage(after, q) >= Usage(e, q) && (Blind(e.net) ==> Blind(after.net))
  {
    SoundSampled(e, r);
    SampleMonotone(e.net, r);
    QuietSample(e.net, r);
    UsageMonotone(e, AnchoredEntry(e, st), q);
  }

  lemma FlagKept(e: Entry, moved: Entry, ev: Event, q: Quota)
    requires q.stop.Some? && q.stop.value > 0 && Justified(e, q) && moved.exceeded == e.exceeded
    requires Usage(moved, q) >= Usage(e, q) && (Blind(e.net) ==> Blind(moved.net))
    ensures var flag := StopFlag(moved, ev, q);
      (e.exceeded ==> flag) && (flag ==> Usage(moved, q) >= q.stop.value || Blind(moved.net))
  {
  }

  lemma QuietMoved(e: Entry, ev: Event, q: Quota)
    requires Settled(e) && Quiet(e, ev)
    ensures var moved := Moved(e, ev);
      Settled(moved) && Usage(moved, q) >= Usage(e, q) && moved.exceeded == e.exceeded &&
        (Blind(e.net) ==> Blind(moved.net))
  {
    match ev
    case CoreSample(now, delta) => QuietCore(e, now, delta, q);
    case VnStat(sampled) =>
      if sampled.Some? {
        var r :| NothingNew(e.net, r, sampled.value);
        QuietVnStat(e, sampled.value, r, q);
      }
    case Reconcile =>
  }

  lemma QuietStep(e: Entry, ev: Event, q: Quota)
    requires Settled(e) && Quiet(e, ev) && q.stop.Some? && q.stop.value > 0 && Justified(e, q)
    ensures Settled(Step(e, ev, q)) && Justified(Step(e, ev, q), q)
    ensures Usage(Step(e, ev, q), q) >= Usage(e, q)
    ensures e.exceeded ==> Step(e, ev, q).exceeded
  {
    QuietMoved(e, ev, q);
    FlagKept(e, Moved(e, ev), ev, q);
    SameUsage(Moved(e, ev), StopFlag(Moved(e, ev), ev, q), q);
  }

  lemma SameUsage(e: Entry, flag: bool, q: Quota)
    ensures Usage(e.(exceeded := flag), q) == Usage(e, q)
  {
  }

  lemma QuietSample(prev: NetState, r: Reading)
    requires Sample(prev, r).Sampled? && Good(prev) && ValidReading(r)
    requires prev.generation != "" && GenerationOf(prev, r) == prev.generation && SamePeriod(prev, r)
    ensures var st := Sample(prev, r).st;
      st.generation == prev.generation && st.periodStartedAt == prev.periodStartedAt &&
        st.adjustment == prev.adjustment &&
      st.manual == prev.manual && st.updatedAt == r.snapshot.updated && st.proxyAnchor == prev.proxyAnchor &&
      st.proxyAnchorAt == prev.proxyAnchorAt && st.proxyAnchorKnown == prev.proxyAnchorKnown &&
      st.available == (st.manual || st.updatedAt == st.periodStartedAt || r.billed.value.available)
  {
    PreparedCarry(prev, r);
  }

  /** While vnStat brings nothing new, enforced usage never falls, so neither core
      samples nor reconciliations can clear a stop; this also holds when no source
      was ever read. */
  lemma {:induction false} OutageKeepsStop(e: Entry, evs: seq<Event>, q: Quota)
    requires Settled(e) && AllQuiet(e, evs, q) && q.stop.Some? && q.stop.value > 0 && Justified(e, q)
    ensures Settled(Run(e, evs, q)) && Justified(Run(e, evs, q), q)
    ensures Usage(Run(e, evs, q), q) >= Usage(e, q)
    ensures e.exceeded ==> Run(e, evs, q).exceeded
  {
    if evs != [] {
      var n := |evs| - 1;
      var before := evs[..n];
      forall i | 0 <= i < n ensures before[..i] == evs[..i] {}
      OutageKeepsStop(e, before, q);
      QuietStep(Run(e, before, q), evs[n], q);
    }
  }

  /* ---------- manual reset and calibration ---------- */

  // resetNetwork, after its fresh sample: a new manual period from the last update on.
  function ResetEntry(e: Entry): Entry {
    e.(exceeded := false, net := e.net.(manual := true, baselineRX := e.net.lastRX, baselineTX := e.net.lastTX,
      carryRX := 0, carryTX := 0, rx := 0, tx := 0, partial := false, adjustment := NO_ADJUSTMENT,
        periodStartedAt := e.net.updatedAt))
  }

  /** After a manual reset only the proxy bytes vnStat has not seen yet count, and
      the stop comes back exactly when they alone reach the limit. */
  lemma ResetStartsOver(e: Entry, q: Quota)
    requires q.stop.Some? && e.net.generation != ""
    ensures Usage(ResetEntry(e), q) == Estimated(e, q)
    ensures Good(ResetEntry(e).net)
    ensures Step(ResetEntry(e), Reconcile, q).exceeded <==> q.stop.value > 0 && Estimated(e, q) >= q.stop.value
  {
  }

  function Calibrated(e: Entry, q: Quota, used: int): Entry {
    var plain := e.(net := e.net.(adjustment := NO_ADJUSTMENT));
    e.(net := e.net.(adjustment := UsageAdjustment(used - Usage(plain, q), q.billingMode)))
  }

  /** Calibration makes the enforced usage the provider's figure, above or below
      what was measured. */
  lemma CalibrationExact(e: Entry, q: Quota, used: int)
    requires 0 <= used <= MAX && q.billingMode != ""
    requires 0 <= e.net.rx <= MAX && 0 <= e.net.tx <= MAX
    ensures Usage(Calibrated(e, q, used), q) == used
  {
    var plain := e.(net := e.net.(adjustment := NO_ADJUSTMENT));
    var measured := AddSaturating(NetworkUsage(q, e.net.rx, e.net.tx), Estimated(e, q));
    assert Usage(plain, q) == measured;
    assert Estimated(Calibrated(e, q, used), q) == Estimated(e, q);
    ScaleMonotone(0, Max(0, e.total - e.net.proxyAnchor), Factor(q));
  }
}
