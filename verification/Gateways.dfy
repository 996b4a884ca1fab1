/** internal/traffic/egress.go and gateway_history.go: per-gateway tunnel counters,
    their allowance period and their durable daily record. A time of 0 stands for
    Go's zero time. */
module Gateways {
  import opened Int64
  import opened Options
  import opened Network

  // peer is the text "server:port".
  datatype Gateway = Gateway(id: string, enabled: bool, peer: string, reset: ResetConfig, quota: Quota,
                             stopOnQuota: bool)

  datatype Status = Waiting | Disabled | Interrupted | Healthy

  datatype Traffic = Traffic(
    tx: int, rx: int, lastTX: int, lastRX: int, txGeneration: string, rxGeneration: string,
    peer: string, initialized: bool, periodStartedAt: int, nextResetAt: int, reset: ResetConfig,
    status: Status, lastSuccessAt: int, failureSince: int, partial: bool, adjustment: UsageAdjustment)

  const NO_TRAFFIC: Traffic := Traffic(0, 0, 0, 0, "", "", "", false, 0, 0, ResetConfig("", 0, 0, ""), Waiting, 0, 0,
    false, NO_ADJUSTMENT)

  // What the firewall rules of one gateway have counted.
  datatype Counters = Counters(tx: int, rx: int, txGeneration: string, rxGeneration: string) {
    predicate Usable() { tx >= 0 && rx >= 0 }
  }

  datatype Direction = TX | RX

  // The next monthly reset of a gateway, or 0.
  type Schedule = (int, ResetConfig) -> int

  /* ---------- one gateway, one sample ---------- */

  function CounterDelta(current: int, last: int, generation: string, previous: string): int {
    if current < last || generation != previous then current else current - last
  }

  function New(g: Gateway, now: int, next: Schedule): Traffic {
    NO_TRAFFIC.(periodStartedAt := now, nextResetAt := next(now, g.reset), reset := g.reset)
  }

  function Cleared(s: Traffic, now: int, next: int): Traffic {
    s.(tx := 0, rx := 0, periodStartedAt := now, nextResetAt := next, partial := false, adjustment := NO_ADJUSTMENT)
  }

  predicate Due(s: Traffic, now: int) { s.nextResetAt != 0 && now >= s.nextResetAt }

  // The state a sample starts from: created when missing, cleared when its reset is due.
  function Started(g: Gateway, prev: Option<Traffic>, now: int, next: Schedule): Traffic {
    var s := if prev.Some? then prev.value else New(g, now, next);
    if Due(s, now) then Cleared(s, now, next(now, g.reset)) else s
  }

  // What goes into the daily record.
  datatype Record = Record(tx: int, rx: int, partial: bool)

  predicate FirstContact(g: Gateway, s: Traffic) { !s.initialized || s.peer != g.peer }

  predicate Uncertain(s: Traffic, c: Counters) {
    c.txGeneration != s.txGeneration || c.rxGeneration != s.rxGeneration || c.tx < s.lastTX || c.rx < s.lastRX
  }

  function Delta(s: Traffic, c: Counters, d: Direction): int {
    if d == TX then CounterDelta(c.tx, s.lastTX, c.txGeneration, s.txGeneration)
    else CounterDelta(c.rx, s.lastRX, c.rxGeneration, s.rxGeneration)
  }

  predicate CrossedReset(s: Traffic, c: Counters) {
    s.lastSuccessAt != 0 && s.lastSuccessAt < s.periodStartedAt && (Delta(s, c, TX) > 0 || Delta(s, c, RX) > 0)
  }

  function RecordOf(g: Gateway, s: Traffic, c: Counters): Record {
    if FirstContact(g, s) then Record(0, 0, true)
    else Record(Delta(s, c, TX), Delta(s, c, RX), Uncertain(s, c) || CrossedReset(s, c))
  }

  function Counted(g: Gateway, s: Traffic, c: Counters, now: int): Traffic {
    var missed := CrossedReset(s, c) && (s.failureSince != 0 || now - s.lastSuccessAt > 15);
    var u := if FirstContact(g, s) then s
      else s.(tx := AddSaturating(s.tx, Delta(s, c, TX)), rx := AddSaturating(s.rx, Delta(s, c, RX)),
              partial := s.partial || Uncertain(s, c) || missed);
    u.(initialized := true, peer := g.peer, lastTX := c.tx, lastRX := c.rx, txGeneration := c.txGeneration,
       rxGeneration := c.rxGeneration, status := Healthy, lastSuccessAt := now, failureSince := 0)
  }

  predicate Read(g: Gateway, c: Option<Counters>) { g.enabled && c.Some? && c.value.Usable() }

  function SampleOne(g: Gateway, prev: Option<Traffic>, c: Option<Counters>, now: int, next: Schedule): Traffic {
    var s := Started(g, prev, now, next);
    if Read(g, c) then Counted(g, s, c.value, now)
    else if !g.enabled then s.(status := Disabled)
    else s.(status := Interrupted, failureSince := if s.failureSince == 0 then now else s.failureSince)
  }

  /* ---------- the daily record ---------- */

  datatype Usage = Usage(tx: int, rx: int, partial: bool)
  type Rows = map<(string, int), Usage>

  function Row(m: Rows, k: (string, int)): Usage { if k in m then m[k] else Usage(0, 0, false) }

  datatype Entry = Entry(day: int, tx: int, rx: int, partial: bool) {
    function Bytes(d: Direction): int { if d == TX then tx else rx }
  }

  function Add(m: Rows, id: string, e: Entry): Rows {
    var u := Row(m, (id, e.day));
    m[(id, e.day) := Usage(AddSaturating(u.tx, e.tx), AddSaturating(u.rx, e.rx), u.partial || e.partial)]
  }

  function AddAll(m: Rows, id: string, es: seq<Entry>): Rows {
    if es == [] then m else Add(AddAll(m, id, es[..|es| - 1]), id, es[|es| - 1])
  }

  function Day(t: int, offset: int): int { (t + offset) / 86400 }

  // recordGatewayHistory; previous is the last successful sample.
  function EntriesOf(r: Record, now: int, previous: int, offset: int): seq<Entry> {
    var gap := previous != 0 && now - previous > 15;
    var e := Entry(Day(now, offset), r.tx, r.rx, r.partial || gap || previous == 0);
    if gap then [e, Entry(Day(previous, offset), 0, 0, true)] else [e]
  }

  function SampleEntries(g: Gateway, prev: Option<Traffic>, c: Option<Counters>, now: int, next: Schedule,
                         offset: int): seq<Entry> {
    var s := Started(g, prev, now, next);
    if Read(g, c) then EntriesOf(RecordOf(g, s, c.value), now, s.lastSuccessAt, offset) else []
  }

  function Booked(es: seq<Entry>, day: int, d: Direction): int {
    if es == [] then 0
    else Booked(es[..|es| - 1], day, d) + if es[|es| - 1].day == day then es[|es| - 1].Bytes(d) else 0
  }

  function Cell(u: Usage, d: Direction): int { if d == TX then u.tx else u.rx }

  /** A day's row holds what was entered for the day, capped. */
  lemma {:induction false} DayRowIsCapped(m: Rows, id: string, es: seq<Entry>, day: int, d: Direction, start: nat)
    requires Cell(Row(m, (id, day)), d) == Cap(start) && forall i :: 0 <= i < |es| ==> es[i].tx >= 0 && es[i].rx >= 0
    ensures Booked(es, day, d) >= 0 && Cell(Row(AddAll(m, id, es), (id, day)), d) == Cap(start + Booked(es, day, d))
  {
    if es != [] { DayRowIsCapped(m, id, es[..|es| - 1], day, d, start); }
  }

  /** A record that is not flagged is exact: the same peer and rules, counters that
      only grew, at most 15 seconds since the last success, and no reset between. */
  lemma UnflaggedIsExact(g: Gateway, prev: Option<Traffic>, c: Option<Counters>, now: int, next: Schedule, offset: int)
    requires Read(g, c) && !SampleEntries(g, prev, c, now, next, offset)[0].partial
    ensures var s := Started(g, prev, now, next); var e := SampleEntries(g, prev, c, now, next, offset)[0];
      s.initialized && s.peer == g.peer && c.value.txGeneration == s.txGeneration &&
        c.value.rxGeneration == s.rxGeneration &&
      e.tx == c.value.tx - s.lastTX >= 0 && e.rx == c.value.rx - s.lastRX >= 0 && now - s.lastSuccessAt <= 15 &&
      (s.lastSuccessAt >= s.periodStartedAt || (e.tx <= 0 && e.rx <= 0))
  {
  }

  /* ---------- all gateways ---------- */

  type States = map<string, Traffic>
  type Readings = Option<map<string, Counters>>    // None is a failed read

  function Lookup<T>(m: map<string, T>, id: string): Option<T> { if id in m then Some(m[id]) else None }

  function CountersOf(r: Readings, id: string): Option<Counters> { if r.Some? then Lookup(r.value, id) else None }

  function SampleAll(egress: States, gateways: seq<Gateway>, r: Readings, now: int, next: Schedule): States {
    if gateways == [] then egress
    else
      var n := |gateways| - 1;
      var before, g := SampleAll(egress, gateways[..n], r, now, next), gateways[n];
      before[g.id := SampleOne(g, Lookup(before, g.id), CountersOf(r, g.id), now, next)]
  }

  function RecordAll(rows: Rows, egress: States, gateways: seq<Gateway>, r: Readings, now: int, next: Schedule,
                     offset: int): Rows {
    if gateways == [] then rows
    else
      var n := |gateways| - 1;
      var before, g := SampleAll(egress, gateways[..n], r, now, next), gateways[n];
      AddAll(RecordAll(rows, egress, gateways[..n], r, now, next, offset), g.id,
        SampleEntries(g, Lookup(before, g.id), CountersOf(r, g.id), now, next, offset))
  }

  predicate UniqueIds(gateways: seq<Gateway>) {
    gateways == [] ||
      (UniqueIds(gateways[..|gateways| - 1]) && !HasId(gateways[..|gateways| - 1], gateways[|gateways| - 1].id))
  }

  predicate HasId(gateways: seq<Gateway>, id: string) { exists g <- gateways :: g.id == id }

  lemma HasIdLast(gateways: seq<Gateway>, id: string)
    requires gateways != []
    ensures HasId(gateways, id) <==> HasId(gateways[..|gateways| - 1], id) || gateways[|gateways| - 1].id == id
  {
    var n := |gateways| - 1;
    forall g ensures g in gateways <==> g in gateways[..n] || g == gateways[n] {}
  }

  lemma {:induction false} OthersUntouched(rows: Rows, egress: States, gateways: seq<Gateway>, r: Readings, now: int,
      next: Schedule, offset: int, id: string)
    requires !HasId(gateways, id)
    ensures Lookup(SampleAll(egress, gateways, r, now, next), id) == Lookup(egress, id)
    ensures forall day ::
      Row(RecordAll(rows, egress, gateways, r, now, next, offset), (id, day)) == Row(rows, (id, day))
  {
    if gateways != [] {
      var n := |gateways| - 1;
      HasIdLast(gateways, id);
      OthersUntouched(rows, egress, gateways[..n], r, now, next, offset, id);
      var g := gateways[n];
      var before := SampleAll(egress, gateways[..n], r, now, next);
      forall day {
        AddAllElsewhere(RecordAll(rows, egress, gateways[..n], r, now, next, offset), g.id,
          SampleEntries(g, Lookup(before, g.id), CountersOf(r, g.id), now, next, offset), (id, day));
      }
    }
  }

  lemma {:induction false} AddAllElsewhere(m: Rows, id: string, es: seq<Entry>, k: (string, int))
    requires k.0 != id
    ensures Row(AddAll(m, id, es), k) == Row(m, k)
  {
    if es != [] { AddAllElsewhere(m, id, es[..|es| - 1], k); }
  }

  lemma {:induction false} AddAllLocal(m: Rows, m': Rows, id: string, es: seq<Entry>, k: (string, int))
    requires Row(m, k) == Row(m', k) && k.0 == id
    ensures Row(AddAll(m, id, es), k) == Row(AddAll(m', id, es), k)
  {
    if es != [] { AddAllLocal(m, m', id, es[..|es| - 1], k); }
  }

  /** Sampling treats every gateway on its own: its new state and its rows of the
      daily record depend only on its own configuration, state and counters, and a
      gateway that is not sampled keeps both. */
  lemma {:induction false} GatewaysAreIndependent(rows: Rows, egress: States, gateways: seq<Gateway>, r: Readings,
      now: int, next: Schedule, offset: int, g: Gateway)
    requires UniqueIds(gateways) && g in gateways
    ensures Lookup(SampleAll(egress, gateways, r, now, next), g.id) ==
      Some(SampleOne(g, Lookup(egress, g.id), CountersOf(r, g.id), now, next))
    ensures var es := SampleEntries(g, Lookup(egress, g.id), CountersOf(r, g.id), now, next, offset);
      forall day ::
        Row(RecordAll(rows, egress, gateways, r, now, next, offset), (g.id, day)) ==
          Row(AddAll(rows, g.id, es), (g.id, day))
    decreases |gateways|
  {
    var n := |gateways| - 1;
    var last := gateways[n];
    if g == last {
      OthersUntouched(rows, egress, gateways[..n], r, now, next, offset, g.id);
      forall day {
        AddAllLocal(RecordAll(rows, egress, gateways[..n], r, now, next, offset), rows, g.id,
          SampleEntries(g, Lookup(egress, g.id), CountersOf(r, g.id), now, next, offset), (g.id, day));
      }
    } else {
      assert g in gateways[..n] && last.id != g.id;
      GatewaysAreIndependent(rows, egress, gateways[..n], r, now, next, offset, g);
      var before := SampleAll(egress, gateways[..n], r, now, next);
      forall day {
        AddAllElsewhere(RecordAll(rows, egress, gateways[..n], r, now, next, offset), last.id,
          SampleEntries(last, Lookup(before, last.id), CountersOf(r, last.id), now, next, offset), (g.id, day));
      }
    }
  }

  /* ---------- one gateway over a whole run ---------- */

  datatype Event =
    | Reading(counters: Option<Counters>, now: int)
    | Configure(gateway: Gateway, now: int)
    | Remove
    | Reset(now: int)
    | Calibrate(used: int, clear: bool)

  // log is everything ever entered in the gateway's daily record.
  datatype One = One(gateway: Gateway, traffic: Option<Traffic>, log: seq<Entry>)

  // CommitEgressChange, for a gateway that stays or is added.
  function Configured(g: Gateway, prev: Option<Traffic>, now: int, next: Schedule): Traffic {
    var s := if prev.Some? then prev.value else NO_TRAFFIC.(periodStartedAt := now);
    var t := if prev.None? || s.reset != g.reset then s.(reset := g.reset, nextResetAt := next(now, g.reset)) else s;
    var u := if t.peer != g.peer then t.(initialized := false, peer := g.peer) else t;
    if g.enabled then u else u.(status := Disabled)
  }

  function Scale(value: int, factor: int): int
    requires factor > 0
  {
    if value > MAX / factor then MAX else value * factor
  }

  // GatewayTrafficState.ProviderUsage
  function ProviderUsage(s: Traffic, q: Quota): int {
    var tunnel := if s.rx > MAX - s.tx then MAX else s.tx + s.rx;
    s.adjustment.Apply(Scale(tunnel, Factor(q)), q.billingMode)
  }

  function Calibrated(s: Traffic, q: Quota, used: int, clear: bool): Traffic {
    var plain := s.(adjustment := NO_ADJUSTMENT);
    if clear then plain else plain.(adjustment := UsageAdjustment(used - ProviderUsage(plain, q), q.billingMode))
  }

  function Step(o: One, ev: Event, next: Schedule, offset: int): One {
    match ev
    case Reading(c, now) =>
      One(o.gateway, Some(SampleOne(o.gateway, o.traffic, c, now, next)),
        o.log + SampleEntries(o.gateway, o.traffic, c, now, next, offset))
    case Configure(g, now) => One(g, Some(Configured(g, o.traffic, now, next)), o.log)
    case Remove => o.(traffic := None)
    case Reset(now) =>
      var s := if o.traffic.Some? then o.traffic.value else NO_TRAFFIC;
      o.(traffic := Some(Cleared(s, now, next(now, o.gateway.reset))))
    case Calibrate(used, clear) =>
      var s := if o.traffic.Some? then o.traffic.value else NO_TRAFFIC;
      o.(traffic := Some(Calibrated(s, o.gateway.quota, used, clear)))
  }

  function Run(o: One, evs: seq<Event>, next: Schedule, offset: int): One {
    if evs == [] then o else Step(Run(o, evs[..|evs| - 1], next, offset), evs[|evs| - 1], next, offset)
  }

  function Total(log: seq<Entry>, d: Direction): int {
    if log == [] then 0 else Total(log[..|log| - 1], d) + log[|log| - 1].Bytes(d)
  }

  predicate Nonnegative(log: seq<Entry>) { forall i :: 0 <= i < |log| ==> log[i].tx >= 0 && log[i].rx >= 0 }

  // Counters held from the firewall are never negative.
  predicate Sane(s: Option<Traffic>) {
    s.Some? ==> s.value.lastTX >= 0 && s.value.lastRX >= 0 && 0 <= s.value.tx <= MAX && 0 <= s.value.rx <= MAX
  }

  lemma CountedSane(g: Gateway, s: Traffic, c: Counters, now: int)
    requires Sane(Some(s)) && c.Usable()
    ensures Sane(Some(Counted(g, s, c, now))) && RecordOf(g, s, c).tx >= 0 && RecordOf(g, s, c).rx >= 0
  {
  }

  lemma SampledSane(g: Gateway, prev: Option<Traffic>, c: Option<Counters>, now: int, next: Schedule, offset: int)
    requires Sane(prev)
    ensures Sane(Some(SampleOne(g, prev, c, now, next))) && Nonnegative(SampleEntries(g, prev, c, now, next, offset))
  {
    hide Counted, RecordOf, Day;
    if Read(g, c) { CountedSane(g, Started(g, prev, now, next), c.value, now); }
  }

  lemma StepSane(o: One, ev: Event, next: Schedule, offset: int)
    requires Sane(o.traffic) && Nonnegative(o.log)
    ensures var r := Step(o, ev, next, offset); Sane(r.traffic) && Nonnegative(r.log) && o.log <= r.log
  {
    hide SampleOne, SampleEntries;
    if ev.Reading? { SampledSane(o.gateway, o.traffic, ev.counters, ev.now, next, offset); }
  }

  /** Nothing ever shortens the record or takes bytes from it: not a reset of the
      allowance, not disabling, changing or deleting the gateway, not calibration,
      not a failed reading. */
  lemma {:induction false} RecordNeverReduced(o: One, evs: seq<Event>, next: Schedule, offset: int)
    requires Sane(o.traffic) && Nonnegative(o.log)
    ensures var r := Run(o, evs, next, offset); Sane(r.traffic) && Nonnegative(r.log) && o.log <= r.log
  {
    if evs != [] {
      var n := |evs| - 1;
      RecordNeverReduced(o, evs[..n], next, offset);
      StepSane(Run(o, evs[..n], next, offset), evs[n], next, offset);
    }
  }

  function Last(s: Option<Traffic>, d: Direction): int {
    if s.None? then 0 else if d == TX then s.value.lastTX else s.value.lastRX
  }

  function Counter(c: Counters, d: Direction): int { if d == TX then c.tx else c.rx }

  predicate SameRules(s: Traffic, c: Counters, d: Direction) {
    if d == TX then c.txGeneration == s.txGeneration && c.tx >= s.lastTX
    else c.rxGeneration == s.rxGeneration && c.rx >= s.lastRX
  }

  // The gateway is known and stays with one peer.
  predicate SamePeer(o: One, evs: seq<Event>) {
    o.traffic.Some? && o.traffic.value.initialized && o.traffic.value.peer == o.gateway.peer &&
    forall i :: 0 <= i < |evs| ==> !evs[i].Remove? && (evs[i].Configure? ==> evs[i].gateway.peer == o.gateway.peer)
  }

  // The last counters of every set of rules that was replaced or started over.
  function Banked(o: One, evs: seq<Event>, next: Schedule, offset: int, d: Direction): int {
    if evs == [] then 0
    else
      var n := |evs| - 1;
      var before, ev := Run(o, evs[..n], next, offset), evs[n];
      Banked(o, evs[..n], next, offset, d) +
        if ev.Reading? && Read(before.gateway, ev.counters) && before.traffic.Some? &&
          !SameRules(before.traffic.value, ev.counters.value, d)
        then Last(before.traffic, d) else 0
  }

  lemma {:induction false} StaysWithPeer(o: One, evs: seq<Event>, next: Schedule, offset: int)
    requires SamePeer(o, evs)
    ensures var r := Run(o, evs, next, offset);
      r.gateway.peer == o.gateway.peer && r.traffic.Some? && r.traffic.value.initialized &&
        r.traffic.value.peer == o.gateway.peer
  {
    if evs != [] { StaysWithPeer(o, evs[..|evs| - 1], next, offset); }
  }

  lemma EntriesTotal(r: Record, now: int, previous: int, offset: int, log: seq<Entry>, d: Direction)
    ensures Total(log + EntriesOf(r, now, previous, offset), d) == Total(log, d) + if d == TX then r.tx else r.rx
  {
    var es := EntriesOf(r, now, previous, offset);
    assert (log + [es[0]])[..|log|] == log;
    if |es| == 2 { assert (log + es)[..|log| + 1] == log + [es[0]]; }
  }

  /** With one peer, the daily record grows exactly by what the counters grew: the
      last counters of every set of firewall rules, less the first baseline. No
      reset, failed reading, pause or calibration in between matters. */
  lemma {:induction false} RecordTelescopes(o: One, evs: seq<Event>, next: Schedule, offset: int, d: Direction)
    requires SamePeer(o, evs)
    ensures var r := Run(o, evs, next, offset);
      Total(r.log, d) - Total(o.log, d) == Banked(o, evs, next, offset, d) + Last(r.traffic, d) - Last(o.traffic, d)
  {
    if evs != [] {
      var n := |evs| - 1;
      RecordTelescopes(o, evs[..n], next, offset, d);
      StaysWithPeer(o, evs[..n], next, offset);
      StepTelescopes(Run(o, evs[..n], next, offset), evs[n], next, offset, d);
    }
  }

  lemma StepTelescopes(o: One, ev: Event, next: Schedule, offset: int, d: Direction)
    requires SamePeer(o, [ev])
    ensures var r := Step(o, ev, next, offset);
      Total(r.log, d) - Total(o.log, d) == Last(r.traffic, d) - Last(o.traffic, d) +
        if ev.Reading? && Read(o.gateway, ev.counters) && !SameRules(o.traffic.value, ev.counters.value, d)
        then Last(o.traffic, d) else 0
  {
    assert ev == [ev][0];
    if ev.Reading? && Read(o.gateway, ev.counters) {
      var s := Started(o.gateway, o.traffic, ev.now, next);
      EntriesTotal(RecordOf(o.gateway, s, ev.counters.value), ev.now, s.lastSuccessAt, offset, o.log, d);
    } else if ev.Reading? {
      assert o.log + [] == o.log;
    }
  }

  /* ---------- checkpoints and crashes ---------- */

  // A gateway with what is banked of rules replaced: the state of the panel, of a
  // save under way, or of the database.
  datatype Books = Books(one: One, bankTX: int, bankRX: int) {
    function Bank(d: Direction): int { if d == TX then bankTX else bankRX }
  }

  // Each save commits the state and the record together, as they were when it began.
  datatype Desk = Desk(live: Books, flight: Option<Books>, disk: Books)

  datatype Turn = Happens(ev: Event) | Take | Commit | Abort | Crash

  function Added(o: One, ev: Event, d: Direction): int {
    if ev.Reading? && Read(o.gateway, ev.counters) && o.traffic.Some? &&
      !SameRules(o.traffic.value, ev.counters.value, d)
    then Last(o.traffic, d) else 0
  }

  function Forward(b: Books, ev: Event, next: Schedule, offset: int): Books {
    Books(Step(b.one, ev, next, offset), b.bankTX + Added(b.one, ev, TX), b.bankRX + Added(b.one, ev, RX))
  }

  // A crash goes back to the last commit; the configuration has its own file.
  function Turned(k: Desk, t: Turn, next: Schedule, offset: int): Desk {
    match t
    case Happens(ev) => k.(live := Forward(k.live, ev, next, offset))
    case Take => if k.flight.None? then k.(flight := Some(k.live)) else k
    case Commit => if k.flight.Some? then k.(disk := k.flight.value, flight := None) else k
    case Abort => k.(flight := None)
    case Crash => k.(live := k.disk.(one := k.disk.one.(gateway := k.live.one.gateway)), flight := None)
  }

  function After(k: Desk, ts: seq<Turn>, next: Schedule, offset: int): Desk {
    if ts == [] then k else Turned(After(k, ts[..|ts| - 1], next, offset), ts[|ts| - 1], next, offset)
  }

  // A fresh start from a committed state.
  predicate Opened(k: Desk) { k.live == k.disk && k.flight.None? && k.live.bankTX == 0 && k.live.bankRX == 0 }

  predicate PeerStays(k: Desk, ts: seq<Turn>) {
    SamePeer(k.live.one, []) &&
    forall i :: 0 <= i < |ts| && ts[i].Happens? ==>
      !ts[i].ev.Remove? && (ts[i].ev.Configure? ==> ts[i].ev.gateway.peer == k.live.one.gateway.peer)
  }

  // The record of b since o: what is banked and the last baseline, less the first.
  ghost predicate Balanced(o: One, b: Books, d: Direction) {
    Total(b.one.log, d) - Total(o.log, d) == b.Bank(d) + Last(b.one.traffic, d) - Last(o.traffic, d)
  }

  // Known to the peer of the run, and balanced.
  ghost predicate InOrder(o: One, b: Books, peer: string) {
    SamePeer(b.one, []) && b.one.gateway.peer == peer && Balanced(o, b, TX) && Balanced(o, b, RX)
  }

  lemma ForwardInOrder(o: One, b: Books, ev: Event, next: Schedule, offset: int, peer: string)
    requires InOrder(o, b, peer) && !ev.Remove? && (ev.Configure? ==> ev.gateway.peer == peer)
    ensures InOrder(o, Forward(b, ev, next, offset), peer)
  {
    assert SamePeer(b.one, [ev]);
    StepTelescopes(b.one, ev, next, offset, TX);
    StepTelescopes(b.one, ev, next, offset, RX);
    StaysWithPeer(b.one, [ev], next, offset);
    assert [ev][..0] == [] && Run(b.one, [ev], next, offset) == Step(b.one, ev, next, offset);
  }

  lemma {:induction false} DeskInOrder(k: Desk, ts: seq<Turn>, next: Schedule, offset: int)
    requires Opened(k) && PeerStays(k, ts)
    ensures var z := After(k, ts, next, offset); var peer := k.live.one.gateway.peer;
      InOrder(k.live.one, z.live, peer) && InOrder(k.live.one, z.disk, peer) &&
      (z.flight.Some? ==> InOrder(k.live.one, z.flight.value, peer))
  {
    if ts != [] {
      var n := |ts| - 1;
      DeskInOrder(k, ts[..n], next, offset);
      if ts[n].Happens? {
        ForwardInOrder(k.live.one, After(k, ts[..n], next, offset).live, ts[n].ev, next, offset,
          k.live.one.gateway.peer);
      }
    }
  }

  /** With one peer and any saves, failed saves and crashes in between, the record
      that lasts and the one in memory have each grown by the last counters of
      every set of rules they saw replaced, less the first baseline. */
  lemma RecordSurvivesCrashes(k: Desk, ts: seq<Turn>, next: Schedule, offset: int, d: Direction)
    requires Opened(k) && PeerStays(k, ts)
    ensures var z := After(k, ts, next, offset); Balanced(k.live.one, z.live, d) && Balanced(k.live.one, z.disk, d)
  {
    DeskInOrder(k, ts, next, offset);
  }

  // The baseline is of these rules, and not above these counters.
  predicate NotAbove(o: One, c: Counters) {
    o.traffic.Some? && o.traffic.value.txGeneration == c.txGeneration &&
      o.traffic.value.rxGeneration == c.rxGeneration &&
    o.traffic.value.lastTX <= c.tx && o.traffic.value.lastRX <= c.rx
  }

  predicate CountersOfTurn(t: Turn) { t.Happens? && t.ev.Reading? && t.ev.counters.Some? }

  // The kernel keeps one set of rules, and its counters only grow.
  predicate OneRuleSet(k: Desk, ts: seq<Turn>) {
    forall n :: 0 <= n < |ts| && CountersOfTurn(ts[n]) ==>
      NotAbove(k.live.one, ts[n].ev.counters.value) &&
      forall m :: 0 <= m < n && CountersOfTurn(ts[m]) ==> Grown(ts[m].ev.counters.value, ts[n].ev.counters.value)
  }

  predicate Grown(c: Counters, e: Counters) {
    c.txGeneration == e.txGeneration && c.rxGeneration == e.rxGeneration && c.tx <= e.tx && c.rx <= e.rx
  }

  // Nothing was banked, and no baseline is above c.
  predicate Waits(b: Books, c: Counters) { NotAbove(b.one, c) && b.bankTX == 0 && b.bankRX == 0 }

  lemma ForwardWaits(b: Books, ev: Event, next: Schedule, offset: int, c: Counters)
    requires Waits(b, c) && !ev.Remove?
    requires ev.Reading? && ev.counters.Some? ==> NotAbove(b.one, ev.counters.value) && Grown(ev.counters.value, c)
    ensures Waits(Forward(b, ev, next, offset), c)
  {
  }

  ghost predicate AllWait(k: Desk, c: Counters) {
    Waits(k.live, c) && Waits(k.disk, c) && (k.flight.Some? ==> Waits(k.flight.value, c))
  }

  // c is at or above everything read in ts.
  lemma {:induction false} DeskWaits(k: Desk, ts: seq<Turn>, next: Schedule, offset: int, c: Counters)
    requires Opened(k) && PeerStays(k, ts) && OneRuleSet(k, ts) && NotAbove(k.live.one, c)
    requires forall n :: 0 <= n < |ts| && CountersOfTurn(ts[n]) ==> Grown(ts[n].ev.counters.value, c)
    ensures AllWait(After(k, ts, next, offset), c)
    decreases |ts|
  {
    if ts != [] {
      var n := |ts| - 1;
      var before := ts[..n];
      assert OneRuleSet(k, before) && PeerStays(k, before);
      DeskWaits(k, before, next, offset, c);
      if ts[n].Happens? {
        var live := After(k, before, next, offset).live;
        if CountersOfTurn(ts[n]) { DeskWaits(k, before, next, offset, ts[n].ev.counters.value); }
        ForwardWaits(live, ts[n].ev, next, offset, c);
      }
    }
  }

  // The last counters read, or the first baseline.
  lemma {:induction false} LatestCounters(k: Desk, ts: seq<Turn>) returns (c: Counters)
    requires PeerStays(k, ts) && OneRuleSet(k, ts)
    ensures NotAbove(k.live.one, c)
    ensures forall n :: 0 <= n < |ts| && CountersOfTurn(ts[n]) ==> Grown(ts[n].ev.counters.value, c)
    decreases |ts|
  {
    if ts == [] {
      var s := k.live.one.traffic.value;
      c := Counters(s.lastTX, s.lastRX, s.txGeneration, s.rxGeneration);
    } else if CountersOfTurn(ts[|ts| - 1]) {
      c := ts[|ts| - 1].ev.counters.value;
    } else {
      assert OneRuleSet(k, ts[..|ts| - 1]) && PeerStays(k, ts[..|ts| - 1]);
      c := LatestCounters(k, ts[..|ts| - 1]);
      forall n | 0 <= n < |ts| && CountersOfTurn(ts[n]) ensures Grown(ts[n].ev.counters.value, c) {
        assert n < |ts| - 1 && ts[..|ts| - 1][n] == ts[n];
      }
    }
  }

  /** A crash neither loses nor repeats a byte: while the kernel keeps its rules,
      the record, in memory as in the database, has grown by exactly what its last
      baseline is above the first, however often the panel crashed. */
  lemma CrashesCountOnce(k: Desk, ts: seq<Turn>, next: Schedule, offset: int, d: Direction)
    requires Opened(k) && PeerStays(k, ts) && OneRuleSet(k, ts)
    ensures var z, o := After(k, ts, next, offset), k.live.one;
      && Total(z.live.one.log, d) - Total(o.log, d) == Last(z.live.one.traffic, d) - Last(o.traffic, d)
      && Total(z.disk.one.log, d) - Total(o.log, d) == Last(z.disk.one.traffic, d) - Last(o.traffic, d)
  {
    var c := LatestCounters(k, ts);
    RecordSurvivesCrashes(k, ts, next, offset, d);
    DeskWaits(k, ts, next, offset, c);
  }

  /** A change of the configuration touches no usage and no counter, and gives up the
      baseline exactly when the peer changes; so no byte of another peer is counted
      and none of the same one is lost. */
  lemma ConfiguringCounts(g: Gateway, s: Traffic, now: int, next: Schedule)
    ensures var t := Configured(g, Some(s), now, next);
      && t.tx == s.tx && t.rx == s.rx && t.lastTX == s.lastTX && t.lastRX == s.lastRX
      && t.txGeneration == s.txGeneration && t.rxGeneration == s.rxGeneration && t.lastSuccessAt == s.lastSuccessAt
      && t.periodStartedAt == s.periodStartedAt && t.adjustment == s.adjustment
      && (s.initialized ==> (FirstContact(g, t) <==> s.peer != g.peer))
      && (t.nextResetAt != s.nextResetAt ==> s.reset != g.reset)
  {
  }

  // No event of the run clears or recalibrates the period.
  predicate OnePeriod(o: One, evs: seq<Event>, next: Schedule, offset: int) {
    evs == [] ||
    var n := |evs| - 1;
    var before, ev := Run(o, evs[..n], next, offset), evs[n];
    OnePeriod(o, evs[..n], next, offset) && before.traffic.Some? &&
      (ev.Configure? || (ev.Reading? && !Due(before.traffic.value, ev.now)))
  }

  function Used(s: Option<Traffic>, d: Direction): int {
    if s.None? then 0 else if d == TX then s.value.tx else s.value.rx
  }

  // The usage of r is that of o and the growth of the record since, capped.
  ghost predicate UsageFollows(o: One, r: One, d: Direction) {
    o.traffic.Some? && r.traffic.Some? && r.traffic.value.adjustment == o.traffic.value.adjustment &&
    Total(r.log, d) >= Total(o.log, d) &&
      Used(r.traffic, d) == Cap(Used(o.traffic, d) + Total(r.log, d) - Total(o.log, d))
  }

  lemma UsageFollowsOn(o: One, p: One, r: One, d: Direction)
    requires UsageFollows(o, p, d) && UsageFollows(p, r, d)
    ensures UsageFollows(o, r, d)
  {
  }

  /** Between resets the period usage is the growth of the daily record, capped. */
  lemma {:induction false} PeriodFollowsRecord(o: One, evs: seq<Event>, next: Schedule, offset: int, d: Direction)
    requires o.traffic.Some? && Sane(o.traffic) && Nonnegative(o.log) && OnePeriod(o, evs, next, offset)
    ensures UsageFollows(o, Run(o, evs, next, offset), d)
  {
    if evs != [] {
      var n := |evs| - 1;
      var before := Run(o, evs[..n], next, offset);
      PeriodFollowsRecord(o, evs[..n], next, offset, d);
      RecordNeverReduced(o, evs[..n], next, offset);
      StepPeriod(before, evs[n], next, offset, d);
      UsageFollowsOn(o, before, Step(before, evs[n], next, offset), d);
    }
  }

  lemma StepPeriod(o: One, ev: Event, next: Schedule, offset: int, d: Direction)
    requires o.traffic.Some? && Sane(o.traffic) && Nonnegative(o.log)
    requires ev.Configure? || (ev.Reading? && !Due(o.traffic.value, ev.now))
    ensures UsageFollows(o, Step(o, ev, next, offset), d)
  {
    if ev.Reading? && Read(o.gateway, ev.counters) {
      EntriesTotal(RecordOf(o.gateway, o.traffic.value, ev.counters.value), ev.now, o.traffic.value.lastSuccessAt,
        offset, o.log, d);
    } else if ev.Reading? {
      assert o.log + [] == o.log;
    }
  }

  /* ---------- the hard limit ---------- */

  predicate OverHardLimit(g: Gateway, s: Traffic) {
    g.enabled && g.stopOnQuota && g.quota.stop.Some? && g.quota.stop.value > 0 &&
      ProviderUsage(s, g.quota) >= g.quota.stop.value
  }

  method GatewaysOverHardLimit(gateways: seq<Gateway>, egress: States) returns (paused: set<string>)
    ensures forall id :: id in paused <==>
      exists g <- gateways :: g.id == id && OverHardLimit(g, if id in egress then egress[id] else NO_TRAFFIC)
  {
    paused := {};
    for n := 0 to |gateways|
      invariant forall id :: id in paused <==>
        exists i ::
          0 <= i < n && gateways[i].id == id &&
            OverHardLimit(gateways[i], if id in egress then egress[id] else NO_TRAFFIC)
    {
      var g := gateways[n];
      if g.enabled && g.stopOnQuota {
        var s := if g.id in egress then egress[g.id] else NO_TRAFFIC;
        if g.quota.stop.Some? && g.quota.stop.value > 0 && ProviderUsage(s, g.quota) >= g.quota.stop.value {
          paused := paused + {g.id};
        }
      }
    }
  }

  lemma UsageMonotone(s: Traffic, t: Traffic, q: Quota)
    requires 0 <= s.tx <= t.tx <= MAX && 0 <= s.rx <= t.rx <= MAX && s.adjustment == t.adjustment
    ensures ProviderUsage(s, q) <= ProviderUsage(t, q)
  {
  }

  /** A paused gateway stays paused for the rest of its period, as long as its
      configuration does. */
  lemma PausedUntilReset(o: One, evs: seq<Event>, next: Schedule, offset: int)
    requires o.traffic.Some? && Sane(o.traffic) && Nonnegative(o.log) && OnePeriod(o, evs, next, offset)
    requires OverHardLimit(o.gateway, o.traffic.value) && Run(o, evs, next, offset).gateway == o.gateway
    ensures var r := Run(o, evs, next, offset); r.traffic.Some? && OverHardLimit(r.gateway, r.traffic.value)
  {
    PeriodFollowsRecord(o, evs, next, offset, TX);
    PeriodFollowsRecord(o, evs, next, offset, RX);
    RecordNeverReduced(o, evs, next, offset);
    UsageMonotone(o.traffic.value, Run(o, evs, next, offset).traffic.value, o.gateway.quota);
  }

  /** Calibration makes the estimate the provider's figure. */
  lemma CalibrationExact(s: Traffic, q: Quota, used: int)
    requires 0 <= s.tx <= MAX && 0 <= s.rx <= MAX && 0 <= used <= MAX && q.billingMode != ""
    ensures ProviderUsage(Calibrated(s, q, used, false), q) == used
  {
  }

  /* ---------- the tracker's own fields ---------- */

  class GatewayTracker {
    const next: Schedule
    const offset: int
    var egress: States
    var egressAccountingPending: bool
    var pendingGatewayHistory: Rows

    constructor (next: Schedule, offset: int, egress: States, pending: bool)
      ensures this.egress == egress && egressAccountingPending == pending && pendingGatewayHistory == map[]
      ensures this.next == next && this.offset == offset
    {
      this.next, this.offset, this.egress := next, offset, egress;
      egressAccountingPending, pendingGatewayHistory := pending, map[];
    }

    method RecordGatewayHistory(id: string, now: int, previous: int, tx: int, rx: int, partial: bool)
      modifies this`pendingGatewayHistory
      ensures pendingGatewayHistory ==
        AddAll(old(pendingGatewayHistory), id, EntriesOf(Record(tx, rx, partial), now, previous, offset))
    {
      ghost var first, es := pendingGatewayHistory, EntriesOf(Record(tx, rx, partial), now, previous, offset);
      var gap := previous != 0 && now - previous > 15;
      var key := (id, Day(now, offset));
      var usage := Row(pendingGatewayHistory, key);
      usage := Usage(AddSaturating(usage.tx, tx), AddSaturating(usage.rx, rx),
        usage.partial || partial || gap || previous == 0);
      pendingGatewayHistory := pendingGatewayHistory[key := usage];
      assert es[..1] == [es[0]] && es[..1][..0] == [];
      assert pendingGatewayHistory == AddAll(first, id, es[..1]);
      if gap {
        key := (id, Day(previous, offset));
        usage := Row(pendingGatewayHistory, key);
        pendingGatewayHistory := pendingGatewayHistory[key := usage.(partial := true)];
      }
    }

    /** A usable reading of one gateway. */
    method CountSample(g: Gateway, s: Traffic, c: Counters, now: int) returns (t: Traffic)
      modifies this`pendingGatewayHistory
      ensures t == Counted(g, s, c, now)
      ensures pendingGatewayHistory ==
        AddAll(old(pendingGatewayHistory), g.id, EntriesOf(RecordOf(g, s, c), now, s.lastSuccessAt, offset))
    {
      t := s;
      var tx, rx := 0, 0;
      var partial := !s.initialized || s.peer != g.peer;
      if !partial {
        tx := CounterDelta(c.tx, s.lastTX, c.txGeneration, s.txGeneration);
        rx := CounterDelta(c.rx, s.lastRX, c.rxGeneration, s.rxGeneration);
        partial := c.txGeneration != s.txGeneration || c.rxGeneration != s.rxGeneration || c.tx < s.lastTX ||
          c.rx < s.lastRX;
        var crossedReset := s.lastSuccessAt != 0 && s.lastSuccessAt < s.periodStartedAt && (tx > 0 || rx > 0);
        var missedReset := crossedReset && (s.failureSince != 0 || now - s.lastSuccessAt > 15);
        t := t.(partial := t.partial || partial || missedReset);
        partial := partial || crossedReset;
        t := t.(tx := AddSaturating(t.tx, tx), rx := AddSaturating(t.rx, rx));
      }
      RecordGatewayHistory(g.id, now, s.lastSuccessAt, tx, rx, partial);
      t := t.(initialized := true, peer := g.peer, lastTX := c.tx, lastRX := c.rx, txGeneration := c.txGeneration,
        rxGeneration := c.rxGeneration, status := Healthy, lastSuccessAt := now, failureSince := 0);
    }

    /** One gateway of the sampling loop. */
    method SampleGateway(g: Gateway, c: Option<Counters>, now: int)
      modifies this`egress, this`pendingGatewayHistory
      ensures egress == old(egress)[g.id := SampleOne(g, Lookup(old(egress), g.id), c, now, next)]
      ensures pendingGatewayHistory ==
        AddAll(old(pendingGatewayHistory), g.id, SampleEntries(g, Lookup(old(egress), g.id), c, now, next, offset))
    {
      var s := if g.id in egress then egress[g.id] else New(g, now, next);
      if s.nextResetAt != 0 && now >= s.nextResetAt {
        s := s.(tx := 0, rx := 0, periodStartedAt := now, nextResetAt := next(now, g.reset), partial := false,
          adjustment := NO_ADJUSTMENT);
      }
      if !g.enabled {
        egress := egress[g.id := s.(status := Disabled)];
        return;
      }
      if c.None? || c.value.tx < 0 || c.value.rx < 0 {
        s := s.(status := Interrupted);
        if s.failureSince == 0 { s := s.(failureSince := now); }
        egress := egress[g.id := s];
        return;
      }
      s := CountSample(g, s, c.value, now);
      egress := egress[g.id := s];
    }

    /** sampleGateways, with what the firewall counters read. */
    method SampleGateways(gateways: seq<Gateway>, r: Readings, now: int)
      modifies this
      ensures egressAccountingPending == r.None?
      ensures egress == SampleAll(old(egress), gateways, r, now, next)
      ensures pendingGatewayHistory ==
        RecordAll(old(pendingGatewayHistory), old(egress), gateways, r, now, next, offset)
    {
      egressAccountingPending := r.None?;
      for n := 0 to |gateways|
        invariant egressAccountingPending == r.None?
        invariant egress == SampleAll(old(egress), gateways[..n], r, now, next)
        invariant pendingGatewayHistory ==
          RecordAll(old(pendingGatewayHistory), old(egress), gateways[..n], r, now, next, offset)
      {
        assert gateways[..n + 1][..n] == gateways[..n];
        SampleGateway(gateways[n], CountersOf(r, gateways[n].id), now);
      }
      assert gateways[..|gateways|] == gateways;
    }

    /** The configuration part of CommitEgressChange; a sample of the new gateways follows. */
    method CommitEgressChange(before: seq<Gateway>, after: seq<Gateway>, now: int)
      modifies this`egress, this`egressAccountingPending
      ensures egressAccountingPending == (old(egressAccountingPending) || exists g <- before :: g.enabled)
      ensures forall id :: id in egress <==> HasId(after, id)
      ensures UniqueIds(after) ==>
        forall g <- after :: Lookup(egress, g.id) == Some(Configured(g, Lookup(old(egress), g.id), now, next))
    {
      var enabled := exists g <- before :: g.enabled;
      egressAccountingPending := egressAccountingPending || enabled;
      ghost var first := egress;
      for n := 0 to |after|
        invariant egressAccountingPending == (old(egressAccountingPending) || exists g <- before :: g.enabled)
        invariant egress == ConfigureAll(first, after[..n], now, next)
      {
        assert after[..n + 1][..n] == after[..n];
        var g := after[n];
        var s := ConfigureGateway(g, now);
        egress := egress[g.id := s];
      }
      assert after[..|after|] == after;
      ConfigureAllAt(first, after, now, next);
      egress := map id | id in egress && HasId(after, id) :: egress[id];
    }

    method ConfigureGateway(g: Gateway, now: int) returns (s: Traffic)
      ensures s == Configured(g, Lookup(egress, g.id), now, next)
    {
      var known := g.id in egress;
      s := if known then egress[g.id] else NO_TRAFFIC.(periodStartedAt := now);
      if s.reset != g.reset || !known { s := s.(reset := g.reset, nextResetAt := next(now, g.reset)); }
      if s.peer != g.peer { s := s.(initialized := false, peer := g.peer); }
      if !g.enabled { s := s.(status := Disabled); }
    }

    /** ResetGateway, after its sample. */
    method ResetGateway(g: Gateway, now: int)
      modifies this`egress
      ensures egress ==
        old(egress)[g.id :=
          Cleared(if g.id in old(egress) then old(egress)[g.id] else NO_TRAFFIC, now, next(now, g.reset))]
    {
      var s := if g.id in egress then egress[g.id] else NO_TRAFFIC;
      s := s.(tx := 0, rx := 0, periodStartedAt := now, nextResetAt := next(now, g.reset), partial := false,
        adjustment := NO_ADJUSTMENT);
      egress := egress[g.id := s];
    }
  }

  function ConfigureAll(egress: States, gateways: seq<Gateway>, now: int, next: Schedule): States {
    if gateways == [] then egress
    else
      var n := |gateways| - 1;
      var before, g := ConfigureAll(egress, gateways[..n], now, next), gateways[n];
      before[g.id := Configured(g, Lookup(before, g.id), now, next)]
  }

  lemma {:induction false} ConfigureAllAt(egress: States, gateways: seq<Gateway>, now: int, next: Schedule)
    ensures var r := ConfigureAll(egress, gateways, now, next);
      (forall id :: id in r <==> id in egress || HasId(gateways, id)) &&
      (forall id :: !HasId(gateways, id) ==> Lookup(r, id) == Lookup(egress, id)) &&
      (UniqueIds(gateways) ==>
        forall g <- gateways :: Lookup(r, g.id) == Some(Configured(g, Lookup(egress, g.id), now, next)))
  {
    if gateways != [] {
      var n := |gateways| - 1;
      ConfigureAllAt(egress, gateways[..n], now, next);
      forall id ensures HasId(gateways, id) <==> HasId(gateways[..n], id) || gateways[n].id == id {
        HasIdLast(gateways, id);
      }
    }
  }
}
