/** internal/server/server.go, mutateChange and ReconcileGatewayPauses, with
    internal/core/manager.go, Apply: the saved configuration and the file the core
    runs from change together or not at all. */
module Transaction {
  import opened Options
  import opened Order
  import opened Egress
  import opened Credentials
  import opened Render

  // other is what is rendered besides gateways and inbounds, panel what is not rendered.
  datatype Config = Config(gateways: seq<Gateway>, inbounds: seq<Inbound>, other: string, panel: string)

  datatype File = File(doc: Document, other: string)

  function RenderFile(c: Config, paused: set<string>): File { File(Rendered(c.gateways, c.inbounds, paused), c.other) }

  /* ---------- Manager.Apply ---------- */

  // Which of its steps fail; restart is the one after the swap.
  datatype Faults = Faults(prepare: bool, check: bool, backup: bool, swap: bool, restart: bool, readBack: bool,
                           restore: bool)

  // What Apply does to the core file.
  function Applied(file: Option<File>, data: File, quotaExceeded: bool, f: Faults): (Option<File>, bool) {
    if f.prepare || f.check || (file.Some? && f.backup) || f.swap then (file, false)
    else if quotaExceeded || !f.restart then (Some(data), true)
    else if file.Some? && (f.readBack || f.restore) then (Some(data), false)
    else (file, false)
  }

  class Manager {
    var file: Option<File>
    var backup: Option<File>

    constructor (file: Option<File>)
      ensures this.file == file
    {
      this.file, backup := file, None;
    }

    /** Check, back up, swap, restart, and put the old file back when the core does
        not come up. */
    method Apply(data: File, quotaExceeded: bool, f: Faults) returns (ok: bool)
      modifies this
      ensures (file, ok) == Applied(old(file), data, quotaExceeded, f)
    {
      if f.prepare { return false; }
      if f.check { return false; }
      var hadOld := file.Some?;
      if hadOld {
        if f.backup { return false; }
        backup := file;
      }
      if f.swap { return false; }
      file := Some(data);
      if quotaExceeded { return true; }
      if !f.restart { return true; }
      if hadOld {
        if f.readBack { return false; }
        if f.restore { return false; }
        file := backup;
      } else {
        file := None;
      }
      return false;
    }
  }

  /* ---------- the transactions ---------- */

  datatype State = State(saved: Config, file: Option<File>, applied: set<string>)

  // invalid: the change, the credentials or the validation fail. undo: saving the
  // old configuration back fails.
  datatype Outcome = Outcome(invalid: bool, save: bool, persist: bool, undo: bool, apply: Faults)

  datatype Event =
    | Mutate(next: Config, desired: set<string>, quotaExceeded: bool, outcome: Outcome)
    | Reconcile(pauses: set<string>, quotaExceeded: bool, faults: Faults)

  function Bare(i: Inbound): Inbound { i.(credentials := []) }

  predicate EqualDirectInbounds(a: seq<Inbound>, b: seq<Inbound>) {
    |a| == |b| && forall k :: 0 <= k < |a| ==> Bare(a[k]) == Bare(b[k])
  }

  // The core runs from a file that already is what the next configuration renders.
  predicate Unchanged(s: State, next: Config, desired: set<string>) {
    RenderFile(s.saved, s.applied) == RenderFile(next, desired) && EqualDirectInbounds(s.saved.inbounds, next.inbounds)
  }

  function Mutated(s: State, ev: Event): (State, bool)
    requires ev.Mutate?
  {
    var o := ev.outcome;
    if o.invalid || o.save then (s, false)
    else if o.persist then (if o.undo then s.(saved := ev.next) else s, false)
    else if Unchanged(s, ev.next, ev.desired) then (s.(saved := ev.next), true)
    else
      var (file, ok) := Applied(s.file, RenderFile(ev.next, ev.desired), ev.quotaExceeded, o.apply);
      if ok then (State(ev.next, file, ev.desired), true)
      else (State(if o.undo then ev.next else s.saved, file, s.applied), false)
  }

  function Reconciled(s: State, ev: Event): (State, bool)
    requires ev.Reconcile?
  {
    if ev.pauses == s.applied then (s, true)
    else
      var (file, ok) := Applied(s.file, RenderFile(s.saved, ev.pauses), ev.quotaExceeded, ev.faults);
      (s.(file := file, applied := if ok then ev.pauses else s.applied), ok)
  }

  function Step(s: State, ev: Event): State { if ev.Mutate? then Mutated(s, ev).0 else Reconciled(s, ev).0 }

  function Run(s: State, evs: seq<Event>): State {
    if evs == [] then s else Step(Run(s, evs[..|evs| - 1]), evs[|evs| - 1])
  }

  class Server {
    var saved: Config
    var applied: set<string>
    const core: Manager

    constructor (saved: Config, core: Manager)
      ensures this.saved == saved && applied == {} && this.core == core
    {
      this.saved, applied, this.core := saved, {}, core;
    }

    ghost function Value(): State
      reads this, core
    {
      State(saved, core.file, applied)
    }

    /** mutateChange, once the next configuration is known. */
    method MutateChange(next: Config, desired: set<string>, quotaExceeded: bool, o: Outcome) returns (ok: bool)
      modifies this, core
      ensures (Value(), ok) == Mutated(old(Value()), Mutate(next, desired, quotaExceeded, o))
    {
      var before := saved;
      if o.invalid || o.save { return false; }
      saved := next;
      if o.persist {
        if !o.undo { saved := before; }
        return false;
      }
      var running, wanted := RenderFile(before, applied), RenderFile(next, desired);
      if running != wanted || !EqualDirectInbounds(before.inbounds, next.inbounds) {
        ok := core.Apply(wanted, quotaExceeded, o.apply);
        if !ok {
          if !o.undo { saved := before; }
          return;
        }
        applied := desired;
      }
      return true;
    }

    method ReconcileGatewayPauses(desired: set<string>, quotaExceeded: bool, f: Faults) returns (ok: bool)
      modifies this, core
      ensures (Value(), ok) == Reconciled(old(Value()), Reconcile(desired, quotaExceeded, f))
    {
      if desired == applied { return true; }
      ok := core.Apply(RenderFile(saved, desired), quotaExceeded, f);
      if ok { applied := desired; }
    }
  }

  /* ---------- documents determine pauses ---------- */

  // The enabled gateways and whether each is paused.
  function States(s: seq<Gateway>, paused: set<string>): seq<(string, bool)> {
    if s == [] then []
    else
      var n := |s| - 1;
      if s[n].enabled then States(s[..n], paused) + [(s[n].id, s[n].id in paused)] else States(s[..n], paused)
  }

  function FirstEnabled(inbounds: seq<Inbound>): Option<string> {
    if inbounds == [] then None
    else
      var n := |inbounds| - 1;
      var before := FirstEnabled(inbounds[..n]);
      if before.Some? then before else if inbounds[n].enabled then Some(inbounds[n].id) else None
  }

  lemma {:induction false} FirstUser(g: Gateway, inbounds: seq<Inbound>)
    ensures FirstEnabled(inbounds).None? ==> UsersOf(g, inbounds) == []
    ensures FirstEnabled(inbounds).Some? ==>
      UsersOf(g, inbounds) != [] && UsersOf(g, inbounds)[0] == EgressAuthUser(FirstEnabled(inbounds).value, g.id)
  {
    if inbounds != [] { FirstUser(g, inbounds[..|inbounds| - 1]); }
  }

  lemma {:induction false} SameFirst(a: seq<Inbound>, b: seq<Inbound>)
    requires EqualDirectInbounds(a, b)
    ensures FirstEnabled(a) == FirstEnabled(b)
  {
    if a != [] {
      var n := |a| - 1;
      SameFirst(a[..n], b[..n]);
      BareFields(a[n], b[n]);
    }
  }

  lemma BareFields(i: Inbound, j: Inbound)
    requires Bare(i) == Bare(j)
    ensures i.id == j.id && i.enabled == j.enabled
  {
    assert Bare(i).id == i.id && Bare(i).enabled == i.enabled && Bare(j).id == j.id && Bare(j).enabled == j.enabled;
  }

  lemma RulesForLast(g: Gateway, inbounds: seq<Inbound>, paused: set<string>)
    requires g.enabled && FirstEnabled(inbounds).Some?
    ensures var rs := RulesFor(g, inbounds, paused);
      if g.id in paused then |rs| == 1 && rs[0] == Reject(UsersOf(g, inbounds))
      else |rs| == 2 && rs[1] == Route(UsersOf(g, inbounds), EndpointTag(g.id))
  {
    FirstUser(g, inbounds);
  }

  lemma SameLast(g: Gateway, h: Gateway, a: seq<Inbound>, b: seq<Inbound>, p: set<string>, q: set<string>,
                 before: seq<Rule>, others: seq<Rule>)
    requires g.enabled && h.enabled && FirstEnabled(a).Some? && FirstEnabled(a) == FirstEnabled(b)
    requires before + RulesFor(g, a, p) == others + RulesFor(h, b, q)
    ensures g.id == h.id && (g.id in p <==> h.id in q) && before == others
  {
    var r, s := RulesFor(g, a, p), RulesFor(h, b, q);
    RulesForLast(g, a, p);
    RulesForLast(h, b, q);
    var all := before + r;
    assert all[|all| - 1] == r[|r| - 1] && all[|all| - 1] == s[|s| - 1];
    FirstUser(g, a);
    FirstUser(h, b);
    UserParts(FirstEnabled(a).value, g.id, h.id);
    assert |r| == |s| && all[..|all| - |r|] == before && all[..|all| - |r|] == others;
  }

  /** With an enabled inbound, the rules show which gateways are enabled and which
      of them are paused. */
  lemma {:induction false} RulesDetermine(s: seq<Gateway>, t: seq<Gateway>, a: seq<Inbound>, b: seq<Inbound>,
      p: set<string>, q: set<string>)
    requires FirstEnabled(a).Some? && FirstEnabled(a) == FirstEnabled(b)
    requires GatewayRules(s, a, p) == GatewayRules(t, b, q)
    ensures States(s, p) == States(t, q)
    decreases |s| + |t|
  {
    if s != [] && !s[|s| - 1].enabled {
      assert GatewayRules(s, a, p) == GatewayRules(s[..|s| - 1], a, p);
      RulesDetermine(s[..|s| - 1], t, a, b, p, q);
    } else if t != [] && !t[|t| - 1].enabled {
      assert GatewayRules(t, b, q) == GatewayRules(t[..|t| - 1], b, q);
      RulesDetermine(s, t[..|t| - 1], a, b, p, q);
    } else if s != [] && t != [] {
      SameLast(s[|s| - 1], t[|t| - 1], a, b, p, q, GatewayRules(s[..|s| - 1], a, p), GatewayRules(t[..|t| - 1], b, q));
      RulesDetermine(s[..|s| - 1], t[..|t| - 1], a, b, p, q);
    } else if s != [] {
      RulesForLast(s[|s| - 1], a, p);
    } else if t != [] {
      RulesForLast(t[|t| - 1], b, q);
    }
  }

  lemma {:induction false} StatesMember(s: seq<Gateway>, paused: set<string>, id: string, on: bool)
    ensures (id, on) in States(s, paused) <==> exists g <- s :: g.enabled && g.id == id && on == (g.id in paused)
  {
    if s != [] {
      var n := |s| - 1;
      StatesMember(s[..n], paused, id, on);
      forall g ensures g in s <==> g in s[..n] || g == s[n] {}
    }
  }

  // The two sets pause the same enabled gateways.
  ghost predicate Agree(s: seq<Gateway>, p: set<string>, q: set<string>) {
    forall g <- s | g.enabled :: g.id in p <==> g.id in q
  }

  lemma {:induction false} AgreeRenders(s: seq<Gateway>, inbounds: seq<Inbound>, p: set<string>, q: set<string>)
    requires Agree(s, p, q)
    ensures DocumentOf(s, inbounds, p) == DocumentOf(s, inbounds, q)
  {
    AgreeLists(s, inbounds, p, q);
  }

  lemma {:induction false} AgreeLists(s: seq<Gateway>, inbounds: seq<Inbound>, p: set<string>, q: set<string>)
    requires Agree(s, p, q)
    ensures GatewayRules(s, inbounds, p) == GatewayRules(s, inbounds, q) && Endpoints(s, p) == Endpoints(s, q) &&
      Resolvers(s, p) == Resolvers(s, q)
  {
    if s != [] {
      var n := |s| - 1;
      assert s[n] in s;
      AgreeLists(s[..n], inbounds, p, q);
    }
  }

  function InOrder(c: Config): seq<Gateway> { Sort(OrderedGateways(c.gateways), GatewayKey) }

  ghost predicate AgreeIn(c: Config, p: set<string>, q: set<string>) {
    forall g <- c.gateways | g.enabled :: g.id in p <==> g.id in q
  }

  lemma AgreeFile(c: Config, p: set<string>, q: set<string>)
    requires AgreeIn(c, p, q)
    ensures RenderFile(c, p) == RenderFile(c, q)
  {
    RenderedMembers(c.gateways);
    AgreeRenders(InOrder(c), c.inbounds, p, q);
  }

  /** With an enabled inbound, configurations that render alike under their own
      pauses agree on every enabled gateway. */
  lemma SameRulesSamePauses(a: Config, b: Config, p: set<string>, q: set<string>)
    requires RenderFile(a, p) == RenderFile(b, q) && EqualDirectInbounds(a.inbounds, b.inbounds) &&
      FirstEnabled(a.inbounds).Some?
    ensures AgreeIn(b, p, q)
  {
    var s, t := InOrder(a), InOrder(b);
    SameFirst(a.inbounds, b.inbounds);
    assert ([Sniff] + GatewayRules(s, a.inbounds, p))[1..] == GatewayRules(s, a.inbounds, p);
    assert ([Sniff] + GatewayRules(t, b.inbounds, q))[1..] == GatewayRules(t, b.inbounds, q);
    RulesDetermine(s, t, a.inbounds, b.inbounds, p, q);
    RenderedMembers(b.gateways);
    forall g | g in b.gateways && g.enabled ensures g.id in p <==> g.id in q {
      var on := g.id in q;
      StatesMember(t, q, g.id, on);
      StatesMember(s, p, g.id, on);
    }
  }

  /* ---------- no enabled inbound ---------- */

  function Keep(es: seq<Endpoint>, f: seq<Endpoint>): seq<Endpoint> {
    if es == [] then []
    else
      var n := |es| - 1;
      if es[n] in f then Keep(es[..n], f) + [es[n]] else Keep(es[..n], f)
  }

  lemma KeepLast(es: seq<Endpoint>, e: Endpoint, f: seq<Endpoint>)
    ensures Keep(es + [e], f) == if e in f then Keep(es, f) + [e] else Keep(es, f)
  {
    assert (es + [e])[..|es|] == es;
  }

  // The gateways p leaves running are those q leaves running whose endpoint is in f.
  ghost predicate Picks(s: seq<Gateway>, p: set<string>, q: set<string>, f: seq<Endpoint>) {
    forall g <- s | g.enabled :: (g.id !in p <==> EndpointOf(g) in f) && (g.id !in p ==> g.id !in q)
  }

  lemma {:induction false} EndpointsPicked(s: seq<Gateway>, p: set<string>, q: set<string>, f: seq<Endpoint>)
    requires Picks(s, p, q, f)
    ensures Endpoints(s, p) == Keep(Endpoints(s, q), f)
  {
    if s != [] {
      var n := |s| - 1;
      assert s[n] in s;
      EndpointsPicked(s[..n], p, q, f);
      KeepLast(Endpoints(s[..n], q), EndpointOf(s[n]), f);
    }
  }

  function ResolversOf(es: seq<Endpoint>): seq<Resolver> {
    if es == [] then [] else ResolversOf(es[..|es| - 1]) + [Resolver("dns-" + es[|es| - 1].tag, es[|es| - 1].tag)]
  }

  lemma {:induction false} ResolversFollow(s: seq<Gateway>, p: set<string>)
    ensures Resolvers(s, p) == ResolversOf(Endpoints(s, p))
  {
    if s != [] {
      var n := |s| - 1;
      ResolversFollow(s[..n], p);
      var es := Endpoints(s[..n], p);
      assert (es + [EndpointOf(s[n])])[..|es|] == es;
    }
  }

  lemma {:induction false} NoUsersNoRules(s: seq<Gateway>, inbounds: seq<Inbound>, p: set<string>)
    requires FirstEnabled(inbounds).None?
    ensures GatewayRules(s, inbounds, p) == []
  {
    if s != [] {
      NoUsersNoRules(s[..|s| - 1], inbounds, p);
      FirstUser(s[|s| - 1], inbounds);
    }
  }

  lemma {:induction false} NoneBuilt(s: seq<Gateway>, inbounds: seq<Inbound>)
    requires FirstEnabled(inbounds).None?
    ensures BuiltInbounds(inbounds, s) == []
  {
    if inbounds != [] { NoneBuilt(s, inbounds[..|inbounds| - 1]); }
  }

  lemma QuietFile(c: Config, p: set<string>)
    requires FirstEnabled(c.inbounds).None?
    ensures RenderFile(c, p) ==
      File(Document([], [Sniff], Endpoints(InOrder(c), p), ResolversOf(Endpoints(InOrder(c), p))), c.other)
  {
    NoUsersNoRules(InOrder(c), c.inbounds, p);
    NoneBuilt(InOrder(c), c.inbounds);
    ResolversFollow(InOrder(c), p);
  }

  // The pauses under which the next configuration renders these endpoints.
  ghost function Missing(c: Config, f: seq<Endpoint>): set<string> {
    set g | g in c.gateways && g.enabled && EndpointOf(g) !in f :: g.id
  }

  lemma MissingOf(c: Config, f: seq<Endpoint>, g: Gateway)
    requires UniqueGateways(c.gateways) && g in c.gateways && g.enabled
    ensures g.id in Missing(c, f) <==> EndpointOf(g) !in f
  {
    if g.id in Missing(c, f) {
      var h :| h in c.gateways && h.enabled && EndpointOf(h) !in f && h.id == g.id;
      UniqueId(c.gateways, g, h);
    }
  }

  lemma OldPicks(a: Config, p0: set<string>, p: set<string>)
    requires forall g <- a.gateways | g.enabled && g.id in p :: g.id in p0
    ensures Picks(InOrder(a), p0, p, Endpoints(InOrder(a), p0))
  {
    var s, f := InOrder(a), Endpoints(InOrder(a), p0);
    RenderedMembers(a.gateways);
    forall g | g in s && g.enabled ensures (g.id !in p0 <==> EndpointOf(g) in f) && (g.id !in p0 ==> g.id !in p) {
      EndpointsMembers(s, p0, EndpointOf(g));
      if EndpointOf(g) in f {
        var h :| h in s && Runs(h, p0) && EndpointOf(h) == EndpointOf(g);
        TagInjective(g.id, h.id);
      }
    }
  }

  lemma NextPicks(b: Config, q: set<string>, f: seq<Endpoint>)
    requires UniqueGateways(b.gateways) && forall e <- f :: e in Endpoints(InOrder(b), q)
    ensures Picks(InOrder(b), Missing(b, f), q, f)
  {
    var t := InOrder(b);
    RenderedMembers(b.gateways);
    forall g | g in t && g.enabled
      ensures (g.id !in Missing(b, f) <==> EndpointOf(g) in f) && (g.id !in Missing(b, f) ==> g.id !in q)
    {
      MissingOf(b, f, g);
      if EndpointOf(g) in f {
        EndpointsMembers(t, q, EndpointOf(g));
        var h :| h in t && Runs(h, q) && EndpointOf(h) == EndpointOf(g);
        TagInjective(g.id, h.id);
      }
    }
  }

  lemma KeptRun(s: seq<Gateway>, p0: set<string>, p: set<string>)
    requires forall g <- s | g.enabled && g.id in p :: g.id in p0
    ensures forall e <- Endpoints(s, p0) :: e in Endpoints(s, p)
  {
    forall e | e in Endpoints(s, p0) ensures e in Endpoints(s, p) {
      EndpointsMembers(s, p0, e);
      EndpointsMembers(s, p, e);
    }
  }

  /** Without an enabled inbound pauses may drift, but what the core runs from is
      still a rendering of the next configuration, pausing at least what is recorded. */
  lemma QuietSkip(a: Config, b: Config, p0: set<string>, p: set<string>, q: set<string>)
    requires FirstEnabled(a.inbounds).None? && EqualDirectInbounds(a.inbounds, b.inbounds) && UniqueGateways(b.gateways)
    requires RenderFile(a, p) == RenderFile(b, q) && forall g <- a.gateways | g.enabled && g.id in p :: g.id in p0
    ensures var f := Endpoints(InOrder(a), p0);
      RenderFile(b, Missing(b, f)) == RenderFile(a, p0) &&
        forall g <- b.gateways | g.enabled && g.id in p :: g.id in Missing(b, f)
  {
    var s, t := InOrder(a), InOrder(b);
    var f := Endpoints(s, p0);
    SameFirst(a.inbounds, b.inbounds);
    QuietFile(a, p);
    QuietFile(a, p0);
    QuietFile(b, q);
    QuietFile(b, Missing(b, f));
    RenderedMembers(a.gateways);
    KeptRun(s, p0, p);
    OldPicks(a, p0, p);
    NextPicks(b, q, f);
    EndpointsPicked(s, p0, p, f);
    EndpointsPicked(t, Missing(b, f), q, f);
    forall g | g in b.gateways && g.enabled && g.id in p ensures g.id in Missing(b, f) {
      MissingOf(b, f, g);
      EndpointsMembers(s, p0, EndpointOf(g));
      if EndpointOf(g) in f {
        var h :| h in s && Runs(h, p0) && EndpointOf(h) == EndpointOf(g);
        TagInjective(g.id, h.id);
      }
    }
  }

  /* ---------- the invariant ---------- */

  // The file is the saved configuration rendered with these pauses: what is
  // recorded as applied and, when no inbound is enabled, possibly more.
  ghost predicate Rendering(s: State, paused: set<string>) {
    s.file == Some(RenderFile(s.saved, paused)) &&
    (forall g <- s.saved.gateways | g.enabled && g.id in s.applied :: g.id in paused) &&
    (FirstEnabled(s.saved.inbounds).Some? ==> AgreeIn(s.saved, paused, s.applied))
  }

  ghost predicate InStep(s: State) { exists paused :: Rendering(s, paused) }

  // Saved configurations passed the validation, and undoing succeeds.
  ghost predicate Undoable(ev: Event) {
    match ev
    case Mutate(next, _, _, o) => (o.invalid || UniqueGateways(next.gateways)) && !o.undo && !o.apply.readBack &&
      !o.apply.restore
    case Reconcile(_, _, f) => !f.readBack && !f.restore
  }

  lemma SkipInStep(s: State, next: Config, desired: set<string>)
    requires InStep(s) && Unchanged(s, next, desired) && UniqueGateways(next.gateways)
    ensures InStep(s.(saved := next))
  {
    var p0 :| Rendering(s, p0);
    if FirstEnabled(s.saved.inbounds).Some? {
      SameFirst(s.saved.inbounds, next.inbounds);
      SameRulesSamePauses(s.saved, next, s.applied, desired);
      AgreeFile(next, s.applied, desired);
      AgreeFile(s.saved, p0, s.applied);
      assert Rendering(s.(saved := next), s.applied);
    } else {
      SameFirst(s.saved.inbounds, next.inbounds);
      QuietSkip(s.saved, next, p0, s.applied, desired);
      assert Rendering(s.(saved := next), Missing(next, Endpoints(InOrder(s.saved), p0)));
    }
  }

  lemma AppliedInStep(saved: Config, paused: set<string>)
    ensures InStep(State(saved, Some(RenderFile(saved, paused)), paused))
  {
    assert Rendering(State(saved, Some(RenderFile(saved, paused)), paused), paused);
  }

  /** One transaction: a failed one changes neither the saved configuration nor the
      file, and a successful one leaves them in step. */
  lemma StepInStep(s: State, ev: Event)
    requires InStep(s) && Undoable(ev)
    ensures InStep(Step(s, ev))
    ensures ev.Mutate? && !Mutated(s, ev).1 ==> Step(s, ev) == s
    ensures ev.Reconcile? && !Reconciled(s, ev).1 ==> Step(s, ev) == s
    ensures ev.Mutate? && Mutated(s, ev).1 ==> Step(s, ev).saved == ev.next
  {
    match ev
    case Mutate(next, desired, _, o) =>
      if !o.invalid && Unchanged(s, next, desired) { SkipInStep(s, next, desired); }
      AppliedInStep(next, desired);
    case Reconcile(pauses, _, _) => AppliedInStep(s.saved, pauses);
  }

  /** Over any run with any faults but failing rollbacks, what the core runs from is
      a rendering of the saved configuration. */
  lemma {:induction false} AlwaysInStep(s: State, evs: seq<Event>)
    requires InStep(s) && forall i :: 0 <= i < |evs| ==> Undoable(evs[i])
    ensures InStep(Run(s, evs))
  {
    if evs != [] {
      var n := |evs| - 1;
      AlwaysInStep(s, evs[..n]);
      StepInStep(Run(s, evs[..n]), evs[n]);
    }
  }

  /* ---------- when a rollback fails ---------- */

  // The rendering of b shows which gateways it runs.
  lemma RunningShown(b: Config, p: set<string>, g: Gateway)
    requires UniqueGateways(b.gateways) && g in b.gateways && g.enabled
    ensures EndpointOf(g) in Endpoints(InOrder(b), p) <==> g.id !in p
  {
    RenderedMembers(b.gateways);
    EndpointsMembers(InOrder(b), p, EndpointOf(g));
    if EndpointOf(g) in Endpoints(InOrder(b), p) {
      var h :| h in InOrder(b) && Runs(h, p) && EndpointOf(h) == EndpointOf(g);
      TagInjective(g.id, h.id);
    }
  }

  lemma SameFileAgrees(b: Config, p: set<string>, q: set<string>)
    requires UniqueGateways(b.gateways)
    ensures RenderFile(b, p) == RenderFile(b, q) <==> AgreeIn(b, p, q)
  {
    if AgreeIn(b, p, q) { AgreeFile(b, p, q); }
    if RenderFile(b, p) == RenderFile(b, q) {
      forall g | g in b.gateways && g.enabled ensures g.id in p <==> g.id in q {
        RunningShown(b, p, g);
        RunningShown(b, q, g);
      }
    }
  }

  // b with what is recorded as applied renders what c renders under p; without an
  // enabled inbound, b with those gateways paused, at least, that c does not run.
  ghost predicate Rerenders(c: Config, p: set<string>, b: Config, applied: set<string>) {
    if FirstEnabled(b.inbounds).Some? then RenderFile(c, p) == RenderFile(b, applied)
    else
      var missing := Missing(b, Endpoints(InOrder(c), p));
      RenderFile(c, p) == RenderFile(b, missing) &&
        forall g <- b.gateways | g.enabled && g.id in applied :: g.id in missing
  }

  lemma MissingAgrees(c: Config, p: set<string>, b: Config, paused: set<string>)
    requires UniqueGateways(b.gateways) && RenderFile(c, p) == RenderFile(b, paused)
    ensures AgreeIn(b, paused, Missing(b, Endpoints(InOrder(c), p)))
  {
    var f := Endpoints(InOrder(c), p);
    forall g | g in b.gateways && g.enabled ensures g.id in paused <==> g.id in Missing(b, f) {
      RunningShown(b, paused, g);
      MissingOf(b, f, g);
    }
  }

  /** A saved configuration is in step with the rendering of any other exactly when
      it renders the same with the recorded pauses. */
  lemma InStepIff(c: Config, p: set<string>, b: Config, applied: set<string>)
    requires UniqueGateways(b.gateways)
    ensures InStep(State(b, Some(RenderFile(c, p)), applied)) <==> Rerenders(c, p, b, applied)
  {
    var s, missing := State(b, Some(RenderFile(c, p)), applied), Missing(b, Endpoints(InOrder(c), p));
    if InStep(s) {
      var paused :| Rendering(s, paused);
      if FirstEnabled(b.inbounds).Some? {
        AgreeFile(b, paused, applied);
      } else {
        MissingAgrees(c, p, b, paused);
        AgreeFile(b, paused, missing);
      }
    }
    if Rerenders(c, p, b, applied) {
      assert Rendering(s, if FirstEnabled(b.inbounds).Some? then applied else missing);
    }
  }

  // Apply was reached, swapped the file, and could not put the old one back.
  predicate LeftSwapped(s: State, data: File, quotaExceeded: bool, f: Faults) {
    Applied(s.file, data, quotaExceeded, f) == (Some(data), false)
  }

  lemma FailedApply(s: State, data: File, quotaExceeded: bool, f: Faults)
    requires !Applied(s.file, data, quotaExceeded, f).1
    ensures Applied(s.file, data, quotaExceeded, f).0 ==
      if LeftSwapped(s, data, quotaExceeded, f) then Some(data) else s.file
  {
  }

  // The rendering a failed transaction leaves the core with.
  ghost function LeftBehind(s: State, paused: set<string>, ev: Event): (Config, set<string>)
    requires ev.Mutate?
  {
    if !ev.outcome.persist && LeftSwapped(s, RenderFile(ev.next, ev.desired), ev.quotaExceeded, ev.outcome.apply)
    then (ev.next, ev.desired) else (s.saved, paused)
  }

  /** A failed transaction, with any faults and any failed rollback, of the saved
      configuration after persisting or applying failed or of the core file, leaves
      the two in step if and only if the configuration left as saved renders, with
      the recorded pauses, what the core was left with. */
  lemma FailedUndo(s: State, paused: set<string>, ev: Event)
    requires Rendering(s, paused) && UniqueGateways(s.saved.gateways)
    requires ev.Mutate? && UniqueGateways(ev.next.gateways) && !ev.outcome.invalid && !ev.outcome.save
    requires !Mutated(s, ev).1
    ensures var (r, _) := Mutated(s, ev); var (c, p) := LeftBehind(s, paused, ev);
      && r.saved == (if ev.outcome.undo then ev.next else s.saved)
      && r.file == Some(RenderFile(c, p))
      && (InStep(r) <==> Rerenders(c, p, r.saved, s.applied))
  {
    var (r, _) := Mutated(s, ev);
    var (c, p) := LeftBehind(s, paused, ev);
    if !ev.outcome.persist { FailedApply(s, RenderFile(ev.next, ev.desired), ev.quotaExceeded, ev.outcome.apply); }
    InStepIff(c, p, r.saved, s.applied);
  }

  /** The same for a failed change of the pauses, which saves nothing. */
  lemma FailedPause(s: State, paused: set<string>, ev: Event)
    requires Rendering(s, paused) && UniqueGateways(s.saved.gateways)
    requires ev.Reconcile? && !Reconciled(s, ev).1
    ensures var swapped := LeftSwapped(s, RenderFile(s.saved, ev.pauses), ev.quotaExceeded, ev.faults);
      InStep(Reconciled(s, ev).0) <==> !swapped || Rerenders(s.saved, ev.pauses, s.saved, s.applied)
  {
    FailedApply(s, RenderFile(s.saved, ev.pauses), ev.quotaExceeded, ev.faults);
    InStepIff(s.saved, ev.pauses, s.saved, s.applied);
  }

  /** Both kinds of failed undo can leave them apart: the change reaches the
      document outside gateways and inbounds, and persisting or restarting fails. */
  lemma UndoCanFail(applying: bool) returns (s: State, ev: Event)
    ensures InStep(s) && ev.Mutate? && ev.outcome.undo && ev.outcome.persist == !applying && !Mutated(s, ev).1
    ensures !InStep(Mutated(s, ev).0)
  {
    var before, next := Config([], [], "before", ""), Config([], [], "next", "");
    s := State(before, Some(RenderFile(before, {})), {});
    ev := Mutate(next, {}, false,
      Outcome(false, false, !applying, true, Faults(false, false, false, false, applying, false, false)));
    assert Rendering(s, {});
    FailedUndo(s, {}, ev);
  }

  /* ---------- pauses that are rendered but not recorded ---------- */

  /** After a successful change the recorded pauses render what the core runs from
      if and only if it was restarted, or they agree with the wanted ones. */
  lemma RecordedIff(s: State, ev: Event)
    requires s.file == Some(RenderFile(s.saved, s.applied)) && ev.Mutate? && Mutated(s, ev).1
    requires UniqueGateways(ev.next.gateways)
    ensures var (r, _) := Mutated(s, ev);
      r.file == Some(RenderFile(r.saved, r.applied)) <==>
      !Unchanged(s, ev.next, ev.desired) || AgreeIn(ev.next, s.applied, ev.desired)
  {
    SameFileAgrees(ev.next, s.applied, ev.desired);
  }

  /** They can come apart: a gateway over its limit, saved as disabled, is enabled
      while no inbound is. The core is not restarted, so its pause is rendered but
      not recorded. */
  lemma PausesCanDrift(g: Gateway) returns (s: State, ev: Event)
    requires g.enabled
    ensures s.saved.gateways == [g.(enabled := false)] && s.file == Some(RenderFile(s.saved, s.applied))
    ensures ev.Mutate? && Undoable(ev) && Mutated(s, ev).1 && ev.next.gateways == [g] && ev.desired == {g.id}
    ensures var r := Step(s, ev);
      r.applied == {} && r.file == Some(RenderFile(r.saved, {g.id})) && r.file != Some(RenderFile(r.saved, r.applied))
  {
    var off, on := Config([g.(enabled := false)], [], "", ""), Config([g], [], "", "");
    s := State(off, Some(RenderFile(off, {})), {});
    var works := Faults(false, false, false, false, false, false, false);
    ev := Mutate(on, {g.id}, false, Outcome(false, false, false, false, works));
    OneGateway(g);
  }

  lemma OneSorted(g: Gateway)
    ensures InOrder(Config([g], [], "", "")) == [g] && UniqueGateways([g])
  {
    assert [g][..0] == [] && [g][1..] == [];
    assert OrderedGateways([g]) == [g];
    assert Sort([g], GatewayKey) == Insert(Sort([g][1..], GatewayKey), g, GatewayKey) == [g];
  }

  lemma OneGateway(g: Gateway)
    requires g.enabled
    ensures var off, on := Config([g.(enabled := false)], [], "", ""), Config([g], [], "", "");
      && UniqueGateways(off.gateways) && UniqueGateways(on.gateways)
      && RenderFile(on, {g.id}) == RenderFile(off, {}) && RenderFile(on, {}) != RenderFile(off, {})
  {
    var h := g.(enabled := false);
    var off, on := Config([h], [], "", ""), Config([g], [], "", "");
    OneSorted(g);
    OneSorted(h);
    assert [g][..0] == [] && [h][..0] == [];
    QuietFile(off, {});
    QuietFile(on, {});
    QuietFile(on, {g.id});
    assert Endpoints([g], {}) == [EndpointOf(g)] && Endpoints([g], {g.id}) == [] && Endpoints([h], {}) == [];
  }
}
