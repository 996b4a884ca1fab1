/** internal/traffic/accounting.go: the two counter chains and their jumps inside
    the filter table, and the commands that repair them. */
module Firewall {
  import opened Options

  datatype Verdict = Accept | Drop

  type Packet = string

  // What a rule that is not the panel's, by its text, does with a packet; None is to go on.
  type Meaning = (string, Packet) -> Option<Verdict>

  // SBM_EGRESS_TX, reached from OUTPUT, and SBM_EGRESS_RX, reached from INPUT.
  datatype Chain = TX | RX

  // A counter rule as iptables-save prints it; extra is every further argument.
  // It has no target.
  datatype Spec = Spec(id: string, direction: Chain, generation: string, proto: string,
                       destination: string, dport: string, source: string, sport: string, extra: string)

  datatype ChainRule = Counter(spec: Spec, bytes: int) | Foreign(text: string)

  // A rule of INPUT or OUTPUT: the operator's, or a jump with the panel's comment
  // and target, and whatever further arguments.
  datatype ParentRule = User(text: string) | Jump(args: string)

  // first is the counter chain that iptables-save lists first.
  datatype Table = Table(output: seq<ParentRule>, input: seq<ParentRule>, tx: Option<seq<ChainRule>>,
                         rx: Option<seq<ChainRule>>, first: Chain) {
    function Parent(c: Chain): seq<ParentRule> { if c == TX then output else input }
    function Rules(c: Chain): Option<seq<ChainRule>> { if c == TX then tx else rx }
    function WithParent(c: Chain, rules: seq<ParentRule>): Table {
      if c == TX then this.(output := rules) else this.(input := rules)
    }
    function WithRules(c: Chain, rules: seq<ChainRule>): Table {
      if c == TX then this.(tx := Some(rules)) else this.(rx := Some(rules))
    }
  }

  // The jump the panel inserts has no further arguments.
  const CANONICAL := ""

  /* ---------- what happens to a packet ---------- */

  function ChainVerdict(rules: seq<ChainRule>, m: Meaning, p: Packet): Option<Verdict> {
    if rules == [] then None
    else if rules[0].Foreign? && m(rules[0].text, p).Some? then m(rules[0].text, p)
    else ChainVerdict(rules[1..], m, p)
  }

  function ParentVerdict(rules: seq<ParentRule>, target: Option<seq<ChainRule>>, m: Meaning,
                         p: Packet): Option<Verdict> {
    if rules == [] then None
    else
      var here := match rules[0]
        case User(text) => m(text, p)
        case Jump(_) => if target.Some? then ChainVerdict(target.value, m, p) else None;
      if here.Some? then here else ParentVerdict(rules[1..], target, m, p)
  }

  // What OUTPUT (TX) or INPUT (RX) decides about a packet.
  function VerdictOf(t: Table, c: Chain, m: Meaning, p: Packet): Option<Verdict> {
    ParentVerdict(t.Parent(c), t.Rules(c), m, p)
  }

  function Users(rules: seq<ParentRule>): seq<ParentRule> {
    if rules == [] then [] else if rules[0].User? then [rules[0]] + Users(rules[1..]) else Users(rules[1..])
  }

  function Jumps(rules: seq<ParentRule>): seq<string> {
    if rules == [] then [] else if rules[0].Jump? then [rules[0].args] + Jumps(rules[1..]) else Jumps(rules[1..])
  }

  // parseAccounting accepts a chain only if every rule in it is the panel's.
  predicate Owned(rules: Option<seq<ChainRule>>) { rules.Some? ==> AllCounters(rules.value) }

  predicate AllCounters(rules: seq<ChainRule>) { forall i :: 0 <= i < |rules| ==> rules[i].Counter? }

  predicate OwnedTable(t: Table) { Owned(t.tx) && Owned(t.rx) }

  lemma {:induction false} CountersDecideNothing(rules: seq<ChainRule>, m: Meaning, p: Packet)
    requires AllCounters(rules)
    ensures ChainVerdict(rules, m, p) == None
  {
    if rules != [] { CountersDecideNothing(rules[1..], m, p); }
  }

  /** A packet meets only the operator's rules, in their order. */
  lemma {:induction false} VerdictIsUsers(rules: seq<ParentRule>, target: Option<seq<ChainRule>>, m: Meaning, p: Packet)
    requires Owned(target)
    ensures ParentVerdict(rules, target, m, p) == ParentVerdict(Users(rules), None, m, p)
  {
    if rules != [] {
      VerdictIsUsers(rules[1..], target, m, p);
      if target.Some? { CountersDecideNothing(target.value, m, p); }
    }
  }

  /* ---------- single commands ---------- */

  datatype Command =
    | NewChain(chain: Chain)                    // iptables -N
    | Delete(chain: Chain, spec: Spec)          // iptables -D, the first equal rule
    | Append(chain: Chain, spec: Spec)          // iptables -A
    | DeleteJump(chain: Chain, args: string)    // iptables -D OUTPUT/INPUT
    | InsertJump(chain: Chain, args: string)    // iptables -I OUTPUT/INPUT 1

  predicate IsSpec(r: ChainRule, s: Spec) { r.Counter? && r.spec == s }

  predicate HasSpec(rules: seq<ChainRule>, s: Spec) { rules != [] && (IsSpec(rules[0], s) || HasSpec(rules[1..], s)) }

  function RemoveSpec(rules: seq<ChainRule>, s: Spec): seq<ChainRule> {
    if rules == [] then []
    else if IsSpec(rules[0], s) then rules[1..]
    else [rules[0]] + RemoveSpec(rules[1..], s)
  }

  function RemoveJump(rules: seq<ParentRule>, args: string): seq<ParentRule> {
    if rules == [] then [] else if rules[0] == Jump(args) then rules[1..] else [rules[0]] + RemoveJump(rules[1..], args)
  }

  // None when the kernel refuses the command.
  function Exec(t: Table, cmd: Command): Option<Table> {
    match cmd
    case NewChain(c) => if t.Rules(c).None? then Some(t.WithRules(c, [])) else None
    case Delete(c, s) =>
      if t.Rules(c).Some? && HasSpec(t.Rules(c).value, s) then Some(t.WithRules(c, RemoveSpec(t.Rules(c).value, s)))
      else None
    case Append(c, s) => if t.Rules(c).Some? then Some(t.WithRules(c, t.Rules(c).value + [Counter(s, 0)])) else None
    case DeleteJump(c, args) =>
      if args in Jumps(t.Parent(c)) then Some(t.WithParent(c, RemoveJump(t.Parent(c), args))) else None
    case InsertJump(c, args) => if t.Rules(c).Some? then Some(t.WithParent(c, [Jump(args)] + t.Parent(c))) else None
  }

  function ExecAll(t: Option<Table>, cmds: seq<Command>): Option<Table> {
    if cmds == [] then t
    else
      var before := ExecAll(t, cmds[..|cmds| - 1]);
      if before.None? then None else Exec(before.value, cmds[|cmds| - 1])
  }

  lemma ExecAppend(t: Option<Table>, cmds: seq<Command>, cmd: Command)
    ensures ExecAll(t, cmds + [cmd]) == var before := ExecAll(t, cmds);
      if before.None? then None else Exec(before.value, cmd)
  {
    assert (cmds + [cmd])[..|cmds|] == cmds;
  }

  lemma {:induction false} ExecConcat(t: Option<Table>, cmds: seq<Command>, more: seq<Command>)
    ensures ExecAll(t, cmds + more) == ExecAll(ExecAll(t, cmds), more)
  {
    hide Exec;
    if more == [] {
      assert cmds + more == cmds;
    } else {
      var n := |more| - 1;
      assert (cmds + more)[..|cmds| + n] == cmds + more[..n];
      ExecConcat(t, cmds, more[..n]);
    }
  }

  // A plan that runs to its end runs to any point of it.
  lemma {:induction false} ExecPrefix(t: Option<Table>, part: seq<Command>, all: seq<Command>)
    requires part <= all && ExecAll(t, all).Some?
    ensures ExecAll(t, part).Some?
    decreases |all|
  {
    if |part| == |all| {
      assert part == all;
    } else {
      ExecPrefix(t, part, all[..|all| - 1]);
    }
  }

  lemma {:induction false} RemoveSpecOwned(rules: seq<ChainRule>, s: Spec)
    requires AllCounters(rules)
    ensures AllCounters(RemoveSpec(rules, s))
  {
    if rules != [] { RemoveSpecOwned(rules[1..], s); }
  }

  lemma {:induction false} RemoveJumpUsers(rules: seq<ParentRule>, args: string)
    ensures Users(RemoveJump(rules, args)) == Users(rules)
  {
    if rules != [] { RemoveJumpUsers(rules[1..], args); }
  }

  lemma ExecHarmless(t: Table, cmd: Command)
    requires OwnedTable(t) && Exec(t, cmd).Some?
    ensures var u := Exec(t, cmd).value; OwnedTable(u) && forall c :: Users(u.Parent(c)) == Users(t.Parent(c))
  {
    match cmd
    case Delete(c, s) => RemoveSpecOwned(t.Rules(c).value, s);
    case DeleteJump(c, args) => RemoveJumpUsers(t.Parent(c), args);
    case NewChain(_) =>
    case Append(_, _) =>
    case InsertJump(_, _) =>
  }

  lemma {:induction false} CommandsHarmless(t: Table, cmds: seq<Command>)
    requires OwnedTable(t) && ExecAll(Some(t), cmds).Some?
    ensures var u := ExecAll(Some(t), cmds).value; OwnedTable(u) && forall c :: Users(u.Parent(c)) == Users(t.Parent(c))
  {
    if cmds != [] {
      var n := |cmds| - 1;
      CommandsHarmless(t, cmds[..n]);
      ExecHarmless(ExecAll(Some(t), cmds[..n]).value, cmds[n]);
    }
  }

  /** However many of its commands were carried out, every packet meets the same
      verdict as before, and the operator's rules are the same in the same order. */
  lemma VerdictsUnchanged(t: Table, cmds: seq<Command>, c: Chain, m: Meaning, p: Packet)
    requires OwnedTable(t) && ExecAll(Some(t), cmds).Some?
    ensures var u := ExecAll(Some(t), cmds).value;
      VerdictOf(u, c, m, p) == VerdictOf(t, c, m, p) && Users(u.Parent(c)) == Users(t.Parent(c))
  {
    CommandsHarmless(t, cmds);
    var u := ExecAll(Some(t), cmds).value;
    VerdictIsUsers(t.Parent(c), t.Rules(c), m, p);
    VerdictIsUsers(u.Parent(c), u.Rules(c), m, p);
  }

  /* ---------- the plan ---------- */

  // port is the decimal text; valid is ValidateGateway.
  datatype Gateway = Gateway(id: string, enabled: bool, server: string, port: string, valid: bool)

  // The enabled gateways by ID; of two with one ID the last.
  function Desired(gateways: seq<Gateway>): map<string, Gateway> {
    if gateways == [] then map[]
    else
      var n := |gateways| - 1;
      if gateways[n].enabled then Desired(gateways[..n])[gateways[n].id := gateways[n]] else Desired(gateways[..n])
  }

  // strings.TrimSuffix(a, "/32")
  function Host(a: string): string { if |a| >= 3 && a[|a| - 3..] == "/32" then a[..|a| - 3] else a }

  /** ruleMatches, for a rule in chain c. */
  predicate Matches(c: Chain, s: Spec, g: Gateway) {
    s.direction == c && s.id == g.id && s.proto == "udp" &&
    if c == TX then Host(s.destination) == g.server && s.dport == g.port
    else Host(s.source) == g.server && s.sport == g.port
  }

  predicate Fits(c: Chain, s: Spec, d: map<string, Gateway>) { s.id in d && Matches(c, s, d[s.id]) }

  // Random generation names.
  type Names = (string, Chain) -> string

  // The rule added for a gateway, as iptables-save prints it.
  function NewSpec(c: Chain, g: Gateway, names: Names): Spec {
    var host := g.server + "/32";
    if c == TX then Spec(g.id, c, names(g.id, c), "udp", host, g.port, "", "", "")
    else Spec(g.id, c, names(g.id, c), "udp", "", "", host, g.port, "")
  }

  lemma NewSpecMatches(c: Chain, g: Gateway, names: Names)
    ensures Matches(c, NewSpec(c, g, names), g)
  {
    var host := g.server + "/32";
    assert host[|host| - 3..] == "/32" && host[..|host| - 3] == g.server;
  }

  // The rules of a chain that stay: the first match of every gateway.
  function Kept(c: Chain, rules: seq<ChainRule>, d: map<string, Gateway>): seq<ChainRule>
    requires AllCounters(rules)
  {
    if rules == [] then []
    else
      var n := |rules| - 1;
      var kept := Kept(c, rules[..n], d);
      if Fits(c, rules[n].spec, d) && rules[n].spec.id !in KeptIds(c, rules[..n], d) then kept + [rules[n]] else kept
  }

  function KeptIds(c: Chain, rules: seq<ChainRule>, d: map<string, Gateway>): set<string>
    requires AllCounters(rules)
  {
    if rules == [] then {}
    else
      var n := |rules| - 1;
      KeptIds(c, rules[..n], d) + if Fits(c, rules[n].spec, d) then {rules[n].spec.id} else {}
  }

  function Drops(c: Chain, rules: seq<ChainRule>, d: map<string, Gateway>): seq<Command>
    requires AllCounters(rules)
  {
    if rules == [] then []
    else
      var n := |rules| - 1;
      var before := Drops(c, rules[..n], d);
      if Fits(c, rules[n].spec, d) && rules[n].spec.id !in KeptIds(c, rules[..n], d) then before
      else before + [Delete(c, rules[n].spec)]
  }

  function AddOne(c: Chain, g: Gateway, kept: set<string>, names: Names): seq<Command> {
    if g.enabled && g.id !in kept then [Append(c, NewSpec(c, g, names))] else []
  }

  function Adds(gateways: seq<Gateway>, keptTX: set<string>, keptRX: set<string>, names: Names): seq<Command> {
    if gateways == [] then []
    else
      var n := |gateways| - 1;
      Adds(gateways[..n], keptTX, keptRX, names) +
        (AddOne(TX, gateways[n], keptTX, names) + AddOne(RX, gateways[n], keptRX, names))
  }

  function JumpDeletes(c: Chain, jumps: seq<string>): seq<Command> {
    if jumps == [] then [] else JumpDeletes(c, jumps[..|jumps| - 1]) + [DeleteJump(c, jumps[|jumps| - 1])]
  }

  predicate JumpInPlace(parent: seq<ParentRule>) {
    |Jumps(parent)| == 1 && parent != [] && parent[0] == Jump(CANONICAL)
  }

  function JumpFix(c: Chain, parent: seq<ParentRule>, any: bool): seq<Command> {
    if any && JumpInPlace(parent) then []
    else if any then JumpDeletes(c, Jumps(parent)) + [InsertJump(c, CANONICAL)]
    else JumpDeletes(c, Jumps(parent))
  }

  function NewChains(t: Table, any: bool): seq<Command> {
    (if any && t.tx.None? then [NewChain(TX)] else []) + (if any && t.rx.None? then [NewChain(RX)] else [])
  }

  function RulesOf(t: Table, c: Chain): seq<ChainRule> { if t.Rules(c).Some? then t.Rules(c).value else [] }

  function Other(c: Chain): Chain { if c == TX then RX else TX }

  // Rules are dropped in the order of the listing.
  function AllDrops(t: Table, d: map<string, Gateway>): seq<Command>
    requires OwnedTable(t)
  {
    var c := t.first;
    Drops(c, RulesOf(t, c), d) + Drops(Other(c), RulesOf(t, Other(c)), d)
  }

  /** Every command Sample issues on a table, in order. */
  function Plan(t: Table, gateways: seq<Gateway>, names: Names): seq<Command>
    requires OwnedTable(t)
  {
    var d := Desired(gateways);
    NewChains(t, d != map[]) + AllDrops(t, d) +
      Adds(gateways, KeptIds(TX, RulesOf(t, TX), d), KeptIds(RX, RulesOf(t, RX), d), names) +
      JumpFix(TX, t.output, d != map[]) + JumpFix(RX, t.input, d != map[])
  }

  /* ---------- what the plan leaves ---------- */

  // Which rules to count: those equal to one, or those of one gateway.
  datatype Probe = Equal(spec: Spec) | Of(id: string) {
    predicate Hits(s: Spec) { if Equal? then s == spec else s.id == id }
  }

  function Count(rules: seq<ChainRule>, p: Probe): nat {
    if rules == [] then 0 else (if rules[0].Counter? && p.Hits(rules[0].spec) then 1 else 0) + Count(rules[1..], p)
  }

  // Every rule fits its gateway, and exactly these gateways have one, and only one.
  ghost predicate CleanFor(c: Chain, rules: seq<ChainRule>, d: map<string, Gateway>, ids: set<string>) {
    AllCounters(rules) && (forall s :: Count(rules, Equal(s)) > 0 ==> Fits(c, s, d)) &&
    forall id :: Count(rules, Of(id)) == if id in ids then 1 else 0
  }

  ghost predicate SettledChain(c: Chain, rules: seq<ChainRule>, d: map<string, Gateway>) {
    CleanFor(c, rules, d, d.Keys)
  }

  ghost predicate SettledParent(parent: seq<ParentRule>, any: bool) {
    parent == if any then [Jump(CANONICAL)] + Users(parent) else Users(parent)
  }

  /** One counter rule per enabled gateway and direction, one jump at the head of
      each parent chain; no rule and no jump when no gateway is enabled. */
  ghost predicate Settled(t: Table, gateways: seq<Gateway>) {
    var d := Desired(gateways);
    forall c :: SettledParent(t.Parent(c), d != map[]) && (d != map[] ==> t.Rules(c).Some?) &&
      (t.Rules(c).Some? ==> SettledChain(c, t.Rules(c).value, d))
  }

  lemma {:induction false} CountAppend(rules: seq<ChainRule>, more: seq<ChainRule>, p: Probe)
    ensures Count(rules + more, p) == Count(rules, p) + Count(more, p)
  {
    if rules == [] {
      assert rules + more == more;
    } else {
      assert (rules + more)[1..] == rules[1..] + more;
      CountAppend(rules[1..], more, p);
    }
  }

  lemma CountLast(rules: seq<ChainRule>, r: ChainRule, p: Probe)
    requires r.Counter?
    ensures Count(rules + [r], p) == Count(rules, p) + if p.Hits(r.spec) then 1 else 0
  {
    CountAppend(rules, [r], p);
    assert [r][1..] == [];
  }

  lemma {:induction false} HasSpecCount(rules: seq<ChainRule>, s: Spec)
    ensures HasSpec(rules, s) <==> Count(rules, Equal(s)) > 0
  {
    if rules != [] { HasSpecCount(rules[1..], s); }
  }

  lemma {:induction false} CountRemoved(rules: seq<ChainRule>, s: Spec, p: Probe)
    requires HasSpec(rules, s)
    ensures Count(RemoveSpec(rules, s), p) == Count(rules, p) - if p.Hits(s) then 1 else 0
  {
    if !IsSpec(rules[0], s) {
      CountRemoved(rules[1..], s, p);
      assert ([rules[0]] + RemoveSpec(rules[1..], s))[1..] == RemoveSpec(rules[1..], s);
    }
  }

  lemma {:induction false} KeptOwned(c: Chain, rules: seq<ChainRule>, d: map<string, Gateway>)
    requires AllCounters(rules)
    ensures AllCounters(Kept(c, rules, d))
  {
    if rules != [] { KeptOwned(c, rules[..|rules| - 1], d); }
  }

  lemma OneMore(c: Chain, rules: seq<ChainRule>, r: ChainRule, d: map<string, Gateway>, ids: set<string>)
    requires CleanFor(c, rules, d, ids) && r.Counter? && Fits(c, r.spec, d) && r.spec.id !in ids
    ensures CleanFor(c, rules + [r], d, ids + {r.spec.id})
  {
    forall s ensures Count(rules + [r], Equal(s)) > 0 ==> Fits(c, s, d) { CountLast(rules, r, Equal(s)); }
    forall id ensures Count(rules + [r], Of(id)) == if id in ids + {r.spec.id} then 1 else 0 {
      CountLast(rules, r, Of(id));
    }
  }

  /** What is kept is clean, and has exactly the gateways that had a match. */
  lemma {:induction false} KeptClean(c: Chain, rules: seq<ChainRule>, d: map<string, Gateway>)
    requires AllCounters(rules)
    ensures CleanFor(c, Kept(c, rules, d), d, KeptIds(c, rules, d))
  {
    if rules != [] {
      var n := |rules| - 1;
      KeptClean(c, rules[..n], d);
      var ids, s := KeptIds(c, rules[..n], d), rules[n].spec;
      if Fits(c, s, d) && s.id !in ids {
        OneMore(c, Kept(c, rules[..n], d), rules[n], d, ids);
      } else {
        assert KeptIds(c, rules, d) == ids;
      }
    }
  }

  /* ---------- the drops ---------- */

  lemma DropsStep(c: Chain, rules: seq<ChainRule>, d: map<string, Gateway>, n: nat)
    requires AllCounters(rules) && n < |rules|
    ensures var s := rules[n].spec; var stays := Fits(c, s, d) && s.id !in KeptIds(c, rules[..n], d);
      Drops(c, rules[..n + 1], d) ==
        (if stays then Drops(c, rules[..n], d) else Drops(c, rules[..n], d) + [Delete(c, s)]) &&
      Kept(c, rules[..n + 1], d) == (if stays then Kept(c, rules[..n], d) + [rules[n]] else Kept(c, rules[..n], d)) &&
      KeptIds(c, rules[..n + 1], d) == KeptIds(c, rules[..n], d) + if Fits(c, s, d) then {s.id} else {}
  {
    assert rules[..n + 1][..n] == rules[..n];
  }

  // The chain after some drops: what is kept so far and what is still to come.
  ghost predicate HalfDropped(c: Chain, rules: seq<ChainRule>, d: map<string, Gateway>, n: nat, now: seq<ChainRule>)
    requires AllCounters(rules) && n <= |rules|
  {
    AllCounters(now) && AllCounters(Kept(c, rules[..n], d)) &&
    forall p :: Count(now, p) == Count(Kept(c, rules[..n], d), p) + Count(rules[n..], p)
  }

  lemma KeepOne(c: Chain, rules: seq<ChainRule>, d: map<string, Gateway>, n: nat, now: seq<ChainRule>)
    requires AllCounters(rules) && n < |rules| && HalfDropped(c, rules, d, n, now)
    requires Fits(c, rules[n].spec, d) && rules[n].spec.id !in KeptIds(c, rules[..n], d)
    ensures HalfDropped(c, rules, d, n + 1, now)
  {
    DropsStep(c, rules, d, n);
    forall p ensures Count(now, p) == Count(Kept(c, rules[..n + 1], d), p) + Count(rules[n + 1..], p) {
      CountLast(Kept(c, rules[..n], d), rules[n], p);
      CountFrom(rules, n, p);
    }
  }

  lemma DropOne(c: Chain, rules: seq<ChainRule>, d: map<string, Gateway>, n: nat, now: seq<ChainRule>)
    requires AllCounters(rules) && n < |rules| && HalfDropped(c, rules, d, n, now)
    requires !(Fits(c, rules[n].spec, d) && rules[n].spec.id !in KeptIds(c, rules[..n], d))
    ensures HasSpec(now, rules[n].spec)
    ensures HalfDropped(c, rules, d, n + 1, RemoveSpec(now, rules[n].spec))
  {
    var s := rules[n].spec;
    DropsStep(c, rules, d, n);
    CountFrom(rules, n, Equal(s));
    HasSpecCount(now, s);
    RemoveSpecOwned(now, s);
    forall p ensures Count(RemoveSpec(now, s), p) == Count(Kept(c, rules[..n + 1], d), p) + Count(rules[n + 1..], p) {
      CountFrom(rules, n, p);
      CountRemoved(now, s, p);
    }
  }

  lemma CountFrom(rules: seq<ChainRule>, n: nat, p: Probe)
    requires AllCounters(rules) && n < |rules|
    ensures Count(rules[n..], p) == Count(rules[n + 1..], p) + if p.Hits(rules[n].spec) then 1 else 0
  {
    assert rules[n..][1..] == rules[n + 1..];
  }

  // No two rules are equal but for their counters.
  ghost predicate DistinctSpecs(rules: seq<ChainRule>) { forall s :: Count(rules, Equal(s)) <= 1 }

  // With no two equal rules, the kept ones stay where they are.
  ghost predicate InPlace(c: Chain, rules: seq<ChainRule>, d: map<string, Gateway>, n: nat, now: seq<ChainRule>)
    requires AllCounters(rules) && n <= |rules|
  {
    DistinctSpecs(rules) ==> now == Kept(c, rules[..n], d) + rules[n..]
  }

  lemma KeepInPlace(c: Chain, rules: seq<ChainRule>, d: map<string, Gateway>, n: nat, now: seq<ChainRule>)
    requires AllCounters(rules) && n < |rules| && InPlace(c, rules, d, n, now)
    requires Fits(c, rules[n].spec, d) && rules[n].spec.id !in KeptIds(c, rules[..n], d)
    ensures InPlace(c, rules, d, n + 1, now)
  {
    DropsStep(c, rules, d, n);
    assert Kept(c, rules[..n], d) + rules[n..] == Kept(c, rules[..n], d) + [rules[n]] + rules[n + 1..];
  }

  lemma DropInPlace(c: Chain, rules: seq<ChainRule>, d: map<string, Gateway>, n: nat, now: seq<ChainRule>)
    requires AllCounters(rules) && n < |rules| && InPlace(c, rules, d, n, now)
    requires !(Fits(c, rules[n].spec, d) && rules[n].spec.id !in KeptIds(c, rules[..n], d))
    ensures InPlace(c, rules, d, n + 1, RemoveSpec(now, rules[n].spec))
  {
    DropsStep(c, rules, d, n);
    if DistinctSpecs(rules) {
      var s, kept := rules[n].spec, Kept(c, rules[..n], d);
      NotBefore(rules, n);
      KeptWithin(c, rules[..n], d, Equal(s));
      HasSpecCount(kept, s);
      RemoveFirst(kept, rules[n..], s);
      assert rules[n..][1..] == rules[n + 1..];
    }
  }

  lemma NotBefore(rules: seq<ChainRule>, n: nat)
    requires AllCounters(rules) && n < |rules| && DistinctSpecs(rules)
    ensures Count(rules[..n], Equal(rules[n].spec)) == 0
  {
    assert rules == rules[..n] + rules[n..];
    CountAppend(rules[..n], rules[n..], Equal(rules[n].spec));
    CountFrom(rules, n, Equal(rules[n].spec));
  }

  lemma {:induction false} KeptWithin(c: Chain, rules: seq<ChainRule>, d: map<string, Gateway>, p: Probe)
    requires AllCounters(rules)
    ensures AllCounters(Kept(c, rules, d)) && Count(Kept(c, rules, d), p) <= Count(rules, p)
  {
    if rules != [] {
      var n := |rules| - 1;
      KeptWithin(c, rules[..n], d, p);
      CountLast(Kept(c, rules[..n], d), rules[n], p);
      CountLast(rules[..n], rules[n], p);
      assert rules == rules[..n] + [rules[n]];
    }
  }

  lemma {:induction false} RemoveFirst(rules: seq<ChainRule>, rest: seq<ChainRule>, s: Spec)
    requires !HasSpec(rules, s) && rest != [] && IsSpec(rest[0], s)
    ensures RemoveSpec(rules + rest, s) == rules + rest[1..]
    decreases |rules|
  {
    if rules == [] {
      assert rules + rest == rest && rules + rest[1..] == rest[1..];
    } else {
      RemoveFirst(rules[1..], rest, s);
      assert (rules + rest)[1..] == rules[1..] + rest && (rules + rest)[0] == rules[0];
    }
  }

  // The table after the first n rules were looked at.
  ghost predicate Dropping(t: Table, c: Chain, rules: seq<ChainRule>, d: map<string, Gateway>, n: nat, u: Option<Table>)
    requires AllCounters(rules) && n <= |rules|
  {
    u.Some? && u.value.Rules(c).Some? && u.value == t.WithRules(c, u.value.Rules(c).value) &&
    HalfDropped(c, rules, d, n, u.value.Rules(c).value) && InPlace(c, rules, d, n, u.value.Rules(c).value)
  }

  lemma DroppingStep(t: Table, c: Chain, rules: seq<ChainRule>, d: map<string, Gateway>, n: nat)
    requires AllCounters(rules) && n < |rules| && Dropping(t, c, rules, d, n, ExecAll(Some(t), Drops(c, rules[..n], d)))
    ensures Dropping(t, c, rules, d, n + 1, ExecAll(Some(t), Drops(c, rules[..n + 1], d)))
  {
    var u := ExecAll(Some(t), Drops(c, rules[..n], d)).value;
    var now, s := u.Rules(c).value, rules[n].spec;
    DropsStep(c, rules, d, n);
    if Fits(c, s, d) && s.id !in KeptIds(c, rules[..n], d) {
      KeepOne(c, rules, d, n, now);
      KeepInPlace(c, rules, d, n, now);
    } else {
      DropOne(c, rules, d, n, now);
      DropInPlace(c, rules, d, n, now);
      ExecAppend(Some(t), Drops(c, rules[..n], d), Delete(c, s));
      WithRulesTwice(t, c, now, RemoveSpec(now, s));
    }
  }

  lemma WithRulesTwice(t: Table, c: Chain, a: seq<ChainRule>, b: seq<ChainRule>)
    ensures t.WithRules(c, a).WithRules(c, b) == t.WithRules(c, b) && t.WithRules(c, b).Rules(c) == Some(b)
  {
  }

  /* ---------- counters of equal rules ---------- */

  // The bytes of the rules equal to s, in order.
  function BytesOf(rules: seq<ChainRule>, s: Spec): seq<int> {
    if rules == [] then []
    else if IsSpec(rules[0], s) then [rules[0].bytes] + BytesOf(rules[1..], s)
    else BytesOf(rules[1..], s)
  }

  lemma {:induction false} BytesCount(rules: seq<ChainRule>, s: Spec)
    ensures |BytesOf(rules, s)| == Count(rules, Equal(s))
  {
    if rules != [] { BytesCount(rules[1..], s); }
  }

  lemma {:induction false} BytesMember(rules: seq<ChainRule>, s: Spec, b: int)
    ensures b in BytesOf(rules, s) <==> Counter(s, b) in rules
  {
    if rules != [] { BytesMember(rules[1..], s, b); }
  }

  lemma {:induction false} BytesRemoved(rules: seq<ChainRule>, x: Spec, s: Spec)
    requires HasSpec(rules, x)
    ensures x == s ==> BytesOf(rules, s) != []
    ensures BytesOf(rules, s) == (if x == s then [BytesOf(rules, s)[0]] else []) + BytesOf(RemoveSpec(rules, x), s)
  {
    if !IsSpec(rules[0], x) {
      BytesRemoved(rules[1..], x, s);
      assert ([rules[0]] + RemoveSpec(rules[1..], x))[1..] == RemoveSpec(rules[1..], x);
    }
  }

  // Of the rules equal to s, the last ones are still there.
  ghost predicate LastOf(rules: seq<ChainRule>, now: seq<ChainRule>, s: Spec) {
    var all, left := BytesOf(rules, s), BytesOf(now, s);
    |left| <= |all| && all[|all| - |left|..] == left
  }

  lemma LastRemoved(rules: seq<ChainRule>, now: seq<ChainRule>, x: Spec, s: Spec)
    requires LastOf(rules, now, s) && HasSpec(now, x)
    ensures LastOf(rules, RemoveSpec(now, x), s)
  {
    BytesRemoved(now, x, s);
    var all, left := BytesOf(rules, s), BytesOf(now, s);
    if x == s { assert left[1..] == all[|all| - |left| + 1..]; }
  }

  ghost predicate LastIn(u: Option<Table>, c: Chain, rules: seq<ChainRule>, s: Spec) {
    u.Some? && u.value.Rules(c).Some? ==> LastOf(rules, u.value.Rules(c).value, s)
  }

  lemma {:induction false} DropsLast(t: Table, c: Chain, rules: seq<ChainRule>, d: map<string, Gateway>, n: nat,
                                     s: Spec)
    requires AllCounters(rules) && n <= |rules| && t.Rules(c) == Some(rules)
    ensures LastIn(ExecAll(Some(t), Drops(c, rules[..n], d)), c, rules, s)
  {
    hide Drops, LastIn, ExecAll, KeptIds;
    if n == 0 {
      NothingDropped(t, c, rules, d, s);
    } else {
      DropsLast(t, c, rules, d, n - 1, s);
      DropsStep(c, rules, d, n - 1);
      DropLast(Some(t), Drops(c, rules[..n - 1], d), c, rules[n - 1].spec, rules, s);
    }
  }

  lemma NothingDropped(t: Table, c: Chain, rules: seq<ChainRule>, d: map<string, Gateway>, s: Spec)
    requires AllCounters(rules) && t.Rules(c) == Some(rules)
    ensures LastIn(ExecAll(Some(t), Drops(c, rules[..0], d)), c, rules, s)
  {
  }

  lemma DropLast(t: Option<Table>, before: seq<Command>, c: Chain, x: Spec, rules: seq<ChainRule>, s: Spec)
    requires LastIn(ExecAll(t, before), c, rules, s)
    ensures LastIn(ExecAll(t, before + [Delete(c, x)]), c, rules, s)
  {
    ExecAppend(t, before, Delete(c, x));
    if ExecAll(t, before).Some? { DeleteLast(ExecAll(t, before).value, c, x, rules, s); }
  }

  lemma DeleteLast(t: Table, c: Chain, x: Spec, rules: seq<ChainRule>, s: Spec)
    requires LastIn(Some(t), c, rules, s)
    ensures LastIn(Exec(t, Delete(c, x)), c, rules, s)
  {
    if Exec(t, Delete(c, x)).Some? { LastRemoved(rules, t.Rules(c).value, x, s); }
  }

  // The bytes of the last rule equal to s.
  function LastBytes(rules: seq<ChainRule>, s: Spec): int
    requires Count(rules, Equal(s)) > 0
  {
    BytesCount(rules, s);
    var all := BytesOf(rules, s);
    all[|all| - 1]
  }

  // Each kept rule is there with the bytes of the last rule equal to it.
  ghost predicate LastStays(c: Chain, rules: seq<ChainRule>, d: map<string, Gateway>, now: seq<ChainRule>)
    requires AllCounters(rules)
  {
    forall s :: Count(Kept(c, rules, d), Equal(s)) > 0 ==>
      Count(rules, Equal(s)) > 0 && Counter(s, LastBytes(rules, s)) in now
  }

  lemma StaysOne(c: Chain, rules: seq<ChainRule>, d: map<string, Gateway>, now: seq<ChainRule>, s: Spec)
    requires AllCounters(rules) && LastOf(rules, now, s)
    requires Count(now, Equal(s)) == Count(Kept(c, rules, d), Equal(s)) > 0
    ensures Count(rules, Equal(s)) > 0 && Counter(s, LastBytes(rules, s)) in now
  {
    KeptWithin(c, rules, d, Equal(s));
    BytesCount(rules, s);
    BytesCount(now, s);
    var all, left := BytesOf(rules, s), BytesOf(now, s);
    assert left[|left| - 1] == all[|all| - 1];
    BytesMember(now, s, LastBytes(rules, s));
  }

  /** After the drops every kept rule is there with the counter of the last rule
      equal to it. */
  lemma DropsKeepLast(t: Table, c: Chain, d: map<string, Gateway>, now: seq<ChainRule>)
    requires OwnedTable(t) && t.Rules(c).Some?
    requires var u := ExecAll(Some(t), Drops(c, t.Rules(c).value, d)); u.Some? && u.value.Rules(c) == Some(now)
    requires forall p :: Count(now, p) == Count(Kept(c, t.Rules(c).value, d), p)
    ensures LastStays(c, t.Rules(c).value, d, now)
  {
    var rules := t.Rules(c).value;
    assert rules[..|rules|] == rules;
    forall s | Count(Kept(c, rules, d), Equal(s)) > 0
      ensures Count(rules, Equal(s)) > 0 && Counter(s, LastBytes(rules, s)) in now
    {
      DropsLast(t, c, rules, d, |rules|, s);
      StaysOne(c, rules, d, now, s);
    }
  }

  lemma OneByte(rules: seq<ChainRule>, s: Spec, a: int, b: int)
    requires Count(rules, Equal(s)) <= 1 && Counter(s, a) in rules && Counter(s, b) in rules
    ensures a == b
  {
    BytesCount(rules, s);
    BytesMember(rules, s, a);
    BytesMember(rules, s, b);
  }

  lemma KeptCounts(c: Chain, rules: seq<ChainRule>, d: map<string, Gateway>, r: ChainRule)
    requires AllCounters(rules) && r in Kept(c, rules, d)
    ensures r.Counter? && Count(Kept(c, rules, d), Equal(r.spec)) > 0
  {
    KeptOwned(c, rules, d);
    BytesMember(Kept(c, rules, d), r.spec, r.bytes);
    BytesCount(Kept(c, rules, d), r.spec);
  }

  /** Of two equal rules the later is dropped, but the command removes the earlier:
      its bytes are lost. */
  lemma EqualRulesLoseCounters(c: Chain, s: Spec, d: map<string, Gateway>, a: int, b: int)
    requires Fits(c, s, d) && a != b
    ensures var rules := [Counter(s, a), Counter(s, b)];
      Kept(c, rules, d) == [Counter(s, a)] && Drops(c, rules, d) == [Delete(c, s)] &&
        RemoveSpec(rules, s) == [Counter(s, b)]
  {
    var rules := [Counter(s, a), Counter(s, b)];
    assert rules[..0] == [] && rules[..1] == [Counter(s, a)] && rules[..2] == rules;
    DropsStep(c, rules, d, 0);
    DropsStep(c, rules, d, 1);
  }

  lemma {:induction false} DropsRun(t: Table, c: Chain, rules: seq<ChainRule>, d: map<string, Gateway>, n: nat)
    requires AllCounters(rules) && n <= |rules| && t.Rules(c) == Some(rules)
    ensures Dropping(t, c, rules, d, n, ExecAll(Some(t), Drops(c, rules[..n], d)))
  {
    if n == 0 {
      assert rules[0..] == rules && Kept(c, rules[..0], d) + rules == rules;
    } else {
      DropsRun(t, c, rules, d, n - 1);
      DroppingStep(t, c, rules, d, n - 1);
    }
  }

  /** Carrying out all drops leaves the kept rules; with no two equal rules, in
      place and with their counters. */
  lemma DropsLeave(t: Table, c: Chain, d: map<string, Gateway>)
    requires OwnedTable(t) && t.Rules(c).Some?
    ensures var rules := t.Rules(c).value; var r := ExecAll(Some(t), Drops(c, rules, d));
      r.Some? && r.value.Rules(c).Some? && r.value == t.WithRules(c, r.value.Rules(c).value) &&
      AllCounters(r.value.Rules(c).value) && AllCounters(Kept(c, rules, d)) &&
      (forall p :: Count(r.value.Rules(c).value, p) == Count(Kept(c, rules, d), p)) &&
      (DistinctSpecs(rules) ==> r.value.Rules(c).value == Kept(c, rules, d))
  {
    var rules := t.Rules(c).value;
    DropsRun(t, c, rules, d, |rules|);
    assert Dropping(t, c, rules, d, |rules|, ExecAll(Some(t), Drops(c, rules[..|rules|], d)));
    assert rules[..|rules|] == rules && rules[|rules|..] == [];
    assert Kept(c, rules, d) + [] == Kept(c, rules, d);
  }

  /* ---------- the additions ---------- */

  // The source validates that IDs are unique.
  predicate UniqueEnabled(gateways: seq<Gateway>) {
    gateways == [] ||
    var n := |gateways| - 1;
    UniqueEnabled(gateways[..n]) && (gateways[n].enabled ==> gateways[n].id !in Desired(gateways[..n]))
  }

  function Added(c: Chain, gateways: seq<Gateway>, kept: set<string>, names: Names): seq<ChainRule> {
    if gateways == [] then []
    else
      var n := |gateways| - 1;
      var before, g := Added(c, gateways[..n], kept, names), gateways[n];
      if g.enabled && g.id !in kept then before + [Counter(NewSpec(c, g, names), 0)] else before
  }

  lemma AddOneRuns(t: Table, c: Chain, g: Gateway, kept: set<string>, names: Names)
    requires t.Rules(c).Some?
    ensures ExecAll(Some(t), AddOne(c, g, kept, names)) == Some(t.WithRules(c,
      t.Rules(c).value + if g.enabled && g.id !in kept then [Counter(NewSpec(c, g, names), 0)] else []))
  {
    if g.enabled && g.id !in kept {
      var cmd := Append(c, NewSpec(c, g, names));
      ExecAppend(Some(t), [], cmd);
      assert [] + [cmd] == [cmd];
    } else {
      assert t.Rules(c).value + [] == t.Rules(c).value;
    }
  }

  lemma {:induction false} AddsRun(t: Table, gateways: seq<Gateway>, keptTX: set<string>, keptRX: set<string>,
                                   names: Names)
    requires t.tx.Some? && t.rx.Some?
    ensures ExecAll(Some(t), Adds(gateways, keptTX, keptRX, names)) == Some(t.(
      tx := Some(t.tx.value + Added(TX, gateways, keptTX, names)),
        rx := Some(t.rx.value + Added(RX, gateways, keptRX, names))))
  {
    if gateways == [] {
      assert t.tx.value + [] == t.tx.value && t.rx.value + [] == t.rx.value;
    } else {
      var n := |gateways| - 1;
      var g := gateways[n];
      AddsRun(t, gateways[..n], keptTX, keptRX, names);
      var u := ExecAll(Some(t), Adds(gateways[..n], keptTX, keptRX, names)).value;
      ExecConcat(Some(t), Adds(gateways[..n], keptTX, keptRX, names),
        AddOne(TX, g, keptTX, names) + AddOne(RX, g, keptRX, names));
      AddBoth(u, g, keptTX, keptRX, names);
      AddedStep(t.tx.value, TX, gateways, keptTX, names);
      AddedStep(t.rx.value, RX, gateways, keptRX, names);
    }
  }

  lemma AddBoth(u: Table, g: Gateway, keptTX: set<string>, keptRX: set<string>, names: Names)
    requires u.tx.Some? && u.rx.Some?
    ensures ExecAll(Some(u), AddOne(TX, g, keptTX, names) + AddOne(RX, g, keptRX, names)) == Some(u.(
      tx := Some(u.tx.value + if g.enabled && g.id !in keptTX then [Counter(NewSpec(TX, g, names), 0)] else []),
      rx := Some(u.rx.value + if g.enabled && g.id !in keptRX then [Counter(NewSpec(RX, g, names), 0)] else [])))
  {
    ExecConcat(Some(u), AddOne(TX, g, keptTX, names), AddOne(RX, g, keptRX, names));
    AddOneRuns(u, TX, g, keptTX, names);
    AddOneRuns(ExecAll(Some(u), AddOne(TX, g, keptTX, names)).value, RX, g, keptRX, names);
  }

  lemma AddedStep(rules: seq<ChainRule>, c: Chain, gateways: seq<Gateway>, kept: set<string>, names: Names)
    requires gateways != []
    ensures var n := |gateways| - 1; var g := gateways[n];
      rules + Added(c, gateways[..n], kept, names) +
        (if g.enabled && g.id !in kept then [Counter(NewSpec(c, g, names), 0)] else []) ==
      rules + Added(c, gateways, kept, names)
  {
  }

  lemma {:induction false} NoneDesired(gateways: seq<Gateway>, keptTX: set<string>, keptRX: set<string>, names: Names)
    requires Desired(gateways) == map[]
    ensures Adds(gateways, keptTX, keptRX, names) == []
  {
    if gateways != [] {
      var n := |gateways| - 1;
      assert gateways[n].id in Desired(gateways[..n])[gateways[n].id := gateways[n]];
      NoneDesired(gateways[..n], keptTX, keptRX, names);
    }
  }

  lemma {:induction false} DesiredLater(gateways: seq<Gateway>, n: nat, id: string)
    requires UniqueEnabled(gateways) && n <= |gateways| && id in Desired(gateways[..n])
    ensures id in Desired(gateways) && Desired(gateways)[id] == Desired(gateways[..n])[id]
    decreases |gateways|
  {
    if n == |gateways| {
      assert gateways[..n] == gateways;
    } else {
      assert gateways[..|gateways| - 1][..n] == gateways[..n];
      DesiredLater(gateways[..|gateways| - 1], n, id);
    }
  }

  // A chain after the rules for the first n gateways were added.
  ghost predicate Adding(c: Chain, rules: seq<ChainRule>, gateways: seq<Gateway>, n: nat, kept: set<string>,
                         names: Names)
    requires n <= |gateways|
  {
    CleanFor(c, rules + Added(c, gateways[..n], kept, names), Desired(gateways), kept + Desired(gateways[..n]).Keys)
  }

  lemma AddedPrefix(rules: seq<ChainRule>, c: Chain, gateways: seq<Gateway>, n: nat, kept: set<string>, names: Names)
    requires n < |gateways|
    ensures var g, now := gateways[n], rules + Added(c, gateways[..n], kept, names);
      rules + Added(c, gateways[..n + 1], kept, names) ==
        if g.enabled && g.id !in kept then now + [Counter(NewSpec(c, g, names), 0)] else now
  {
    assert gateways[..n + 1][..n] == gateways[..n];
  }

  lemma DesiredPrefix(gateways: seq<Gateway>, n: nat)
    requires n < |gateways|
    ensures Desired(gateways[..n + 1]) ==
      if gateways[n].enabled then Desired(gateways[..n])[gateways[n].id := gateways[n]] else Desired(gateways[..n])
    ensures UniqueEnabled(gateways[..n + 1]) && gateways[n].enabled ==> gateways[n].id !in Desired(gateways[..n])
  {
    assert gateways[..n + 1][..n] == gateways[..n];
  }

  lemma AddingStep(c: Chain, rules: seq<ChainRule>, gateways: seq<Gateway>, n: nat, kept: set<string>, names: Names)
    requires n < |gateways| && UniqueEnabled(gateways) && Adding(c, rules, gateways, n, kept, names)
    ensures Adding(c, rules, gateways, n + 1, kept, names)
  {
    var g, now := gateways[n], rules + Added(c, gateways[..n], kept, names);
    var ids := kept + Desired(gateways[..n]).Keys;
    AddedPrefix(rules, c, gateways, n, kept, names);
    AddedIds(gateways, n, kept);
    if g.enabled && g.id !in kept {
      NewFits(c, gateways, n, names);
      OneMore(c, now, Counter(NewSpec(c, g, names), 0), Desired(gateways), ids);
    }
  }

  lemma AddedIds(gateways: seq<Gateway>, n: nat, kept: set<string>)
    requires n < |gateways| && UniqueEnabled(gateways)
    ensures var g, ids, after := gateways[n], kept + Desired(gateways[..n]).Keys,
      kept + Desired(gateways[..n + 1]).Keys;
      if g.enabled && g.id !in kept then g.id !in ids && after == ids + {g.id} else after == ids
  {
    DesiredPrefix(gateways, n);
    UniquePrefix(gateways, n + 1);
  }

  lemma NewFits(c: Chain, gateways: seq<Gateway>, n: nat, names: Names)
    requires UniqueEnabled(gateways) && n < |gateways| && gateways[n].enabled
    ensures Fits(c, NewSpec(c, gateways[n], names), Desired(gateways))
  {
    NewSpecMatches(c, gateways[n], names);
    DesiredPrefix(gateways, n);
    DesiredLater(gateways, n + 1, gateways[n].id);
  }

  lemma {:induction false} UniquePrefix(gateways: seq<Gateway>, n: nat)
    requires UniqueEnabled(gateways) && n <= |gateways|
    ensures UniqueEnabled(gateways[..n])
    decreases |gateways|
  {
    if n == |gateways| {
      assert gateways[..n] == gateways;
    } else {
      assert gateways[..|gateways| - 1][..n] == gateways[..n];
      UniquePrefix(gateways[..|gateways| - 1], n);
    }
  }

  lemma {:induction false} AddingRuns(c: Chain, rules: seq<ChainRule>, gateways: seq<Gateway>, n: nat,
                                      kept: set<string>, names: Names)
    requires n <= |gateways| && UniqueEnabled(gateways) && CleanFor(c, rules, Desired(gateways), kept)
    ensures Adding(c, rules, gateways, n, kept, names)
  {
    if n == 0 {
      assert gateways[..0] == [] && rules + [] == rules && kept + Desired([]).Keys == kept;
    } else {
      AddingRuns(c, rules, gateways, n - 1, kept, names);
      AddingStep(c, rules, gateways, n - 1, kept, names);
    }
  }

  lemma AddedSettles(c: Chain, rules: seq<ChainRule>, gateways: seq<Gateway>, kept: set<string>, names: Names)
    requires UniqueEnabled(gateways) && CleanFor(c, rules, Desired(gateways), kept) && kept <= Desired(gateways).Keys
    ensures SettledChain(c, rules + Added(c, gateways, kept, names), Desired(gateways))
  {
    AddingRuns(c, rules, gateways, |gateways|, kept, names);
    assert gateways[..|gateways|] == gateways && kept + Desired(gateways).Keys == Desired(gateways).Keys;
  }

  /* ---------- the jumps ---------- */

  lemma {:induction false} FirstJumpRemoved(parent: seq<ParentRule>)
    requires Jumps(parent) != []
    ensures var p := RemoveJump(parent, Jumps(parent)[0]); Jumps(p) == Jumps(parent)[1..] && Users(p) == Users(parent)
  {
    RemoveJumpUsers(parent, Jumps(parent)[0]);
    if parent[0].Jump? {
    } else {
      FirstJumpRemoved(parent[1..]);
      var p := [parent[0]] + RemoveJump(parent[1..], Jumps(parent)[0]);
      assert p[1..] == RemoveJump(parent[1..], Jumps(parent[1..])[0]);
    }
  }

  lemma {:induction false} NoJumps(parent: seq<ParentRule>)
    requires Jumps(parent) == []
    ensures Users(parent) == parent
  {
    if parent != [] { NoJumps(parent[1..]); }
  }

  // The table after the first n jumps were deleted.
  ghost predicate Unhooking(t: Table, c: Chain, n: nat, u: Option<Table>)
    requires n <= |Jumps(t.Parent(c))|
  {
    u.Some? && u.value == t.WithParent(c, u.value.Parent(c)) &&
    Jumps(u.value.Parent(c)) == Jumps(t.Parent(c))[n..] && Users(u.value.Parent(c)) == Users(t.Parent(c))
  }

  lemma UnhookOne(t: Table, c: Chain, n: nat, u: Table)
    requires n < |Jumps(t.Parent(c))| && Unhooking(t, c, n, Some(u))
    ensures Unhooking(t, c, n + 1, Exec(u, DeleteJump(c, Jumps(t.Parent(c))[n])))
  {
    var jumps := Jumps(t.Parent(c));
    assert jumps[n..][0] == jumps[n] && jumps[n..][1..] == jumps[n + 1..];
    FirstJumpRemoved(u.Parent(c));
  }

  lemma JumpDeletesStep(c: Chain, jumps: seq<string>, n: nat)
    requires n < |jumps|
    ensures JumpDeletes(c, jumps[..n + 1]) == JumpDeletes(c, jumps[..n]) + [DeleteJump(c, jumps[n])]
  {
    assert jumps[..n + 1][..n] == jumps[..n];
  }

  lemma {:induction false} JumpDeletesRun(t: Table, c: Chain, n: nat)
    requires n <= |Jumps(t.Parent(c))|
    ensures Unhooking(t, c, n, ExecAll(Some(t), JumpDeletes(c, Jumps(t.Parent(c))[..n])))
  {
    if n > 0 {
      var jumps := Jumps(t.Parent(c));
      JumpDeletesRun(t, c, n - 1);
      JumpDeletesStep(c, jumps, n - 1);
      ExecAppend(Some(t), JumpDeletes(c, jumps[..n - 1]), DeleteJump(c, jumps[n - 1]));
      UnhookOne(t, c, n - 1, ExecAll(Some(t), JumpDeletes(c, jumps[..n - 1])).value);
    }
  }

  lemma JumpsGone(t: Table, c: Chain)
    ensures ExecAll(Some(t), JumpDeletes(c, Jumps(t.Parent(c)))) == Some(t.WithParent(c, Users(t.Parent(c))))
  {
    var jumps := Jumps(t.Parent(c));
    JumpDeletesRun(t, c, |jumps|);
    assert jumps[..|jumps|] == jumps;
    NoJumps(ExecAll(Some(t), JumpDeletes(c, jumps)).value.Parent(c));
  }

  function Fixed(parent: seq<ParentRule>, any: bool): seq<ParentRule> {
    if any then [Jump(CANONICAL)] + Users(parent) else Users(parent)
  }

  lemma {:induction false} UsersTwice(parent: seq<ParentRule>)
    ensures Jumps(Users(parent)) == [] && Users(Users(parent)) == Users(parent)
  {
    if parent != [] { UsersTwice(parent[1..]); }
  }

  lemma JumpFixRuns(t: Table, c: Chain, any: bool)
    requires any ==> t.Rules(c).Some?
    ensures ExecAll(Some(t), JumpFix(c, t.Parent(c), any)) == Some(t.WithParent(c, Fixed(t.Parent(c), any)))
  {
    var parent := t.Parent(c);
    if any && JumpInPlace(parent) {
      NoJumps(parent[1..]);
      assert parent == [parent[0]] + parent[1..];
    } else {
      JumpsGone(t, c);
      if any {
        ExecAppend(Some(t), JumpDeletes(c, Jumps(parent)), InsertJump(c, CANONICAL));
      }
    }
  }

  lemma FixedSettles(parent: seq<ParentRule>, any: bool)
    ensures SettledParent(Fixed(parent, any), any) && Users(Fixed(parent, any)) == Users(parent)
  {
    UsersTwice(parent);
    assert ([Jump(CANONICAL)] + Users(parent))[1..] == Users(parent);
  }

  /* ---------- the whole plan ---------- */

  function WithChains(t: Table, any: bool): Table {
    if any then t.(tx := Some(RulesOf(t, TX)), rx := Some(RulesOf(t, RX))) else t
  }

  lemma NewChainsRun(t: Table, any: bool)
    ensures ExecAll(Some(t), NewChains(t, any)) == Some(WithChains(t, any))
  {
    var first := if any && t.tx.None? then [NewChain(TX)] else [];
    var second := if any && t.rx.None? then [NewChain(RX)] else [];
    ExecConcat(Some(t), first, second);
    var u := if any && t.tx.None? then t.(tx := Some([])) else t;
    assert ExecAll(Some(t), first) == Some(u) by { OneCommand(t, NewChain(TX)); }
    OneCommand(u, NewChain(RX));
  }

  lemma OneCommand(t: Table, cmd: Command)
    ensures ExecAll(Some(t), [cmd]) == Exec(t, cmd)
  {
    assert [cmd][..0] == [];
  }

  lemma CleanByCounts(c: Chain, rules: seq<ChainRule>, now: seq<ChainRule>, d: map<string, Gateway>, ids: set<string>)
    requires CleanFor(c, rules, d, ids) && AllCounters(now) && forall p :: Count(now, p) == Count(rules, p)
    ensures CleanFor(c, now, d, ids)
  {
  }

  // The chain after the drops.
  ghost predicate CleanedChain(c: Chain, rules: seq<ChainRule>, d: map<string, Gateway>, now: seq<ChainRule>)
    requires AllCounters(rules)
  {
    CleanFor(c, now, d, KeptIds(c, rules, d)) && (DistinctSpecs(rules) ==> now == Kept(c, rules, d)) &&
    LastStays(c, rules, d, now)
  }

  lemma DropsClean(t: Table, c: Chain, d: map<string, Gateway>) returns (now: seq<ChainRule>)
    requires OwnedTable(t) && t.Rules(c).Some?
    ensures ExecAll(Some(t), Drops(c, t.Rules(c).value, d)) == Some(t.WithRules(c, now)) &&
      CleanedChain(c, t.Rules(c).value, d, now)
  {
    var rules := t.Rules(c).value;
    DropsLeave(t, c, d);
    now := ExecAll(Some(t), Drops(c, rules, d)).value.Rules(c).value;
    KeptClean(c, rules, d);
    CleanByCounts(c, Kept(c, rules, d), now, d, KeptIds(c, rules, d));
    DropsKeepLast(t, c, d, now);
  }

  lemma {:induction false} KeptIdsDesired(c: Chain, rules: seq<ChainRule>, d: map<string, Gateway>)
    requires AllCounters(rules)
    ensures KeptIds(c, rules, d) <= d.Keys
  {
    if rules != [] { KeptIdsDesired(c, rules[..|rules| - 1], d); }
  }

  // The chains of u once the rules are repaired; jumps are still those of t.
  ghost predicate RulesRepaired(t: Table, gateways: seq<Gateway>, u: Table)
    requires OwnedTable(t)
  {
    var d := Desired(gateways);
    u.output == t.output && u.input == t.input &&
    forall c :: (u.Rules(c).Some? <==> t.Rules(c).Some? || d != map[]) &&
      (u.Rules(c).Some? ==> SettledChain(c, u.Rules(c).value, d) && Undisturbed(c, RulesOf(t, c), d, u.Rules(c).value))
  }

  // With no two equal rules, those that fit keep their place and their counters;
  // of equal ones the last counter is kept.
  ghost predicate Undisturbed(c: Chain, rules: seq<ChainRule>, d: map<string, Gateway>, now: seq<ChainRule>)
    requires AllCounters(rules)
  {
    (DistinctSpecs(rules) ==> Kept(c, rules, d) <= now) && LastStays(c, rules, d, now)
  }

  function RulePlan(t: Table, gateways: seq<Gateway>, names: Names): seq<Command>
    requires OwnedTable(t)
  {
    var d := Desired(gateways);
    NewChains(t, d != map[]) + AllDrops(t, d) +
      Adds(gateways, KeptIds(TX, RulesOf(t, TX), d), KeptIds(RX, RulesOf(t, RX), d), names)
  }

  lemma Then(t: Option<Table>, a: seq<Command>, u: Option<Table>, b: seq<Command>, v: Option<Table>)
    requires ExecAll(t, a) == u && ExecAll(u, b) == v
    ensures ExecAll(t, a + b) == v
  {
    ExecConcat(t, a, b);
  }

  lemma DropOneChain(t: Table, c: Chain, d: map<string, Gateway>) returns (u: Table)
    requires OwnedTable(t) && t.Rules(c).Some?
    ensures ExecAll(Some(t), Drops(c, RulesOf(t, c), d)) == Some(u)
    ensures u.output == t.output && u.input == t.input && u.Rules(Other(c)) == t.Rules(Other(c))
    ensures u.Rules(c).Some? && CleanedChain(c, RulesOf(t, c), d, u.Rules(c).value) && AllCounters(u.Rules(c).value)
  {
    var now := DropsClean(t, c, d);
    u := t.WithRules(c, now);
  }

  lemma DropBoth(t: Table, d: map<string, Gateway>) returns (u: Table)
    requires OwnedTable(t) && t.tx.Some? && t.rx.Some?
    ensures ExecAll(Some(t), AllDrops(t, d)) == Some(u)
    ensures u.output == t.output && u.input == t.input
    ensures u.tx.Some? && CleanedChain(TX, RulesOf(t, TX), d, u.tx.value)
    ensures u.rx.Some? && CleanedChain(RX, RulesOf(t, RX), d, u.rx.value)
  {
    hide CleanedChain, Drops;
    var c := t.first;
    var second := DropOneChain(t, c, d);
    assert RulesOf(second, Other(c)) == RulesOf(t, Other(c));
    u := DropOneChain(second, Other(c), d);
    Then(Some(t), Drops(c, RulesOf(t, c), d), Some(second), Drops(Other(c), RulesOf(t, Other(c)), d), Some(u));
  }

  lemma DropsPlanRuns(t: Table, d: map<string, Gateway>) returns (u: Table)
    requires OwnedTable(t) && d != map[]
    ensures ExecAll(Some(t), NewChains(t, true) + AllDrops(t, d)) == Some(u)
    ensures u.output == t.output && u.input == t.input
    ensures u.tx.Some? && CleanedChain(TX, RulesOf(t, TX), d, u.tx.value)
    ensures u.rx.Some? && CleanedChain(RX, RulesOf(t, RX), d, u.rx.value)
  {
    hide CleanedChain, Drops;
    NewChainsRun(t, true);
    var w := WithChains(t, true);
    assert RulesOf(w, TX) == RulesOf(t, TX) && RulesOf(w, RX) == RulesOf(t, RX);
    u := DropBoth(w, d);
    assert AllDrops(w, d) == AllDrops(t, d);
    Then(Some(t), NewChains(t, true), Some(w), AllDrops(t, d), Some(u));
  }

  lemma RulePlanRuns(t: Table, gateways: seq<Gateway>, names: Names) returns (u: Table)
    requires OwnedTable(t) && UniqueEnabled(gateways) && Desired(gateways) != map[]
    ensures ExecAll(Some(t), RulePlan(t, gateways, names)) == Some(u) && RulesRepaired(t, gateways, u)
  {
    var d := Desired(gateways);
    var tx, rx := RulesOf(t, TX), RulesOf(t, RX);
    var v := DropsPlanRuns(t, d);
    var keptTX, keptRX := KeptIds(TX, tx, d), KeptIds(RX, rx, d);
    AddsRun(v, gateways, keptTX, keptRX, names);
    KeptIdsDesired(TX, tx, d);
    KeptIdsDesired(RX, rx, d);
    AddedSettles(TX, v.tx.value, gateways, keptTX, names);
    AddedSettles(RX, v.rx.value, gateways, keptRX, names);
    u := v.(tx := Some(v.tx.value + Added(TX, gateways, keptTX, names)),
      rx := Some(v.rx.value + Added(RX, gateways, keptRX, names)));
    ExecConcat(Some(t), NewChains(t, true) + AllDrops(t, d), Adds(gateways, keptTX, keptRX, names));
    Repaired(t, gateways, u);
  }

  lemma Repaired(t: Table, gateways: seq<Gateway>, u: Table)
    requires OwnedTable(t) && u.output == t.output && u.input == t.input && Desired(gateways) != map[]
    requires u.tx.Some? && SettledChain(TX, u.tx.value, Desired(gateways)) &&
      Undisturbed(TX, RulesOf(t, TX), Desired(gateways), u.tx.value)
    requires u.rx.Some? && SettledChain(RX, u.rx.value, Desired(gateways)) &&
      Undisturbed(RX, RulesOf(t, RX), Desired(gateways), u.rx.value)
    ensures RulesRepaired(t, gateways, u)
  {
    forall c
      ensures u.Rules(c).Some? && SettledChain(c, u.Rules(c).value, Desired(gateways))
      ensures Undisturbed(c, RulesOf(t, c), Desired(gateways), u.Rules(c).value)
    {
      if c == TX {} else {}
    }
  }

  // Clearing one chain when no gateway is enabled.
  lemma DropsClear(t: Table, c: Chain, d: map<string, Gateway>) returns (u: Table)
    requires OwnedTable(t) && d == map[]
    ensures ExecAll(Some(t), Drops(c, RulesOf(t, c), d)) == Some(u)
    ensures OwnedTable(u) && u.output == t.output && u.input == t.input && u.Rules(Other(c)) == t.Rules(Other(c))
    ensures Cleared(t, c, d, u)
  {
    hide CleanedChain, Drops, ExecAll;
    if t.Rules(c).Some? {
      u := DropOneChain(t, c, d);
    } else {
      u := t;
      NoDrops(t, c, d);
    }
  }

  lemma NoDrops(t: Table, c: Chain, d: map<string, Gateway>)
    requires t.Rules(c).None?
    ensures ExecAll(Some(t), Drops(c, RulesOf(t, c), d)) == Some(t)
  {
  }

  // The chain after its drops, if there is one.
  ghost predicate Cleared(t: Table, c: Chain, d: map<string, Gateway>, u: Table)
    requires OwnedTable(t)
  {
    (u.Rules(c).Some? <==> t.Rules(c).Some?) &&
    (u.Rules(c).Some? ==> CleanedChain(c, RulesOf(t, c), d, u.Rules(c).value))
  }

  lemma RulePlanNone(t: Table, gateways: seq<Gateway>, names: Names)
    requires OwnedTable(t) && Desired(gateways) == map[]
    ensures RulePlan(t, gateways, names) == AllDrops(t, Desired(gateways))
  {
    NoneDesired(gateways, KeptIds(TX, RulesOf(t, TX), Desired(gateways)),
      KeptIds(RX, RulesOf(t, RX), Desired(gateways)), names);
  }

  lemma ClearBoth(t: Table, d: map<string, Gateway>) returns (u: Table)
    requires OwnedTable(t) && d == map[]
    ensures ExecAll(Some(t), AllDrops(t, d)) == Some(u) && u.output == t.output && u.input == t.input
    ensures Cleared(t, TX, d, u) && Cleared(t, RX, d, u)
  {
    hide CleanedChain, Drops, ExecAll;
    var c := t.first;
    var t2 := DropsClear(t, c, d);
    u := DropsClear(t2, Other(c), d);
    assert RulesOf(t2, Other(c)) == RulesOf(t, Other(c));
    Then(Some(t), Drops(c, RulesOf(t, c), d), Some(t2), Drops(Other(c), RulesOf(t, Other(c)), d), Some(u));
  }

  lemma RulePlanClears(t: Table, gateways: seq<Gateway>, names: Names) returns (u: Table)
    requires OwnedTable(t) && Desired(gateways) == map[]
    ensures ExecAll(Some(t), RulePlan(t, gateways, names)) == Some(u) && RulesRepaired(t, gateways, u)
  {
    hide CleanedChain, AllDrops, RulePlan, SettledChain, Undisturbed;
    var d := Desired(gateways);
    u := ClearBoth(t, d);
    RulePlanNone(t, gateways, names);
    KeptIdsDesired(TX, RulesOf(t, TX), d);
    KeptIdsDesired(RX, RulesOf(t, RX), d);
    ClearedChain(t, TX, d, u);
    ClearedChain(t, RX, d, u);
  }

  lemma ClearedChain(t: Table, c: Chain, d: map<string, Gateway>, u: Table)
    requires OwnedTable(t) && KeptIds(c, RulesOf(t, c), d) <= d.Keys == {} && Cleared(t, c, d, u)
    ensures u.Rules(c).Some? ==>
      SettledChain(c, u.Rules(c).value, d) && Undisturbed(c, RulesOf(t, c), d, u.Rules(c).value)
  {
    assert KeptIds(c, RulesOf(t, c), d) == d.Keys;
  }

  lemma PlanParts(t: Table, gateways: seq<Gateway>, names: Names)
    requires OwnedTable(t)
    ensures var any := Desired(gateways) != map[];
      Plan(t, gateways, names) == RulePlan(t, gateways, names) + JumpFix(TX, t.output, any) + JumpFix(RX, t.input, any)
  {
  }

  /** A run of Sample that carries out all its commands, and no command of it is
      refused, settles the table. With no two equal counter rules, those that fit
      their gateway stay in place with their counters. */
  lemma PlanSettles(t: Table, gateways: seq<Gateway>, names: Names) returns (u: Table)
    requires OwnedTable(t) && UniqueEnabled(gateways)
    ensures ExecAll(Some(t), Plan(t, gateways, names)) == Some(u) && Settled(u, gateways)
    ensures forall c :: Users(u.Parent(c)) == Users(t.Parent(c)) && (t.Rules(c).Some? ==> u.Rules(c).Some?)
    ensures forall c :: u.Rules(c).Some? ==> Undisturbed(c, RulesOf(t, c), Desired(gateways), u.Rules(c).value)
  {
    var any := Desired(gateways) != map[];
    var v;
    if any { v := RulePlanRuns(t, gateways, names); } else { v := RulePlanClears(t, gateways, names); }
    u := v.(output := Fixed(t.output, any), input := Fixed(t.input, any));
    JumpFixRuns(v, TX, any);
    JumpFixRuns(v.(output := Fixed(t.output, any)), RX, any);
    PlanParts(t, gateways, names);
    ExecConcat(Some(t), RulePlan(t, gateways, names), JumpFix(TX, t.output, any));
    ExecConcat(Some(t), RulePlan(t, gateways, names) + JumpFix(TX, t.output, any), JumpFix(RX, t.input, any));
    FixedSettles(t.output, any);
    FixedSettles(t.input, any);
    forall c
      ensures SettledParent(u.Parent(c), any) && Users(u.Parent(c)) == Users(t.Parent(c)) && u.Rules(c) == v.Rules(c)
    {
      if c == TX {} else {}
    }
  }

  /** After a completed run a kept rule has its own counter if and only if that is
      the counter of the last rule equal to it; so always when no two are equal. */
  lemma CountersSurvive(t: Table, gateways: seq<Gateway>, names: Names, c: Chain, r: ChainRule)
    requires OwnedTable(t) && UniqueEnabled(gateways) && r in Kept(c, RulesOf(t, c), Desired(gateways))
    ensures var u := ExecAll(Some(t), Plan(t, gateways, names));
      && r.Counter? && u.Some? && Count(RulesOf(t, c), Equal(r.spec)) > 0
      && (r in RulesOf(u.value, c) <==> r.bytes == LastBytes(RulesOf(t, c), r.spec))
  {
    var u := PlanSettles(t, gateways, names);
    KeptCounts(c, RulesOf(t, c), Desired(gateways), r);
    assert u.Rules(c).Some?;
    assert Counter(r.spec, LastBytes(RulesOf(t, c), r.spec)) in u.Rules(c).value;
    OneOfEach(c, u.Rules(c).value, Desired(gateways), r.spec);
    if r in u.Rules(c).value { OneByte(u.Rules(c).value, r.spec, r.bytes, LastBytes(RulesOf(t, c), r.spec)); }
  }

  lemma OneOfEach(c: Chain, rules: seq<ChainRule>, d: map<string, Gateway>, s: Spec)
    requires SettledChain(c, rules, d)
    ensures Count(rules, Equal(s)) <= 1
  {
    EqualWithin(rules, s);
  }

  lemma {:induction false} EqualWithin(rules: seq<ChainRule>, s: Spec)
    ensures Count(rules, Equal(s)) <= Count(rules, Of(s.id))
  {
    if rules != [] { EqualWithin(rules[1..], s); }
  }

  /* ---------- settled tables ---------- */

  // Each gateway of d has exactly one rule, and no rule is anyone else's.
  lemma SettledMeaning(c: Chain, rules: seq<ChainRule>, d: map<string, Gateway>)
    requires SettledChain(c, rules, d)
    ensures forall i :: 0 <= i < |rules| ==> rules[i].spec.id in d && Matches(c, rules[i].spec, d[rules[i].spec.id])
    ensures forall i, j :: 0 <= i < j < |rules| ==> rules[i].spec.id != rules[j].spec.id
    ensures forall id <- d :: exists i :: 0 <= i < |rules| && rules[i].spec.id == id
    ensures d == map[] ==> rules == []
  {
    if rules != [] { CountAt(rules, 0, Equal(rules[0].spec)); }
    forall i | 0 <= i < |rules| ensures Fits(c, rules[i].spec, d) { CountAt(rules, i, Equal(rules[i].spec)); }
    forall i, j | 0 <= i < j < |rules| ensures rules[i].spec.id != rules[j].spec.id {
      CountTwice(rules, i, j);
    }
    forall id | id in d ensures exists i :: 0 <= i < |rules| && rules[i].spec.id == id { CountedAt(rules, id); }
  }

  lemma CountAt(rules: seq<ChainRule>, i: nat, p: Probe)
    requires i < |rules| && rules[i].Counter? && p.Hits(rules[i].spec)
    ensures Count(rules, p) > 0
  {
    assert rules == rules[..i] + rules[i..];
    CountAppend(rules[..i], rules[i..], p);
  }

  lemma CountTwice(rules: seq<ChainRule>, i: nat, j: nat)
    requires i < j < |rules| && rules[i].Counter? && rules[j].Counter?
    ensures rules[i].spec.id == rules[j].spec.id ==> Count(rules, Of(rules[i].spec.id)) >= 2
  {
    if rules[i].spec.id == rules[j].spec.id {
      var p := Of(rules[i].spec.id);
      assert rules == rules[..j] + rules[j..];
      CountAppend(rules[..j], rules[j..], p);
      CountAt(rules[..j], i, p);
      CountAt(rules[j..], 0, p);
    }
  }

  lemma {:induction false} CountedAt(rules: seq<ChainRule>, id: string)
    requires AllCounters(rules) && Count(rules, Of(id)) > 0
    ensures exists i :: 0 <= i < |rules| && rules[i].spec.id == id
  {
    if rules[0].spec.id != id {
      CountedAt(rules[1..], id);
      var i :| 0 <= i < |rules| - 1 && rules[1..][i].spec.id == id;
      assert rules[i + 1].spec.id == id;
    }
  }

  lemma {:induction false} NothingToDrop(c: Chain, rules: seq<ChainRule>, d: map<string, Gateway>)
    requires AllCounters(rules) && forall i :: 0 <= i < |rules| ==> Fits(c, rules[i].spec, d)
    requires forall i, j :: 0 <= i < j < |rules| ==> rules[i].spec.id != rules[j].spec.id
    ensures Drops(c, rules, d) == []
    ensures forall id :: id in KeptIds(c, rules, d) <==> exists i :: 0 <= i < |rules| && rules[i].spec.id == id
  {
    if rules != [] {
      var n := |rules| - 1;
      NothingToDrop(c, rules[..n], d);
      forall id ensures id in KeptIds(c, rules, d) <==> exists i :: 0 <= i < |rules| && rules[i].spec.id == id {
        if id in KeptIds(c, rules[..n], d) {
          var i :| 0 <= i < n && rules[..n][i].spec.id == id;
          assert rules[i].spec.id == id;
        }
        if i :| 0 <= i < |rules| && rules[i].spec.id == id {
          assert i < n ==> rules[..n][i].spec.id == id;
        }
      }
    }
  }

  lemma {:induction false} NothingToAdd(gateways: seq<Gateway>, n: nat, keptTX: set<string>, keptRX: set<string>,
                                        names: Names)
    requires n <= |gateways| && UniqueEnabled(gateways) && Desired(gateways).Keys <= keptTX &&
      Desired(gateways).Keys <= keptRX
    ensures Adds(gateways[..n], keptTX, keptRX, names) == []
  {
    if n > 0 {
      NothingToAdd(gateways, n - 1, keptTX, keptRX, names);
      assert gateways[..n][..n - 1] == gateways[..n - 1];
      DesiredPrefix(gateways, n - 1);
      if gateways[n - 1].enabled { DesiredLater(gateways, n, gateways[n - 1].id); }
    }
  }

  /** Sample issues no changing command exactly when the table is settled: in
      particular never on a second run. */
  lemma SecondRunChangesNothing(t: Table, gateways: seq<Gateway>, names: Names)
    requires OwnedTable(t) && UniqueEnabled(gateways)
    ensures Settled(t, gateways) <==> Plan(t, gateways, names) == []
  {
    if Plan(t, gateways, names) == [] {
      var u := PlanSettles(t, gateways, names);
    }
    if Settled(t, gateways) {
      SettledRulePlan(t, gateways, names);
      SettledJumps(t.Parent(TX), TX, Desired(gateways) != map[]);
      SettledJumps(t.Parent(RX), RX, Desired(gateways) != map[]);
      PlanParts(t, gateways, names);
    }
  }

  lemma SettledJumps(parent: seq<ParentRule>, c: Chain, any: bool)
    requires SettledParent(parent, any)
    ensures JumpFix(c, parent, any) == []
  {
    UsersTwice(parent);
    if any { assert parent[1..] == Users(parent); }
  }

  lemma SettledRulePlan(t: Table, gateways: seq<Gateway>, names: Names)
    requires OwnedTable(t) && UniqueEnabled(gateways) && Settled(t, gateways)
    ensures RulePlan(t, gateways, names) == []
  {
    hide SettledChain, SettledParent, Drops, KeptIds;
    var d := Desired(gateways);
    assert d != map[] ==> t.Rules(TX).Some? && t.Rules(RX).Some?;
    SettledDrops(t, TX, gateways);
    SettledDrops(t, RX, gateways);
    if d == map[] {
      NoneDesired(gateways, KeptIds(TX, RulesOf(t, TX), d), KeptIds(RX, RulesOf(t, RX), d), names);
    } else {
      NothingToAdd(gateways, |gateways|, KeptIds(TX, RulesOf(t, TX), d), KeptIds(RX, RulesOf(t, RX), d), names);
      assert gateways[..|gateways|] == gateways;
    }
  }

  lemma SettledDrops(t: Table, c: Chain, gateways: seq<Gateway>)
    requires OwnedTable(t) && Settled(t, gateways)
    ensures var d := Desired(gateways);
      Drops(c, RulesOf(t, c), d) == [] && (t.Rules(c).Some? ==> d.Keys <= KeptIds(c, RulesOf(t, c), d))
  {
    if t.Rules(c).Some? {
      SettledMeaning(c, t.Rules(c).value, Desired(gateways));
      NothingToDrop(c, t.Rules(c).value, Desired(gateways));
    }
  }

  /** With no gateway enabled nothing of the panel's is left but empty chains. */
  lemma NothingLeft(t: Table, gateways: seq<Gateway>, c: Chain)
    requires Settled(t, gateways) && Desired(gateways) == map[]
    ensures RulesOf(t, c) == [] && Jumps(t.Parent(c)) == []
  {
    assert SettledParent(t.Parent(c), false);
    UsersTwice(t.Parent(c));
    if t.Rules(c).Some? { SettledMeaning(c, t.Rules(c).value, Desired(gateways)); }
  }

  /* ---------- Sample, command by command ---------- */

  datatype Reading = Reading(bytes: int, generation: string)

  datatype GatewayCounters = GatewayCounters(tx: Reading, rx: Reading)

  lemma {:induction false} DropsPrefix(c: Chain, rules: seq<ChainRule>, d: map<string, Gateway>, n: nat)
    requires AllCounters(rules) && n <= |rules|
    ensures Drops(c, rules[..n], d) <= Drops(c, rules, d)
    decreases |rules|
  {
    if n == |rules| {
      assert rules[..n] == rules;
    } else {
      assert rules[..|rules| - 1][..n] == rules[..n];
      DropsPrefix(c, rules[..|rules| - 1], d, n);
    }
  }

  lemma {:induction false} AddsPrefix(gateways: seq<Gateway>, keptTX: set<string>, keptRX: set<string>, names: Names,
                                      n: nat)
    requires n <= |gateways|
    ensures Adds(gateways[..n], keptTX, keptRX, names) <= Adds(gateways, keptTX, keptRX, names)
    decreases |gateways|
  {
    if n == |gateways| {
      assert gateways[..n] == gateways;
    } else {
      assert gateways[..|gateways| - 1][..n] == gateways[..n];
      AddsPrefix(gateways[..|gateways| - 1], keptTX, keptRX, names, n);
    }
  }

  lemma {:induction false} JumpDeletesPrefix(c: Chain, jumps: seq<string>, n: nat)
    requires n <= |jumps|
    ensures JumpDeletes(c, jumps[..n]) <= JumpDeletes(c, jumps)
    decreases |jumps|
  {
    if n == |jumps| {
      assert jumps[..n] == jumps;
    } else {
      assert jumps[..|jumps| - 1][..n] == jumps[..n];
      JumpDeletesPrefix(c, jumps[..|jumps| - 1], n);
    }
  }

  // Nothing of its own makes a command fail.
  ghost predicate Faultless(faults: nat -> bool) { forall n :: !faults(n) }

  // Some command of a plan fails, by a fault or because the kernel refuses it.
  ghost predicate Blocked(faults: nat -> bool, t: Option<Table>, plan: seq<Command>) {
    !Faultless(faults) || ExecAll(t, plan).None?
  }

  lemma BlockedLater(faults: nat -> bool, t: Option<Table>, part: seq<Command>, all: seq<Command>)
    requires part <= all && Blocked(faults, t, part)
    ensures Blocked(faults, t, all)
  {
    if ExecAll(t, all).Some? { ExecPrefix(t, part, all); }
  }

  // A part of a plan, begun after cmds were carried out.
  lemma BlockedPart(faults: nat -> bool, t: Option<Table>, plan: seq<Command>, cmds: seq<Command>, all: seq<Command>,
                    rest: seq<Command>)
    requires plan == cmds + (all + rest) && Blocked(faults, ExecAll(t, cmds), all)
    ensures Blocked(faults, t, plan)
  {
    ExecConcat(t, cmds, all);
    assert cmds + all <= plan;
    BlockedLater(faults, t, cmds + all, plan);
  }

  class Accounting {
    var table: Table
    const faults: nat -> bool          // the commands that fail for reasons of their own
    var calls: nat

    constructor (table: Table, faults: nat -> bool)
      ensures this.table == table
    {
      this.table, this.faults, calls := table, faults, 0;
    }

    /** One iptables command: carried out whole, or refused and nothing changed; it
        fails only by a fault or a refusal of the kernel. */
    method Iptables(cmd: Command, ghost t: Option<Table>, ghost cmds: seq<Command>)
      returns (ok: bool, ghost more: seq<Command>)
      requires ExecAll(t, cmds) == Some(table)
      modifies this
      ensures ok == (Exec(old(table), cmd).Some? && !faults(old(calls))) && calls == old(calls) + 1
      ensures more == (if ok then cmds + [cmd] else cmds) && ExecAll(t, more) == Some(table)
      ensures !ok ==> Blocked(faults, t, cmds + [cmd])
    {
      var next := Exec(table, cmd);
      ok := next.Some? && !faults(calls);
      calls := calls + 1;
      more := cmds;
      ExecAppend(t, cmds, cmd);
      if ok {
        table := next.value;
        more := cmds + [cmd];
      }
    }

    // One rule of the chain: kept, or deleted.
    method DropRule(c: Chain, r: ChainRule, d: map<string, Gateway>, kept: set<string>,
                    ghost t: Option<Table>, ghost cmds: seq<Command>)
      returns (ok: bool, keeps: set<string>, ghost more: seq<Command>)
      requires r.Counter? && ExecAll(t, cmds) == Some(table)
      modifies this
      ensures ExecAll(t, more) == Some(table)
      ensures keeps == if Fits(c, r.spec, d) then kept + {r.spec.id} else kept
      ensures var next := if Fits(c, r.spec, d) && r.spec.id !in kept then cmds else cmds + [Delete(c, r.spec)];
        more == (if ok then next else cmds) && (!ok ==> Blocked(faults, t, next))
    {
      ok, keeps, more := true, kept, cmds;
      var fits := r.spec.id in d && Matches(c, r.spec, d[r.spec.id]);
      if fits && r.spec.id !in kept {
        keeps := kept + {r.spec.id};
      } else {
        assert fits ==> kept + {r.spec.id} == kept;
        ok, more := Iptables(Delete(c, r.spec), t, cmds);
      }
    }

    // One turn of the loop.
    method DropAt(c: Chain, rules: seq<ChainRule>, n: nat, d: map<string, Gateway>, kept: set<string>,
                  ghost t: Option<Table>, ghost cmds: seq<Command>)
      returns (ok: bool, keeps: set<string>, ghost more: seq<Command>)
      requires AllCounters(rules) && n < |rules| && kept == KeptIds(c, rules[..n], d)
      requires ExecAll(t, cmds) == Some(table) && cmds == Drops(c, rules[..n], d)
      modifies this
      ensures ExecAll(t, more) == Some(table)
      ensures ok ==> more == Drops(c, rules[..n + 1], d) && keeps == KeptIds(c, rules[..n + 1], d)
      ensures !ok ==> more == cmds && Blocked(faults, t, Drops(c, rules[..n + 1], d))
    {
      hide Drops, KeptIds, ExecAll;
      ok, keeps, more := DropRule(c, rules[n], d, kept, t, cmds);
      DropsStep(c, rules, d, n);
    }

    /** The loop over the rules of one chain. */
    method DropRules(c: Chain, rules: seq<ChainRule>, d: map<string, Gateway>)
      returns (ok: bool, kept: set<string>, ghost cmds: seq<Command>)
      requires AllCounters(rules)
      modifies this
      ensures ExecAll(Some(old(table)), cmds) == Some(table)
      ensures cmds <= Drops(c, rules, d) && (ok ==> cmds == Drops(c, rules, d) && kept == KeptIds(c, rules, d))
      ensures !ok ==> Blocked(faults, Some(old(table)), Drops(c, rules, d))
    {
      kept, cmds, ok := {}, [], true;
      ghost var t := Some(table);
      for n := 0 to |rules|
        invariant ok && ExecAll(t, cmds) == Some(table)
        invariant cmds == Drops(c, rules[..n], d) && kept == KeptIds(c, rules[..n], d)
      {
        DropsPrefix(c, rules, d, n);
        DropsPrefix(c, rules, d, n + 1);
        ok, kept, cmds := DropAt(c, rules, n, d, kept, t, cmds);
        if !ok {
          BlockedLater(faults, t, Drops(c, rules[..n + 1], d), Drops(c, rules, d));
          return;
        }
      }
      assert rules[..|rules|] == rules;
    }

    /** The missing rule of one gateway and direction. */
    method AddRule(c: Chain, g: Gateway, kept: set<string>, names: Names, ghost t: Option<Table>,
                   ghost cmds: seq<Command>)
      returns (ok: bool, ghost more: seq<Command>)
      requires g.enabled && ExecAll(t, cmds) == Some(table)
      modifies this
      ensures ExecAll(t, more) == Some(table) && more == if ok then cmds + AddOne(c, g, kept, names) else cmds
      ensures !ok ==> Blocked(faults, t, cmds + AddOne(c, g, kept, names))
    {
      ok, more := true, cmds;
      if g.id !in kept {
        ok, more := Iptables(Append(c, NewSpec(c, g, names)), t, cmds);
      } else {
        assert cmds + [] == cmds;
      }
    }

    // Both directions of one gateway.
    method AddGateway(g: Gateway, keptTX: set<string>, keptRX: set<string>, names: Names,
                      ghost t: Option<Table>, ghost cmds: seq<Command>)
      returns (ok: bool, ghost more: seq<Command>)
      requires ExecAll(t, cmds) == Some(table)
      modifies this
      ensures ExecAll(t, more) == Some(table)
      ensures var both := AddOne(TX, g, keptTX, names) + AddOne(RX, g, keptRX, names);
        more <= cmds + both && (ok ==> more == cmds + both) && (!ok ==> Blocked(faults, t, cmds + both))
    {
      ghost var tx, rx := AddOne(TX, g, keptTX, names), AddOne(RX, g, keptRX, names);
      ghost var both := tx + rx;
      assert cmds + both == (cmds + tx) + rx;
      ok, more := true, cmds;
      if g.enabled {
        ok, more := AddRule(TX, g, keptTX, names, t, cmds);
        if !ok {
          BlockedLater(faults, t, cmds + tx, cmds + both);
          return;
        }
        ok, more := AddRule(RX, g, keptRX, names, t, more);
      }
    }

    /** The loop over the gateways. */
    method AddRules(gateways: seq<Gateway>, keptTX: set<string>, keptRX: set<string>, names: Names)
      returns (ok: bool, ghost cmds: seq<Command>)
      modifies this
      ensures ExecAll(Some(old(table)), cmds) == Some(table)
      ensures var all := Adds(gateways, keptTX, keptRX, names);
        cmds <= all && (ok ==> cmds == all) && (!ok ==> Blocked(faults, Some(old(table)), all))
    {
      cmds, ok := [], true;
      ghost var t := Some(table);
      for n := 0 to |gateways|
        invariant ok && ExecAll(t, cmds) == Some(table) && cmds == Adds(gateways[..n], keptTX, keptRX, names)
      {
        AddsStep(gateways, keptTX, keptRX, names, n);
        AddsPrefix(gateways, keptTX, keptRX, names, n + 1);
        ok, cmds := AddGateway(gateways[n], keptTX, keptRX, names, t, cmds);
        if !ok {
          BlockedLater(faults, t, Adds(gateways[..n + 1], keptTX, keptRX, names),
            Adds(gateways, keptTX, keptRX, names));
          return;
        }
      }
      assert gateways[..|gateways|] == gateways;
    }

    // The loop over the jumps of one parent chain.
    method DropJumps(c: Chain, jumps: seq<string>) returns (ok: bool, ghost cmds: seq<Command>)
      modifies this
      ensures ExecAll(Some(old(table)), cmds) == Some(table)
      ensures var all := JumpDeletes(c, jumps);
        cmds <= all && (ok ==> cmds == all) && (!ok ==> Blocked(faults, Some(old(table)), all))
    {
      cmds, ok := [], true;
      ghost var t := Some(table);
      for n := 0 to |jumps|
        invariant ok && ExecAll(t, cmds) == Some(table) && cmds == JumpDeletes(c, jumps[..n])
      {
        JumpDeletesStep(c, jumps, n);
        JumpDeletesPrefix(c, jumps, n);
        JumpDeletesPrefix(c, jumps, n + 1);
        ok, cmds := Iptables(DeleteJump(c, jumps[n]), t, cmds);
        if !ok {
          BlockedLater(faults, t, JumpDeletes(c, jumps[..n + 1]), JumpDeletes(c, jumps));
          return;
        }
      }
      assert jumps[..|jumps|] == jumps;
    }

    // All jumps out, and one in at the head while a gateway is enabled.
    method ReplaceJumps(c: Chain, jumps: seq<string>, any: bool) returns (ok: bool, ghost cmds: seq<Command>)
      modifies this
      ensures ExecAll(Some(old(table)), cmds) == Some(table)
      ensures var all := JumpDeletes(c, jumps) + if any then [InsertJump(c, CANONICAL)] else [];
        cmds <= all && (ok ==> cmds == all) && (!ok ==> Blocked(faults, Some(old(table)), all))
    {
      ghost var t, last := Some(table), if any then [InsertJump(c, CANONICAL)] else [];
      ok, cmds := DropJumps(c, jumps);
      if !ok {
        BlockedLater(faults, t, JumpDeletes(c, jumps), JumpDeletes(c, jumps) + last);
        return;
      }
      if any { ok, cmds := Iptables(InsertJump(c, CANONICAL), t, cmds); }
    }

    /** The jump of one parent chain, as the snapshot showed it. */
    method FixJump(c: Chain, parent: seq<ParentRule>, any: bool) returns (ok: bool, ghost cmds: seq<Command>)
      modifies this
      ensures ExecAll(Some(old(table)), cmds) == Some(table)
      ensures var all := JumpFix(c, parent, any);
        cmds <= all && (ok ==> cmds == all) && (!ok ==> Blocked(faults, Some(old(table)), all))
    {
      cmds, ok := [], true;
      var jumps := Jumps(parent);
      if any && |jumps| == 1 && parent != [] && parent[0] == Jump(CANONICAL) { return; }
      ghost var all := JumpFix(c, parent, any);
      assert all == JumpDeletes(c, jumps) + if any then [InsertJump(c, CANONICAL)] else [];
      ok, cmds := ReplaceJumps(c, jumps, any);
    }

    method AddChains(snapshot: Table, any: bool) returns (ok: bool, ghost cmds: seq<Command>)
      requires table == snapshot
      modifies this
      ensures ExecAll(Some(old(table)), cmds) == Some(table)
      ensures var all := NewChains(snapshot, any);
        cmds <= all && (ok ==> cmds == all) && (!ok ==> Blocked(faults, Some(old(table)), all))
    {
      cmds, ok := [], true;
      ghost var t := Some(table);
      if any && snapshot.tx.None? {
        ok, cmds := Iptables(NewChain(TX), t, cmds);
        if !ok {
          BlockedLater(faults, t, [NewChain(TX)], NewChains(snapshot, any));
          return;
        }
      }
      if any && snapshot.rx.None? { ok, cmds := Iptables(NewChain(RX), t, cmds); }
    }

    /** Chains and counter rules, as the snapshot showed them. */
    method RepairRules(snapshot: Table, gateways: seq<Gateway>, names: Names)
      returns (ok: bool, ghost cmds: seq<Command>)
      requires OwnedTable(snapshot) && table == snapshot
      modifies this
      ensures ExecAll(Some(old(table)), cmds) == Some(table)
      ensures var all := RulePlan(snapshot, gateways, names);
        cmds <= all && (ok ==> cmds == all) && (!ok ==> Blocked(faults, Some(old(table)), all))
    {
      ghost var t := Some(table);
      var d, c := Desired(gateways), snapshot.first;
      var one, two := RulesOf(snapshot, c), RulesOf(snapshot, Other(c));
      ghost var all, part := RulePlan(snapshot, gateways, names), [];
      ghost var adds := PlannedAdds(snapshot, gateways, names);
      ghost var rest := Drops(Other(c), two, d) + adds;
      var keptOne, keptTwo;
      RulePlanOrder(snapshot, gateways, names);
      ok, part := AddChains(snapshot, d != map[]);
      cmds := Advance(faults, t, all, [], part, NewChains(snapshot, d != map[]), Drops(c, one, d) + rest, ok);
      if !ok { return; }
      ok, keptOne, part := DropRules(c, one, d);
      cmds := Advance(faults, t, all, cmds, part, Drops(c, one, d), rest, ok);
      if !ok { return; }
      ok, keptTwo, part := DropRules(Other(c), two, d);
      cmds := Advance(faults, t, all, cmds, part, Drops(Other(c), two, d), adds, ok);
      if !ok { return; }
      var keptTX, keptRX := if c == TX then keptOne else keptTwo, if c == TX then keptTwo else keptOne;
      ok, part := AddRules(gateways, keptTX, keptRX, names);
      assert adds + [] == adds;
      cmds := Advance(faults, t, all, cmds, part, adds, [], ok);
    }

    /** The commands of Sample, up to the first that fails. */
    method Repair(gateways: seq<Gateway>, names: Names) returns (ok: bool, ghost cmds: seq<Command>)
      requires OwnedTable(table)
      modifies this
      ensures ExecAll(Some(old(table)), cmds) == Some(table)
      ensures var all := Plan(old(table), gateways, names);
        cmds <= all && (ok ==> cmds == all) && (!ok ==> Blocked(faults, Some(old(table)), all))
    {
      hide RulePlan, JumpFix, Plan, Blocked, OwnedTable;
      var snapshot := table;
      ghost var t, part := Some(table), [];
      var any := Desired(gateways) != map[];
      ghost var all, out, inn := Plan(table, gateways, names), JumpFix(TX, table.output, any),
        JumpFix(RX, table.input, any);
      PlanParts(table, gateways, names);
      assert all == [] + (RulePlan(table, gateways, names) + (out + inn));
      ok, part := RepairRules(snapshot, gateways, names);
      cmds := Advance(faults, t, all, [], part, RulePlan(snapshot, gateways, names), out + inn, ok);
      if !ok { return; }
      ok, part := FixJump(TX, snapshot.output, any);
      cmds := Advance(faults, t, all, cmds, part, out, inn, ok);
      if !ok { return; }
      ok, part := FixJump(RX, snapshot.input, any);
      assert inn + [] == inn;
      cmds := Advance(faults, t, all, cmds, part, inn, [], ok);
    }

    /** Sample: repair, then read the counters back. It fails only for an invalid
        gateway, an unreadable table, a foreign rule in a counter chain, a command
        that fails, or an unreadable boot ID. */
    method Sample(gateways: seq<Gateway>, names: Names, readable: bool, readBack: bool, boot: Option<string>)
      returns (ok: bool, result: map<string, GatewayCounters>, ghost cmds: seq<Command>)
      requires UniqueEnabled(gateways)
      modifies this
      ensures ExecAll(Some(old(table)), cmds) == Some(table)
      ensures cmds != [] ==> OwnedTable(old(table)) && cmds <= Plan(old(table), gateways, names)
      ensures ok ==> OwnedTable(old(table)) && cmds == Plan(old(table), gateways, names) && Settled(table, gateways)
      ensures ok ==> result.Keys == Desired(gateways).Keys
      ensures ok && Desired(gateways) != map[] ==> boot.Some? && forall id <- result ::
        Shows(RulesOf(table, TX), id, boot.value, result[id].tx) &&
          Shows(RulesOf(table, RX), id, boot.value, result[id].rx)
      ensures Faultless(faults) ==>
        (ok <==> (forall g <- gateways :: g.enabled ==> g.valid) && readable && OwnedTable(old(table)) &&
                 (Desired(gateways) != map[] ==> readBack && boot.Some?))
    {
      cmds, result := [], map[];
      ok := !exists g <- gateways :: g.enabled && !g.valid;
      if !ok { return; }
      ok := readable && OwnedTable(table);
      if !ok { return; }
      ghost var first := table;
      ghost var u := PlanSettles(first, gateways, names);
      ok, cmds := Repair(gateways, names);
      if !ok { return; }
      CommandsHarmless(first, cmds);
      var d := Desired(gateways);
      if d == map[] { return; }
      ok := readBack && boot.Some?;
      if !ok { return; }
      assert Settled(table, gateways);
      SettledReadable(table, gateways);
      ok, result := CollectAll(RulesOf(table, TX), RulesOf(table, RX), d, boot.value);
    }
  }

  lemma SettledReadable(t: Table, gateways: seq<Gateway>)
    requires Settled(t, gateways) && Desired(gateways) != map[]
    ensures forall c :: SettledChain(c, RulesOf(t, c), Desired(gateways))
  {
  }

  // In a settled chain no gateway has two rules and each has one.
  lemma SettledCollects(c: Chain, rules: seq<ChainRule>, d: map<string, Gateway>)
    requires SettledChain(c, rules, d)
    ensures OneEach(c, rules, |rules|, d)
    ensures forall id <- d :: exists i :: 0 <= i < |rules| && Fits(c, rules[i].spec, d) && rules[i].spec.id == id
  {
    SettledMeaning(c, rules, d);
    DifferentOnce(c, rules, |rules|, d);
  }

  lemma {:induction false} DifferentOnce(c: Chain, rules: seq<ChainRule>, n: nat, d: map<string, Gateway>)
    requires AllCounters(rules) && n <= |rules|
    requires forall i, j :: 0 <= i < j < |rules| ==> rules[i].spec.id != rules[j].spec.id
    ensures OneEach(c, rules, n, d)
  {
    if n > 0 { DifferentOnce(c, rules, n - 1, d); }
  }

  method CollectAll(tx: seq<ChainRule>, rx: seq<ChainRule>, d: map<string, Gateway>, boot: string)
    returns (ok: bool, result: map<string, GatewayCounters>)
    requires AllCounters(tx) && AllCounters(rx)
    ensures ok ==> result.Keys == d.Keys
    ensures ok ==> forall id <- result :: Shows(tx, id, boot, result[id].tx) && Shows(rx, id, boot, result[id].rx)
    ensures SettledChain(TX, tx, d) && SettledChain(RX, rx, d) ==> ok
  {
    if SettledChain(TX, tx, d) { SettledCollects(TX, tx, d); }
    if SettledChain(RX, rx, d) { SettledCollects(RX, rx, d); }
    var sent, received;
    result := map[];
    ok, sent := Collect(TX, tx, d, boot);
    if !ok { return; }
    ok, received := Collect(RX, rx, d, boot);
    if !ok { return; }
    ok, result := BothRead(sent, received, d);
  }

  // Every gateway has both of its readings.
  method BothRead(sent: map<string, Reading>, received: map<string, Reading>, d: map<string, Gateway>)
    returns (ok: bool, result: map<string, GatewayCounters>)
    ensures ok <==> d.Keys <= sent.Keys && d.Keys <= received.Keys
    ensures ok ==> result.Keys == d.Keys && forall id <- result :: result[id] == GatewayCounters(sent[id], received[id])
  {
    ok, result := forall id <- d.Keys :: id in sent && id in received, map[];
    if ok { result := map id | id in d :: GatewayCounters(sent[id], received[id]); }
  }

  // The counter rule of a gateway shows this reading.
  ghost predicate Shows(rules: seq<ChainRule>, id: string, boot: string, r: Reading) {
    exists i ::
      0 <= i < |rules| && rules[i].Counter? && rules[i].spec.id == id &&
        r == Reading(rules[i].bytes, boot + ":" + rules[i].spec.generation)
  }

  // Among the first n rules no gateway has two that fit.
  ghost predicate OneEach(c: Chain, rules: seq<ChainRule>, n: nat, d: map<string, Gateway>)
    requires AllCounters(rules) && n <= |rules|
  {
    n == 0 || (OneEach(c, rules, n - 1, d) &&
      (Fits(c, rules[n - 1].spec, d) ==>
        forall i :: 0 <= i < n - 1 && Fits(c, rules[i].spec, d) ==> rules[i].spec.id != rules[n - 1].spec.id))
  }

  lemma {:induction false} OneEachBefore(c: Chain, rules: seq<ChainRule>, n: nat, m: nat, d: map<string, Gateway>)
    requires AllCounters(rules) && n <= m <= |rules| && OneEach(c, rules, m, d)
    ensures OneEach(c, rules, n, d)
  {
    if n < m { OneEachBefore(c, rules, n, m - 1, d); }
  }

  lemma TwoForOne(c: Chain, rules: seq<ChainRule>, n: nat, d: map<string, Gateway>)
    requires AllCounters(rules) && n < |rules| && Fits(c, rules[n].spec, d)
    requires exists i :: 0 <= i < n && Fits(c, rules[i].spec, d) && rules[i].spec.id == rules[n].spec.id
    ensures !OneEach(c, rules, |rules|, d)
  {
    if OneEach(c, rules, |rules|, d) { OneEachBefore(c, rules, n + 1, |rules|, d); }
  }

  /** The matching rules of one chain; two for one gateway are an error. */
  method Collect(c: Chain, rules: seq<ChainRule>, d: map<string, Gateway>, boot: string)
    returns (ok: bool, seen: map<string, Reading>)
    requires AllCounters(rules)
    ensures ok ==> forall id <- seen :: id in d && Shows(rules, id, boot, seen[id])
    ensures ok ==> forall i :: 0 <= i < |rules| && Fits(c, rules[i].spec, d) ==> rules[i].spec.id in seen
    ensures ok <==> OneEach(c, rules, |rules|, d)
  {
    ok, seen := true, map[];
    for n := 0 to |rules|
      invariant ok
      invariant forall id <- seen :: id in d && Shows(rules, id, boot, seen[id])
      invariant forall id :: id in seen <==>
        exists i :: 0 <= i < n && Fits(c, rules[i].spec, d) && rules[i].spec.id == id
      invariant OneEach(c, rules, n, d)
    {
      var r := rules[n];
      if r.spec.id in d && Matches(c, r.spec, d[r.spec.id]) {
        if r.spec.id in seen {
          TwoForOne(c, rules, n, d);
          return false, seen;
        }
        seen := seen[r.spec.id := Reading(r.bytes, boot + ":" + r.spec.generation)];
      }
    }
  }

  lemma AddsStep(gateways: seq<Gateway>, keptTX: set<string>, keptRX: set<string>, names: Names, n: nat)
    requires n < |gateways|
    ensures Adds(gateways[..n + 1], keptTX, keptRX, names) ==
      Adds(gateways[..n], keptTX, keptRX, names) +
        (AddOne(TX, gateways[n], keptTX, names) + AddOne(RX, gateways[n], keptRX, names))
  {
    assert gateways[..n + 1][..n] == gateways[..n];
  }

  ghost function PlannedAdds(t: Table, gateways: seq<Gateway>, names: Names): seq<Command>
    requires OwnedTable(t)
  {
    var d := Desired(gateways);
    Adds(gateways, KeptIds(TX, RulesOf(t, TX), d), KeptIds(RX, RulesOf(t, RX), d), names)
  }

  lemma RulePlanOrder(t: Table, gateways: seq<Gateway>, names: Names)
    requires OwnedTable(t)
    ensures var d, c := Desired(gateways), t.first;
      RulePlan(t, gateways, names) ==
        [] + (NewChains(t, d != map[]) + (Drops(c, RulesOf(t, c), d) + (Drops(Other(c), RulesOf(t, Other(c)), d) +
        PlannedAdds(t, gateways, names))))
  {
  }

  // One part of a plan, begun after cmds were carried out.
  lemma Advance(faults: nat -> bool, t: Option<Table>, plan: seq<Command>, cmds: seq<Command>, part: seq<Command>,
                all: seq<Command>, rest: seq<Command>, ok: bool)
    returns (more: seq<Command>)
    requires plan == cmds + (all + rest) && part <= all && (ok ==> part == all)
    requires !ok ==> Blocked(faults, ExecAll(t, cmds), all)
    ensures more == cmds + part && more <= plan && (part == all ==> plan == more + rest)
    ensures ExecAll(t, more) == ExecAll(ExecAll(t, cmds), part)
    ensures !ok ==> Blocked(faults, t, plan)
  {
    hide ExecAll, Blocked;
    more := cmds + part;
    ExecConcat(t, cmds, part);
    if !ok { BlockedPart(faults, t, plan, cmds, all, rest); }
  }
}
