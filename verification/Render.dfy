/** internal/core/render.go with the user lists of internal/protocol/driver.go:
    which exit the rendered rules send a user to. */
module Render {
  import opened Options
  import opened Order
  import opened Egress
  import opened Credentials

  /* ---------- the rendered document ---------- */

  datatype User = User(name: string, secret: string)

  datatype BuiltInbound = BuiltInbound(id: string, kind: Kind, port: nat, users: seq<User>)

  datatype Endpoint = Endpoint(tag: string, slot: nat, server: string, port: nat, keys: string)

  // The domain resolver of one tunnel.
  datatype Resolver = Resolver(tag: string, detour: string)

  datatype Rule =
    | Sniff
    | Resolve(users: seq<string>, server: string)
    | Route(users: seq<string>, outbound: string)
    | Reject(users: seq<string>)

  datatype Document = Document(inbounds: seq<BuiltInbound>, rules: seq<Rule>, endpoints: seq<Endpoint>,
                               resolvers: seq<Resolver>)

  function DnsTag(gatewayID: string): string { "dns-" + EndpointTag(gatewayID) }

  /* ---------- what the rules mean ---------- */

  datatype Exit = Direct | Tunnel(tag: string) | Refused

  // The first rule that ends the search for this user; sniffing and resolving go on.
  function Decide(rules: seq<Rule>, user: string): Option<Exit> {
    if rules == [] then None
    else match rules[0]
      case Route(users, outbound) => if user in users then Some(Tunnel(outbound)) else Decide(rules[1..], user)
      case Reject(users) => if user in users then Some(Refused) else Decide(rules[1..], user)
      case _ => Decide(rules[1..], user)
  }

  // Without a decision the final outbound is direct.
  function ExitOf(doc: Document, user: string): Exit {
    var e := Decide(doc.rules, user);
    if e.Some? then e.value else Direct
  }

  lemma {:induction false} DecideAppend(rules: seq<Rule>, more: seq<Rule>, user: string)
    ensures Decide(rules + more, user) == if Decide(rules, user).Some? then Decide(rules, user) else Decide(more, user)
  {
    if rules == [] {
      assert rules + more == more;
    } else {
      assert (rules + more)[1..] == rules[1..] + more;
      DecideAppend(rules[1..], more, user);
    }
  }

  /* ---------- rendering ---------- */

  // The users a gateway has over all enabled inbounds.
  function UsersOf(g: Gateway, inbounds: seq<Inbound>): seq<string> {
    if inbounds == [] then []
    else
      var n := |inbounds| - 1;
      UsersOf(g, inbounds[..n]) + if inbounds[n].enabled then [EgressAuthUser(inbounds[n].id, g.id)] else []
  }

  function RulesFor(g: Gateway, inbounds: seq<Inbound>, paused: set<string>): seq<Rule> {
    var users := UsersOf(g, inbounds);
    if !g.enabled || users == [] then []
    else if g.id in paused then [Reject(users)]
    else [Resolve(users, DnsTag(g.id)), Route(users, EndpointTag(g.id))]
  }

  function GatewayRules(gateways: seq<Gateway>, inbounds: seq<Inbound>, paused: set<string>): seq<Rule> {
    if gateways == [] then []
    else
      var n := |gateways| - 1;
      GatewayRules(gateways[..n], inbounds, paused) + RulesFor(gateways[n], inbounds, paused)
  }

  predicate Runs(g: Gateway, paused: set<string>) { g.enabled && g.id !in paused }

  function EndpointOf(g: Gateway): Endpoint { Endpoint(EndpointTag(g.id), g.slot, g.server, g.port, g.keys) }

  function Endpoints(gateways: seq<Gateway>, paused: set<string>): seq<Endpoint> {
    if gateways == [] then []
    else
      var n := |gateways| - 1;
      if Runs(gateways[n], paused) then Endpoints(gateways[..n], paused) + [EndpointOf(gateways[n])]
      else Endpoints(gateways[..n], paused)
  }

  function Resolvers(gateways: seq<Gateway>, paused: set<string>): seq<Resolver> {
    if gateways == [] then []
    else
      var n := |gateways| - 1;
      if Runs(gateways[n], paused) then
        Resolvers(gateways[..n], paused) + [Resolver(DnsTag(gateways[n].id), EndpointTag(gateways[n].id))]
      else Resolvers(gateways[..n], paused)
  }

  function VariantUsers(inbound: Inbound, gateways: seq<Gateway>): seq<User> {
    if gateways == [] then []
    else
      var n := |gateways| - 1;
      var secret := VariantSecret(inbound, gateways[n].id);
      VariantUsers(inbound, gateways[..n]) +
        if gateways[n].enabled && secret.Some? then [User(EgressAuthUser(inbound.id, gateways[n].id), secret.value)]
        else []
  }

  // Driver.Build
  function Build(inbound: Inbound, gateways: seq<Gateway>): BuiltInbound {
    BuiltInbound(inbound.id, inbound.kind, inbound.port,
      [User(DirectAuthUser(inbound.id), if inbound.secret.Some? then inbound.secret.value else "")] +
        VariantUsers(inbound, gateways))
  }

  function BuiltInbounds(inbounds: seq<Inbound>, gateways: seq<Gateway>): seq<BuiltInbound> {
    if inbounds == [] then []
    else
      var n := |inbounds| - 1;
      BuiltInbounds(inbounds[..n], gateways) + if inbounds[n].enabled then [Build(inbounds[n], gateways)] else []
  }

  function GatewayKey(g: Gateway): Key { (g.id, "") }

  function DocumentOf(sorted: seq<Gateway>, inbounds: seq<Inbound>, paused: set<string>): Document {
    Document(BuiltInbounds(inbounds, sorted), [Sniff] + GatewayRules(sorted, inbounds, paused),
      Endpoints(sorted, paused), Resolvers(sorted, paused))
  }

  function Rendered(gateways: seq<Gateway>, inbounds: seq<Inbound>, paused: set<string>): Document {
    DocumentOf(Sort(OrderedGateways(gateways), GatewayKey), inbounds, paused)
  }

  method BuildInbound(inbound: Inbound, gateways: seq<Gateway>) returns (built: BuiltInbound)
    ensures built == Build(inbound, gateways)
  {
    var users := [User(DirectAuthUser(inbound.id), if inbound.secret.Some? then inbound.secret.value else "")];
    ghost var first := users;
    for n := 0 to |gateways|
      invariant users == first + VariantUsers(inbound, gateways[..n])
    {
      assert gateways[..n + 1][..n] == gateways[..n];
      if gateways[n].enabled {
        var secret := VariantSecret(inbound, gateways[n].id);
        if secret.Some? { users := users + [User(EgressAuthUser(inbound.id, gateways[n].id), secret.value)]; }
      }
    }
    assert gateways[..|gateways|] == gateways;
    built := BuiltInbound(inbound.id, inbound.kind, inbound.port, users);
  }

  method CollectUsers(g: Gateway, inbounds: seq<Inbound>) returns (users: seq<string>)
    ensures users == UsersOf(g, inbounds)
  {
    users := [];
    for n := 0 to |inbounds|
      invariant users == UsersOf(g, inbounds[..n])
    {
      assert inbounds[..n + 1][..n] == inbounds[..n];
      if inbounds[n].enabled { users := users + [EgressAuthUser(inbounds[n].id, g.id)]; }
    }
    assert inbounds[..|inbounds|] == inbounds;
  }

  /** Render, for a valid configuration. */
  method Render(gateways: seq<Gateway>, inbounds: seq<Inbound>, paused: set<string>) returns (doc: Document)
    ensures doc == Rendered(gateways, inbounds, paused)
  {
    var sorted := Sort(OrderedGateways(gateways), GatewayKey);
    var built: seq<BuiltInbound> := [];
    for n := 0 to |inbounds|
      invariant built == BuiltInbounds(inbounds[..n], sorted)
    {
      assert inbounds[..n + 1][..n] == inbounds[..n];
      if inbounds[n].enabled {
        var one := BuildInbound(inbounds[n], sorted);
        built := built + [one];
      }
    }
    assert inbounds[..|inbounds|] == inbounds;
    var rules, endpoints, resolvers := RenderGateways(sorted, inbounds, paused);
    doc := Document(built, rules, endpoints, resolvers);
  }

  lemma GatewayNext(sorted: seq<Gateway>, inbounds: seq<Inbound>, paused: set<string>, n: nat)
    requires n < |sorted|
    ensures GatewayRules(sorted[..n + 1], inbounds, paused) ==
      GatewayRules(sorted[..n], inbounds, paused) + RulesFor(sorted[n], inbounds, paused)
    ensures Endpoints(sorted[..n + 1], paused) ==
      if Runs(sorted[n], paused) then Endpoints(sorted[..n], paused) + [EndpointOf(sorted[n])]
      else Endpoints(sorted[..n], paused)
    ensures Resolvers(sorted[..n + 1], paused) ==
      if Runs(sorted[n], paused) then
        Resolvers(sorted[..n], paused) + [Resolver(DnsTag(sorted[n].id), EndpointTag(sorted[n].id))]
          else Resolvers(sorted[..n], paused)
  {
    assert sorted[..n + 1][..n] == sorted[..n];
  }

  method RenderGateways(sorted: seq<Gateway>, inbounds: seq<Inbound>, paused: set<string>)
    returns (rules: seq<Rule>, endpoints: seq<Endpoint>, resolvers: seq<Resolver>)
    ensures rules == [Sniff] + GatewayRules(sorted, inbounds, paused)
    ensures endpoints == Endpoints(sorted, paused) && resolvers == Resolvers(sorted, paused)
  {
    rules, endpoints, resolvers := [Sniff], [], [];
    for n := 0 to |sorted|
      invariant rules == [Sniff] + GatewayRules(sorted[..n], inbounds, paused)
      invariant endpoints == Endpoints(sorted[..n], paused) && resolvers == Resolvers(sorted[..n], paused)
    {
      GatewayNext(sorted, inbounds, paused, n);
      var g := sorted[n];
      if g.enabled {
        var own := RenderRules(g, inbounds, paused);
        rules := rules + own;
        if g.id !in paused {
          endpoints := endpoints + [EndpointOf(g)];
          resolvers := resolvers + [Resolver(DnsTag(g.id), EndpointTag(g.id))];
        }
      }
    }
    assert sorted[..|sorted|] == sorted;
  }

  /** The rules of one enabled gateway. */
  method RenderRules(g: Gateway, inbounds: seq<Inbound>, paused: set<string>) returns (rules: seq<Rule>)
    requires g.enabled
    ensures rules == RulesFor(g, inbounds, paused)
  {
    var users := CollectUsers(g, inbounds);
    rules := [];
    if g.id in paused {
      if |users| > 0 { rules := [Reject(users)]; }
    } else if |users| > 0 {
      rules := [Resolve(users, DnsTag(g.id)), Route(users, EndpointTag(g.id))];
    }
  }

  /* ---------- where the rules send a user ---------- */

  lemma {:induction false} UsersOfMembers(g: Gateway, inbounds: seq<Inbound>, user: string)
    ensures user in UsersOf(g, inbounds) <==>
      exists i :: 0 <= i < |inbounds| && inbounds[i].enabled && user == EgressAuthUser(inbounds[i].id, g.id)
  {
    if inbounds != [] {
      var n := |inbounds| - 1;
      UsersOfMembers(g, inbounds[..n], user);
      if user in UsersOf(g, inbounds[..n]) {
        var i :| 0 <= i < n && inbounds[..n][i].enabled && user == EgressAuthUser(inbounds[..n][i].id, g.id);
        assert inbounds[i].enabled;
      }
      if i :| 0 <= i < |inbounds| && inbounds[i].enabled && user == EgressAuthUser(inbounds[i].id, g.id) {
        assert i < n ==> inbounds[..n][i].enabled;
      }
    }
  }

  function Meant(g: Gateway, paused: set<string>): Exit {
    if g.id in paused then Refused else Tunnel(EndpointTag(g.id))
  }

  lemma OwnRules(g: Gateway, inbounds: seq<Inbound>, paused: set<string>, user: string)
    ensures Decide(RulesFor(g, inbounds, paused), user) ==
      if g.enabled && user in UsersOf(g, inbounds) then Some(Meant(g, paused)) else None
  {
    var users := UsersOf(g, inbounds);
    DecideReject(users, user);
    DecideRoute(users, DnsTag(g.id), EndpointTag(g.id), user);
  }

  lemma DecideReject(users: seq<string>, user: string)
    ensures Decide([Reject(users)], user) == if user in users then Some(Refused) else None
  {
    assert [Reject(users)][1..] == [];
  }

  lemma DecideRoute(users: seq<string>, server: string, outbound: string, user: string)
    ensures Decide([Resolve(users, server), Route(users, outbound)], user) ==
      if user in users then Some(Tunnel(outbound)) else None
  {
    var one, two := Resolve(users, server), Route(users, outbound);
    assert [one, two][1..] == [two];
    DecideLast(users, outbound, user);
  }

  lemma DecideLast(users: seq<string>, outbound: string, user: string)
    ensures Decide([Route(users, outbound)], user) == if user in users then Some(Tunnel(outbound)) else None
  {
    assert [Route(users, outbound)][1..] == [];
  }

  lemma {:induction false} OthersSilent(gateways: seq<Gateway>, inbounds: seq<Inbound>, paused: set<string>,
                                        user: string)
    requires forall g <- gateways :: user !in UsersOf(g, inbounds)
    ensures Decide(GatewayRules(gateways, inbounds, paused), user) == None
  {
    if gateways != [] {
      var n := |gateways| - 1;
      OthersSilent(gateways[..n], inbounds, paused, user);
      OwnRules(gateways[n], inbounds, paused, user);
      DecideAppend(GatewayRules(gateways[..n], inbounds, paused), RulesFor(gateways[n], inbounds, paused), user);
    }
  }

  lemma {:induction false} OneDecides(gateways: seq<Gateway>, inbounds: seq<Inbound>, paused: set<string>, user: string,
                                      g: Gateway)
    requires g in gateways && g.enabled && user in UsersOf(g, inbounds)
    requires forall h <- gateways :: user in UsersOf(h, inbounds) ==> h == g
    ensures Decide(GatewayRules(gateways, inbounds, paused), user) == Some(Meant(g, paused))
  {
    hide Decide, RulesFor, UsersOf, Meant;
    var n := |gateways| - 1;
    var before, last := GatewayRules(gateways[..n], inbounds, paused), RulesFor(gateways[n], inbounds, paused);
    OwnRules(gateways[n], inbounds, paused, user);
    DecideAppend(before, last, user);
    if g in gateways[..n] {
      OneDecides(gateways[..n], inbounds, paused, user, g);
      assert Decide(before, user) == Some(Meant(g, paused));
    } else {
      OthersSilent(gateways[..n], inbounds, paused, user);
      assert gateways[n] == g && Decide(before, user) == None;
    }
  }

  lemma RenderedMembers(gateways: seq<Gateway>)
    ensures forall g :: g in Sort(OrderedGateways(gateways), GatewayKey) <==> g in gateways
  {
    OrderedMembers(gateways);
    SortMembers(OrderedGateways(gateways), GatewayKey);
    forall g ensures g in Sort(OrderedGateways(gateways), GatewayKey) <==> g in gateways {
      assert g in Sort(OrderedGateways(gateways), GatewayKey) <==> g in multiset(OrderedGateways(gateways));
    }
  }

  lemma AfterSniff(rules: seq<Rule>, user: string)
    ensures Decide([Sniff] + rules, user) == Decide(rules, user)
  {
    assert ([Sniff] + rules)[1..] == rules;
  }

  lemma {:induction false} UniqueId(gateways: seq<Gateway>, g: Gateway, h: Gateway)
    requires UniqueGateways(gateways) && g in gateways && h in gateways && g.id == h.id
    ensures g == h
  {
    var n := |gateways| - 1;
    if g != gateways[n] && h != gateways[n] {
      UniqueId(gateways[..n], g, h);
    } else {
      assert g in gateways[..n] || g == gateways[n];
      assert h in gateways[..n] || h == gateways[n];
    }
  }

  /** A direct user of a rendered inbound goes out directly. */
  lemma DirectUserGoesDirect(gateways: seq<Gateway>, inbounds: seq<Inbound>, paused: set<string>, inboundID: string)
    ensures ExitOf(Rendered(gateways, inbounds, paused), DirectAuthUser(inboundID)) == Direct
  {
    var sorted, user := Sort(OrderedGateways(gateways), GatewayKey), DirectAuthUser(inboundID);
    forall g | g in sorted ensures user !in UsersOf(g, inbounds) {
      UsersOfMembers(g, inbounds, user);
      forall i | 0 <= i < |inbounds| { DirectIsNoEgressUser(inboundID, inbounds[i].id, g.id); }
    }
    OthersSilent(sorted, inbounds, paused, user);
    AfterSniff(GatewayRules(sorted, inbounds, paused), user);
  }

  /** A gateway's user on an enabled inbound reaches that gateway's endpoint while
      it runs and is refused while it is paused; it never leaves by another exit. */
  lemma GatewayUserStays(gateways: seq<Gateway>, inbounds: seq<Inbound>, paused: set<string>, g: Gateway, a: nat)
    requires ValidUsers(gateways, inbounds) && UniqueGateways(gateways)
    requires g in gateways && g.enabled && a < |inbounds| && inbounds[a].enabled
    ensures ExitOf(Rendered(gateways, inbounds, paused), EgressAuthUser(inbounds[a].id, g.id)) == Meant(g, paused)
  {
    var sorted, user := Sort(OrderedGateways(gateways), GatewayKey), EgressAuthUser(inbounds[a].id, g.id);
    RenderedMembers(gateways);
    UsersOfMembers(g, inbounds, user);
    forall h | h in sorted && user in UsersOf(h, inbounds) ensures h == g {
      UsersOfMembers(h, inbounds, user);
      var b :| 0 <= b < |inbounds| && inbounds[b].enabled && user == EgressAuthUser(inbounds[b].id, h.id);
      UsersDiffer(gateways, inbounds, a, b, g.id, h.id);
      UniqueId(gateways, g, h);
    }
    OneDecides(sorted, inbounds, paused, user, g);
    AfterSniff(GatewayRules(sorted, inbounds, paused), user);
  }

  lemma {:induction false} VariantUsersMembers(inbound: Inbound, gateways: seq<Gateway>, u: User)
    requires u in VariantUsers(inbound, gateways)
    ensures exists g <- gateways ::
      g.enabled && u.name == EgressAuthUser(inbound.id, g.id) && VariantSecret(inbound, g.id) == Some(u.secret)
  {
    var n := |gateways| - 1;
    if u in VariantUsers(inbound, gateways[..n]) {
      VariantUsersMembers(inbound, gateways[..n], u);
      var g :| g in gateways[..n] && g.enabled && u.name == EgressAuthUser(inbound.id, g.id) &&
        VariantSecret(inbound, g.id) == Some(u.secret);
      assert g in gateways;
    } else {
      assert gateways[n] in gateways;
    }
  }

  /** Whatever user a rendered inbound knows, the rules send it where it belongs. */
  lemma EveryUserIsRouted(gateways: seq<Gateway>, inbounds: seq<Inbound>, paused: set<string>, a: nat, u: User)
    requires ValidUsers(gateways, inbounds) && UniqueGateways(gateways) && a < |inbounds| && inbounds[a].enabled
    requires u in Build(inbounds[a], Sort(OrderedGateways(gateways), GatewayKey)).users
    ensures var e := ExitOf(Rendered(gateways, inbounds, paused), u.name);
      (u.name == DirectAuthUser(inbounds[a].id) && e == Direct) ||
      exists g <- gateways :: g.enabled && u.name == EgressAuthUser(inbounds[a].id, g.id) && e == Meant(g, paused)
  {
    var sorted := Sort(OrderedGateways(gateways), GatewayKey);
    DirectUserGoesDirect(gateways, inbounds, paused, inbounds[a].id);
    if u.name != DirectAuthUser(inbounds[a].id) {
      VariantUsersMembers(inbounds[a], sorted, u);
      var g :| g in sorted && g.enabled && u.name == EgressAuthUser(inbounds[a].id, g.id);
      RenderedMembers(gateways);
      GatewayUserStays(gateways, inbounds, paused, g, a);
    }
  }

  lemma TagInjective(g: string, h: string)
    ensures EndpointTag(g) == EndpointTag(h) ==> g == h
  {
    if EndpointTag(g) == EndpointTag(h) { Tails("egress-wg-", g, h); }
  }

  lemma {:induction false} EndpointsMembers(gateways: seq<Gateway>, paused: set<string>, e: Endpoint)
    ensures e in Endpoints(gateways, paused) <==> exists g <- gateways :: Runs(g, paused) && e == EndpointOf(g)
  {
    if gateways != [] {
      var n := |gateways| - 1;
      EndpointsMembers(gateways[..n], paused, e);
      forall g ensures g in gateways <==> g in gateways[..n] || g == gateways[n] {}
    }
  }

  /** The endpoint a gateway's users reach is that gateway's own, and the only one
      of its tag; a paused gateway has none. */
  lemma TagIsOneEndpoint(gateways: seq<Gateway>, inbounds: seq<Inbound>, paused: set<string>, g: Gateway, e: Endpoint)
    requires UniqueGateways(gateways) && g in gateways && g.enabled
    ensures var endpoints := Rendered(gateways, inbounds, paused).endpoints;
      e in endpoints && e.tag == EndpointTag(g.id) <==> g.id !in paused && e == EndpointOf(g)
  {
    var sorted := Sort(OrderedGateways(gateways), GatewayKey);
    RenderedMembers(gateways);
    EndpointsMembers(sorted, paused, e);
    if e in Endpoints(sorted, paused) && e.tag == EndpointTag(g.id) {
      var h :| h in sorted && Runs(h, paused) && e == EndpointOf(h);
      TagInjective(g.id, h.id);
      UniqueId(gateways, g, h);
    }
  }

  /* ---------- display order ---------- */

  function Plain(g: Gateway): Gateway { g.(position := 0) }

  function AllPlain(s: seq<Gateway>): seq<Gateway> {
    if s == [] then [] else AllPlain(s[..|s| - 1]) + [Plain(s[|s| - 1])]
  }

  lemma {:induction false} AllPlainAt(s: seq<Gateway>)
    ensures |AllPlain(s)| == |s| && forall i :: 0 <= i < |s| ==> AllPlain(s)[i] == Plain(s[i])
  {
    if s != [] { AllPlainAt(s[..|s| - 1]); }
  }

  // The same gateways one by one, but for their positions.
  ghost predicate Alike(s: seq<Gateway>, t: seq<Gateway>) {
    |s| == |t| && forall i :: 0 <= i < |s| ==> SameButPosition(s[i], t[i])
  }

  predicate SameButPosition(g: Gateway, h: Gateway) {
    g.id == h.id && g.enabled == h.enabled && g.server == h.server && g.port == h.port && g.slot == h.slot &&
      g.keys == h.keys
  }

  lemma PlainIsSame(g: Gateway, h: Gateway)
    requires Plain(g) == Plain(h)
    ensures SameButPosition(g, h)
  {
    assert Plain(g).id == g.id && Plain(g).enabled == g.enabled && Plain(g).server == g.server;
    assert Plain(g).port == g.port && Plain(g).slot == g.slot && Plain(g).keys == g.keys;
  }

  lemma {:induction false} SameUsers(g: Gateway, h: Gateway, inbounds: seq<Inbound>)
    requires g.id == h.id
    ensures UsersOf(g, inbounds) == UsersOf(h, inbounds)
  {
    if inbounds != [] { SameUsers(g, h, inbounds[..|inbounds| - 1]); }
  }

  lemma {:induction false} AlikeGateways(s: seq<Gateway>, t: seq<Gateway>, inbounds: seq<Inbound>, paused: set<string>)
    requires Alike(s, t)
    ensures GatewayRules(s, inbounds, paused) == GatewayRules(t, inbounds, paused)
    ensures Endpoints(s, paused) == Endpoints(t, paused) && Resolvers(s, paused) == Resolvers(t, paused)
  {
    if s != [] {
      var n := |s| - 1;
      AlikeGateways(s[..n], t[..n], inbounds, paused);
      SameUsers(s[n], t[n], inbounds);
    }
  }

  lemma {:induction false} AlikeVariants(s: seq<Gateway>, t: seq<Gateway>, inbound: Inbound)
    requires Alike(s, t)
    ensures VariantUsers(inbound, s) == VariantUsers(inbound, t)
  {
    if s != [] { AlikeVariants(s[..|s| - 1], t[..|s| - 1], inbound); }
  }

  lemma {:induction false} AlikeBuilt(s: seq<Gateway>, t: seq<Gateway>, inbounds: seq<Inbound>)
    requires Alike(s, t)
    ensures BuiltInbounds(inbounds, s) == BuiltInbounds(inbounds, t)
  {
    if inbounds != [] {
      AlikeBuilt(s, t, inbounds[..|inbounds| - 1]);
      AlikeVariants(s, t, inbounds[|inbounds| - 1]);
    }
  }

  lemma {:induction false} UniqueIsKeyed(s: seq<Gateway>)
    requires forall i, j :: 0 <= i < j < |s| ==> s[i].id != s[j].id
    ensures Keyed(s, GatewayKey)
  {
    if s != [] {
      assert forall i, j :: 0 <= i < j < |s[1..]| ==> s[1..][i] == s[i + 1] && s[1..][j] == s[j + 1];
      UniqueIsKeyed(s[1..]);
    }
  }

  lemma {:induction false} UniqueByIndex(s: seq<Gateway>)
    requires UniqueGateways(s)
    ensures forall i, j :: 0 <= i < j < |s| ==> s[i].id != s[j].id
  {
    if s != [] {
      var n := |s| - 1;
      UniqueByIndex(s[..n]);
      forall i | 0 <= i < n ensures s[i].id != s[n].id { assert s[i] in s[..n]; }
      assert forall i, j :: 0 <= i < j < n ==> s[..n][i] == s[i] && s[..n][j] == s[j];
    }
  }

  lemma {:induction false} PlainSorted(s: seq<Gateway>, t: seq<Gateway>)
    requires Sorted(s, GatewayKey) && |t| == |s| && forall i :: 0 <= i < |s| ==> t[i] == Plain(s[i])
    ensures Sorted(t, GatewayKey)
  {
    if |s| > 1 { PlainSorted(s[1..], t[1..]); }
  }

  lemma SortedPlain(gateways: seq<Gateway>)
    requires UniqueGateways(gateways)
    ensures Sorted(AllPlain(Sort(OrderedGateways(gateways), GatewayKey)), GatewayKey)
    ensures forall x :: x in AllPlain(Sort(OrderedGateways(gateways), GatewayKey)) <==> HasPlain(gateways, x)
  {
    var sorted := Sort(OrderedGateways(gateways), GatewayKey);
    OrderedMembers(gateways);
    UniqueByIndex(OrderedGateways(gateways));
    UniqueIsKeyed(OrderedGateways(gateways));
    SortSorts(OrderedGateways(gateways), GatewayKey);
    AllPlainAt(sorted);
    PlainSorted(sorted, AllPlain(sorted));
    RenderedMembers(gateways);
    forall x ensures x in AllPlain(sorted) <==> HasPlain(gateways, x) {
      if x in AllPlain(sorted) {
        var i :| 0 <= i < |sorted| && AllPlain(sorted)[i] == x;
        assert sorted[i] in sorted && x == Plain(sorted[i]);
      }
      if g :| g in gateways && x == Plain(g) {
        var i :| 0 <= i < |sorted| && sorted[i] == g;
        assert AllPlain(sorted)[i] == x;
      }
    }
  }

  /** Permuting the gateways or moving them on the page renders the same document. */
  lemma DisplayOrderIsNotRendered(gateways: seq<Gateway>, others: seq<Gateway>, inbounds: seq<Inbound>,
                                  paused: set<string>)
    requires UniqueGateways(gateways) && UniqueGateways(others) && Reordered(gateways, others)
    ensures Rendered(gateways, inbounds, paused) == Rendered(others, inbounds, paused)
  {
    var s, t := Sort(OrderedGateways(gateways), GatewayKey), Sort(OrderedGateways(others), GatewayKey);
    SortedPlain(gateways);
    SortedPlain(others);
    forall x ensures x in AllPlain(s) <==> x in AllPlain(t) {
      OneWay(gateways, others, x);
      OneWay(others, gateways, x);
    }
    SortedUnique(AllPlain(s), AllPlain(t), GatewayKey);
    AllPlainAt(s);
    AllPlainAt(t);
    forall i | 0 <= i < |s| ensures SameButPosition(s[i], t[i]) {
      assert AllPlain(s)[i] == AllPlain(t)[i];
      PlainIsSame(s[i], t[i]);
    }
    AlikeGateways(s, t, inbounds, paused);
    AlikeBuilt(s, t, inbounds);
  }

  ghost predicate HasPlain(gateways: seq<Gateway>, x: Gateway) { exists g <- gateways :: x == Plain(g) }

  lemma OneWay(gateways: seq<Gateway>, others: seq<Gateway>, x: Gateway)
    requires forall g <- gateways :: exists h <- others :: h.(position := 0) == g.(position := 0)
    ensures HasPlain(gateways, x) ==> HasPlain(others, x)
  {
    if HasPlain(gateways, x) {
      var g :| g in gateways && x == Plain(g);
      var h :| h in others && h.(position := 0) == g.(position := 0);
      assert x == Plain(h);
    }
  }
}
