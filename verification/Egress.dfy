/** internal/protocol/egress.go and internal/model/egress.go: gateways, the users
    derived for them, and the names their nodes are shown under. */
module Egress {
  import opened Options
  import opened Order

  datatype Kind = Vless | Hysteria2 | Unsupported

  datatype Credential = Credential(gatewayID: string, uuid: string, password: string)

  // secret is the direct user's UUID or password; None when the options are missing.
  datatype Inbound = Inbound(id: string, name: string, enabled: bool, kind: Kind, port: nat, secret: Option<string>,
                             credentials: seq<Credential>)

  // location is GatewayLocation, marker the trimmed marker.
  datatype Gateway = Gateway(id: string, enabled: bool, position: int, location: string, marker: string,
                             server: string, port: nat, slot: nat, keys: string)

  function DirectAuthUser(inboundID: string): string { "direct-" + inboundID }

  function EgressAuthUser(inboundID: string, gatewayID: string): string { "egress-" + gatewayID + "-" + inboundID }

  function EndpointTag(gatewayID: string): string { "egress-wg-" + gatewayID }

  /* ---------- OrderedGateways ---------- */

  function InsertLast(s: seq<Gateway>, g: Gateway): seq<Gateway> {
    if s == [] then [g]
    else if g.position < s[|s| - 1].position then InsertLast(s[..|s| - 1], g) + [s[|s| - 1]] else s + [g]
  }

  function OrderedGateways(gateways: seq<Gateway>): seq<Gateway> {
    if gateways == [] then [] else InsertLast(OrderedGateways(gateways[..|gateways| - 1]), gateways[|gateways| - 1])
  }

  predicate ByPosition(s: seq<Gateway>) {
    |s| <= 1 || (s[|s| - 2].position <= s[|s| - 1].position && ByPosition(s[..|s| - 1]))
  }

  // The gateways at one position, in order.
  function At(s: seq<Gateway>, position: int): seq<Gateway> {
    if s == [] then [] else At(s[..|s| - 1], position) + if s[|s| - 1].position == position then [s[|s| - 1]] else []
  }

  lemma InsertLastParts(s: seq<Gateway>, g: Gateway)
    requires s != [] && g.position < s[|s| - 1].position
    ensures var r := InsertLast(s, g); r[..|r| - 1] == InsertLast(s[..|s| - 1], g) && r[|r| - 1] == s[|s| - 1]
  {
  }

  lemma InsertLastEnd(s: seq<Gateway>, g: Gateway)
    ensures var r := InsertLast(s, g);
      r != [] && r[|r| - 1] == if s != [] && g.position < s[|s| - 1].position then s[|s| - 1] else g
  {
  }

  lemma AppendOrdered(s: seq<Gateway>, g: Gateway)
    requires ByPosition(s) && (s != [] ==> s[|s| - 1].position <= g.position)
    ensures ByPosition(s + [g])
  {
    assert (s + [g])[..|s|] == s;
  }

  lemma InsertLastStep(s: seq<Gateway>, g: Gateway)
    ensures InsertLast(s, g) ==
      if s != [] && g.position < s[|s| - 1].position then InsertLast(s[..|s| - 1], g) + [s[|s| - 1]] else s + [g]
  {
  }

  lemma OrderedParts(s: seq<Gateway>)
    requires ByPosition(s) && s != []
    ensures var n := |s| - 1; ByPosition(s[..n]) && (n > 0 ==> s[n - 1].position <= s[n].position)
  {
  }

  lemma {:induction false} InsertLastOrdered(s: seq<Gateway>, g: Gateway)
    requires ByPosition(s)
    ensures ByPosition(InsertLast(s, g))
  {
    hide InsertLast, ByPosition;
    InsertLastStep(s, g);
    if s != [] && g.position < s[|s| - 1].position {
      var n := |s| - 1;
      OrderedParts(s);
      InsertLastOrdered(s[..n], g);
      InsertLastEnd(s[..n], g);
      AppendOrdered(InsertLast(s[..n], g), s[n]);
    } else {
      AppendOrdered(s, g);
    }
  }

  lemma AtLast(s: seq<Gateway>, g: Gateway, position: int)
    ensures At(s + [g], position) == At(s, position) + if g.position == position then [g] else []
  {
    assert (s + [g])[..|s|] == s;
  }

  lemma {:induction false} InsertLastStable(s: seq<Gateway>, g: Gateway, position: int)
    requires ByPosition(s)
    ensures At(InsertLast(s, g), position) == At(s, position) + if g.position == position then [g] else []
  {
    AtLast(s, g, position);
    if s != [] && g.position < s[|s| - 1].position {
      InsertLastParts(s, g);
      InsertLastStable(s[..|s| - 1], g, position);
    }
  }

  /** The gateways by position, those of one position in their configured order;
      none is lost and none is added. */
  lemma {:induction false} OrderedIsStable(gateways: seq<Gateway>, position: int)
    ensures ByPosition(OrderedGateways(gateways))
    ensures At(OrderedGateways(gateways), position) == At(gateways, position)
  {
    if gateways != [] {
      var n := |gateways| - 1;
      OrderedIsStable(gateways[..n], position);
      InsertLastOrdered(OrderedGateways(gateways[..n]), gateways[n]);
      InsertLastStable(OrderedGateways(gateways[..n]), gateways[n], position);
    }
  }

  /* ---------- derived users ---------- */

  function FirstCredential(credentials: seq<Credential>, gatewayID: string): Option<Credential> {
    if credentials == [] then None
    else if credentials[0].gatewayID == gatewayID then Some(credentials[0])
    else FirstCredential(credentials[1..], gatewayID)
  }

  // The secret of EgressVariant; None when it refuses.
  function VariantSecret(inbound: Inbound, gatewayID: string): Option<string> {
    var c := FirstCredential(inbound.credentials, gatewayID);
    if c.None? || inbound.secret.None? then None
    else match inbound.kind
      case Vless => if c.value.uuid == "" then None else Some(c.value.uuid)
      case Hysteria2 => if c.value.password == "" then None else Some(c.value.password)
      case Unsupported => None
  }

  /* ---------- names ---------- */

  // strings.Join(parts, "-")
  function Join(parts: seq<string>): string {
    if parts == [] then "" else if |parts| == 1 then parts[0] else parts[0] + "-" + Join(parts[1..])
  }

  function GatewayName(location: string, marker: string, id: string, protocolName: string): string {
    var place := if location == "" && marker == "" then "Gateway-" + id else location;
    Join((if place != "" then [place] else []) + (if protocolName != "" then [protocolName] else []) +
      (if marker != "" then [marker] else []))
  }

  function Digit(n: nat): char
    requires n < 10
  {
    "0123456789"[n]
  }

  // fmt's %d
  function Decimal(n: nat): string {
    if n < 10 then [Digit(n)] else Decimal(n / 10) + [Digit(n % 10)]
  }

  function Value(s: string): int {
    if s == [] then 0 else Value(s[..|s| - 1]) * 10 + (s[|s| - 1] as int - '0' as int)
  }

  lemma ValueLast(s: string, c: char)
    ensures Value(s + [c]) == Value(s) * 10 + (c as int - '0' as int)
  {
    assert (s + [c])[..|s|] == s;
  }

  lemma DigitValue(n: nat)
    requires n < 10
    ensures Digit(n) as int - '0' as int == n
  {
  }

  /** %d can be read back, so different numbers are written differently. */
  lemma {:induction false} DecimalValue(n: nat)
    ensures Value(Decimal(n)) == n
  {
    if n < 10 {
      DigitValue(n);
      ValueLast([], Digit(n));
      assert [] + [Digit(n)] == [Digit(n)];
    } else {
      DecimalValue(n / 10);
      DigitValue(n % 10);
      ValueLast(Decimal(n / 10), Digit(n % 10));
    }
  }

  // Everything a node's name depends on. The position is not part of it.
  datatype Pair = Pair(gatewayID: string, inboundID: string, kind: Kind, port: nat, location: string, marker: string)

  // The first four bytes of the SHA-256 of both IDs, in hex.
  type Tags = (string, string) -> string

  function PairOf(g: Gateway, inbound: Inbound): Pair {
    Pair(g.id, inbound.id, inbound.kind, inbound.port, g.location, g.marker)
  }

  function KeyOf(p: Pair): Key { (p.gatewayID, p.inboundID) }

  function KindText(k: Kind): string { if k == Vless then "VLESS" else "HY2" }

  function BaseName(p: Pair): string { GatewayName(p.location, p.marker, p.gatewayID, KindText(p.kind)) }

  function Label(p: Pair, tags: Tags): string {
    KindText(p.kind) + "-" + Decimal(p.port) + "-" + tags(p.gatewayID, p.inboundID)
  }

  // The names tried in turn, from 1.
  function Candidate(p: Pair, tags: Tags, n: nat): string {
    GatewayName(p.location, p.marker, p.gatewayID, if n <= 1 then Label(p, tags) else Label(p, tags) + "-" + Decimal(n))
  }

  /* ---------- the suffix search ---------- */

  function Head(location: string, marker: string, id: string): string {
    if location == "" && marker == "" then "Gateway-" + id + "-" else if location == "" then "" else location + "-"
  }

  function Foot(marker: string): string { if marker == "" then "" else "-" + marker }

  lemma JoinTwo(a: string, b: string)
    ensures Join([a]) == a && Join([a, b]) == a + "-" + b
  {
    assert [a, b][1..] == [b];
  }

  lemma JoinThree(a: string, b: string, c: string)
    ensures Join([a, b, c]) == a + "-" + (b + "-" + c)
  {
    assert [a, b, c][1..] == [b, c];
    JoinTwo(b, c);
  }

  lemma NameAround(location: string, marker: string, id: string, name: string)
    requires name != ""
    ensures GatewayName(location, marker, id, name) == Head(location, marker, id) + (name + Foot(marker))
  {
    var place := if location == "" && marker == "" then "Gateway-" + id else location;
    var parts := (if place != "" then [place] else []) + (if name != "" then [name] else []) +
      (if marker != "" then [marker] else []);
    if place != "" && marker != "" {
      assert parts == [place, name, marker];
      JoinThree(place, name, marker);
    } else if place != "" {
      assert parts == [place, name];
      JoinTwo(place, name);
    } else {
      assert parts == [name, marker];
      JoinTwo(name, marker);
    }
  }

  lemma Between(head: string, a: string, b: string, foot: string)
    requires head + (a + foot) == head + (b + foot)
    ensures a == b
  {
    assert (head + (a + foot))[|head|..] == a + foot && (head + (b + foot))[|head|..] == b + foot;
    assert (a + foot)[..|a|] == a && (b + foot)[..|b|] == b;
  }

  /** Every try gives another name. */
  lemma CandidatesDiffer(p: Pair, tags: Tags, m: nat, n: nat)
    requires 1 <= m < n
    ensures Candidate(p, tags, m) != Candidate(p, tags, n)
  {
    var tag := Label(p, tags);
    var a, b := if m <= 1 then tag else tag + "-" + Decimal(m), tag + "-" + Decimal(n);
    NameAround(p.location, p.marker, p.gatewayID, a);
    NameAround(p.location, p.marker, p.gatewayID, b);
    DecimalValue(m);
    DecimalValue(n);
    if Candidate(p, tags, m) == Candidate(p, tags, n) {
      Between(Head(p.location, p.marker, p.gatewayID), a, b, Foot(p.marker));
      if m > 1 { Tails(tag + "-", Decimal(m), Decimal(n)); }
    }
  }

  lemma Tails(head: string, a: string, b: string)
    requires head + a == head + b
    ensures a == b
  {
    assert (head + a)[|head|..] == a && (head + b)[|head|..] == b;
  }

  ghost predicate IsCandidate(p: Pair, tags: Tags, n: nat, name: string) {
    exists k: nat :: k >= n && Candidate(p, tags, k) == name
  }

  // The reserved names the search can still run into.
  ghost function Ahead(p: Pair, tags: Tags, n: nat, reserved: set<string>): set<string> {
    set name | name in reserved && IsCandidate(p, tags, n, name)
  }

  lemma AheadShrinks(p: Pair, tags: Tags, n: nat, reserved: set<string>)
    requires n >= 1 && Candidate(p, tags, n) in reserved
    ensures Ahead(p, tags, n + 1, reserved) < Ahead(p, tags, n, reserved)
  {
    var name := Candidate(p, tags, n);
    assert name in Ahead(p, tags, n, reserved);
    if IsCandidate(p, tags, n + 1, name) {
      var k: nat :| k >= n + 1 && Candidate(p, tags, k) == name;
      CandidatesDiffer(p, tags, n, k);
    }
  }

  /** The first name of the search that is not reserved: there always is one. */
  function FirstFree(p: Pair, tags: Tags, n: nat, reserved: set<string>): (name: string)
    requires n >= 1
    ensures name !in reserved && exists k: nat :: k >= n && name == Candidate(p, tags, k)
    decreases Ahead(p, tags, n, reserved)
  {
    if Candidate(p, tags, n) in reserved then
      AheadShrinks(p, tags, n, reserved);
      FirstFree(p, tags, n + 1, reserved)
    else Candidate(p, tags, n)
  }

  /** The search as a loop. */
  method Search(p: Pair, tags: Tags, reserved: set<string>) returns (name: string)
    ensures name == FirstFree(p, tags, 1, reserved) && name !in reserved
  {
    var n := 1;
    name := Candidate(p, tags, n);
    while name in reserved
      invariant n >= 1 && name == Candidate(p, tags, n) &&
        FirstFree(p, tags, n, reserved) == FirstFree(p, tags, 1, reserved)
      decreases Ahead(p, tags, n, reserved)
    {
      AheadShrinks(p, tags, n, reserved);
      n := n + 1;
      name := Candidate(p, tags, n);
    }
  }

  /* ---------- all nodes ---------- */

  predicate HasNode(g: Gateway, inbound: Inbound) { g.enabled && inbound.enabled && VariantSecret(inbound, g.id).Some? }

  function PairsFor(g: Gateway, inbounds: seq<Inbound>): seq<Pair> {
    if inbounds == [] then []
    else
      var n := |inbounds| - 1;
      PairsFor(g, inbounds[..n]) + if HasNode(g, inbounds[n]) then [PairOf(g, inbounds[n])] else []
  }

  // Every node, in display order.
  function Pairs(gateways: seq<Gateway>, inbounds: seq<Inbound>): seq<Pair> {
    if gateways == [] then []
    else Pairs(gateways[..|gateways| - 1], inbounds) + PairsFor(gateways[|gateways| - 1], inbounds)
  }

  function DirectNames(inbounds: seq<Inbound>): seq<string> {
    if inbounds == [] then []
    else
      var n := |inbounds| - 1;
      DirectNames(inbounds[..n]) + if inbounds[n].enabled then [inbounds[n].name] else []
  }

  // The name is also a direct node's, or another derived node's.
  predicate Conflicted(p: Pair, pairs: seq<Pair>, directs: seq<string>) {
    BaseName(p) in directs || exists q <- pairs :: q != p && BaseName(q) == BaseName(p)
  }

  function Conflicts(pairs: seq<Pair>, all: seq<Pair>, directs: seq<string>): seq<Pair> {
    if pairs == [] then []
    else
      var n := |pairs| - 1;
      Conflicts(pairs[..n], all, directs) + if Conflicted(pairs[n], all, directs) then [pairs[n]] else []
  }

  function FreeNames(pairs: seq<Pair>, all: seq<Pair>, directs: seq<string>): set<string> {
    if pairs == [] then {}
    else
      var n := |pairs| - 1;
      FreeNames(pairs[..n], all, directs) + if Conflicted(pairs[n], all, directs) then {} else {BaseName(pairs[n])}
  }

  function SetOf(s: seq<string>): set<string> { set x | x in s }

  // The names given to conflicting nodes, in the order of their IDs.
  function Assigned(sorted: seq<Pair>, tags: Tags, reserved: set<string>): seq<string> {
    if sorted == [] then []
    else
      var n := |sorted| - 1;
      var before := Assigned(sorted[..n], tags, reserved);
      before + [FirstFree(sorted[n], tags, 1, reserved + SetOf(before))]
  }

  lemma {:induction false} AssignedFresh(sorted: seq<Pair>, tags: Tags, reserved: set<string>)
    ensures var a := Assigned(sorted, tags, reserved);
      |a| == |sorted| && (forall i :: 0 <= i < |a| ==> a[i] !in reserved) &&
        forall i, j :: 0 <= i < j < |a| ==> a[i] != a[j]
  {
    if sorted != [] { AssignedFresh(sorted[..|sorted| - 1], tags, reserved); }
  }

  function SortedConflicts(pairs: seq<Pair>, directs: seq<string>): seq<Pair> {
    Sort(Conflicts(pairs, pairs, directs), KeyOf)
  }

  function Reserved(pairs: seq<Pair>, directs: seq<string>): set<string> {
    SetOf(directs) + FreeNames(pairs, pairs, directs)
  }

  /** A node is shown under this name. */
  ghost predicate Named(p: Pair, name: string, pairs: seq<Pair>, directs: seq<string>, tags: Tags) {
    if !Conflicted(p, pairs, directs) then name == BaseName(p)
    else
      var sorted := SortedConflicts(pairs, directs);
      exists i :: 0 <= i < |sorted| && i < |Assigned(sorted, tags, Reserved(pairs, directs))| &&
        sorted[i] == p && name == Assigned(sorted, tags, Reserved(pairs, directs))[i]
  }

  lemma {:induction false} ConflictsMembers(pairs: seq<Pair>, all: seq<Pair>, directs: seq<string>)
    ensures forall x :: x in Conflicts(pairs, all, directs) <==> x in pairs && Conflicted(x, all, directs)
  {
    if pairs != [] {
      var n := |pairs| - 1;
      ConflictsMembers(pairs[..n], all, directs);
      forall x ensures x in pairs <==> x in pairs[..n] || x == pairs[n] {}
    }
  }

  lemma {:induction false} FreeNamesMembers(pairs: seq<Pair>, all: seq<Pair>, directs: seq<string>, name: string)
    ensures name in FreeNames(pairs, all, directs) <==>
      exists x <- pairs :: !Conflicted(x, all, directs) && BaseName(x) == name
  {
    if pairs != [] {
      var n := |pairs| - 1;
      FreeNamesMembers(pairs[..n], all, directs, name);
      forall x ensures x in pairs <==> x in pairs[..n] || x == pairs[n] {}
    }
  }

  lemma SortedConflictsMembers(pairs: seq<Pair>, directs: seq<string>, x: Pair)
    ensures x in SortedConflicts(pairs, directs) <==> x in pairs && Conflicted(x, pairs, directs)
  {
    var conflicts := Conflicts(pairs, pairs, directs);
    SortMembers(conflicts, KeyOf);
    ConflictsMembers(pairs, pairs, directs);
    assert x in Sort(conflicts, KeyOf) <==> x in multiset(Sort(conflicts, KeyOf));
    assert x in conflicts <==> x in multiset(conflicts);
  }

  /** Every node has a name. */
  lemma EveryNodeIsNamed(p: Pair, pairs: seq<Pair>, directs: seq<string>, tags: Tags) returns (name: string)
    requires p in pairs
    ensures Named(p, name, pairs, directs, tags)
  {
    name := BaseName(p);
    if Conflicted(p, pairs, directs) {
      var sorted := SortedConflicts(pairs, directs);
      SortedConflictsMembers(pairs, directs, p);
      AssignedFresh(sorted, tags, Reserved(pairs, directs));
      var i :| 0 <= i < |sorted| && sorted[i] == p;
      name := Assigned(sorted, tags, Reserved(pairs, directs))[i];
    }
  }

  /** No two derived nodes are shown under one name, and none under the name of an
      enabled direct node. */
  lemma NamesAreUnique(p: Pair, q: Pair, a: string, b: string, pairs: seq<Pair>, directs: seq<string>, tags: Tags)
    requires p in pairs && q in pairs && p != q
    requires Named(p, a, pairs, directs, tags) && Named(q, b, pairs, directs, tags)
    ensures a != b && a !in directs && b !in directs
  {
    hide SortedConflicts, Assigned, FreeNames;
    AssignedFresh(SortedConflicts(pairs, directs), tags, Reserved(pairs, directs));
    FreeNamesMembers(pairs, pairs, directs, a);
    FreeNamesMembers(pairs, pairs, directs, b);
  }

  /** A node alone is not shown under the name of a direct node either. */
  lemma NameIsNoDirectName(p: Pair, a: string, pairs: seq<Pair>, directs: seq<string>, tags: Tags)
    requires p in pairs && Named(p, a, pairs, directs, tags)
    ensures a !in directs
  {
    AssignedFresh(SortedConflicts(pairs, directs), tags, Reserved(pairs, directs));
  }

  ghost predicate DistinctKeys(ps: seq<Pair>) { forall i, j :: 0 <= i < j < |ps| ==> KeyOf(ps[i]) != KeyOf(ps[j]) }

  lemma {:induction false} DistinctIsKeyed(ps: seq<Pair>)
    requires DistinctKeys(ps)
    ensures Keyed(ps, KeyOf)
  {
    if ps != [] {
      assert forall i, j :: 0 <= i < j < |ps[1..]| ==> ps[1..][i] == ps[i + 1] && ps[1..][j] == ps[j + 1];
      DistinctIsKeyed(ps[1..]);
    }
  }

  lemma {:induction false} ConflictsDistinct(pairs: seq<Pair>, all: seq<Pair>, directs: seq<string>)
    requires DistinctKeys(pairs)
    ensures DistinctKeys(Conflicts(pairs, all, directs))
  {
    if pairs != [] {
      var n := |pairs| - 1;
      ConflictsDistinct(pairs[..n], all, directs);
      ConflictsMembers(pairs[..n], all, directs);
      var before := Conflicts(pairs[..n], all, directs);
      forall i | 0 <= i < |before| ensures KeyOf(before[i]) != KeyOf(pairs[n]) {
        assert before[i] in pairs[..n];
      }
    }
  }

  lemma SameConflicts(pairs: seq<Pair>, others: seq<Pair>, directs: seq<string>)
    requires DistinctKeys(pairs) && DistinctKeys(others) && forall x :: x in pairs <==> x in others
    ensures SortedConflicts(pairs, directs) == SortedConflicts(others, directs)
  {
    ConflictsDistinct(pairs, pairs, directs);
    DistinctIsKeyed(Conflicts(pairs, pairs, directs));
    SortSorts(Conflicts(pairs, pairs, directs), KeyOf);
    ConflictsDistinct(others, others, directs);
    DistinctIsKeyed(Conflicts(others, others, directs));
    SortSorts(Conflicts(others, others, directs), KeyOf);
    forall x ensures x in SortedConflicts(pairs, directs) <==> x in SortedConflicts(others, directs) {
      SortedConflictsMembers(pairs, directs, x);
      SortedConflictsMembers(others, directs, x);
    }
    SortedUnique(SortedConflicts(pairs, directs), SortedConflicts(others, directs), KeyOf);
  }

  /** The order of the nodes has no influence on their names. */
  lemma NamesIgnoreOrder(p: Pair, name: string, pairs: seq<Pair>, others: seq<Pair>, directs: seq<string>, tags: Tags)
    requires DistinctKeys(pairs) && DistinctKeys(others) && forall x :: x in pairs <==> x in others
    ensures Named(p, name, pairs, directs, tags) <==> Named(p, name, others, directs, tags)
  {
    SameConflicts(pairs, others, directs);
    forall name ensures name in FreeNames(pairs, pairs, directs) <==> name in FreeNames(others, others, directs) {
      FreeNamesMembers(pairs, pairs, directs, name);
      FreeNamesMembers(others, others, directs, name);
    }
    assert Reserved(pairs, directs) == Reserved(others, directs);
  }

  /* ---------- reordering gateways ---------- */

  predicate UniqueGateways(gateways: seq<Gateway>) {
    gateways == [] ||
    var n := |gateways| - 1;
    UniqueGateways(gateways[..n]) && forall g <- gateways[..n] :: g.id != gateways[n].id
  }

  predicate UniqueInbounds(inbounds: seq<Inbound>) {
    inbounds == [] ||
    var n := |inbounds| - 1;
    UniqueInbounds(inbounds[..n]) && forall i <- inbounds[..n] :: i.id != inbounds[n].id
  }

  lemma {:induction false} InsertLastMembers(s: seq<Gateway>, g: Gateway)
    ensures forall x :: x in InsertLast(s, g) <==> x in s || x == g
  {
    if s != [] && g.position < s[|s| - 1].position {
      var n := |s| - 1;
      InsertLastMembers(s[..n], g);
      forall x ensures x in s <==> x in s[..n] || x == s[n] {}
    }
  }

  lemma {:induction false} InsertLastUnique(s: seq<Gateway>, g: Gateway)
    requires UniqueGateways(s) && forall x <- s :: x.id != g.id
    ensures UniqueGateways(InsertLast(s, g))
  {
    if s != [] && g.position < s[|s| - 1].position {
      var n := |s| - 1;
      InsertLastParts(s, g);
      InsertLastUnique(s[..n], g);
      InsertLastMembers(s[..n], g);
    } else {
      assert (s + [g])[..|s|] == s;
    }
  }

  lemma {:induction false} OrderedMembers(gateways: seq<Gateway>)
    ensures forall x :: x in OrderedGateways(gateways) <==> x in gateways
    ensures UniqueGateways(gateways) ==> UniqueGateways(OrderedGateways(gateways))
  {
    if gateways != [] {
      var n := |gateways| - 1;
      OrderedMembers(gateways[..n]);
      InsertLastMembers(OrderedGateways(gateways[..n]), gateways[n]);
      if UniqueGateways(gateways) { InsertLastUnique(OrderedGateways(gateways[..n]), gateways[n]); }
      forall x ensures x in gateways <==> x in gateways[..n] || x == gateways[n] {}
    }
  }

  ghost predicate NodeOf(p: Pair, g: Gateway, inbounds: seq<Inbound>) {
    exists i <- inbounds :: HasNode(g, i) && p == PairOf(g, i)
  }

  lemma {:induction false} PairsForMembers(g: Gateway, inbounds: seq<Inbound>)
    ensures forall p :: p in PairsFor(g, inbounds) <==> NodeOf(p, g, inbounds)
  {
    if inbounds != [] {
      var n := |inbounds| - 1;
      PairsForMembers(g, inbounds[..n]);
      forall i ensures i in inbounds <==> i in inbounds[..n] || i == inbounds[n] {}
      forall p ensures p in PairsFor(g, inbounds) <==> NodeOf(p, g, inbounds) {
        assert NodeOf(p, g, inbounds) <==>
          NodeOf(p, g, inbounds[..n]) || (HasNode(g, inbounds[n]) && p == PairOf(g, inbounds[n]));
      }
    }
  }

  lemma {:induction false} PairsMembers(gateways: seq<Gateway>, inbounds: seq<Inbound>, p: Pair)
    ensures p in Pairs(gateways, inbounds) <==> exists g <- gateways :: NodeOf(p, g, inbounds)
  {
    if gateways != [] {
      var n := |gateways| - 1;
      PairsMembers(gateways[..n], inbounds, p);
      PairsForMembers(gateways[n], inbounds);
      forall g ensures g in gateways <==> g in gateways[..n] || g == gateways[n] {}
    }
  }

  lemma DistinctAppend(ps: seq<Pair>, qs: seq<Pair>)
    requires DistinctKeys(ps) && DistinctKeys(qs) && forall p, q :: p in ps && q in qs ==> KeyOf(p) != KeyOf(q)
    ensures DistinctKeys(ps + qs)
  {
  }

  lemma {:induction false} PairsForDistinct(g: Gateway, inbounds: seq<Inbound>)
    requires UniqueInbounds(inbounds)
    ensures DistinctKeys(PairsFor(g, inbounds))
  {
    if inbounds != [] {
      var n := |inbounds| - 1;
      PairsForDistinct(g, inbounds[..n]);
      PairsForMembers(g, inbounds[..n]);
      DistinctAppend(PairsFor(g, inbounds[..n]), if HasNode(g, inbounds[n]) then [PairOf(g, inbounds[n])] else []);
    }
  }

  lemma {:induction false} PairsDistinct(gateways: seq<Gateway>, inbounds: seq<Inbound>)
    requires UniqueGateways(gateways) && UniqueInbounds(inbounds)
    ensures DistinctKeys(Pairs(gateways, inbounds))
  {
    if gateways != [] {
      var n := |gateways| - 1;
      PairsDistinct(gateways[..n], inbounds);
      PairsForDistinct(gateways[n], inbounds);
      PairsForMembers(gateways[n], inbounds);
      forall p { PairsMembers(gateways[..n], inbounds, p); }
      DistinctAppend(Pairs(gateways[..n], inbounds), PairsFor(gateways[n], inbounds));
    }
  }

  // The same gateways, in any order and at any positions.
  ghost predicate Reordered(gateways: seq<Gateway>, others: seq<Gateway>) {
    (forall g <- gateways :: exists h <- others :: h.(position := 0) == g.(position := 0)) &&
    (forall h <- others :: exists g <- gateways :: g.(position := 0) == h.(position := 0))
  }

  lemma PairsReordered(gateways: seq<Gateway>, others: seq<Gateway>, inbounds: seq<Inbound>, p: Pair)
    requires forall g <- gateways :: exists h <- others :: h.(position := 0) == g.(position := 0)
    requires p in Pairs(gateways, inbounds)
    ensures p in Pairs(others, inbounds)
  {
    PairsMembers(gateways, inbounds, p);
    var g :| g in gateways && NodeOf(p, g, inbounds);
    var h :| h in others && h.(position := 0) == g.(position := 0);
    PositionIrrelevant(p, g, h, inbounds);
    PairsMembers(others, inbounds, p);
  }

  lemma PositionIrrelevant(p: Pair, g: Gateway, h: Gateway, inbounds: seq<Inbound>)
    requires NodeOf(p, g, inbounds) && h.(position := 0) == g.(position := 0)
    ensures NodeOf(p, h, inbounds)
  {
    assert h.id == h.(position := 0).id == g.id && h.enabled == h.(position := 0).enabled == g.enabled;
    assert h.location == h.(position := 0).location == g.location && h.marker == h.(position := 0).marker == g.marker;
    var i :| i in inbounds && HasNode(g, i) && p == PairOf(g, i);
    assert HasNode(h, i) && p == PairOf(h, i);
  }

  /** With unique IDs, each node keeps its name under any display reordering. */
  lemma NamesIgnoreDisplayOrder(gateways: seq<Gateway>, others: seq<Gateway>, inbounds: seq<Inbound>, tags: Tags,
                                p: Pair, name: string)
    requires UniqueGateways(gateways) && UniqueGateways(others) && UniqueInbounds(inbounds) &&
      Reordered(gateways, others)
    ensures Named(p, name, Pairs(OrderedGateways(gateways), inbounds), DirectNames(inbounds), tags) <==>
            Named(p, name, Pairs(OrderedGateways(others), inbounds), DirectNames(inbounds), tags)
    ensures p in Pairs(OrderedGateways(gateways), inbounds) <==> p in Pairs(OrderedGateways(others), inbounds)
  {
    OrderedMembers(gateways);
    OrderedMembers(others);
    var ps, qs := Pairs(OrderedGateways(gateways), inbounds), Pairs(OrderedGateways(others), inbounds);
    PairsDistinct(OrderedGateways(gateways), inbounds);
    PairsDistinct(OrderedGateways(others), inbounds);
    forall x ensures x in ps <==> x in qs {
      if x in ps { PairsReordered(OrderedGateways(gateways), OrderedGateways(others), inbounds, x); }
      if x in qs { PairsReordered(OrderedGateways(others), OrderedGateways(gateways), inbounds, x); }
    }
    NamesIgnoreOrder(p, name, ps, qs, DirectNames(inbounds), tags);
  }

  /* ---------- EgressNodes ---------- */

  datatype Node = Node(pair: Pair, name: string)

  type Counts = map<string, nat>

  function Tally(counts: Counts, name: string): nat { if name in counts then counts[name] else 0 }

  function CountNames(names: seq<string>, name: string): nat {
    if names == [] then 0 else CountNames(names[..|names| - 1], name) + if names[|names| - 1] == name then 1 else 0
  }

  function CountBases(ps: seq<Pair>, name: string): nat {
    if ps == [] then 0 else CountBases(ps[..|ps| - 1], name) + if BaseName(ps[|ps| - 1]) == name then 1 else 0
  }

  lemma {:induction false} CountNamesIn(names: seq<string>, name: string)
    ensures CountNames(names, name) > 0 <==> name in names
  {
    if names != [] { CountNamesIn(names[..|names| - 1], name); }
  }

  lemma {:induction false} CountBasesIn(ps: seq<Pair>, name: string)
    ensures CountBases(ps, name) > 0 <==> exists q <- ps :: BaseName(q) == name
  {
    if ps != [] {
      var n := |ps| - 1;
      CountBasesIn(ps[..n], name);
      forall x ensures x in ps <==> x in ps[..n] || x == ps[n] {}
    }
  }

  lemma {:induction false} CountTwo(ps: seq<Pair>, p: Pair)
    requires DistinctKeys(ps) && p in ps
    ensures CountBases(ps, BaseName(p)) >= 1
    ensures CountBases(ps, BaseName(p)) >= 2 <==> exists q <- ps :: q != p && BaseName(q) == BaseName(p)
  {
    var n := |ps| - 1;
    forall x ensures x in ps <==> x in ps[..n] || x == ps[n] {}
    CountBasesIn(ps[..n], BaseName(p));
    if p == ps[n] {
      LastIsNew(ps);
    } else {
      CountTwo(ps[..n], p);
    }
  }

  lemma LastIsNew(ps: seq<Pair>)
    requires ps != [] && DistinctKeys(ps)
    ensures ps[|ps| - 1] !in ps[..|ps| - 1]
  {
    forall i | 0 <= i < |ps| - 1 ensures ps[i] != ps[|ps| - 1] {
      assert KeyOf(ps[i]) != KeyOf(ps[|ps| - 1]);
    }
  }

  lemma CountsFindConflicts(ps: seq<Pair>, directs: seq<string>, counts: Counts, p: Pair)
    requires DistinctKeys(ps) && p in ps
    requires Tally(counts, BaseName(p)) == CountNames(directs, BaseName(p)) + CountBases(ps, BaseName(p))
    ensures Tally(counts, BaseName(p)) < 2 <==> !Conflicted(p, ps, directs)
  {
    CountTwo(ps, p);
    CountNamesIn(directs, BaseName(p));
  }

  lemma DirectNamesNext(inbounds: seq<Inbound>, n: nat)
    requires n < |inbounds|
    ensures DirectNames(inbounds[..n + 1]) ==
      if inbounds[n].enabled then DirectNames(inbounds[..n]) + [inbounds[n].name] else DirectNames(inbounds[..n])
  {
    assert inbounds[..n + 1][..n] == inbounds[..n];
  }

  lemma CountNamesLast(names: seq<string>, x: string, name: string)
    ensures CountNames(names + [x], name) == CountNames(names, name) + if x == name then 1 else 0
  {
    assert (names + [x])[..|names|] == names;
  }

  method CountDirect(inbounds: seq<Inbound>) returns (counts: Counts, reserved: set<string>)
    ensures forall name :: Tally(counts, name) == CountNames(DirectNames(inbounds), name)
    ensures reserved == SetOf(DirectNames(inbounds))
  {
    counts, reserved := map[], {};
    for n := 0 to |inbounds|
      invariant forall name :: Tally(counts, name) == CountNames(DirectNames(inbounds[..n]), name)
      invariant reserved == SetOf(DirectNames(inbounds[..n]))
    {
      DirectNamesNext(inbounds, n);
      var i := inbounds[n];
      if i.enabled {
        forall name { CountNamesLast(DirectNames(inbounds[..n]), i.name, name); }
        SetOfLast(DirectNames(inbounds[..n]), i.name);
        counts := counts[i.name := Tally(counts, i.name) + 1];
        reserved := reserved + {i.name};
      }
    }
    assert inbounds[..|inbounds|] == inbounds;
  }

  // The nodes still have their base names.
  ghost predicate Fresh(nodes: seq<Node>, ps: seq<Pair>) {
    |nodes| == |ps| && forall i :: 0 <= i < |ps| ==> nodes[i] == Node(ps[i], BaseName(ps[i]))
  }

  lemma CountBasesLast(ps: seq<Pair>, p: Pair, name: string)
    ensures CountBases(ps + [p], name) == CountBases(ps, name) + if BaseName(p) == name then 1 else 0
  {
    assert (ps + [p])[..|ps|] == ps;
  }

  // How many nodes have each base name, direct ones included.
  ghost predicate Counted(counts: Counts, directs: seq<string>, ps: seq<Pair>) {
    forall name :: Tally(counts, name) == CountNames(directs, name) + CountBases(ps, name)
  }

  // One node more.
  method CollectOne(p: Pair, before: seq<Node>, earlier: Counts, ghost ps: seq<Pair>, ghost directs: seq<string>)
    returns (nodes: seq<Node>, counts: Counts)
    requires Fresh(before, ps) && Counted(earlier, directs, ps)
    ensures Fresh(nodes, ps + [p]) && Counted(counts, directs, ps + [p])
  {
    hide BaseName, CountNames, CountBases;
    var name := BaseName(p);
    counts := earlier[name := Tally(earlier, name) + 1];
    nodes := before + [Node(p, name)];
    forall x { CountBasesLast(ps, p, x); }
  }

  lemma PairsForNext(g: Gateway, inbounds: seq<Inbound>, n: nat)
    requires g.enabled && n < |inbounds|
    ensures PairsFor(g, inbounds[..n + 1]) == PairsFor(g, inbounds[..n]) +
      if inbounds[n].enabled && VariantSecret(inbounds[n], g.id).Some? then [PairOf(g, inbounds[n])] else []
  {
    assert inbounds[..n + 1][..n] == inbounds[..n];
  }

  /** The nodes of one gateway. */
  method CollectFor(g: Gateway, inbounds: seq<Inbound>, before: seq<Node>, earlier: Counts, ghost ps: seq<Pair>,
                    ghost directs: seq<string>)
    returns (nodes: seq<Node>, counts: Counts)
    requires Fresh(before, ps) && Counted(earlier, directs, ps)
    ensures Fresh(nodes, ps + PairsFor(g, inbounds)) && Counted(counts, directs, ps + PairsFor(g, inbounds))
  {
    hide Fresh, Counted;
    nodes, counts := before, earlier;
    ghost var all := ps;
    if g.enabled {
      for n := 0 to |inbounds|
        invariant all == ps + PairsFor(g, inbounds[..n]) && Fresh(nodes, all) && Counted(counts, directs, all)
      {
        PairsForNext(g, inbounds, n);
        var i := inbounds[n];
        if i.enabled && VariantSecret(i, g.id).Some? {
          nodes, counts := CollectOne(PairOf(g, i), nodes, counts, all, directs);
          all := all + [PairOf(g, i)];
        }
      }
      assert inbounds[..|inbounds|] == inbounds;
    } else {
      NoneFor(g, inbounds);
      assert ps + [] == ps;
    }
  }

  lemma {:induction false} NoneFor(g: Gateway, inbounds: seq<Inbound>)
    requires !g.enabled
    ensures PairsFor(g, inbounds) == []
  {
    if inbounds != [] { NoneFor(g, inbounds[..|inbounds| - 1]); }
  }

  method Collect(gateways: seq<Gateway>, inbounds: seq<Inbound>, direct: Counts, ghost directs: seq<string>)
    returns (nodes: seq<Node>, counts: Counts)
    requires forall name :: Tally(direct, name) == CountNames(directs, name)
    ensures var ps := Pairs(gateways, inbounds);
      Fresh(nodes, ps) && forall name :: Tally(counts, name) == CountNames(directs, name) + CountBases(ps, name)
  {
    nodes, counts := [], direct;
    for n := 0 to |gateways|
      invariant Fresh(nodes, Pairs(gateways[..n], inbounds))
      invariant forall name ::
        Tally(counts, name) == CountNames(directs, name) + CountBases(Pairs(gateways[..n], inbounds), name)
    {
      assert gateways[..n + 1][..n] == gateways[..n];
      nodes, counts := CollectFor(gateways[n], inbounds, nodes, counts, Pairs(gateways[..n], inbounds), directs);
    }
    assert gateways[..|gateways|] == gateways;
  }

  // A node to be renamed, by its index.
  datatype Conflict = Conflict(index: nat, pair: Pair)

  function ConflictKey(c: Conflict): Key { KeyOf(c.pair) }

  function PairsOf(cs: seq<Conflict>): seq<Pair> {
    if cs == [] then [] else [cs[0].pair] + PairsOf(cs[1..])
  }

  lemma {:induction false} PairsOfAt(cs: seq<Conflict>)
    ensures |PairsOf(cs)| == |cs| && forall k :: 0 <= k < |cs| ==> PairsOf(cs)[k] == cs[k].pair
  {
    if cs != [] { PairsOfAt(cs[1..]); }
  }

  lemma {:induction false} PairsOfLast(cs: seq<Conflict>, c: Conflict)
    ensures PairsOf(cs + [c]) == PairsOf(cs) + [c.pair]
  {
    if cs == [] {
      assert [] + [c] == [c] && [c][1..] == [];
    } else {
      assert (cs + [c])[1..] == cs[1..] + [c];
      PairsOfLast(cs[1..], c);
    }
  }

  lemma {:induction false} InsertPair(cs: seq<Conflict>, c: Conflict)
    ensures PairsOf(Insert(cs, c, ConflictKey)) == Insert(PairsOf(cs), c.pair, KeyOf)
  {
    if cs == [] {
    } else if Before(KeyOf(c.pair), KeyOf(cs[0].pair)) {
      assert ([c] + cs)[1..] == cs;
    } else {
      InsertPair(cs[1..], c);
      assert ([cs[0]] + Insert(cs[1..], c, ConflictKey))[1..] == Insert(cs[1..], c, ConflictKey);
      assert PairsOf(cs)[1..] == PairsOf(cs[1..]);
    }
  }

  /** Sorting the conflicts sorts their pairs. */
  lemma {:induction false} SortPairs(cs: seq<Conflict>)
    ensures PairsOf(Sort(cs, ConflictKey)) == Sort(PairsOf(cs), KeyOf)
  {
    if cs != [] {
      SortPairs(cs[1..]);
      InsertPair(Sort(cs[1..], ConflictKey), cs[0]);
      assert PairsOf(cs)[1..] == PairsOf(cs[1..]);
    }
  }

  // Each conflict is the node it says it is.
  ghost predicate Located(cs: seq<Conflict>, ps: seq<Pair>) {
    forall c <- cs :: c.index < |ps| && ps[c.index] == c.pair
  }

  lemma SortLocated(cs: seq<Conflict>, ps: seq<Pair>)
    requires Located(cs, ps)
    ensures Located(Sort(cs, ConflictKey), ps)
  {
    SortMembers(cs, ConflictKey);
    forall c | c in Sort(cs, ConflictKey) ensures c in cs {
      assert c in multiset(Sort(cs, ConflictKey));
    }
  }

  method FindConflicts(nodes: seq<Node>, counts: Counts, direct: set<string>, ghost ps: seq<Pair>,
                       ghost directs: seq<string>)
    returns (conflicts: seq<Conflict>, reserved: set<string>)
    requires Fresh(nodes, ps) && DistinctKeys(ps) && direct == SetOf(directs)
    requires forall name :: Tally(counts, name) == CountNames(directs, name) + CountBases(ps, name)
    ensures reserved == Reserved(ps, directs)
    ensures Located(conflicts, ps) && PairsOf(conflicts) == Conflicts(ps, ps, directs)
  {
    conflicts, reserved := [], direct;
    for n := 0 to |nodes|
      invariant Found(ps, directs, n, conflicts, reserved)
    {
      CountsFindConflicts(ps, directs, counts, ps[n]);
      FoundStep(ps, directs, n, conflicts, reserved);
      if Tally(counts, nodes[n].name) < 2 {
        reserved := reserved + {nodes[n].name};
      } else {
        conflicts := conflicts + [Conflict(n, nodes[n].pair)];
      }
    }
    assert ps[..|nodes|] == ps;
  }

  // The conflicts and free names among the first n nodes.
  ghost predicate Found(ps: seq<Pair>, directs: seq<string>, n: nat, conflicts: seq<Conflict>, reserved: set<string>) {
    n <= |ps| && Located(conflicts, ps) && PairsOf(conflicts) == Conflicts(ps[..n], ps, directs) &&
    reserved == SetOf(directs) + FreeNames(ps[..n], ps, directs)
  }

  lemma FoundStep(ps: seq<Pair>, directs: seq<string>, n: nat, conflicts: seq<Conflict>, reserved: set<string>)
    requires n < |ps| && Found(ps, directs, n, conflicts, reserved)
    ensures if Conflicted(ps[n], ps, directs) then Found(ps, directs, n + 1, conflicts + [Conflict(n, ps[n])], reserved)
            else Found(ps, directs, n + 1, conflicts, reserved + {BaseName(ps[n])})
  {
    ConflictsNext(ps, directs, n);
    PairsOfLast(conflicts, Conflict(n, ps[n]));
  }

  lemma ConflictsNext(ps: seq<Pair>, directs: seq<string>, n: nat)
    requires n < |ps|
    ensures Conflicts(ps[..n + 1], ps, directs) ==
      if Conflicted(ps[n], ps, directs) then Conflicts(ps[..n], ps, directs) + [ps[n]]
      else Conflicts(ps[..n], ps, directs)
    ensures FreeNames(ps[..n + 1], ps, directs) ==
      if Conflicted(ps[n], ps, directs) then FreeNames(ps[..n], ps, directs)
      else FreeNames(ps[..n], ps, directs) + {BaseName(ps[n])}
  {
    assert ps[..n + 1][..n] == ps[..n];
  }

  lemma {:induction false} AssignedLength(sorted: seq<Pair>, tags: Tags, reserved: set<string>)
    ensures |Assigned(sorted, tags, reserved)| == |sorted|
  {
    if sorted != [] { AssignedLength(sorted[..|sorted| - 1], tags, reserved); }
  }

  lemma AssignedNext(sorted: seq<Pair>, tags: Tags, reserved: set<string>, n: nat)
    requires n < |sorted|
    ensures var before := Assigned(sorted[..n], tags, reserved);
      Assigned(sorted[..n + 1], tags, reserved) == before + [FirstFree(sorted[n], tags, 1, reserved + SetOf(before))]
  {
    assert sorted[..n + 1][..n] == sorted[..n];
  }

  lemma SetOfLast(s: seq<string>, x: string)
    ensures SetOf(s + [x]) == SetOf(s) + {x}
  {
  }

  // The first conflicts have the names given to them, the other nodes their base names.
  ghost predicate Renamed(nodes: seq<Node>, ps: seq<Pair>, sorted: seq<Conflict>, given: seq<string>) {
    |nodes| == |ps| && |given| <= |sorted| && (forall i :: 0 <= i < |ps| ==> nodes[i].pair == ps[i]) &&
    (forall k :: 0 <= k < |given| ==> sorted[k].index < |ps| && nodes[sorted[k].index].name == given[k]) &&
    forall i :: 0 <= i < |ps| && (forall k :: 0 <= k < |given| ==> sorted[k].index != i) ==>
      nodes[i].name == BaseName(ps[i])
  }

  lemma RenameOne(nodes: seq<Node>, ps: seq<Pair>, sorted: seq<Conflict>, given: seq<string>, name: string)
    requires Renamed(nodes, ps, sorted, given) && |given| < |sorted| && Apart(sorted) && sorted[|given|].index < |ps|
    ensures var i := sorted[|given|].index; Renamed(nodes[i := Node(ps[i], name)], ps, sorted, given + [name])
  {
    var n := |given|;
    var i, more := sorted[n].index, given + [name];
    forall k | 0 <= k < n ensures sorted[k].index != i {}
    forall j | 0 <= j < |ps| && (forall k :: 0 <= k < |more| ==> sorted[k].index != j)
      ensures j != i && nodes[j].name == BaseName(ps[j])
    {
      assert sorted[n].index != j;
      assert forall k :: 0 <= k < n ==> sorted[k].index != j;
    }
  }

  ghost predicate Apart(sorted: seq<Conflict>) {
    forall j, k :: 0 <= j < k < |sorted| ==> sorted[j].index != sorted[k].index
  }

  /** The loop over the sorted conflicts. */
  method Rename(before: seq<Node>, sorted: seq<Conflict>, tags: Tags, first: set<string>, ghost ps: seq<Pair>)
    returns (nodes: seq<Node>)
    requires Fresh(before, ps) && Located(sorted, ps) && Apart(sorted)
    ensures Renamed(nodes, ps, sorted, Assigned(PairsOf(sorted), tags, first))
  {
    hide FirstFree, Located, Renaming, PairsOf;
    nodes := before;
    var reserved := first;
    ghost var pairs := PairsOf(sorted);
    PairsOfAt(sorted);
    RenamingStart(before, ps, sorted, pairs, tags, first);
    for n := 0 to |sorted|
      invariant Renaming(nodes, ps, sorted, pairs[..n], tags, first, reserved)
    {
      RenamingStep(nodes, ps, sorted, pairs, tags, first, reserved, n);
      var i := sorted[n].index;
      var name := Search(nodes[i].pair, tags, reserved);
      nodes := nodes[i := Node(nodes[i].pair, name)];
      reserved := reserved + {name};
    }
    assert pairs[..|sorted|] == pairs;
    RenamingEnd(nodes, ps, sorted, pairs, tags, first, reserved);
  }

  lemma RenamingStart(nodes: seq<Node>, ps: seq<Pair>, sorted: seq<Conflict>, pairs: seq<Pair>, tags: Tags,
                      first: set<string>)
    requires Fresh(nodes, ps)
    ensures Renaming(nodes, ps, sorted, pairs[..0], tags, first, first)
  {
  }

  lemma RenamingEnd(nodes: seq<Node>, ps: seq<Pair>, sorted: seq<Conflict>, renamed: seq<Pair>, tags: Tags,
                    first: set<string>, reserved: set<string>)
    requires Renaming(nodes, ps, sorted, renamed, tags, first, reserved)
    ensures Renamed(nodes, ps, sorted, Assigned(renamed, tags, first))
  {
  }

  // The state after some conflicts were renamed.
  ghost predicate Renaming(nodes: seq<Node>, ps: seq<Pair>, sorted: seq<Conflict>, renamed: seq<Pair>, tags: Tags,
                           first: set<string>, reserved: set<string>) {
    var given := Assigned(renamed, tags, first);
    |given| == |renamed| && Renamed(nodes, ps, sorted, given) && reserved == first + SetOf(given)
  }

  lemma RenamingStep(nodes: seq<Node>, ps: seq<Pair>, sorted: seq<Conflict>, pairs: seq<Pair>, tags: Tags,
                     first: set<string>, reserved: set<string>, n: nat)
    requires n < |sorted| == |pairs| && pairs[n] == sorted[n].pair && Located(sorted, ps) && Apart(sorted)
    requires Renaming(nodes, ps, sorted, pairs[..n], tags, first, reserved)
    ensures |nodes| == |ps| && sorted[n].index < |ps| && nodes[sorted[n].index].pair == pairs[n]
    ensures var name := FirstFree(pairs[n], tags, 1, reserved);
      Renaming(nodes[sorted[n].index := Node(pairs[n], name)], ps, sorted, pairs[..n + 1], tags, first,
        reserved + {name})
  {
    assert sorted[n] in sorted;
    var given, name := Assigned(pairs[..n], tags, first), FirstFree(pairs[n], tags, 1, reserved);
    AssignedNext(pairs, tags, first, n);
    RenameOne(nodes, ps, sorted, given, name);
    SetOfLast(given, name);
  }

  lemma SortedIsApart(sorted: seq<Conflict>, ps: seq<Pair>)
    requires Located(sorted, ps) && Sorted(PairsOf(sorted), KeyOf)
    ensures Apart(sorted)
  {
    PairsOfAt(sorted);
    forall j, k | 0 <= j < k < |sorted| ensures sorted[j].index != sorted[k].index {
      SortedApart(PairsOf(sorted), j, k);
      assert sorted[j] in sorted && sorted[k] in sorted;
    }
  }

  lemma {:induction false} SortedApart(s: seq<Pair>, j: nat, k: nat)
    requires Sorted(s, KeyOf) && j < k < |s|
    ensures s[j] != s[k]
  {
    if j == 0 {
      HeadIsLeast(s, KeyOf, k);
      BeforeTotal(KeyOf(s[0]), KeyOf(s[k]));
    } else {
      SortedApart(s[1..], j - 1, k - 1);
    }
  }

  lemma RenamedIsNamed(nodes: seq<Node>, ps: seq<Pair>, sorted: seq<Conflict>, directs: seq<string>, tags: Tags, i: nat)
    requires i < |ps| && DistinctKeys(ps) && Located(sorted, ps) && PairsOf(sorted) == SortedConflicts(ps, directs)
    requires Renamed(nodes, ps, sorted, Assigned(PairsOf(sorted), tags, Reserved(ps, directs)))
    ensures Named(ps[i], nodes[i].name, ps, directs, tags)
  {
    PairsOfAt(sorted);
    SortedConflictsMembers(ps, directs, ps[i]);
    AssignedLength(PairsOf(sorted), tags, Reserved(ps, directs));
    if Conflicted(ps[i], ps, directs) {
      var k :| 0 <= k < |sorted| && PairsOf(sorted)[k] == ps[i];
      SameIndex(ps, sorted[k].index, i, sorted, k);
    } else {
      forall k | 0 <= k < |sorted| ensures sorted[k].index != i {
        assert sorted[k] in sorted && PairsOf(sorted)[k] in PairsOf(sorted);
      }
    }
  }

  lemma SameIndex(ps: seq<Pair>, j: nat, i: nat, sorted: seq<Conflict>, k: nat)
    requires DistinctKeys(ps) && Located(sorted, ps) && k < |sorted| && sorted[k].index == j && i < |ps| &&
      sorted[k].pair == ps[i]
    ensures i == j
  {
    assert sorted[k] in sorted;
  }

  /** The nodes in display order, under names that are unique, are not those of
      direct nodes, and do not depend on the display order. */
  method EgressNodes(gateways: seq<Gateway>, inbounds: seq<Inbound>, tags: Tags) returns (nodes: seq<Node>)
    requires UniqueGateways(gateways) && UniqueInbounds(inbounds)
    ensures var ps := Pairs(OrderedGateways(gateways), inbounds);
      |nodes| == |ps| &&
        forall i :: 0 <= i < |ps| ==>
          nodes[i].pair == ps[i] && Named(ps[i], nodes[i].name, ps, DirectNames(inbounds), tags)
  {
    var ordered := OrderedGateways(gateways);
    OrderedMembers(gateways);
    ghost var ps, directs := Pairs(ordered, inbounds), DirectNames(inbounds);
    PairsDistinct(ordered, inbounds);
    var counts, direct := CountDirect(inbounds);
    nodes, counts := Collect(ordered, inbounds, counts, directs);
    nodes := RenameConflicts(nodes, counts, direct, tags, ps, directs);
  }

  method RenameConflicts(before: seq<Node>, counts: Counts, direct: set<string>, tags: Tags, ghost ps: seq<Pair>,
                         ghost directs: seq<string>)
    returns (nodes: seq<Node>)
    requires Fresh(before, ps) && DistinctKeys(ps) && direct == SetOf(directs)
    requires forall name :: Tally(counts, name) == CountNames(directs, name) + CountBases(ps, name)
    ensures |nodes| == |ps| &&
      forall i :: 0 <= i < |ps| ==> nodes[i].pair == ps[i] && Named(ps[i], nodes[i].name, ps, directs, tags)
  {
    var conflicts, reserved := FindConflicts(before, counts, direct, ps, directs);
    SortPairs(conflicts);
    SortLocated(conflicts, ps);
    ConflictsDistinct(ps, ps, directs);
    DistinctIsKeyed(Conflicts(ps, ps, directs));
    SortSorts(Conflicts(ps, ps, directs), KeyOf);
    var sorted := Sort(conflicts, ConflictKey);
    SortedIsApart(sorted, ps);
    nodes := Rename(before, sorted, tags, reserved, ps);
    forall i | 0 <= i < |ps| ensures Named(ps[i], nodes[i].name, ps, directs, tags) {
      RenamedIsNamed(nodes, ps, sorted, directs, tags, i);
    }
  }
}
