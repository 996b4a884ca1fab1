/** internal/protocol/egress.go, ValidateEgress and SyncEgressCredentials: every
    inbound has one credential per gateway, and every authentication user stands
    for one of them. */
module Credentials {
  import opened Options
  import opened Egress

  /* ---------- validation ---------- */

  predicate Distinct(s: seq<string>) { s == [] || (Distinct(s[..|s| - 1]) && s[|s| - 1] !in s[..|s| - 1]) }

  function CredentialUsers(inboundID: string, credentials: seq<Credential>): seq<string> {
    if credentials == [] then []
    else
      CredentialUsers(inboundID, credentials[..|credentials| - 1]) +
        [EgressAuthUser(inboundID, credentials[|credentials| - 1].gatewayID)]
  }

  // All authentication users, in the order they are checked.
  function AuthUsers(inbounds: seq<Inbound>): seq<string> {
    if inbounds == [] then []
    else
      var n := |inbounds| - 1;
      AuthUsers(inbounds[..n]) +
        ([DirectAuthUser(inbounds[n].id)] + CredentialUsers(inbounds[n].id, inbounds[n].credentials))
  }

  function Ids(gateways: seq<Gateway>): set<string> { set g | g in gateways :: g.id }

  function CredentialIds(credentials: seq<Credential>): seq<string> {
    if credentials == [] then []
    else CredentialIds(credentials[..|credentials| - 1]) + [credentials[|credentials| - 1].gatewayID]
  }

  // An inbound has one credential for every gateway and no other.
  predicate Linked(inbound: Inbound, ids: set<string>) {
    Distinct(CredentialIds(inbound.credentials)) && (forall id <- CredentialIds(inbound.credentials) :: id in ids) &&
    |CredentialIds(inbound.credentials)| == |ids|
  }

  predicate ValidUsers(gateways: seq<Gateway>, inbounds: seq<Inbound>) {
    Distinct(AuthUsers(inbounds)) && forall i <- inbounds :: Linked(i, Ids(gateways))
  }

  lemma {:induction false} DistinctAppend(s: seq<string>, t: seq<string>)
    requires Distinct(s + t)
    ensures Distinct(s) && Distinct(t) && forall x :: x in s ==> x !in t
  {
    if t == [] {
      assert s + t == s;
    } else {
      var n := |t| - 1;
      assert (s + t)[..|s| + n] == s + t[..n];
      DistinctAppend(s, t[..n]);
      forall x | x in s ensures x != t[n] { assert x in (s + t)[..|s| + n]; }
      forall x | x in t[..n] ensures x != t[n] { assert x in (s + t)[..|s| + n]; }
    }
  }

  /* ---------- users are told apart ---------- */

  lemma {:induction false} DistinctCardinality(s: seq<string>)
    requires Distinct(s)
    ensures |SetOf(s)| == |s|
  {
    if s != [] {
      var n := |s| - 1;
      DistinctCardinality(s[..n]);
      assert SetOf(s) == SetOf(s[..n]) + {s[n]} by {
        forall x ensures x in s <==> x in s[..n] || x == s[n] {}
      }
    }
  }

  lemma {:induction false} SubsetCardinality(a: set<string>, b: set<string>)
    requires a <= b && |a| >= |b|
    ensures a == b
    decreases |a|
  {
    if a == {} {
    } else {
      var x :| x in a;
      SubsetCardinality(a - {x}, b - {x});
      assert a == a - {x} + {x} && b == b - {x} + {x};
    }
  }

  lemma {:induction false} CredentialUsersOf(inboundID: string, credentials: seq<Credential>, id: string)
    requires id in CredentialIds(credentials)
    ensures EgressAuthUser(inboundID, id) in CredentialUsers(inboundID, credentials)
  {
    var n := |credentials| - 1;
    if id != credentials[n].gatewayID {
      assert id in CredentialIds(credentials[..n]);
      CredentialUsersOf(inboundID, credentials[..n], id);
    }
  }

  /** A linked inbound has a user for every gateway. */
  lemma LinkedHasUser(inbound: Inbound, ids: set<string>, id: string)
    requires Linked(inbound, ids) && id in ids
    ensures EgressAuthUser(inbound.id, id) in CredentialUsers(inbound.id, inbound.credentials)
  {
    var s := CredentialIds(inbound.credentials);
    DistinctCardinality(s);
    SubsetCardinality(SetOf(s), ids);
    assert id in SetOf(s);
    CredentialUsersOf(inbound.id, inbound.credentials, id);
  }

  function BlockOf(inbound: Inbound): seq<string> {
    [DirectAuthUser(inbound.id)] + CredentialUsers(inbound.id, inbound.credentials)
  }

  lemma {:induction false} AuthUsersUpto(inbounds: seq<Inbound>, n: nat)
    requires n < |inbounds| && Distinct(AuthUsers(inbounds))
    ensures Distinct(AuthUsers(inbounds[..n]) + BlockOf(inbounds[n]))
    decreases |inbounds|
  {
    if n < |inbounds| - 1 {
      var last := |inbounds| - 1;
      DistinctAppend(AuthUsers(inbounds[..last]), BlockOf(inbounds[last]));
      assert inbounds[..last][..n] == inbounds[..n];
      AuthUsersUpto(inbounds[..last], n);
    }
  }

  lemma {:induction false} BlockWithin(inbounds: seq<Inbound>, n: nat, user: string)
    requires n < |inbounds| && user in BlockOf(inbounds[n])
    ensures user in AuthUsers(inbounds)
    decreases |inbounds|
  {
    if n < |inbounds| - 1 { BlockWithin(inbounds[..|inbounds| - 1], n, user); }
  }

  lemma SameUserSameInbound(inbounds: seq<Inbound>, a: nat, b: nat, user: string)
    requires a < |inbounds| && b < |inbounds| && Distinct(AuthUsers(inbounds))
    requires user in BlockOf(inbounds[a]) && user in BlockOf(inbounds[b])
    ensures a == b
  {
    if a < b {
      AuthUsersUpto(inbounds, b);
      DistinctAppend(AuthUsers(inbounds[..b]), BlockOf(inbounds[b]));
      BlockWithin(inbounds[..b], a, user);
    } else if b < a {
      AuthUsersUpto(inbounds, a);
      DistinctAppend(AuthUsers(inbounds[..a]), BlockOf(inbounds[a]));
      BlockWithin(inbounds[..a], b, user);
    }
  }

  lemma UserParts(inboundID: string, g: string, h: string)
    ensures EgressAuthUser(inboundID, g) == EgressAuthUser(inboundID, h) ==> g == h
  {
    var tail := "-" + inboundID;
    assert EgressAuthUser(inboundID, g) == "egress-" + (g + tail) &&
      EgressAuthUser(inboundID, h) == "egress-" + (h + tail);
    if EgressAuthUser(inboundID, g) == EgressAuthUser(inboundID, h) { Between("egress-", g, h, tail); }
  }

  /** Without that validation two pairs of IDs can share one user name. */
  lemma NamesCanCollide()
    ensures EgressAuthUser("b-c", "a") == EgressAuthUser("c", "a-b")
  {
  }

  /** The user names join two IDs with a dash and could be ambiguous; in a valid
      configuration each still stands for one inbound and one gateway. */
  lemma UsersDiffer(gateways: seq<Gateway>, inbounds: seq<Inbound>, a: nat, b: nat, g: string, h: string)
    requires ValidUsers(gateways, inbounds) && a < |inbounds| && b < |inbounds| && g in Ids(gateways) &&
      h in Ids(gateways)
    requires EgressAuthUser(inbounds[a].id, g) == EgressAuthUser(inbounds[b].id, h)
    ensures a == b && g == h
  {
    LinkedHasUser(inbounds[a], Ids(gateways), g);
    LinkedHasUser(inbounds[b], Ids(gateways), h);
    SameUserSameInbound(inbounds, a, b, EgressAuthUser(inbounds[a].id, g));
    UserParts(inbounds[a].id, g, h);
  }

  lemma DirectIsNoEgressUser(inboundID: string, other: string, g: string)
    ensures DirectAuthUser(inboundID) != EgressAuthUser(other, g)
  {
    assert DirectAuthUser(inboundID)[0] == 'd' && EgressAuthUser(other, g)[0] == 'e';
  }

  /* ---------- ValidateEgress, the part about inbounds ---------- */

  // ASCII case folding of a UUID, and the form checks on one credential.
  type Fold = string -> string
  type Check = (Kind, Credential) -> bool

  function SecretOf(kind: Kind, c: Credential, fold: Fold): string {
    match kind case Vless => fold(c.uuid) case Hysteria2 => c.password case Unsupported => ""
  }

  function CredentialSecrets(kind: Kind, credentials: seq<Credential>, fold: Fold): seq<string> {
    if credentials == [] then []
    else
      CredentialSecrets(kind, credentials[..|credentials| - 1], fold) +
        [SecretOf(kind, credentials[|credentials| - 1], fold)]
  }

  function DirectSecret(inbound: Inbound, fold: Fold): seq<string> {
    if inbound.secret.None? then [] else match inbound.kind
      case Vless => [fold(inbound.secret.value)]
      case Hysteria2 => [inbound.secret.value]
      case Unsupported => []
  }

  // What is checked of one inbound, besides its users.
  ghost predicate ValidInbound(inbound: Inbound, ids: set<string>, fold: Fold, check: Check) {
    Linked(inbound, ids) && (forall c <- inbound.credentials :: check(inbound.kind, c)) &&
    Distinct(DirectSecret(inbound, fold) + CredentialSecrets(inbound.kind, inbound.credentials, fold))
  }

  // The first n credentials pass.
  ghost predicate Passed(inbound: Inbound, n: nat, ids: set<string>, fold: Fold, check: Check, before: seq<string>) {
    n <= |inbound.credentials| &&
    var cs := inbound.credentials[..n];
    Distinct(CredentialIds(cs)) && (forall id <- CredentialIds(cs) :: id in ids) &&
      (forall c <- cs :: check(inbound.kind, c)) &&
    Distinct(DirectSecret(inbound, fold) + CredentialSecrets(inbound.kind, cs, fold)) &&
      Distinct(before + CredentialUsers(inbound.id, cs))
  }

  lemma DistinctLast(s: seq<string>, x: string)
    ensures Distinct(s + [x]) <==> Distinct(s) && x !in s
  {
    assert (s + [x])[..|s|] == s;
  }

  lemma NextCredential(inbound: Inbound, n: nat, fold: Fold, before: seq<string>)
    requires n < |inbound.credentials|
    ensures var cs, more, c := inbound.credentials[..n], inbound.credentials[..n + 1], inbound.credentials[n];
      more == cs + [c] && CredentialIds(more) == CredentialIds(cs) + [c.gatewayID] &&
      DirectSecret(inbound, fold) + CredentialSecrets(inbound.kind, more, fold) ==
        DirectSecret(inbound, fold) + CredentialSecrets(inbound.kind, cs, fold) + [SecretOf(inbound.kind, c, fold)] &&
      before + CredentialUsers(inbound.id, more) ==
        before + CredentialUsers(inbound.id, cs) + [EgressAuthUser(inbound.id, c.gatewayID)]
  {
    assert inbound.credentials[..n + 1][..n] == inbound.credentials[..n];
  }

  lemma PassedStep(inbound: Inbound, n: nat, ids: set<string>, fold: Fold, check: Check, before: seq<string>)
    requires n < |inbound.credentials|
    ensures var cs, c := inbound.credentials[..n], inbound.credentials[n];
      Passed(inbound, n + 1, ids, fold, check, before) <==>
        Passed(inbound, n, ids, fold, check, before) && c.gatewayID in ids && c.gatewayID !in CredentialIds(cs) &&
          check(inbound.kind, c) &&
        SecretOf(inbound.kind, c, fold) !in DirectSecret(inbound, fold) + CredentialSecrets(inbound.kind, cs, fold) &&
        EgressAuthUser(inbound.id, c.gatewayID) !in before + CredentialUsers(inbound.id, cs)
  {
    var cs, c := inbound.credentials[..n], inbound.credentials[n];
    NextCredential(inbound, n, fold, before);
    DistinctLast(CredentialIds(cs), c.gatewayID);
    DistinctLast(DirectSecret(inbound, fold) + CredentialSecrets(inbound.kind, cs, fold),
      SecretOf(inbound.kind, c, fold));
    DistinctLast(before + CredentialUsers(inbound.id, cs), EgressAuthUser(inbound.id, c.gatewayID));
    SameMembers(CredentialIds(cs), c.gatewayID);
  }

  lemma SameMembers(s: seq<string>, x: string)
    ensures forall y :: y in s + [x] <==> y in s || y == x
  {
  }

  lemma {:induction false} PassedBefore(inbound: Inbound, m: nat, n: nat, ids: set<string>, fold: Fold, check: Check,
                                        before: seq<string>)
    requires m <= n <= |inbound.credentials| && Passed(inbound, n, ids, fold, check, before)
    ensures Passed(inbound, m, ids, fold, check, before)
  {
    if m < n {
      PassedStep(inbound, n - 1, ids, fold, check, before);
      PassedBefore(inbound, m, n - 1, ids, fold, check, before);
    }
  }

  lemma PassedStart(inbound: Inbound, ids: set<string>, fold: Fold, check: Check, before: seq<string>)
    requires Distinct(before)
    ensures Passed(inbound, 0, ids, fold, check, before)
  {
    assert before + [] == before;
    var s := DirectSecret(inbound, fold);
    assert s + [] == s && s[..0] == [];
  }

  // The sets the loop keeps of what it has seen.
  ghost predicate Checking(inbound: Inbound, n: nat, fold: Fold, before: seq<string>, seen: set<string>,
                           values: set<string>, auths: set<string>) {
    n <= |inbound.credentials| && seen == SetOf(CredentialIds(inbound.credentials[..n])) &&
    values == SetOf(DirectSecret(inbound, fold) + CredentialSecrets(inbound.kind, inbound.credentials[..n], fold)) &&
    auths == SetOf(before + CredentialUsers(inbound.id, inbound.credentials[..n]))
  }

  lemma CheckingStep(inbound: Inbound, n: nat, fold: Fold, before: seq<string>, seen: set<string>, values: set<string>,
                     auths: set<string>)
    requires n < |inbound.credentials| && Checking(inbound, n, fold, before, seen, values, auths)
    ensures var c := inbound.credentials[n];
      Checking(inbound, n + 1, fold, before, seen + {c.gatewayID}, values + {SecretOf(inbound.kind, c, fold)},
        auths + {EgressAuthUser(inbound.id, c.gatewayID)})
  {
    var cs, c := inbound.credentials[..n], inbound.credentials[n];
    NextCredential(inbound, n, fold, before);
    SetOfLast(CredentialIds(cs), c.gatewayID);
    SetOfLast(DirectSecret(inbound, fold) + CredentialSecrets(inbound.kind, cs, fold), SecretOf(inbound.kind, c, fold));
    SetOfLast(before + CredentialUsers(inbound.id, cs), EgressAuthUser(inbound.id, c.gatewayID));
  }

  /** The loop over the credentials of one inbound. */
  method CheckCredentials(inbound: Inbound, ids: set<string>, fold: Fold, check: Check, auths: set<string>,
                          ghost before: seq<string>)
    returns (ok: bool, after: set<string>)
    requires auths == SetOf(before) && Distinct(before)
    ensures ok <==>
      Passed(inbound, |inbound.credentials|, ids, fold, check, before) && |CredentialIds(inbound.credentials)| == |ids|
    ensures ok ==> after == SetOf(before + CredentialUsers(inbound.id, inbound.credentials))
  {
    var seen, values: set<string> := {}, SetOf(DirectSecret(inbound, fold));
    ok, after := true, auths;
    PassedStart(inbound, ids, fold, check, before);
    assert before + [] == before && DirectSecret(inbound, fold) + [] == DirectSecret(inbound, fold);
    for n := 0 to |inbound.credentials|
      invariant ok && Passed(inbound, n, ids, fold, check, before) &&
        Checking(inbound, n, fold, before, seen, values, after)
    {
      var c := inbound.credentials[n];
      var value, user := SecretOf(inbound.kind, c, fold), EgressAuthUser(inbound.id, c.gatewayID);
      PassedStep(inbound, n, ids, fold, check, before);
      CheckingStep(inbound, n, fold, before, seen, values, after);
      ok := c.gatewayID in ids && c.gatewayID !in seen && check(inbound.kind, c) && value !in values && user !in after;
      if !ok {
        if Passed(inbound, |inbound.credentials|, ids, fold, check, before) {
          PassedBefore(inbound, n + 1, |inbound.credentials|, ids, fold, check, before);
        }
        return;
      }
      seen, values, after := seen + {c.gatewayID}, values + {value}, after + {user};
    }
    assert inbound.credentials[..|inbound.credentials|] == inbound.credentials;
    DistinctCardinality(CredentialIds(inbound.credentials));
    ok := |seen| == |ids|;
  }

  lemma PassedIsValid(inbound: Inbound, ids: set<string>, fold: Fold, check: Check, begun: seq<string>)
    ensures (Passed(inbound, |inbound.credentials|, ids, fold, check, begun) &&
             |CredentialIds(inbound.credentials)| == |ids|) <==>
      Distinct(begun + CredentialUsers(inbound.id, inbound.credentials)) && ValidInbound(inbound, ids, fold, check)
  {
    assert inbound.credentials[..|inbound.credentials|] == inbound.credentials;
  }

  lemma BlockParts(before: seq<string>, inbound: Inbound)
    ensures before + BlockOf(inbound) ==
      before + [DirectAuthUser(inbound.id)] + CredentialUsers(inbound.id, inbound.credentials)
  {
  }

  /** One inbound of the loop. */
  method CheckInbound(inbound: Inbound, ids: set<string>, fold: Fold, check: Check, auths: set<string>,
                      ghost before: seq<string>)
    returns (ok: bool, after: set<string>)
    requires auths == SetOf(before) && Distinct(before)
    ensures ok <==> Distinct(before + BlockOf(inbound)) && ValidInbound(inbound, ids, fold, check)
    ensures ok ==> after == SetOf(before + BlockOf(inbound))
  {
    var auth := DirectAuthUser(inbound.id);
    ghost var begun := before + [auth];
    DistinctLast(before, auth);
    SetOfLast(before, auth);
    BlockParts(before, inbound);
    ok, after := auth !in auths, auths;
    if ok {
      ok, after := CheckCredentials(inbound, ids, fold, check, auths + {auth}, begun);
      PassedIsValid(inbound, ids, fold, check, begun);
    } else if Distinct(begun + CredentialUsers(inbound.id, inbound.credentials)) {
      DistinctAppend(begun, CredentialUsers(inbound.id, inbound.credentials));
    }
  }

  lemma AuthUsersNext(inbounds: seq<Inbound>, n: nat)
    requires n < |inbounds|
    ensures AuthUsers(inbounds[..n + 1]) == AuthUsers(inbounds[..n]) + BlockOf(inbounds[n])
  {
    assert inbounds[..n + 1][..n] == inbounds[..n];
  }

  /** The loop over the inbounds: it accepts exactly the configurations whose users
      all differ and whose inbounds are each valid. */
  method ValidateInbounds(inbounds: seq<Inbound>, ids: set<string>, fold: Fold, check: Check) returns (ok: bool)
    ensures ok <==> Distinct(AuthUsers(inbounds)) && AllValid(inbounds, ids, fold, check)
  {
    var auths: set<string> := {};
    ok := true;
    for n := 0 to |inbounds|
      invariant ok && auths == SetOf(AuthUsers(inbounds[..n])) && Distinct(AuthUsers(inbounds[..n])) &&
        AllValid(inbounds[..n], ids, fold, check)
    {
      AuthUsersNext(inbounds, n);
      ok, auths := CheckInbound(inbounds[n], ids, fold, check, auths, AuthUsers(inbounds[..n]));
      if !ok {
        Refused(inbounds, n, ids, fold, check);
        return;
      }
      AllValidNext(inbounds, n, ids, fold, check);
    }
    assert inbounds[..|inbounds|] == inbounds;
  }

  ghost predicate AllValid(inbounds: seq<Inbound>, ids: set<string>, fold: Fold, check: Check) {
    forall i :: 0 <= i < |inbounds| ==> ValidInbound(inbounds[i], ids, fold, check)
  }

  lemma AllValidNext(inbounds: seq<Inbound>, n: nat, ids: set<string>, fold: Fold, check: Check)
    requires n < |inbounds| && AllValid(inbounds[..n], ids, fold, check) && ValidInbound(inbounds[n], ids, fold, check)
    ensures AllValid(inbounds[..n + 1], ids, fold, check)
  {
    assert forall i :: 0 <= i < n ==> inbounds[..n][i] == inbounds[i];
  }

  lemma Refused(inbounds: seq<Inbound>, n: nat, ids: set<string>, fold: Fold, check: Check)
    requires n < |inbounds|
    requires !(Distinct(AuthUsers(inbounds[..n]) + BlockOf(inbounds[n])) && ValidInbound(inbounds[n], ids, fold, check))
    ensures !(Distinct(AuthUsers(inbounds)) && AllValid(inbounds, ids, fold, check))
  {
    if Distinct(AuthUsers(inbounds)) { AuthUsersUpto(inbounds, n); }
  }

  /** What the checks accept is what the routing of users relies on. */
  lemma AcceptedUsersDiffer(gateways: seq<Gateway>, inbounds: seq<Inbound>, fold: Fold, check: Check)
    requires Distinct(AuthUsers(inbounds)) && AllValid(inbounds, Ids(gateways), fold, check)
    ensures ValidUsers(gateways, inbounds)
  {
    forall i | i in inbounds ensures Linked(i, Ids(gateways)) {
      var k :| 0 <= k < |inbounds| && inbounds[k] == i;
      assert ValidInbound(inbounds[k], Ids(gateways), fold, check);
    }
  }

  /* ---------- SyncEgressCredentials ---------- */

  // The credentials of gateways that still exist.
  function Staying(credentials: seq<Credential>, ids: set<string>): seq<Credential> {
    if credentials == [] then []
    else
      var n := |credentials| - 1;
      Staying(credentials[..n], ids) + if credentials[n].gatewayID in ids then [credentials[n]] else []
  }

  // A new random credential.
  type Generator = (string, string) -> string

  function NewCredential(inbound: Inbound, gatewayID: string, random: Generator): Credential {
    if inbound.kind == Vless then Credential(gatewayID, random(inbound.id, gatewayID), "")
    else Credential(gatewayID, "", random(inbound.id, gatewayID))
  }

  function Added(inbound: Inbound, gateways: seq<Gateway>, seen: set<string>, random: Generator): seq<Credential> {
    if gateways == [] then []
    else
      var n := |gateways| - 1;
      Added(inbound, gateways[..n], seen, random) +
        if gateways[n].id in seen then [] else [NewCredential(inbound, gateways[n].id, random)]
  }

  method KeepCredentials(credentials: seq<Credential>, ids: set<string>)
    returns (ok: bool, result: seq<Credential>, seen: set<string>)
    ensures ok <==> Distinct(CredentialIds(Staying(credentials, ids)))
    ensures ok ==> result == Staying(credentials, ids) && seen == SetOf(CredentialIds(result))
  {
    seen, ok, result := {}, true, [];
    for n := 0 to |credentials|
      invariant ok && result == Staying(credentials[..n], ids)
      invariant seen == SetOf(CredentialIds(result)) && Distinct(CredentialIds(result))
    {
      var c := credentials[n];
      StayingNext(credentials, ids, n);
      if c.gatewayID in ids {
        CredentialIdsLast(result, c);
        DistinctLast(CredentialIds(result), c.gatewayID);
        SetOfLast(CredentialIds(result), c.gatewayID);
        if c.gatewayID in seen {
          if Distinct(CredentialIds(Staying(credentials, ids))) { StayingPrefix(credentials, ids, n + 1); }
          return false, [], {};
        }
        result, seen := result + [c], seen + {c.gatewayID};
      }
    }
    assert credentials[..|credentials|] == credentials;
  }

  method AddCredentials(inbound: Inbound, gateways: seq<Gateway>, seen: set<string>, random: Generator)
    returns (ok: bool, added: seq<Credential>)
    ensures ok <==> inbound.kind != Unsupported || Added(inbound, gateways, seen, random) == []
    ensures ok ==> added == Added(inbound, gateways, seen, random)
  {
    ok, added := true, [];
    for n := 0 to |gateways|
      invariant ok && added == Added(inbound, gateways[..n], seen, random) &&
        (inbound.kind != Unsupported || added == [])
    {
      assert gateways[..n + 1][..n] == gateways[..n];
      if gateways[n].id !in seen {
        if inbound.kind == Unsupported {
          AddedGrows(inbound, gateways, seen, random, n + 1);
          return false, [];
        }
        added := added + [NewCredential(inbound, gateways[n].id, random)];
      }
    }
    assert gateways[..|gateways|] == gateways;
  }

  lemma {:induction false} AddedGrows(inbound: Inbound, gateways: seq<Gateway>, seen: set<string>, random: Generator,
                                      n: nat)
    requires n <= |gateways|
    ensures |Added(inbound, gateways[..n], seen, random)| <= |Added(inbound, gateways, seen, random)|
    decreases |gateways|
  {
    if n == |gateways| {
      assert gateways[..n] == gateways;
    } else {
      assert gateways[..|gateways| - 1][..n] == gateways[..n];
      AddedGrows(inbound, gateways[..|gateways| - 1], seen, random, n);
    }
  }

  /** The credentials of one inbound after a configuration change: those of
      existing gateways unchanged and in place, then one for every new gateway. */
  method SyncInbound(inbound: Inbound, gateways: seq<Gateway>, random: Generator)
    returns (ok: bool, result: seq<Credential>)
    ensures var stay := Staying(inbound.credentials, Ids(gateways));
      var added := Added(inbound, gateways, SetOf(CredentialIds(stay)), random);
      (ok <==> Distinct(CredentialIds(stay)) && (inbound.kind != Unsupported || added == [])) &&
        (ok ==> result == stay + added)
  {
    var seen, added;
    ok, result, seen := KeepCredentials(inbound.credentials, Ids(gateways));
    if ok {
      ok, added := AddCredentials(inbound, gateways, seen, random);
      result := result + added;
    }
  }

  lemma {:induction false} StayingIds(credentials: seq<Credential>, ids: set<string>, id: string)
    requires id in CredentialIds(Staying(credentials, ids))
    ensures id in ids
  {
    var n := |credentials| - 1;
    var before := Staying(credentials[..n], ids);
    assert credentials[..n + 1] == credentials;
    StayingNext(credentials, ids, n);
    CredentialIdsLast(before, credentials[n]);
    if id in CredentialIds(before) { StayingIds(credentials[..n], ids, id); }
  }

  // One credential for each of these gateways.
  ghost predicate OneEach(credentials: seq<Credential>, ids: set<string>) {
    Distinct(CredentialIds(credentials)) && SetOf(CredentialIds(credentials)) == ids
  }

  lemma OneMore(credentials: seq<Credential>, c: Credential, ids: set<string>)
    requires OneEach(credentials, ids) && c.gatewayID !in ids
    ensures OneEach(credentials + [c], ids + {c.gatewayID})
  {
    CredentialIdsLast(credentials, c);
    DistinctLast(CredentialIds(credentials), c.gatewayID);
    SetOfLast(CredentialIds(credentials), c.gatewayID);
  }

  lemma AddedLast(inbound: Inbound, gateways: seq<Gateway>, stay: seq<Credential>, seen: set<string>, random: Generator)
    requires gateways != []
    ensures var g := gateways[|gateways| - 1];
      var before := stay + Added(inbound, gateways[..|gateways| - 1], seen, random);
      stay + Added(inbound, gateways, seen, random) ==
        if g.id in seen then before else before + [NewCredential(inbound, g.id, random)]
  {
  }

  lemma {:induction false} AddedComplete(inbound: Inbound, gateways: seq<Gateway>, stay: seq<Credential>,
      random: Generator)
    requires UniqueGateways(gateways) && Distinct(CredentialIds(stay))
    ensures var seen := SetOf(CredentialIds(stay));
      OneEach(stay + Added(inbound, gateways, seen, random), seen + Ids(gateways))
  {
    var seen := SetOf(CredentialIds(stay));
    if gateways == [] {
      assert stay + [] == stay && Ids([]) == {} && seen + {} == seen;
    } else {
      var n := |gateways| - 1;
      var g := gateways[n];
      AddedComplete(inbound, gateways[..n], stay, random);
      IdsLast(gateways);
      AddedLast(inbound, gateways, stay, seen, random);
      if g.id in seen {
        assert seen + Ids(gateways) == seen + Ids(gateways[..n]);
      } else {
        OneMore(stay + Added(inbound, gateways[..n], seen, random), NewCredential(inbound, g.id, random),
          seen + Ids(gateways[..n]));
        assert seen + Ids(gateways) == seen + Ids(gateways[..n]) + {g.id};
      }
    }
  }

  lemma IdsLast(gateways: seq<Gateway>)
    requires gateways != [] && UniqueGateways(gateways)
    ensures var n := |gateways| - 1;
      Ids(gateways) == Ids(gateways[..n]) + {gateways[n].id} && gateways[n].id !in Ids(gateways[..n])
  {
    var n := |gateways| - 1;
    forall g ensures g in gateways <==> g in gateways[..n] || g == gateways[n] {}
    forall id ensures id in Ids(gateways) <==> id in Ids(gateways[..n]) + {gateways[n].id} {
      if id in Ids(gateways[..n]) { var g :| g in gateways[..n] && g.id == id; }
      assert gateways[n] in gateways;
    }
  }

  /** After a change every inbound is linked to exactly the gateways there are, as
      ValidateEgress demands, and no credential in use was replaced. */
  lemma SyncLinks(inbound: Inbound, gateways: seq<Gateway>, random: Generator, result: seq<Credential>)
    requires UniqueGateways(gateways)
    requires var stay := Staying(inbound.credentials, Ids(gateways));
      Distinct(CredentialIds(stay)) && result == stay + Added(inbound, gateways, SetOf(CredentialIds(stay)), random)
    ensures Linked(inbound.(credentials := result), Ids(gateways)) &&
      Staying(inbound.credentials, Ids(gateways)) <= result
  {
    var stay := Staying(inbound.credentials, Ids(gateways));
    AddedComplete(inbound, gateways, stay, random);
    forall id | id in CredentialIds(stay) ensures id in Ids(gateways) {
      StayingIds(inbound.credentials, Ids(gateways), id);
    }
    assert SetOf(CredentialIds(stay)) + Ids(gateways) == Ids(gateways);
    DistinctCardinality(CredentialIds(result));
    forall id | id in CredentialIds(result) ensures id in Ids(gateways) { assert id in SetOf(CredentialIds(result)); }
  }

  lemma StayingNext(credentials: seq<Credential>, ids: set<string>, n: nat)
    requires n < |credentials|
    ensures Staying(credentials[..n + 1], ids) ==
      if credentials[n].gatewayID in ids then Staying(credentials[..n], ids) + [credentials[n]]
      else Staying(credentials[..n], ids)
  {
    assert credentials[..n + 1][..n] == credentials[..n];
  }

  lemma CredentialIdsLast(credentials: seq<Credential>, c: Credential)
    ensures CredentialIds(credentials + [c]) == CredentialIds(credentials) + [c.gatewayID]
  {
    assert (credentials + [c])[..|credentials|] == credentials;
  }

  lemma {:induction false} StayingPrefix(credentials: seq<Credential>, ids: set<string>, n: nat)
    requires n <= |credentials| && Distinct(CredentialIds(Staying(credentials, ids)))
    ensures Distinct(CredentialIds(Staying(credentials[..n], ids)))
    decreases |credentials|
  {
    if n == |credentials| {
      assert credentials[..n] == credentials;
    } else {
      var last := |credentials| - 1;
      assert credentials[..last][..n] == credentials[..n] && credentials[..last + 1] == credentials;
      var before := Staying(credentials[..last], ids);
      StayingNext(credentials, ids, last);
      CredentialIdsLast(before, credentials[last]);
      DistinctLast(CredentialIds(before), credentials[last].gatewayID);
      StayingPrefix(credentials[..last], ids, n);
    }
  }
}
