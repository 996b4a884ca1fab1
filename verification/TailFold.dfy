/** internal/traffic/apps.go, pruneDailyAppDomains and pruneHourlyAppDomains: the
    rows of one day or hour beyond the 200 largest are folded into one. */
module TailFold {
  import Order

  const KEPT: nat := 200
  const OTHER := "other"
  const UNATTRIBUTED := "unattributed"

  datatype Row = Row(app: string, domain: string, upload: nat, download: nat) {
    function Weight(): nat { upload + download }
    predicate Ordinary() { app != OTHER && app != UNATTRIBUTED }
    function Key(): (string, string) { (app, domain) }
  }

  // The primary key of the table, for one day or hour.
  ghost predicate Keyed(rows: set<Row>) { forall r, q :: r in rows && q in rows && r.Key() == q.Key() ==> r == q }

  /** ORDER BY (upload + download) DESC, app_id ASC, domain ASC. */
  predicate Before(r: Row, q: Row) {
    r.Weight() > q.Weight() ||
    (r.Weight() == q.Weight() && (Order.Less(r.app, q.app) || (r.app == q.app && Order.Less(r.domain, q.domain))))
  }

  lemma BeforeTotal(r: Row, q: Row)
    ensures Before(r, q) || Before(q, r) || r.Key() == q.Key()
    ensures !(Before(r, q) && Before(q, r)) && !Before(r, r)
  {
    Order.Total(r.app, q.app);
    Order.Total(r.domain, q.domain);
  }

  lemma BeforeTransitive(r: Row, q: Row, t: Row)
    requires Before(r, q) && Before(q, t)
    ensures Before(r, t)
  {
    if Order.Less(r.app, q.app) && Order.Less(q.app, t.app) { Order.Transitive(r.app, q.app, t.app); }
    if Order.Less(r.domain, q.domain) && Order.Less(q.domain, t.domain) {
      Order.Transitive(r.domain, q.domain, t.domain);
    }
  }

  ghost predicate IsFirst(rows: set<Row>, r: Row) { r in rows && forall q <- rows | q != r :: Before(r, q) }

  lemma {:induction false} FirstExists(rows: set<Row>)
    requires rows != {} && Keyed(rows)
    ensures exists r :: IsFirst(rows, r)
    decreases |rows|
  {
    var r :| r in rows;
    if rows == {r} {
      assert IsFirst(rows, r);
    } else {
      FirstExists(rows - {r});
      var q :| IsFirst(rows - {r}, q);
      BeforeTotal(r, q);
      if Before(q, r) {
        assert IsFirst(rows, q);
      } else {
        forall t | t in rows && t != r ensures Before(r, t) {
          if t != q { BeforeTransitive(r, q, t); }
        }
        assert IsFirst(rows, r);
      }
    }
  }

  /** ORDER BY … LIMIT n. */
  ghost function Top(rows: set<Row>, n: nat): (t: set<Row>)
    requires Keyed(rows)
    ensures t <= rows && |t| == if |rows| < n then |rows| else n
    ensures forall r, q :: r in t && q in rows - t ==> Before(r, q)
    decreases n
  {
    if n == 0 || rows == {} then {}
    else
      var first := FirstOf(rows);
      var rest := rows - {first};
      Top(rest, n - 1) + {first}
  }

  ghost function FirstOf(rows: set<Row>): (r: Row)
    requires rows != {} && Keyed(rows)
    ensures IsFirst(rows, r)
  {
    FirstExists(rows);
    var r :| IsFirst(rows, r);
    r
  }

  /* ---------- sums ---------- */

  datatype Field = Up | Down

  function Bytes(r: Row, f: Field): nat { if f == Up then r.upload else r.download }

  ghost function Sum(rows: set<Row>, f: Field): nat {
    if rows == {} then 0
    else
      var r :| r in rows;
      Sum(rows - {r}, f) + Bytes(r, f)
  }

  lemma {:induction false} SumWithout(rows: set<Row>, r: Row, f: Field)
    requires r in rows
    ensures Sum(rows, f) == Sum(rows - {r}, f) + Bytes(r, f)
    decreases |rows|
  {
    var q :| q in rows && Sum(rows, f) == Sum(rows - {q}, f) + Bytes(q, f);
    if q != r {
      SumWithout(rows - {q}, r, f);
      SumWithout(rows - {r}, q, f);
      assert rows - {q} - {r} == rows - {r} - {q};
    }
  }

  lemma {:induction false} SumUnion(rows: set<Row>, more: set<Row>, f: Field)
    requires rows !! more
    ensures Sum(rows + more, f) == Sum(rows, f) + Sum(more, f)
    decreases |more|
  {
    if more == {} {
      assert rows + more == rows;
    } else {
      var r :| r in more;
      SumWithout(more, r, f);
      SumWithout(rows + more, r, f);
      assert rows + more - {r} == rows + (more - {r});
      SumUnion(rows, more - {r}, f);
    }
  }

  /* ---------- the table ---------- */

  // INSERT … ON CONFLICT DO UPDATE SET upload = upload + excluded.upload, …
  ghost function Upsert(rows: set<Row>, r: Row): set<Row> {
    if q :| q in rows && q.Key() == r.Key()
    then rows - {q} + {Row(r.app, r.domain, q.upload + r.upload, q.download + r.download)}
    else rows + {r}
  }

  lemma UpsertKeyed(rows: set<Row>, r: Row)
    requires Keyed(rows)
    ensures Keyed(Upsert(rows, r))
  {
  }

  lemma SumReplaced(rows: set<Row>, q: Row, s: Row, f: Field)
    requires q in rows && s !in rows - {q}
    ensures Sum(rows - {q} + {s}, f) == Sum(rows, f) - Bytes(q, f) + Bytes(s, f)
  {
    SumWithout(rows, q, f);
    SumWithout(rows - {q} + {s}, s, f);
    assert rows - {q} + {s} - {s} == rows - {q};
  }

  lemma SumAdded(rows: set<Row>, r: Row, f: Field)
    requires r !in rows
    ensures Sum(rows + {r}, f) == Sum(rows, f) + Bytes(r, f)
  {
    SumWithout(rows + {r}, r, f);
    assert rows + {r} - {r} == rows;
  }

  lemma UpsertKeeps(rows: set<Row>, r: Row, f: Field)
    requires Keyed(rows)
    ensures Keyed(Upsert(rows, r)) && Sum(Upsert(rows, r), f) == Sum(rows, f) + Bytes(r, f)
  {
    UpsertKeyed(rows, r);
    if q :| q in rows && q.Key() == r.Key() {
      SumReplaced(rows, q, Row(r.app, r.domain, q.upload + r.upload, q.download + r.download), f);
    } else {
      SumAdded(rows, r, f);
    }
  }

  ghost function Ordinary(rows: set<Row>): set<Row> { set r | r in rows && r.Ordinary() }

  ghost function Tail(rows: set<Row>): set<Row>
    requires Keyed(rows)
  {
    Ordinary(rows) - Top(Ordinary(rows), KEPT)
  }

  // The tail goes; its bytes, if any, go to the other row.
  ghost function Fold(rows: set<Row>, tail: set<Row>): set<Row> {
    if Sum(tail, Up) > 0 || Sum(tail, Down) > 0
    then Upsert(rows - tail, Row(OTHER, OTHER, Sum(tail, Up), Sum(tail, Down)))
    else rows - tail
  }

  ghost function Prune(rows: set<Row>): set<Row>
    requires Keyed(rows)
  {
    if |Ordinary(rows)| <= KEPT then rows else Fold(rows, Tail(rows))
  }

  lemma FoldKeepsTotals(rows: set<Row>, tail: set<Row>, f: Field)
    requires Keyed(rows) && tail <= rows
    ensures Keyed(Fold(rows, tail)) && Sum(Fold(rows, tail), f) == Sum(rows, f)
  {
    SumUnion(rows - tail, tail, f);
    assert rows - tail + tail == rows;
    UpsertKeeps(rows - tail, Row(OTHER, OTHER, Sum(tail, Up), Sum(tail, Down)), f);
  }

  /** Pruning keeps the totals of the day or hour. */
  lemma PruneKeepsTotals(rows: set<Row>, f: Field)
    requires Keyed(rows)
    ensures Keyed(Prune(rows)) && Sum(Prune(rows), f) == Sum(rows, f)
  {
    FoldKeepsTotals(rows, Tail(rows), f);
  }

  lemma UpsertElsewhere(rows: set<Row>, r: Row)
    requires Keyed(rows)
    ensures forall q: Row :: q.Key() != r.Key() ==> (q in Upsert(rows, r) <==> q in rows)
  {
  }

  lemma FoldElsewhere(rows: set<Row>, tail: set<Row>)
    requires Keyed(rows)
    ensures forall q: Row :: q.Key() != (OTHER, OTHER) ==> (q in Fold(rows, tail) <==> q in rows - tail)
  {
    UpsertElsewhere(rows - tail, Row(OTHER, OTHER, Sum(tail, Up), Sum(tail, Down)));
  }

  lemma OrdinaryPruned(rows: set<Row>)
    requires Keyed(rows)
    ensures Ordinary(Prune(rows)) == if |Ordinary(rows)| <= KEPT then Ordinary(rows) else Top(Ordinary(rows), KEPT)
  {
    FoldElsewhere(rows, Tail(rows));
    if |Ordinary(rows)| > KEPT {
      forall q: Row ensures q in Ordinary(Prune(rows)) <==> q in Top(Ordinary(rows), KEPT) {
        if q.Ordinary() { assert q.Key() != (OTHER, OTHER); }
      }
    }
  }

  lemma TopIsHeavier(rows: set<Row>, n: nat)
    requires Keyed(rows)
    ensures forall r, q :: r in Top(rows, n) && q in rows - Top(rows, n) ==> r.Weight() >= q.Weight()
  {
  }

  /** The ordinary rows it keeps are untouched, at most 200, and each weighs at
      least as much as every folded row; only the one other row changes besides. */
  lemma PruneKeepsLargest(rows: set<Row>)
    requires Keyed(rows)
    ensures var o, kept := Ordinary(rows), Ordinary(Prune(rows));
      kept <= o && (|kept| == if |o| < KEPT then |o| else KEPT) &&
      forall r, q :: r in kept && q in o - kept ==> r.Weight() >= q.Weight()
    ensures forall r: Row :: !r.Ordinary() && r.Key() != (OTHER, OTHER) ==> (r in Prune(rows) <==> r in rows)
  {
    OrdinaryPruned(rows);
    TopIsHeavier(Ordinary(rows), KEPT);
    FoldElsewhere(rows, Tail(rows));
  }

  /** Pruning again changes nothing. */
  lemma PruneTwice(rows: set<Row>)
    requires Keyed(rows)
    ensures Keyed(Prune(rows)) && Prune(Prune(rows)) == Prune(rows)
  {
    PruneKeepsTotals(rows, Up);
    PruneKeepsLargest(rows);
  }

  /* ---------- saveAppUsage, for one day or hour ---------- */

  ghost function UpsertAll(rows: set<Row>, saved: seq<Row>): (r: set<Row>)
    requires Keyed(rows)
    ensures Keyed(r)
  {
    if saved == [] then rows
    else
      var before, last := UpsertAll(rows, saved[..|saved| - 1]), saved[|saved| - 1];
      UpsertKeeps(before, last, Up);
      if last.Weight() == 0 then before else Upsert(before, last)
  }

  function SumOf(saved: seq<Row>, f: Field): nat {
    if saved == [] then 0 else SumOf(saved[..|saved| - 1], f) + Bytes(saved[|saved| - 1], f)
  }

  /** Saving adds exactly the pending bytes to the day, whatever is folded. */
  lemma {:induction false} SaveConserves(rows: set<Row>, saved: seq<Row>, f: Field)
    requires Keyed(rows)
    ensures Sum(Prune(UpsertAll(rows, saved)), f) == Sum(rows, f) + SumOf(saved, f)
  {
    PruneKeepsTotals(UpsertAll(rows, saved), f);
    UpsertAllSum(rows, saved, f);
  }

  lemma {:induction false} UpsertAllSum(rows: set<Row>, saved: seq<Row>, f: Field)
    requires Keyed(rows)
    ensures Sum(UpsertAll(rows, saved), f) == Sum(rows, f) + SumOf(saved, f)
  {
    if saved != [] {
      var n := |saved| - 1;
      UpsertAllSum(rows, saved[..n], f);
      UpsertKeeps(UpsertAll(rows, saved[..n]), saved[n], f);
    }
  }
}
