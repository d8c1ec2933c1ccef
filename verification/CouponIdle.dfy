/**
 Concurrent redemptions of a tenant that found nothing running. They have no row
 to lock, so in every interleaving each of them starts at once; which of them
 decide as if alone, and whether their windows overlap, is up to the clocks.
 */
module CouponIdle {
  import opened Options
  import opened Coupons
  import opened CouponRaces
  import opened CouponTimeline
  import opened CouponLocks
  import opened CouponSerial

  function Ends(x: Txn): Time { x.scheduled + x.days * DAY }

  /** The transaction found nothing running: it starts, or started, at once. */
  ghost predicate FoundNothing(t: Tables, x: Txn) {
    && 6 <= Rank(x.pc) <= 13
    && (Rank(x.pc) <= 12 ==> x.current.None?)
    && (7 <= Rank(x.pc) ==> x.schedule == Schedule(x.scheduled, Ends(x), None))
    && (x.pc == Done ==>
          && x.sub.Some? && Wrote(x, x.sub.value)
          && x.sub.value in t.subs && Live(x.sub.value, x.request.tenant))
  }

  predicate Wrote(x: Txn, s: Sub) {
    x.pc == Done && x.sub == Some(s) && s.start == x.scheduled && s.end == Ends(x)
  }

  /** The tenant's redemptions under way have all found nothing running. */
  ghost predicate Idling(start: World, tenant: nat) {
    && Inv(start) && Secured(start)
    && forall k :: 0 <= k < |start.txns| && start.txns[k].request.tenant == tenant && Unfinished(start.txns[k]) ==>
         FoundNothing(start.tables, start.txns[k])
  }

  // ----- What has happened since -----

  ghost predicate TxnSince(start: World, w: World, tenant: nat, k: nat)
    requires k < |start.txns| == |w.txns|
  {
    w.txns[k].request.tenant == tenant && Unfinished(start.txns[k]) ==>
      w.txns[k].pc.Aborted? || FoundNothing(w.tables, w.txns[k])
  }

  /** A redemption committed this row since. */
  ghost predicate WrittenBy(start: World, w: World, tenant: nat, s: Sub) {
    exists k: nat :: Committed(start, w, tenant, k) && Wrote(w.txns[k], s)
  }

  /** Two redemptions committed two rows. */
  predicate OwnRow(start: World, w: World, tenant: nat, i: nat, j: nat) {
    Committed(start, w, tenant, i) && Committed(start, w, tenant, j) && i != j ==>
      w.txns[i].sub.Some? && w.txns[j].sub.Some? && w.txns[i].sub.value.id != w.txns[j].sub.value.id
  }

  /** The row committed is none of those from before. */
  predicate NewRow(start: World, w: World, tenant: nat, k: nat) {
    Committed(start, w, tenant, k) ==> w.txns[k].sub.Some? && w.txns[k].sub.value !in start.tables.subs
  }

  /** The tenant's active rows are those from before and one for each redemption
      committed since. */
  ghost predicate RowsSince(start: World, w: World, tenant: nat) {
    && (forall s :: s in w.tables.subs && Live(s, tenant) ==> s in start.tables.subs || WrittenBy(start, w, tenant, s))
    && (forall s :: s in start.tables.subs && Live(s, tenant) ==> s in w.tables.subs)
    && (forall i: nat, j: nat :: OwnRow(start, w, tenant, i, j))
    && (forall i: nat :: NewRow(start, w, tenant, i))
  }

  ghost predicate IdleSince(start: World, w: World, tenant: nat) {
    && Kept(start, w) && RowsSince(start, w, tenant)
    && forall k :: 0 <= k < |w.txns| ==> TxnSince(start, w, tenant, k)
  }

  ghost predicate SecuredSince(start: World, w: World, tenant: nat) {
    Inv(w) && Secured(w) && IdleSince(start, w, tenant)
  }

  lemma IdleStatement(start: World, w: World, k: nat, now: Time, tenant: nat)
    requires SecuredSince(start, w, tenant) && k < |w.txns|
    requires w.txns[k].request.tenant == tenant && Unfinished(w.txns[k])
    requires !NextAction(w, k, now).Publish?
    ensures FoundNothing(w.tables, Left(w.txns[k], NextAction(w, k, now)))
  {
    assert TxnSince(start, w, tenant, k) && TxnOk(w, w.txns[k], k);
    if w.txns[k].pc == AtTail {
      TailStatement(w, k, now);
    } else {
      LateStatement(w, k, now);
    }
  }

  lemma RowsStay(start: World, w: World, w': World, tenant: nat)
    requires Kept(start, w) && RowsSince(start, w, tenant) && SameLive(w.tables.subs, w'.tables.subs, tenant)
    requires |w'.txns| == |w.txns|
    requires forall i: nat :: Committed(start, w, tenant, i) <==> Committed(start, w', tenant, i)
    requires forall i: nat :: Committed(start, w, tenant, i) ==> w'.txns[i] == w.txns[i]
    ensures RowsSince(start, w', tenant)
  {
    forall s | s in w'.tables.subs && Live(s, tenant) && s !in start.tables.subs
      ensures WrittenBy(start, w', tenant, s) {
      var i: nat :| Committed(start, w, tenant, i) && Wrote(w.txns[i], s);
      assert Committed(start, w', tenant, i) && Wrote(w'.txns[i], s);
    }
    forall i: nat, j: nat ensures OwnRow(start, w', tenant, i, j) {
      assert OwnRow(start, w, tenant, i, j);
    }
    forall i: nat ensures NewRow(start, w', tenant, i) {
      assert NewRow(start, w, tenant, i);
    }
  }

  lemma TxnsStay(start: World, w: World, w': World, k: nat, tenant: nat)
    requires SecuredSince(start, w, tenant) && k < |w.txns| == |w'.txns|
    requires w'.txns == w.txns[k := w'.txns[k]]
    requires forall s :: s in w.tables.subs && Live(s, tenant) ==> s in w'.tables.subs
    requires TxnSince(start, w', tenant, k)
    ensures forall j :: 0 <= j < |w'.txns| ==> TxnSince(start, w', tenant, j)
  {
    forall j | 0 <= j < |w'.txns| ensures TxnSince(start, w', tenant, j) {
      assert TxnSince(start, w, tenant, j);
    }
  }

  lemma IdleQuiet(start: World, w: World, k: nat, a: Action, tenant: nat)
    requires SecuredSince(start, w, tenant) && k < |w.txns| && !a.Publish?
    requires SameRequest(w.txns[k], a)
    requires 13 <= Rank(w.txns[k].pc) ==> a == Wait
    requires w.txns[k].request.tenant == tenant && Unfinished(w.txns[k]) ==> FoundNothing(w.tables, Left(w.txns[k], a))
    ensures IdleSince(start, Perform(w, k, a), tenant)
  {
    var w' := Perform(w, k, a);
    StatementTables(w, k, a);
    QuietCommitted(start, w, w', tenant);
    RowsStay(start, w, w', tenant);
    assert TxnSince(start, w, tenant, k);
    TxnsStay(start, w, w', k, tenant);
  }

  lemma IdleStep(start: World, w: World, k: nat, now: Time, tenant: nat)
    requires SecuredSince(start, w, tenant) && k < |w.txns| && !NextAction(w, k, now).Publish?
    ensures IdleSince(start, Perform(w, k, NextAction(w, k, now)), tenant)
  {
    KeepsRequest(w, k, now);
    if w.txns[k].request.tenant == tenant && Unfinished(w.txns[k]) {
      IdleStatement(start, w, k, now, tenant);
    }
    IdleQuiet(start, w, k, NextAction(w, k, now), tenant);
  }

  // ----- Commits -----

  lemma IdleForeign(start: World, w: World, k: nat, tenant: nat)
    requires SecuredSince(start, w, tenant) && k < |w.txns| && w.txns[k].pc == AtCommit
    requires w.txns[k].request.tenant != tenant
    ensures IdleSince(start, Perform(w, k, Publish), tenant)
  {
    var w' := Perform(w, k, Publish);
    assert TxnOk(w, w.txns[k], k);
    assert w'.txns == w.txns[k := w.txns[k].(pc := Done)];
    ForeignCommit(w, k, tenant);
    RowsStay(start, w, w', tenant);
    TxnsStay(start, w, w', k, tenant);
  }

  /** The tenant's own commit adds the one row its transaction scheduled. */
  lemma OwnCommit(start: World, w: World, k: nat, tenant: nat)
    requires SecuredSince(start, w, tenant) && k < |w.txns| && w.txns[k].pc == AtCommit
    requires w.txns[k].request.tenant == tenant
    ensures w.txns[k].sub.Some? && w.txns[k].plan.Some? && Unfinished(start.txns[k])
    ensures var x := w.txns[k];
            && Live(x.sub.value, tenant) && Wrote(x.(pc := Done), x.sub.value)
            && (forall s :: s in w.tables.subs ==> s.id != x.sub.value.id)
            && (forall s :: s in Commit(w.tables, GrantOf(x)).subs && Live(s, tenant) <==>
                            (s in w.tables.subs && Live(s, tenant)) || s == x.sub.value)
  {
    var x := w.txns[k];
    assert TxnOk(w, x, k) && TxnSince(start, w, tenant, k);
    forall s ensures s in Commit(w.tables, GrantOf(x)).subs && Live(s, tenant) <==>
                     (s in w.tables.subs && Live(s, tenant)) || s == x.sub.value {
      LiveAfterCommit(w.tables, GrantOf(x), tenant, s);
    }
  }

  lemma OwnRows(start: World, w: World, w': World, k: nat, tenant: nat)
    requires SecuredSince(start, w, tenant) && k < |w.txns| && w.txns[k].pc == AtCommit
    requires w.txns[k].request.tenant == tenant
    requires Unfinished(start.txns[k]) && w'.txns == w.txns[k := w.txns[k].(pc := Done)]
    requires w.txns[k].sub.Some? && Wrote(w'.txns[k], w.txns[k].sub.value)
    requires Live(w.txns[k].sub.value, tenant) && forall s :: s in w.tables.subs ==> s.id != w.txns[k].sub.value.id
    requires forall s :: s in w'.tables.subs && Live(s, tenant) <==>
                         (s in w.tables.subs && Live(s, tenant)) || s == w.txns[k].sub.value
    ensures RowsSince(start, w', tenant)
  {
    forall s | s in w'.tables.subs && Live(s, tenant) && s !in start.tables.subs
      ensures WrittenBy(start, w', tenant, s) {
      if s in w.tables.subs {
        var i: nat :| Committed(start, w, tenant, i) && Wrote(w.txns[i], s);
        assert Committed(start, w', tenant, i) && Wrote(w'.txns[i], s);
      } else {
        assert Committed(start, w', tenant, k) && Wrote(w'.txns[k], s);
      }
    }
    forall i: nat, j: nat ensures OwnRow(start, w', tenant, i, j) {
      assert OwnRow(start, w, tenant, i, j);
      if i < |w.txns| && j < |w.txns| {
        assert TxnSince(start, w, tenant, i) && TxnSince(start, w, tenant, j);
      }
    }
    forall i: nat ensures NewRow(start, w', tenant, i) {
      assert NewRow(start, w, tenant, i);
    }
  }

  lemma IdleOwn(start: World, w: World, k: nat, tenant: nat)
    requires SecuredSince(start, w, tenant) && k < |w.txns| && w.txns[k].pc == AtCommit
    requires w.txns[k].request.tenant == tenant
    ensures IdleSince(start, Perform(w, k, Publish), tenant)
  {
    OwnCommit(start, w, k, tenant);
    var w' := Perform(w, k, Publish);
    assert w'.txns == w.txns[k := w.txns[k].(pc := Done)];
    OwnRows(start, w, w', k, tenant);
    assert TxnSince(start, w, tenant, k);
    TxnsStay(start, w, w', k, tenant);
  }

  lemma IdleOther(start: World, w: World, e: Event, tenant: nat)
    requires SecuredSince(start, w, tenant) && !e.Advance?
    ensures IdleSince(start, Exec(w, e), tenant)
  {
    OtherEvents(w, e);
    RowsStay(start, w, Exec(w, e), tenant);
    forall k | 0 <= k < |w.txns| ensures TxnSince(start, Exec(w, e), tenant, k) {
      assert TxnSince(start, w, tenant, k);
    }
  }

  lemma IdleExec(start: World, w: World, e: Event, tenant: nat)
    requires SecuredSince(start, w, tenant)
    ensures IdleSince(start, Exec(w, e), tenant)
  {
    if !e.Advance? {
      IdleOther(start, w, e, tenant);
    } else if e.k < |w.txns| {
      if !NextAction(w, e.k, e.now).Publish? {
        IdleStep(start, w, e.k, e.now, tenant);
      } else if w.txns[e.k].request.tenant == tenant {
        IdleOwn(start, w, e.k, tenant);
      } else {
        IdleForeign(start, w, e.k, tenant);
      }
    }
  }

  lemma IdleBegins(start: World, tenant: nat)
    requires Idling(start, tenant)
    ensures IdleSince(start, start, tenant)
  {
    forall i: nat ensures !Committed(start, start, tenant, i) {
    }
  }

  lemma {:induction false} IdleAlways(start: World, es: seq<Event>, tenant: nat)
    requires Idling(start, tenant)
    ensures SecuredSince(start, ExecAll(start, es), tenant)
  {
    if es == [] {
      IdleBegins(start, tenant);
    } else {
      var w := ExecAll(start, es[..|es| - 1]);
      IdleAlways(start, es[..|es| - 1], tenant);
      ExecKeeps(w, es[|es| - 1]);
      ExecSecures(w, es[|es| - 1]);
      IdleExec(start, w, es[|es| - 1], tenant);
    }
  }

  // ----- Who decides as if alone -----

  /** A window committed since holds the instant. */
  ghost predicate Meets(start: World, w: World, tenant: nat, at: Time) {
    exists i: nat :: Committed(start, w, tenant, i) && w.txns[i].scheduled <= at <= Ends(w.txns[i])
  }

  /** Queued behind what runs, the window would start now all the same. */
  predicate QueuesNow(t: Tables, x: Txn) {
    var m := InForce(t.subs, x.request.tenant, x.scheduled);
    && m.Some? && x.planId in t.plans && TailEnd(t.subs, x.request.tenant) == Some(x.scheduled)
    && (m.value.plan == x.planId || t.plans[x.planId].price < PriceOf(t.plans, m))
  }

  /** Any number of redemptions that found nothing running, coupons or grants, in
      any order: one of them, once scheduled and until it commits, decides as a
      redemption alone on the tables the others left if and only if no window
      committed before it holds the instant it was scheduled at, or ends there
      with this one to follow. */
  lemma IdleDecide(start: World, es: seq<Event>, tenant: nat, j: nat)
    requires Idling(start, tenant)
    requires var w := ExecAll(start, es);
             && j < |w.txns| && w.txns[j].request.tenant == tenant && 7 <= Rank(w.txns[j].pc) <= 12
             && InForce(start.tables.subs, tenant, w.txns[j].scheduled).None?
    ensures var w := ExecAll(start, es);
            var x := w.txns[j];
            DecidedAlone(w.tables, x) <==> !Meets(start, w, tenant, x.scheduled) || QueuesNow(w.tables, x)
  {
    IdleAlways(start, es, tenant);
    var w := ExecAll(start, es);
    var x := w.txns[j];
    ScheduledAtOnce(start, w, tenant, j);
    MeetsIffRunning(start, w, tenant, x.scheduled);
    AloneIff(w.tables, x);
  }

  lemma ScheduledAtOnce(start: World, w: World, tenant: nat, j: nat)
    requires Inv(w) && IdleSince(start, w, tenant)
    requires j < |w.txns| && w.txns[j].request.tenant == tenant && 7 <= Rank(w.txns[j].pc) <= 12
    ensures var x := w.txns[j];
            x.planId in w.tables.plans && x.schedule == Schedule(x.scheduled, Ends(x), None)
  {
    assert TxnSince(start, w, tenant, j) && TxnOk(w, w.txns[j], j);
  }

  lemma MeetsIffRunning(start: World, w: World, tenant: nat, at: Time)
    requires SecuredSince(start, w, tenant) && InForce(start.tables.subs, tenant, at).None?
    ensures Meets(start, w, tenant, at) <==> InForce(w.tables.subs, tenant, at).Some?
  {
    InForceLatest(start.tables.subs, tenant, at);
    InForceLatest(w.tables.subs, tenant, at);
    if i: nat :| Committed(start, w, tenant, i) && w.txns[i].scheduled <= at <= Ends(w.txns[i]) {
      assert TxnSince(start, w, tenant, i) && Covers(w.txns[i].sub.value, tenant, at);
    }
    if InForce(w.tables.subs, tenant, at).Some? {
      var s := InForce(w.tables.subs, tenant, at).value;
      assert WrittenBy(start, w, tenant, s);
    }
  }

  lemma AloneIff(t: Tables, x: Txn)
    requires x.planId in t.plans && x.schedule == Schedule(x.scheduled, Ends(x), None)
    ensures DecidedAlone(t, x) <==> InForce(t.subs, x.request.tenant, x.scheduled).None? || QueuesNow(t, x)
  {
    InForceLatest(t.subs, x.request.tenant, x.scheduled);
    TailEndIsMax(t.subs, x.request.tenant);
  }

  // ----- Whose windows overlap -----

  predicate Clear(x: Txn, y: Txn) {
    Ends(x) <= y.scheduled || Ends(y) <= x.scheduled
  }

  predicate ClearOf(start: World, w: World, tenant: nat, i: nat, j: nat) {
    Committed(start, w, tenant, i) && Committed(start, w, tenant, j) && i != j ==> Clear(w.txns[i], w.txns[j])
  }

  predicate ClearOfPast(start: World, w: World, tenant: nat, i: nat, s: Sub) {
    Committed(start, w, tenant, i) && s in start.tables.subs && Live(s, tenant) ==>
      s.end <= w.txns[i].scheduled || Ends(w.txns[i]) <= s.start
  }

  /** After any interleaving the tenant's windows are disjoint if and only if the
      windows committed since, each from the instant it was scheduled at, are
      clear of one another and of those from before. */
  lemma IdleDisjointIff(start: World, es: seq<Event>, tenant: nat)
    requires Idling(start, tenant) && Disjoint(start.tables.subs, tenant)
    ensures var w := ExecAll(start, es);
            Disjoint(w.tables.subs, tenant) <==>
            && (forall i: nat, j: nat :: ClearOf(start, w, tenant, i, j))
            && (forall i: nat, s :: ClearOfPast(start, w, tenant, i, s))
  {
    IdleAlways(start, es, tenant);
    var w := ExecAll(start, es);
    if Disjoint(w.tables.subs, tenant) {
      forall i: nat, j: nat ensures ClearOf(start, w, tenant, i, j) {
        DisjointClear(start, w, tenant, i, j);
      }
      forall i: nat, s ensures ClearOfPast(start, w, tenant, i, s) {
        DisjointPast(start, w, tenant, i, s);
      }
    }
    if (forall i: nat, j: nat :: ClearOf(start, w, tenant, i, j)) &&
        (forall i: nat, s :: ClearOfPast(start, w, tenant, i, s)) {
      forall a, b | a in w.tables.subs && b in w.tables.subs && Live(a, tenant) && Live(b, tenant) && a != b
        ensures Apart(a, b) {
        ClearApart(start, w, tenant, a, b);
      }
    }
  }

  lemma DisjointClear(start: World, w: World, tenant: nat, i: nat, j: nat)
    requires SecuredSince(start, w, tenant) && Disjoint(w.tables.subs, tenant)
    ensures ClearOf(start, w, tenant, i, j)
  {
    if Committed(start, w, tenant, i) && Committed(start, w, tenant, j) && i != j {
      assert TxnSince(start, w, tenant, i) && TxnSince(start, w, tenant, j) && OwnRow(start, w, tenant, i, j);
      assert Apart(w.txns[i].sub.value, w.txns[j].sub.value);
    }
  }

  lemma DisjointPast(start: World, w: World, tenant: nat, i: nat, s: Sub)
    requires SecuredSince(start, w, tenant) && Disjoint(w.tables.subs, tenant)
    ensures ClearOfPast(start, w, tenant, i, s)
  {
    if Committed(start, w, tenant, i) && s in start.tables.subs && Live(s, tenant) {
      assert TxnSince(start, w, tenant, i) && NewRow(start, w, tenant, i);
      assert s in w.tables.subs;
      assert Apart(w.txns[i].sub.value, s);
    }
  }

  lemma ClearApart(start: World, w: World, tenant: nat, a: Sub, b: Sub)
    requires SecuredSince(start, w, tenant) && Disjoint(start.tables.subs, tenant)
    requires forall i: nat, j: nat :: ClearOf(start, w, tenant, i, j)
    requires forall i: nat, s :: ClearOfPast(start, w, tenant, i, s)
    requires a in w.tables.subs && b in w.tables.subs && Live(a, tenant) && Live(b, tenant) && a != b
    ensures Apart(a, b)
  {
    if a in start.tables.subs && b in start.tables.subs {
      assert Apart(a, b);
    } else if a in start.tables.subs {
      var j: nat :| Committed(start, w, tenant, j) && Wrote(w.txns[j], b);
      assert ClearOfPast(start, w, tenant, j, a);
    } else {
      var i: nat :| Committed(start, w, tenant, i) && Wrote(w.txns[i], a);
      if b in start.tables.subs {
        assert ClearOfPast(start, w, tenant, i, b);
      } else {
        var j: nat :| Committed(start, w, tenant, j) && Wrote(w.txns[j], b);
        assert ClearOf(start, w, tenant, i, j);
      }
    }
  }
}
