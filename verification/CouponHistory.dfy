/**
 What becomes of a tenant's active rows over any interleaving: those from before
 and those committed since, but for the ones superseded since. The tenant's
 redemptions may begin at any time and find anything.
 */
module CouponHistory {
  import opened Options
  import opened Coupons
  import opened CouponRaces
  import opened CouponTimeline
  import opened CouponLocks
  import opened CouponSerial

  /** A redemption has committed this row since. */
  ghost predicate WrittenSince(start: World, w: World, tenant: nat, s: Sub) {
    Live(s, tenant) && exists i: nat :: Committed(start, w, tenant, i) && w.txns[i].sub == Some(s)
  }

  ghost predicate SupersededSince(start: World, w: World, tenant: nat, id: nat) {
    exists i: nat :: Committed(start, w, tenant, i) && w.txns[i].schedule.supersedes == Some(id)
  }

  /** Active before, or committed since; and not superseded since. */
  ghost predicate ActiveSince(start: World, w: World, tenant: nat, s: Sub) {
    && ((s in start.tables.subs && Live(s, tenant)) || WrittenSince(start, w, tenant, s))
    && !SupersededSince(start, w, tenant, s.id)
  }

  ghost predicate LiveSince(start: World, w: World, tenant: nat) {
    forall s :: s in w.tables.subs && Live(s, tenant) <==> ActiveSince(start, w, tenant, s)
  }

  ghost predicate IdIn(subs: seq<Sub>, id: nat) {
    exists s :: s in subs && s.id == id
  }

  /** What has been superseded since is a row of the table. */
  ghost predicate KnownIds(start: World, w: World, tenant: nat) {
    forall id: nat :: SupersededSince(start, w, tenant, id) ==> IdIn(w.tables.subs, id)
  }

  ghost predicate History(start: World, w: World, tenant: nat) {
    Kept(start, w) && LiveSince(start, w, tenant) && KnownIds(start, w, tenant)
  }

  // ----- One event -----

  ghost predicate SameCommits(start: World, w: World, w': World, tenant: nat) {
    && (forall i: nat :: Committed(start, w, tenant, i) <==> Committed(start, w', tenant, i))
    && (forall i: nat :: Committed(start, w, tenant, i) ==> w'.txns[i] == w.txns[i])
  }

  lemma SameSince(start: World, w: World, w': World, tenant: nat, s: Sub)
    requires SameCommits(start, w, w', tenant)
    ensures WrittenSince(start, w', tenant, s) <==> WrittenSince(start, w, tenant, s)
    ensures SupersededSince(start, w', tenant, s.id) <==> SupersededSince(start, w, tenant, s.id)
  {
    if i: nat :| Committed(start, w, tenant, i) && w.txns[i].sub == Some(s) {
      assert Committed(start, w', tenant, i) && w'.txns[i].sub == Some(s);
    }
    if i: nat :| Committed(start, w, tenant, i) && w.txns[i].schedule.supersedes == Some(s.id) {
      assert Committed(start, w', tenant, i) && w'.txns[i].schedule.supersedes == Some(s.id);
    }
  }

  lemma SameHistory(start: World, w: World, w': World, tenant: nat)
    requires History(start, w, tenant) && Kept(start, w') && SameCommits(start, w, w', tenant)
    requires SameLive(w.tables.subs, w'.tables.subs, tenant)
    requires forall id: nat :: IdIn(w.tables.subs, id) ==> IdIn(w'.tables.subs, id)
    ensures History(start, w', tenant)
  {
    forall s ensures s in w'.tables.subs && Live(s, tenant) <==> ActiveSince(start, w', tenant, s) {
      SameSince(start, w, w', tenant, s);
    }
    forall id: nat | SupersededSince(start, w', tenant, id) ensures IdIn(w'.tables.subs, id) {
      var i: nat :| Committed(start, w', tenant, i) && w'.txns[i].schedule.supersedes == Some(id);
      assert Committed(start, w, tenant, i) && w.txns[i].schedule.supersedes == Some(id);
      assert SupersededSince(start, w, tenant, id);
    }
  }

  lemma IdsStay(t: Tables, g: Grant, id: nat)
    requires IdIn(t.subs, id)
    ensures IdIn(Commit(t, g).subs, id)
  {
    var i :| 0 <= i < |t.subs| && t.subs[i].id == id;
    assert Commit(t, g).subs[i] in Commit(t, g).subs;
  }

  lemma HistoryForeign(start: World, w: World, k: nat, tenant: nat)
    requires Inv(w) && Secured(w) && History(start, w, tenant)
    requires k < |w.txns| && w.txns[k].pc == AtCommit && w.txns[k].request.tenant != tenant
    ensures History(start, Perform(w, k, Publish), tenant)
  {
    assert TxnOk(w, w.txns[k], k);
    var w' := Perform(w, k, Publish);
    assert w'.txns == w.txns[k := w.txns[k].(pc := Done)];
    ForeignCommit(w, k, tenant);
    forall id: nat | IdIn(w.tables.subs, id) ensures IdIn(w'.tables.subs, id) {
      IdsStay(w.tables, GrantOf(w.txns[k]), id);
    }
    SameHistory(start, w, w', tenant);
  }

  /** The tenant's own commit, on the rows. */
  lemma CommitRow(w: World, k: nat, tenant: nat, s: Sub)
    requires Inv(w) && Secured(w) && k < |w.txns| && w.txns[k].pc == AtCommit && w.txns[k].request.tenant == tenant
    ensures var x := w.txns[k];
            && x.sub.Some? && x.plan.Some? && Live(x.sub.value, tenant) && !IdIn(w.tables.subs, x.sub.value.id)
            && (x.schedule.supersedes.Some? ==> IdIn(w.tables.subs, x.schedule.supersedes.value))
            && (s in Commit(w.tables, GrantOf(x)).subs && Live(s, tenant) <==>
                s == x.sub.value || (s in w.tables.subs && Live(s, tenant) && Some(s.id) != x.schedule.supersedes))
  {
    var x := w.txns[k];
    assert TxnOk(w, x, k) && TxnSecured(w.tables, x);
    LiveAfterCommit(w.tables, GrantOf(x), tenant, s);
  }

  lemma OwnSince(start: World, w: World, w': World, k: nat, tenant: nat, s: Sub)
    requires Kept(start, w) && k < |w.txns| && w.txns[k].pc == AtCommit && w.txns[k].request.tenant == tenant
    requires w'.txns == w.txns[k := w.txns[k].(pc := Done)]
    ensures WrittenSince(start, w', tenant, s) <==>
            WrittenSince(start, w, tenant, s) || (Live(s, tenant) && w.txns[k].sub == Some(s))
    ensures SupersededSince(start, w', tenant, s.id) <==>
            SupersededSince(start, w, tenant, s.id) || w.txns[k].schedule.supersedes == Some(s.id)
  {
    assert Committed(start, w', tenant, k);
    forall i: nat | i != k ensures Committed(start, w', tenant, i) <==> Committed(start, w, tenant, i) {
    }
    if i: nat :| Committed(start, w, tenant, i) && w.txns[i].sub == Some(s) {
      assert Committed(start, w', tenant, i) && w'.txns[i].sub == Some(s);
    }
    if i: nat :| Committed(start, w, tenant, i) && w.txns[i].schedule.supersedes == Some(s.id) {
      assert Committed(start, w', tenant, i) && w'.txns[i].schedule.supersedes == Some(s.id);
    }
  }

  lemma HistoryOwn(start: World, w: World, k: nat, tenant: nat)
    requires Inv(w) && Secured(w) && History(start, w, tenant)
    requires k < |w.txns| && w.txns[k].pc == AtCommit && w.txns[k].request.tenant == tenant
    ensures History(start, Perform(w, k, Publish), tenant)
  {
    var w' := Perform(w, k, Publish);
    var x := w.txns[k];
    assert TxnOk(w, x, k);
    assert w'.txns == w.txns[k := x.(pc := Done)] && w'.tables == Commit(w.tables, GrantOf(x));
    forall s ensures s in w'.tables.subs && Live(s, tenant) <==> ActiveSince(start, w', tenant, s) {
      RowSince(start, w, w', k, tenant, s);
    }
    forall id: nat | SupersededSince(start, w', tenant, id) ensures IdIn(w'.tables.subs, id) {
      IdSince(start, w, w', k, tenant, id);
    }
  }

  lemma RowSince(start: World, w: World, w': World, k: nat, tenant: nat, s: Sub)
    requires Inv(w) && Secured(w) && History(start, w, tenant)
    requires k < |w.txns| && w.txns[k].pc == AtCommit && w.txns[k].request.tenant == tenant
    requires w.txns[k].plan.Some? && w.txns[k].sub.Some?
    requires w'.txns == w.txns[k := w.txns[k].(pc := Done)] && w'.tables == Commit(w.tables, GrantOf(w.txns[k]))
    ensures s in w'.tables.subs && Live(s, tenant) <==> ActiveSince(start, w', tenant, s)
  {
    CommitRow(w, k, tenant, s);
    OwnSince(start, w, w', k, tenant, s);
    if s == w.txns[k].sub.value {
      assert !SupersededSince(start, w, tenant, s.id);
    }
  }

  lemma IdSince(start: World, w: World, w': World, k: nat, tenant: nat, id: nat)
    requires Inv(w) && Secured(w) && History(start, w, tenant)
    requires k < |w.txns| && w.txns[k].pc == AtCommit && w.txns[k].request.tenant == tenant
    requires w.txns[k].plan.Some? && w.txns[k].sub.Some?
    requires w'.txns == w.txns[k := w.txns[k].(pc := Done)] && w'.tables == Commit(w.tables, GrantOf(w.txns[k]))
    requires SupersededSince(start, w', tenant, id)
    ensures IdIn(w'.tables.subs, id)
  {
    var i: nat :| Committed(start, w', tenant, i) && w'.txns[i].schedule.supersedes == Some(id);
    CommitRow(w, k, tenant, w.txns[k].sub.value);
    if i != k {
      assert Committed(start, w, tenant, i) && w.txns[i].schedule.supersedes == Some(id);
      assert SupersededSince(start, w, tenant, id);
    }
    IdsStay(w.tables, GrantOf(w.txns[k]), id);
  }

  lemma HistoryQuiet(start: World, w: World, k: nat, a: Action, tenant: nat)
    requires History(start, w, tenant) && k < |w.txns| && !a.Publish? && SameRequest(w.txns[k], a)
    requires 13 <= Rank(w.txns[k].pc) ==> a == Wait
    ensures History(start, Perform(w, k, a), tenant)
  {
    StatementTables(w, k, a);
    QuietCommitted(start, w, Perform(w, k, a), tenant);
    SameHistory(start, w, Perform(w, k, a), tenant);
  }

  lemma HistoryExec(start: World, w: World, e: Event, tenant: nat)
    requires Inv(w) && Secured(w) && History(start, w, tenant)
    ensures History(start, Exec(w, e), tenant)
  {
    if !e.Advance? {
      OtherEvents(w, e);
      SameHistory(start, w, Exec(w, e), tenant);
    } else if e.k < |w.txns| {
      var a := NextAction(w, e.k, e.now);
      if !a.Publish? {
        KeepsRequest(w, e.k, e.now);
        HistoryQuiet(start, w, e.k, a, tenant);
      } else if w.txns[e.k].request.tenant == tenant {
        HistoryOwn(start, w, e.k, tenant);
      } else {
        HistoryForeign(start, w, e.k, tenant);
      }
    }
  }

  lemma HistoryBegins(start: World, tenant: nat)
    ensures History(start, start, tenant)
  {
    forall i: nat ensures !Committed(start, start, tenant, i) {
    }
    forall s ensures !WrittenSince(start, start, tenant, s) && !SupersededSince(start, start, tenant, s.id) {
    }
  }

  /** After any events from any secured world, the tenant's active rows are those
      active before and those committed since, less those superseded since. */
  lemma {:induction false} HistoryAlways(start: World, es: seq<Event>, tenant: nat)
    requires Inv(start) && Secured(start)
    ensures Inv(ExecAll(start, es)) && Secured(ExecAll(start, es)) && History(start, ExecAll(start, es), tenant)
  {
    if es == [] {
      HistoryBegins(start, tenant);
    } else {
      var before := ExecAll(start, es[..|es| - 1]);
      HistoryAlways(start, es[..|es| - 1], tenant);
      ExecKeeps(before, es[|es| - 1]);
      ExecSecures(before, es[|es| - 1]);
      HistoryExec(start, before, es[|es| - 1], tenant);
    }
  }

  // ----- One transaction's schedule -----

  /** The same transaction, further on. */
  predicate SameSchedule(x: Txn, y: Txn) {
    y == x.(pc := y.pc, sub := y.sub) && 7 <= Rank(y.pc)
  }

  lemma ScheduleStays(w: World, k: nat, now: Time)
    requires k < |w.txns| && 7 <= Rank(w.txns[k].pc)
    ensures var w' := Perform(w, k, NextAction(w, k, now));
            |w'.txns| == |w.txns| && SameSchedule(w.txns[k], w'.txns[k])
  {
    if Rank(w.txns[k].pc) <= 12 {
      LateStatement(w, k, now);
    }
  }

  lemma OthersStay(w: World, k: nat, a: Action, j: nat)
    requires k < |w.txns| && j < |w.txns| && j != k
    ensures |Perform(w, k, a).txns| == |w.txns| && Perform(w, k, a).txns[j] == w.txns[j]
  {
  }

  lemma ScheduleExec(w: World, e: Event, j: nat)
    requires j < |w.txns| && 7 <= Rank(w.txns[j].pc)
    ensures |Exec(w, e).txns| == |w.txns| && SameSchedule(w.txns[j], Exec(w, e).txns[j])
  {
    if !e.Advance? {
      OtherEvents(w, e);
    } else if e.k < |w.txns| {
      if e.k == j {
        ScheduleStays(w, j, e.now);
      } else {
        OthersStay(w, e.k, NextAction(w, e.k, e.now), j);
      }
    }
  }

  lemma {:induction false} ScheduleAlways(start: World, es: seq<Event>, j: nat)
    requires j < |start.txns| && 7 <= Rank(start.txns[j].pc)
    ensures |ExecAll(start, es).txns| == |start.txns| && SameSchedule(start.txns[j], ExecAll(start, es).txns[j])
  {
    if es != [] {
      ScheduleAlways(start, es[..|es| - 1], j);
      ScheduleExec(ExecAll(start, es[..|es| - 1]), es[|es| - 1], j);
    }
  }
}
