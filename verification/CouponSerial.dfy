/**
 When concurrent redemptions for one tenant act as if run one after another.
 Redemptions that found the same subscription running wait for its row and queue
 up correctly behind one another, until one of them upgrades: the next finds the
 row it waited for superseded, and starts at once. Redemptions that found nothing
 running have no row to wait for, and all start at once.
 */
module CouponSerial {
  import opened Options
  import opened Coupons
  import opened CouponRaces
  import opened CouponTimeline
  import opened CouponLocks

  // ----- Queries see one tenant's active rows -----

  ghost predicate SameLive(a: seq<Sub>, b: seq<Sub>, tenant: nat) {
    forall s :: s in a && Live(s, tenant) <==> s in b && Live(s, tenant)
  }

  lemma InForceAgrees(a: seq<Sub>, b: seq<Sub>, tenant: nat, at: Time)
    requires ValidSubs(a) && ValidSubs(b) && SameLive(a, b, tenant)
    ensures InForce(a, tenant, at) == InForce(b, tenant, at)
  {
    InForceLatest(a, tenant, at);
    InForceLatest(b, tenant, at);
    var r := InForce(a, tenant, at);
    if r.Some? {
      assert forall s :: s in b && Covers(s, tenant, at) ==> s in a && s.start <= r.value.start;
      InForceIs(b, tenant, at, r.value);
    }
  }

  lemma TailAgrees(a: seq<Sub>, b: seq<Sub>, tenant: nat)
    requires SameLive(a, b, tenant)
    ensures TailEnd(a, tenant) == TailEnd(b, tenant)
  {
    TailEndIsMax(a, tenant);
    TailEndIsMax(b, tenant);
  }

  /** A commit for another tenant leaves the tenant's active rows alone. */
  lemma ForeignCommit(w: World, k: nat, tenant: nat)
    requires Inv(w) && Secured(w) && k < |w.txns| && w.txns[k].pc == AtCommit && w.txns[k].request.tenant != tenant
    ensures SameLive(w.tables.subs, Perform(w, k, Publish).tables.subs, tenant)
  {
    var x := w.txns[k];
    assert TxnOk(w, x, k) && TxnSecured(w.tables, x);
    var g := GrantOf(x);
    forall s ensures s in w.tables.subs && Live(s, tenant) <==> s in Commit(w.tables, g).subs && Live(s, tenant) {
      LiveAfterCommit(w.tables, g, tenant, s);
      if s in w.tables.subs && Some(s.id) == g.supersedes {
        IdsDistinct(w.tables.subs, s, x.current.value);
      }
    }
  }

  // ----- Redemptions that found the same subscription running -----

  /** The transaction waits for the row of r, and has no other candidate. */
  ghost predicate Waits(x: Txn, r: Sub) {
    && x.pc == AtSub && x.picked == Some(r) && Covers(r, x.request.tenant, x.begun) && x.held == {}
    && forall s :: s in x.rest ==> !Covers(s, x.request.tenant, x.begun)
  }

  /** The schedule is the one computed from these tables. */
  predicate Computed(t: Tables, x: Txn) {
    && x.planId in t.plans
    && x.schedule == ComputeSchedule(x.planId, t.plans[x.planId].price, x.days, x.current, PriceOf(t.plans, x.current),
                                     TailEnd(t.subs, x.request.tenant), x.scheduled)
  }

  /** The transaction holds the row of r, and found r running unless it had been
      superseded; nothing the schedule depends on has changed since. */
  ghost predicate Holds(t: Tables, x: Txn, r: Sub) {
    && 6 <= Rank(x.pc) <= 12 && RowOf(r) in x.held
    && x.current == (if r in t.subs then Some(r) else None)
    && (7 <= Rank(x.pc) ==> Computed(t, x))
  }

  ghost predicate MetTxn(t: Tables, x: Txn, r: Sub) {
    13 <= Rank(x.pc) || Waits(x, r) || Holds(t, x, r)
  }

  /** Every redemption of the tenant has ended, or picked r. */
  ghost predicate Met(w: World, tenant: nat, r: Sub) {
    && Live(r, tenant) && (r in w.tables.subs || r.(status := Superseded) in w.tables.subs)
    && forall k :: 0 <= k < |w.txns| && w.txns[k].request.tenant == tenant ==> MetTxn(w.tables, w.txns[k], r)
  }

  lemma MetOnTables(t: Tables, t': Tables, x: Txn, r: Sub)
    requires MetTxn(t, x, r) && Live(r, x.request.tenant) && t'.plans == t.plans
    requires SameLive(t.subs, t'.subs, x.request.tenant)
    ensures MetTxn(t', x, r)
  {
    TailAgrees(t.subs, t'.subs, x.request.tenant);
  }

  lemma WaitEnds(t: Tables, x: Txn, r: Sub)
    requires ValidSubs(t.subs) && Waits(x, r) && (r in t.subs || r.(status := Superseded) in t.subs)
    ensures Holds(t, Locked(t.subs, x), r)
  {
    LockedJudges(t.subs, x);
    var r' := if r in t.subs then r else r.(status := Superseded);
    FindSubIs(t.subs, r');
    InForceLatest(x.rest, x.request.tenant, x.begun);
  }

  lemma HolderStatement(w: World, k: nat, now: Time, r: Sub)
    requires Inv(w) && k < |w.txns| && Holds(w.tables, w.txns[k], r)
    ensures Holds(w.tables, Left(w.txns[k], NextAction(w, k, now)), r)
  {
    assert TxnOk(w, w.txns[k], k);
    if w.txns[k].pc == AtTail {
      TailStatement(w, k, now);
    } else {
      LateStatement(w, k, now);
    }
  }

  lemma MetStatement(w: World, k: nat, now: Time, tenant: nat, r: Sub)
    requires Inv(w) && k < |w.txns| && w.txns[k].request.tenant == tenant && Met(w, tenant, r)
    requires !NextAction(w, k, now).Publish?
    ensures MetTxn(w.tables, Left(w.txns[k], NextAction(w, k, now)), r)
  {
    var x := w.txns[k];
    assert MetTxn(w.tables, x, r);
    if Waits(x, r) {
      if NextAction(w, k, now).LockSub? {
        SubLockIs(w, k, now);
        WaitEnds(w.tables, x, r);
      }
    } else if Rank(x.pc) <= 12 {
      HolderStatement(w, k, now, r);
    }
  }

  lemma KnownStays(t: Tables, g: Grant, r: Sub)
    requires Live(r, r.tenant) && g.sub.status == Active && (r in t.subs || r.(status := Superseded) in t.subs)
    ensures r in Commit(t, g).subs || r.(status := Superseded) in Commit(t, g).subs
  {
    var after := Commit(t, g).subs;
    var i :| 0 <= i < |t.subs| && (t.subs[i] == r || t.subs[i] == r.(status := Superseded));
    assert after[i] in after;
  }

  /** Only one transaction at a time holds the row. */
  lemma OneHolder(w: World, i: nat, j: nat, r: Sub)
    requires Inv(w) && i < |w.txns| && j < |w.txns|
    requires Holds(w.tables, w.txns[i], r) && Holds(w.tables, w.txns[j], r)
    ensures i == j
  {
    assert TxnOk(w, w.txns[i], i) && TxnOk(w, w.txns[j], j);
    assert HoldsSub(w.txns[i], RowOf(r)) && HoldsSub(w.txns[j], RowOf(r));
  }

  lemma MetForeign(w: World, k: nat, j: nat, tenant: nat, r: Sub)
    requires Inv(w) && Secured(w) && Met(w, tenant, r) && k < |w.txns| && w.txns[k].pc == AtCommit
    requires j < |w.txns| && w.txns[j].request.tenant == tenant != w.txns[k].request.tenant
    ensures MetTxn(Perform(w, k, Publish).tables, w.txns[j], r)
  {
    ForeignCommit(w, k, tenant);
    assert TxnOk(w, w.txns[k], k);
    MetOnTables(w.tables, Perform(w, k, Publish).tables, w.txns[j], r);
  }

  lemma MetOwn(w: World, k: nat, j: nat, tenant: nat, r: Sub)
    requires Inv(w) && Met(w, tenant, r) && k < |w.txns| && w.txns[k].pc == AtCommit
    requires j < |w.txns| && j != k && w.txns[j].request.tenant == tenant == w.txns[k].request.tenant
    ensures 13 <= Rank(w.txns[j].pc) || Waits(w.txns[j], r)
  {
    assert MetTxn(w.tables, w.txns[j], r) && MetTxn(w.tables, w.txns[k], r);
    if Holds(w.tables, w.txns[j], r) {
      OneHolder(w, j, k, r);
    }
  }

  lemma MetPublish(w: World, k: nat, tenant: nat, r: Sub)
    requires Inv(w) && Secured(w) && Met(w, tenant, r) && k < |w.txns| && w.txns[k].pc == AtCommit
    ensures Met(Perform(w, k, Publish), tenant, r)
  {
    var w' := Perform(w, k, Publish);
    assert TxnOk(w, w.txns[k], k);
    KnownStays(w.tables, GrantOf(w.txns[k]), r);
    assert w'.txns == w.txns[k := w.txns[k].(pc := Done)];
    forall j | 0 <= j < |w'.txns| && w'.txns[j].request.tenant == tenant ensures MetTxn(w'.tables, w'.txns[j], r) {
      if j != k {
        if w.txns[k].request.tenant != tenant {
          MetForeign(w, k, j, tenant, r);
        } else {
          MetOwn(w, k, j, tenant, r);
        }
      }
    }
  }

  lemma MetQuiet(w: World, k: nat, a: Action, tenant: nat, r: Sub)
    requires Met(w, tenant, r) && k < |w.txns| && !a.Publish? && SameRequest(w.txns[k], a)
    requires w.txns[k].request.tenant == tenant ==> MetTxn(w.tables, Left(w.txns[k], a), r)
    ensures Met(Perform(w, k, a), tenant, r)
  {
    StatementTables(w, k, a);
    var w' := Perform(w, k, a);
    forall j | 0 <= j < |w'.txns| && w'.txns[j].request.tenant == tenant ensures MetTxn(w'.tables, w'.txns[j], r) {
      assert w.txns[j].request.tenant == tenant ==> MetTxn(w.tables, w.txns[j], r);
    }
  }

  lemma MetExec(w: World, e: Event, tenant: nat, r: Sub)
    requires Inv(w) && Secured(w) && Met(w, tenant, r)
    ensures Met(Exec(w, e), tenant, r)
  {
    if e.Advance? {
      if e.k < |w.txns| {
        var a := NextAction(w, e.k, e.now);
        if a.Publish? {
          MetPublish(w, e.k, tenant, r);
        } else {
          KeepsRequest(w, e.k, e.now);
          if w.txns[e.k].request.tenant == tenant {
            MetStatement(w, e.k, e.now, tenant, r);
          }
          MetQuiet(w, e.k, a, tenant, r);
        }
      }
    } else {
      OtherEvents(w, e);
      forall j | 0 <= j < |w.txns| && w.txns[j].request.tenant == tenant
        ensures MetTxn(Exec(w, e).tables, Exec(w, e).txns[j], r) {
        assert MetTxn(w.tables, w.txns[j], r);
      }
    }
  }

  // ----- What has happened since they met -----

  /** The request is for another plan that is no cheaper. */
  predicate Upgrades(plans: map<string, Plan>, planId: string, r: Sub) {
    && planId in plans && r.plan in plans && planId != r.plan
    && plans[planId].price >= plans[r.plan].price
  }

  /** Transaction i has committed since, for the tenant. */
  predicate Committed(start: World, w: World, tenant: nat, i: nat) {
    && i < |start.txns| && i < |w.txns| && w.txns[i].request.tenant == tenant
    && Unfinished(start.txns[i]) && w.txns[i].pc == Done
  }

  /** What had ended when they met is as it was. */
  ghost predicate Kept(start: World, w: World) {
    && |start.txns| == |w.txns| && w.tables.plans == start.tables.plans
    && forall i :: 0 <= i < |w.txns| && !Unfinished(start.txns[i]) ==> w.txns[i] == start.txns[i]
  }

  lemma QuietCommitted(start: World, w: World, w': World, tenant: nat)
    requires Kept(start, w) && Kept(start, w')
    requires forall i :: 0 <= i < |w.txns| ==> w'.txns[i].request == w.txns[i].request
    requires forall i :: 0 <= i < |w.txns| && w.txns[i] != w'.txns[i] ==> w.txns[i].pc != Done && w'.txns[i].pc != Done
    ensures forall i: nat :: Committed(start, w, tenant, i) <==> Committed(start, w', tenant, i)
    ensures forall i: nat :: Committed(start, w, tenant, i) ==> w'.txns[i] == w.txns[i]
  {
  }

  /** While r is active only windows behind it have been added. */
  ghost predicate OnlyQueued(start: World, w: World, tenant: nat, r: Sub) {
    r in w.tables.subs ==>
      forall s :: s in w.tables.subs && Live(s, tenant) ==> s in start.tables.subs || r.end <= s.start
  }

  /** Nothing committed since is an upgrade. */
  ghost predicate NoneUpgraded(start: World, w: World, tenant: nat, r: Sub) {
    forall i: nat :: Committed(start, w, tenant, i) ==> !Upgrades(start.tables.plans, w.txns[i].planId, r)
  }

  ghost predicate Since(start: World, w: World, tenant: nat, r: Sub) {
    && Kept(start, w) && OnlyQueued(start, w, tenant, r)
    && (r in w.tables.subs <==> NoneUpgraded(start, w, tenant, r))
  }

  lemma SinceQuiet(start: World, w: World, k: nat, a: Action, tenant: nat, r: Sub)
    requires Since(start, w, tenant, r) && k < |w.txns| && !a.Publish? && SameRequest(w.txns[k], a)
    requires 13 <= Rank(w.txns[k].pc) ==> a == Wait
    ensures Since(start, Perform(w, k, a), tenant, r)
  {
    StatementTables(w, k, a);
    SameCommitted(start, w, Perform(w, k, a), tenant, r);
  }

  lemma SameCommitted(start: World, w: World, w': World, tenant: nat, r: Sub)
    requires Kept(start, w) && Kept(start, w')
    requires forall i :: 0 <= i < |w.txns| ==> w'.txns[i].request == w.txns[i].request
    requires forall i :: 0 <= i < |w.txns| && w.txns[i] != w'.txns[i] ==> w.txns[i].pc != Done && w'.txns[i].pc != Done
    ensures NoneUpgraded(start, w, tenant, r) <==> NoneUpgraded(start, w', tenant, r)
  {
    forall i: nat | i < |w.txns|
      ensures Committed(start, w, tenant, i) <==> Committed(start, w', tenant, i)
      ensures Committed(start, w, tenant, i) ==> w'.txns[i] == w.txns[i] {
    }
  }

  lemma SinceForeign(start: World, w: World, k: nat, tenant: nat, r: Sub)
    requires Inv(w) && Secured(w) && Since(start, w, tenant, r) && Live(r, tenant)
    requires k < |w.txns| && w.txns[k].pc == AtCommit && w.txns[k].request.tenant != tenant
    ensures Since(start, Perform(w, k, Publish), tenant, r)
  {
    ForeignCommit(w, k, tenant);
    assert TxnOk(w, w.txns[k], k);
    var w' := Perform(w, k, Publish);
    assert w'.txns == w.txns[k := w.txns[k].(pc := Done)];
    forall i: nat | i < |w.txns| ensures Committed(start, w, tenant, i) <==> Committed(start, w', tenant, i) {
    }
  }

  /** The holder's own commit: r stays active, with a window behind it, unless
      the request upgrades. */
  lemma SinceOwn(start: World, w: World, k: nat, tenant: nat, r: Sub)
    requires Inv(w) && Met(w, tenant, r) && Since(start, w, tenant, r)
    requires k < |w.txns| && w.txns[k].pc == AtCommit && w.txns[k].request.tenant == tenant
    ensures Since(start, Perform(w, k, Publish), tenant, r)
  {
    var w' := Perform(w, k, Publish);
    var x := w.txns[k];
    assert TxnOk(w, x, k) && MetTxn(w.tables, x, r) && Holds(w.tables, x, r);
    HolderGrant(w.tables, x, r);
    OwnRows(w.tables, GrantOf(x), tenant, r);
    assert w'.txns == w.txns[k := x.(pc := Done)];
    OwnUpgraded(start, w, w', k, tenant, r);
  }

  lemma OwnUpgraded(start: World, w: World, w': World, k: nat, tenant: nat, r: Sub)
    requires Kept(start, w) && k < |w.txns| && w.txns[k].pc == AtCommit && w.txns[k].request.tenant == tenant
    requires w'.txns == w.txns[k := w.txns[k].(pc := Done)]
    ensures NoneUpgraded(start, w', tenant, r) <==>
            NoneUpgraded(start, w, tenant, r) && !Upgrades(start.tables.plans, w.txns[k].planId, r)
  {
    assert Unfinished(start.txns[k]) && Committed(start, w', tenant, k);
    forall i: nat | i < |w.txns| && i != k
      ensures Committed(start, w, tenant, i) <==> Committed(start, w', tenant, i)
      ensures Committed(start, w, tenant, i) ==> w'.txns[i] == w.txns[i] {
    }
    forall i: nat | Committed(start, w, tenant, i) ensures i != k && Committed(start, w', tenant, i) {
    }
  }

  lemma HolderGrant(t: Tables, x: Txn, r: Sub)
    requires ValidTables(t) && Holds(t, x, r) && x.pc == AtCommit && FlightOk(t, x) && Live(r, x.request.tenant)
    ensures x.sub.Some? && x.plan.Some?
    ensures var g := GrantOf(x);
            && Live(g.sub, x.request.tenant) && g.sub == x.sub.value
            && (r in t.subs ==> g.supersedes == (if Upgrades(t.plans, x.planId, r) then Some(r.id) else None))
            && (r in t.subs && g.supersedes.None? ==> r.end <= g.sub.start)
            && (r !in t.subs ==> g.supersedes.None?)
  {
    TailEndIsMax(t.subs, x.request.tenant);
  }

  lemma OwnRows(t: Tables, g: Grant, tenant: nat, r: Sub)
    requires Live(g.sub, tenant) && Live(r, tenant) && forall s :: s in t.subs ==> s.id != g.sub.id
    requires r in t.subs || r.(status := Superseded) in t.subs
    ensures r in Commit(t, g).subs <==> r in t.subs && Some(r.id) != g.supersedes
    ensures forall s :: s in Commit(t, g).subs && Live(s, tenant) ==> s == g.sub || s in t.subs
  {
    LiveAfterCommit(t, g, tenant, r);
    forall s | s in Commit(t, g).subs && Live(s, tenant) ensures s == g.sub || s in t.subs {
      LiveAfterCommit(t, g, tenant, s);
    }
  }

  lemma SinceExec(start: World, w: World, e: Event, tenant: nat, r: Sub)
    requires Inv(w) && Secured(w) && Met(w, tenant, r) && Since(start, w, tenant, r)
    ensures Since(start, Exec(w, e), tenant, r)
  {
    if e.Advance? {
      if e.k < |w.txns| {
        var a := NextAction(w, e.k, e.now);
        if !a.Publish? {
          KeepsRequest(w, e.k, e.now);
          SinceQuiet(start, w, e.k, a, tenant, r);
        } else if w.txns[e.k].request.tenant == tenant {
          SinceOwn(start, w, e.k, tenant, r);
        } else {
          SinceForeign(start, w, e.k, tenant, r);
        }
      }
    } else {
      OtherEvents(w, e);
      SameCommitted(start, w, Exec(w, e), tenant, r);
    }
  }

  /** The redemptions of a tenant have met over its running subscription r. */
  ghost predicate Meeting(start: World, tenant: nat, r: Sub) {
    && Inv(start) && Secured(start) && Met(start, tenant, r) && r in start.tables.subs
  }

  lemma {:induction false} SinceAlways(start: World, es: seq<Event>, tenant: nat, r: Sub)
    requires Meeting(start, tenant, r)
    ensures var w := ExecAll(start, es);
            Inv(w) && Secured(w) && Met(w, tenant, r) && Since(start, w, tenant, r)
  {
    if es != [] {
      var before := ExecAll(start, es[..|es| - 1]);
      SinceAlways(start, es[..|es| - 1], tenant, r);
      ExecKeeps(before, es[|es| - 1]);
      ExecSecures(before, es[|es| - 1]);
      MetExec(before, es[|es| - 1], tenant, r);
      SinceExec(start, before, es[|es| - 1], tenant, r);
    }
  }

  // ----- Who decides as if alone -----

  /** The transaction's schedule is the one a redemption begun only now, at the
      instant it was scheduled for, would get on these tables. */
  predicate DecidedAlone(t: Tables, x: Txn) {
    x.planId in t.plans && x.schedule == ScheduleFor(t, x.request.tenant, x.planId, x.days, Frozen(x.scheduled))
  }

  /** In force, and not at its last instant. */
  predicate Running(subs: seq<Sub>, tenant: nat, now: Time) {
    var m := InForce(subs, tenant, now);
    m.Some? && now < m.value.end
  }

  /** Any number of redemptions that all picked r, in any order, at any clocks,
      other tenants' and administrators' events between: one of them, once
      scheduled and until it commits, decides as a redemption alone on the
      tables the others left if and only if no upgrade committed before it. r
      itself must still be running by then. */
  lemma MetDecide(start: World, es: seq<Event>, tenant: nat, r: Sub, j: nat)
    requires Meeting(start, tenant, r)
    requires var w := ExecAll(start, es);
             && j < |w.txns| && w.txns[j].request.tenant == tenant && 7 <= Rank(w.txns[j].pc) <= 12
             && InForce(start.tables.subs, tenant, w.txns[j].scheduled) == Some(r) && w.txns[j].scheduled < r.end
             && Running(w.tables.subs, tenant, w.txns[j].scheduled)
    ensures var w := ExecAll(start, es);
            DecidedAlone(w.tables, w.txns[j]) <==> NoneUpgraded(start, w, tenant, r)
  {
    SinceAlways(start, es, tenant, r);
    var w := ExecAll(start, es);
    var x := w.txns[j];
    assert MetTxn(w.tables, x, r) && Holds(w.tables, x, r);
    if r in w.tables.subs {
      StillInForce(start.tables.subs, w.tables.subs, tenant, r, x.scheduled);
    } else {
      NotAlone(w.tables, x);
    }
  }

  lemma StillInForce(before: seq<Sub>, subs: seq<Sub>, tenant: nat, r: Sub, now: Time)
    requires ValidSubs(subs) && r in subs && InForce(before, tenant, now) == Some(r) && now < r.end
    requires forall s :: s in subs && Live(s, tenant) ==> s in before || r.end <= s.start
    ensures InForce(subs, tenant, now) == Some(r)
  {
    InForceLatest(before, tenant, now);
    InForceIs(subs, tenant, now, r);
  }

  /** Finding nothing running while something runs is always a mistake: alone it
      would have queued behind it, or superseded it. */
  lemma NotAlone(t: Tables, x: Txn)
    requires Computed(t, x) && x.current.None? && Running(t.subs, x.request.tenant, x.scheduled)
    ensures !DecidedAlone(t, x)
  {
    InForceLatest(t.subs, x.request.tenant, x.scheduled);
    TailEndIsMax(t.subs, x.request.tenant);
  }

  /** Of two that picked r, the second decides as if alone on the tables the
      first left if and only if the first asked for the same plan or a cheaper
      one. */
  lemma SecondDecides(start: World, es: seq<Event>, tenant: nat, r: Sub, i: nat, j: nat)
    requires Meeting(start, tenant, r)
    requires var w := ExecAll(start, es);
             && j < |w.txns| && w.txns[j].request.tenant == tenant && 7 <= Rank(w.txns[j].pc) <= 12
             && Committed(start, w, tenant, i) && (forall k: nat :: Committed(start, w, tenant, k) ==> k == i)
             && InForce(start.tables.subs, tenant, w.txns[j].scheduled) == Some(r) && w.txns[j].scheduled < r.end
             && Running(w.tables.subs, tenant, w.txns[j].scheduled)
    ensures var w := ExecAll(start, es);
            DecidedAlone(w.tables, w.txns[j]) <==> !Upgrades(start.tables.plans, w.txns[i].planId, r)
  {
    MetDecide(start, es, tenant, r, j);
  }

  /** After an upgrade every other one starts at once, superseding nothing. */
  lemma MetAfterUpgrade(start: World, es: seq<Event>, tenant: nat, r: Sub, j: nat)
    requires Meeting(start, tenant, r)
    requires var w := ExecAll(start, es);
             && j < |w.txns| && w.txns[j].request.tenant == tenant && 7 <= Rank(w.txns[j].pc) <= 12
             && !NoneUpgraded(start, w, tenant, r)
    ensures var x := ExecAll(start, es).txns[j];
            x.schedule == Schedule(x.scheduled, x.scheduled + x.days * DAY, None)
  {
    SinceAlways(start, es, tenant, r);
    var w := ExecAll(start, es);
    assert MetTxn(w.tables, w.txns[j], r);
  }

  /** While nothing has upgraded, all of the decision is the sequential one, the
      coupon's validation included: about to insert, the transaction fails or
      goes on exactly as Decide says. */
  lemma MetDecideAll(start: World, es: seq<Event>, tenant: nat, r: Sub, j: nat, now: Time)
    requires Meeting(start, tenant, r)
    requires var w := ExecAll(start, es);
             && j < |w.txns| && w.txns[j].request.tenant == tenant && w.txns[j].pc == AtInsert
             && InForce(start.tables.subs, tenant, w.txns[j].scheduled) == Some(r) && w.txns[j].scheduled < r.end
             && NoneUpgraded(start, w, tenant, r) && tenant in w.tables.liveTenants
             && NextAction(w, j, now) != Wait
    ensures var w := ExecAll(start, es);
            var x := w.txns[j];
            match Decide(w.tables, x.request, Clock(x.scheduled, x.validated, x.scheduled))
            case Err(e) => NextAction(w, j, now) == Quit(e)
            case Ok(g) => NextAction(w, j, now).Insert? && GrantOf(NextAction(w, j, now).x) == g
  {
    SinceAlways(start, es, tenant, r);
    var w := ExecAll(start, es);
    var x := w.txns[j];
    assert MetTxn(w.tables, x, r) && Holds(w.tables, x, r) && TxnOk(w, x, j) && TxnSecured(w.tables, x);
    StillInForce(start.tables.subs, w.tables.subs, tenant, r, x.scheduled);
    AskedDecides(w, j, x.scheduled, x.scheduled);
    InsertDecides(w, j, now);
  }

  lemma InsertDecides(w: World, j: nat, now: Time)
    requires j < |w.txns| && w.txns[j].pc == AtInsert && NextAction(w, j, now) != Wait
    requires var x := w.txns[j];
             && x.request.tenant in w.tables.liveTenants && DecidedAlone(w.tables, x)
             && x.plan == Some(w.tables.plans[x.planId])
             && x.current == InForce(w.tables.subs, x.request.tenant, x.scheduled)
    ensures var x := w.txns[j];
            match DecidePlan(w.tables, x.request, x.code, x.planId, x.days, Clock(x.scheduled, x.validated,
                x.scheduled))
            case Err(e) => NextAction(w, j, now) == Quit(e)
            case Ok(g) => NextAction(w, j, now).Insert? && GrantOf(NextAction(w, j, now).x) == g
  {
  }

  /** On a disjoint timeline a redemption that picks r, strictly after r began,
      has no other candidate: it will wait for r alone. */
  lemma PickWaits(w: World, k: nat, now: Time)
    requires Inv(w) && k < |w.txns| && w.txns[k].pc == AtPick && Disjoint(w.tables.subs, w.txns[k].request.tenant)
    requires var r := InForce(w.tables.subs, w.txns[k].request.tenant, w.txns[k].begun);
             r.Some? && r.value.start < w.txns[k].begun
    ensures NextAction(w, k, now).Move?
    ensures Waits(NextAction(w, k, now).x, InForce(w.tables.subs, w.txns[k].request.tenant, w.txns[k].begun).value)
  {
    var x := w.txns[k];
    var r := InForce(w.tables.subs, x.request.tenant, x.begun).value;
    forall s | s in Earlier(w.tables.subs, r.start) ensures !Covers(s, x.request.tenant, x.begun) {
      assert s in w.tables.subs && s != r;
    }
  }
}
