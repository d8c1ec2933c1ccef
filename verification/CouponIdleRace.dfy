/**
 Runs in which two redemptions find the tenant without a running subscription:
 neither has a row to lock, and both start at once.
 */
module CouponIdleRace {
  import opened Options
  import opened Coupons
  import opened CouponRaces
  import opened CouponTimeline
  import CouponIdle
  import CouponLocks

  /** The same transaction advancing n statements at one instant. */
  function Advances(k: nat, now: Time, n: nat): seq<Event> {
    if n == 0 then [] else Advances(k, now, n - 1) + [Advance(k, now)]
  }

  lemma OneMore(w: World, k: nat, now: Time, n: nat)
    requires k < |ExecAll(w, Advances(k, now, n)).txns|
    ensures var v := ExecAll(w, Advances(k, now, n));
            ExecAll(w, Advances(k, now, n + 1)) == Perform(v, k, NextAction(v, k, now))
  {
    assert Advances(k, now, n + 1)[..|Advances(k, now, n)|] == Advances(k, now, n);
  }

  /** An administrator's grant for a tenant without subscriptions, not begun. */
  ghost predicate Waiting(w: World, k: nat) {
    && k < |w.txns| && w.txns[k].pc == Idle
    && var q := w.txns[k].request;
       && q.code.None? && CheckArguments(q).None? && q.planOverride.value in w.tables.plans
       && q.tenant in w.tables.liveTenants && Idles(w.tables.subs, q.tenant)
  }

  ghost predicate Idles(subs: seq<Sub>, tenant: nat) {
    forall s :: s in subs ==> s.tenant != tenant
  }

  /** The transaction after each of its reads. */
  function Begun(x: Txn, now: Time): Txn
    requires CheckArguments(x.request).None? && x.request.code.None?
  {
    x.(pc := AtPlan, begun := now, code := None, planId := x.request.planOverride.value,
        days := x.request.daysOverride.value)
  }

  function Planned(x: Txn, plan: Plan): Txn { x.(pc := AtPick, plan := Some(plan)) }

  function Picked(x: Txn): Txn { x.(pc := AtTail, held := {}, picked := None, current := None) }

  function Scheduled(x: Txn, now: Time): Txn {
    x.(pc := AtTenant, scheduled := now, schedule := Schedule(now, now + x.days * DAY, None))
  }

  /** All reads done, the window scheduled to start at once. */
  function Ready(w: World, k: nat, now: Time): Txn
    requires Waiting(w, k)
  {
    var x := Begun(w.txns[k], now);
    Scheduled(Picked(Planned(x, w.tables.plans[x.planId])), now).(pc := AtInsert)
  }

  lemma ReadBegin(w: World, k: nat, now: Time)
    requires Waiting(w, k)
    ensures ExecAll(w, Advances(k, now, 1)) == Put(w, k, Begun(w.txns[k], now))
  {
    OneMore(w, k, now, 0);
  }

  lemma ReadPlan(w: World, k: nat, now: Time)
    requires Waiting(w, k)
    ensures var x := Begun(w.txns[k], now);
            ExecAll(w, Advances(k, now, 2)) == Put(w, k, Planned(x, w.tables.plans[x.planId]))
  {
    ReadBegin(w, k, now);
    LoadPlan(ExecAll(w, Advances(k, now, 1)), k, now);
    OneMore(w, k, now, 1);
  }

  lemma LoadPlan(v: World, k: nat, now: Time)
    requires k < |v.txns| && v.txns[k].pc == AtPlan && v.txns[k].planId in v.tables.plans
    ensures Perform(v, k, NextAction(v, k, now)) == Put(v, k, Planned(v.txns[k], v.tables.plans[v.txns[k].planId]))
  {
  }

  lemma ReadSub(w: World, k: nat, now: Time)
    requires Waiting(w, k)
    ensures var x := Begun(w.txns[k], now);
            ExecAll(w, Advances(k, now, 3)) == Put(w, k, Picked(Planned(x, w.tables.plans[x.planId])))
  {
    ReadPlan(w, k, now);
    PickNothing(ExecAll(w, Advances(k, now, 2)), k, now);
    OneMore(w, k, now, 2);
  }

  lemma PickNothing(v: World, k: nat, now: Time)
    requires k < |v.txns| && v.txns[k].pc == AtPick && Idles(v.tables.subs, v.txns[k].request.tenant)
    ensures Perform(v, k, NextAction(v, k, now)) == Put(v, k, Picked(v.txns[k]))
  {
    InForceLatest(v.tables.subs, v.txns[k].request.tenant, v.txns[k].begun);
  }

  lemma ReadTail(w: World, k: nat, now: Time)
    requires Waiting(w, k)
    ensures var x := Begun(w.txns[k], now);
            ExecAll(w, Advances(k, now, 4)) == Put(w, k, Scheduled(Picked(Planned(x, w.tables.plans[x.planId])), now))
  {
    ReadSub(w, k, now);
    ScheduleNow(ExecAll(w, Advances(k, now, 3)), k, now);
    OneMore(w, k, now, 3);
  }

  lemma ScheduleNow(v: World, k: nat, now: Time)
    requires k < |v.txns| && v.txns[k].pc == AtTail && v.txns[k].current.None?
    ensures Perform(v, k, NextAction(v, k, now)) == Put(v, k, Scheduled(v.txns[k], now))
  {
  }

  lemma ReadAll(w: World, k: nat, now: Time)
    requires Waiting(w, k)
    ensures ExecAll(w, Advances(k, now, 5)) == Put(w, k, Ready(w, k, now))
  {
    ReadTail(w, k, now);
    FindTenant(ExecAll(w, Advances(k, now, 4)), k, now);
    OneMore(w, k, now, 4);
  }

  lemma FindTenant(v: World, k: nat, now: Time)
    requires k < |v.txns| && v.txns[k].pc == AtTenant && v.txns[k].request.tenant in v.tables.liveTenants
    ensures Perform(v, k, NextAction(v, k, now)) == Put(v, k, v.txns[k].(pc := AtInsert))
  {
  }

  /** A transaction about to insert, with nothing in its way. */
  ghost predicate Unopposed(w: World, k: nat) {
    && k < |w.txns| && w.txns[k].pc == AtInsert && w.txns[k].plan.Some? && w.txns[k].schedule.supersedes.None?
    && !StartTaken(w.tables.subs, w.txns[k].request.tenant, w.txns[k].schedule.start)
    && forall j :: 0 <= j < |w.txns| ==> !InFlight(w.txns[j])
  }

  function NewRow(w: World, k: nat): Sub
    requires k < |w.txns| && w.txns[k].plan.Some?
  {
    var x := w.txns[k];
    NewSub(w.tables.nextSub, x.request.tenant, x.planId, x.plan.value, x.schedule)
  }

  function Inserted(w: World, k: nat, pc: Pc): World
    requires k < |w.txns| && w.txns[k].plan.Some?
  {
    Put(w, k, w.txns[k].(pc := pc, sub := Some(NewRow(w, k)))).(tables := w.tables.(nextSub := w.tables.nextSub + 1))
  }

  lemma WriteRow(w: World, k: nat, now: Time)
    requires Unopposed(w, k)
    ensures ExecAll(w, Advances(k, now, 1)) == Inserted(w, k, AtSupersede)
  {
    assert !InsertBlocked(w, k, w.txns[k].request.tenant, w.txns[k].schedule.start);
    OneMore(w, k, now, 0);
  }

  lemma WriteSupersede(w: World, k: nat, now: Time)
    requires Unopposed(w, k)
    ensures ExecAll(w, Advances(k, now, 2)) == Inserted(w, k, AtAudit)
  {
    WriteRow(w, k, now);
    OneMore(w, k, now, 1);
  }

  lemma WriteAudit(w: World, k: nat, now: Time)
    requires Unopposed(w, k)
    ensures ExecAll(w, Advances(k, now, 3)) == Inserted(w, k, AtCount)
  {
    WriteSupersede(w, k, now);
    OneMore(w, k, now, 2);
  }

  lemma WriteCount(w: World, k: nat, now: Time)
    requires Unopposed(w, k)
    ensures ExecAll(w, Advances(k, now, 4)) == Inserted(w, k, AtCommit)
  {
    WriteAudit(w, k, now);
    OneMore(w, k, now, 3);
  }

  lemma WriteAll(w: World, k: nat, now: Time)
    requires Unopposed(w, k)
    ensures var v := ExecAll(w, Advances(k, now, 5));
            && v.tables.subs == w.tables.subs + [NewRow(w, k)]
            && |v.txns| == |w.txns| && v.txns == w.txns[k := v.txns[k]] && v.txns[k].pc == Done
  {
    WriteCount(w, k, now);
    OneMore(w, k, now, 4);
    SupersedeNone(w.tables.subs);
  }

  /** Two grants for an idle tenant, begun at different instants: both can read
      the empty timeline before either commits, and then both windows start at
      once and stay active. They overlap unless the earlier one is over when the
      later begins; one after the other, the second would have queued. */
  lemma IdleRace(w: World, a: Time, b: Time, late: Time, es: seq<Event>)
    requires Initial(w) && |w.txns| == 2 && Waiting(w, 0) && Waiting(w, 1)
    requires w.txns[0].request.tenant == w.txns[1].request.tenant && a < b
    requires es == Advances(0, a, 5) + Advances(1, b, 5) + Advances(0, late, 5) + Advances(1, late, 5)
    ensures var v := ExecAll(w, es);
            var tenant := w.txns[0].request.tenant;
            var days := w.txns[0].request.daysOverride.value;
            && |v.txns| == 2 && v.txns[0].pc == Done && v.txns[1].pc == Done
            && (Disjoint(v.tables.subs, tenant) <==> a + days * DAY <= b)
  {
    ExecAppend(w, Advances(0, a, 5) + Advances(1, b, 5) + Advances(0, late, 5), Advances(1, late, 5));
    ExecAppend(w, Advances(0, a, 5) + Advances(1, b, 5), Advances(0, late, 5));
    BothRead(w, a, b);
    BothReady(w, a, b);
    BothWrite(w.(txns := [Ready(w, 0, a), Ready(w, 1, b)]), late);
  }

  /** Once both have read, they have both found nothing running. */
  lemma RaceIdles(w: World, a: Time, b: Time)
    requires Initial(w) && |w.txns| == 2 && Waiting(w, 0) && Waiting(w, 1)
    ensures CouponIdle.Idling(ExecAll(w, Advances(0, a, 5) + Advances(1, b, 5)), w.txns[0].request.tenant)
  {
    var both := Advances(0, a, 5) + Advances(1, b, 5);
    CouponLocks.SecuredAlways(w, both);
    BothRead(w, a, b);
    ReadyFound(w, 0, a, w.tables);
    ReadyFound(w, 1, b, w.tables);
    assert ExecAll(w, both).txns == [Ready(w, 0, a), Ready(w, 1, b)];
  }

  lemma ReadyFound(w: World, k: nat, now: Time, t: Tables)
    requires Waiting(w, k)
    ensures CouponIdle.FoundNothing(t, Ready(w, k, now))
  {
  }

  lemma BothReady(w: World, a: Time, b: Time)
    requires |w.txns| == 2 && Waiting(w, 0) && Waiting(w, 1)
    ensures var v := w.(txns := [Ready(w, 0, a), Ready(w, 1, b)]);
            var x, y := w.txns[0].request, w.txns[1].request;
            && v.txns[0].request == x && v.txns[1].request == y
            && v.txns[0].schedule == Schedule(a, a + x.daysOverride.value * DAY, None)
            && v.txns[1].schedule == Schedule(b, b + y.daysOverride.value * DAY, None)
            && b < v.txns[1].schedule.end && Unopposed(v, 0) && Unopposed(v, 1)
  {
  }

  lemma BothRead(w: World, a: Time, b: Time)
    requires Initial(w) && |w.txns| == 2 && Waiting(w, 0) && Waiting(w, 1)
    ensures ExecAll(w, Advances(0, a, 5) + Advances(1, b, 5)) == w.(txns := [Ready(w, 0, a), Ready(w, 1, b)])
  {
    ExecAppend(w, Advances(0, a, 5), Advances(1, b, 5));
    ReadAll(w, 0, a);
    var w1 := Put(w, 0, Ready(w, 0, a));
    ReadAll(w1, 1, b);
    assert Put(w1, 1, Ready(w1, 1, b)).txns == [Ready(w, 0, a), Ready(w, 1, b)];
  }

  lemma BothWrite(w: World, late: Time)
    requires |w.txns| == 2 && Unopposed(w, 0) && Unopposed(w, 1)
    requires var x, y := w.txns[0], w.txns[1];
             && x.request.tenant == y.request.tenant && Idles(w.tables.subs, x.request.tenant)
             && x.schedule.start < y.schedule.start < y.schedule.end
    ensures var v := ExecAll(ExecAll(w, Advances(0, late, 5)), Advances(1, late, 5));
            && |v.txns| == 2 && v.txns[0].pc == Done && v.txns[1].pc == Done
            && (Disjoint(v.tables.subs, w.txns[0].request.tenant) <==>
                 w.txns[0].schedule.end <= w.txns[1].schedule.start)
  {
    WriteAll(w, 0, late);
    var w1 := ExecAll(w, Advances(0, late, 5));
    StillUnopposed(w, w1);
    WriteAll(w1, 1, late);
    TwoRows(w.tables.subs, NewRow(w, 0), NewRow(w1, 1));
  }

  lemma StillUnopposed(w: World, w1: World)
    requires |w.txns| == 2 && Unopposed(w, 0) && Unopposed(w, 1)
    requires w.txns[0].request.tenant == w.txns[1].request.tenant
    requires w.txns[0].schedule.start != w.txns[1].schedule.start
    requires |w1.txns| == 2 && w1.txns == w.txns[0 := w1.txns[0]] && w1.txns[0].pc == Done
    requires w1.tables.subs == w.tables.subs + [NewRow(w, 0)]
    ensures Unopposed(w1, 1)
  {
  }

  lemma TwoRows(subs: seq<Sub>, x: Sub, y: Sub)
    requires Idles(subs, x.tenant) && x.tenant == y.tenant && x.status == y.status == Active
    requires x.start < y.start < y.end
    ensures Disjoint(subs + [x] + [y], x.tenant) <==> x.end <= y.start
  {
    var all := subs + [x] + [y];
    assert all[|subs|] == x && all[|subs| + 1] == y;
    assert forall s :: s in all && Live(s, x.tenant) ==> s == x || s == y;
    assert x in all && y in all && (Apart(x, y) <==> x.end <= y.start);
  }

  // ----- A concrete world -----

  /** Tenant 1 has never had a plan, and is granted two cheap months. */
  function IdleWorld(): World {
    var asked := Txn(MonthOf("cheap"), Idle, 0, 0, 0, None, None, "", 0, None, None, [], {}, None,
                     Schedule(0, 0, None), None);
    World(Tables(map["cheap" := CHEAP], {1}, map[], [], [], 0), [asked, asked], map[], map[])
  }

  lemma IdleWorldWaits()
    ensures Initial(IdleWorld()) && Waiting(IdleWorld(), 0) && Waiting(IdleWorld(), 1)
  {
  }

  /** Begun at instants 0 and 1, both months are committed, and they overlap. */
  lemma TwoCheapMonths() returns (es: seq<Event>)
    ensures Initial(IdleWorld())
    ensures var v := ExecAll(IdleWorld(), es);
            |v.txns| == 2 && v.txns[0].pc == Done && v.txns[1].pc == Done && !Disjoint(v.tables.subs, 1)
  {
    IdleWorldWaits();
    es := Advances(0, 0, 5) + Advances(1, 1, 5) + Advances(0, 2, 5) + Advances(1, 2, 5);
    IdleRace(IdleWorld(), 0, 1, 2, es);
  }
}
