/**
 Exactly when a redemption decides as if alone, whatever else goes on: any other
 redemptions of the tenant, begun before or after it, finding what they may; any
 other tenant's; any edits.
 */
module CouponAlone {
  import opened Options
  import opened Coupons
  import opened CouponRaces
  import opened CouponTimeline
  import opened CouponLocks
  import opened CouponSerial
  import opened CouponHistory

  predicate Scheduled(x: Txn) { 7 <= Rank(x.pc) <= 12 }

  // ----- What a schedule says about what was found -----

  /** An upgrade supersedes what was found and starts at once; so does, without
      superseding, a redemption that found nothing; any other one is queued. */
  predicate ScheduleOk(t: Tables, x: Txn) {
    && x.planId in t.plans && x.schedule.end == x.schedule.start + x.days * DAY
    && match x.current
       case None => x.schedule.start == x.scheduled && x.schedule.supersedes.None?
       case Some(r) =>
         if Upgrades(t.plans, x.planId, r)
         then x.schedule.start == x.scheduled && x.schedule.supersedes == Some(r.id)
         else x.schedule.supersedes.None?
  }

  lemma ComputedOk(t: Tables, x: Txn)
    requires ValidTables(t) && Computed(t, x) && (x.current.Some? ==> x.current.value in t.subs)
    ensures ScheduleOk(t, x)
  {
  }

  ghost predicate Schedules(w: World) {
    forall k :: 0 <= k < |w.txns| && Scheduled(w.txns[k]) ==> ScheduleOk(w.tables, w.txns[k])
  }

  lemma StatementSchedules(w: World, k: nat, now: Time)
    requires Inv(w) && Secured(w) && Schedules(w) && k < |w.txns|
    ensures var x := Left(w.txns[k], NextAction(w, k, now)); Scheduled(x) ==> ScheduleOk(w.tables, x)
  {
    assert TxnOk(w, w.txns[k], k) && TxnSecured(w.tables, w.txns[k]);
    if Rank(w.txns[k].pc) < 6 {
      EarlyStatement(w, k, now);
    } else if w.txns[k].pc == AtTail {
      TailStatement(w, k, now);
      ComputedOk(w.tables, Left(w.txns[k], NextAction(w, k, now)));
    } else if Scheduled(w.txns[k]) {
      LateStatement(w, k, now);
    } else {
      KeepsRequest(w, k, now);
    }
  }

  lemma PublishSchedules(w: World, k: nat)
    requires Inv(w) && Schedules(w) && k < |w.txns| && w.txns[k].pc == AtCommit
    ensures Schedules(Perform(w, k, Publish))
  {
    assert TxnOk(w, w.txns[k], k);
    assert Perform(w, k, Publish).txns == w.txns[k := w.txns[k].(pc := Done)];
  }

  lemma QuietSchedules(w: World, k: nat, a: Action)
    requires Schedules(w) && k < |w.txns| && !a.Publish? && SameRequest(w.txns[k], a)
    requires Scheduled(Left(w.txns[k], a)) ==> ScheduleOk(w.tables, Left(w.txns[k], a))
    ensures Schedules(Perform(w, k, a))
  {
    StatementTables(w, k, a);
  }

  lemma AdvanceSchedules(w: World, k: nat, now: Time)
    requires Inv(w) && Secured(w) && Schedules(w) && k < |w.txns|
    ensures Schedules(Perform(w, k, NextAction(w, k, now)))
  {
    if NextAction(w, k, now).Publish? {
      PublishSchedules(w, k);
    } else {
      KeepsRequest(w, k, now);
      StatementSchedules(w, k, now);
      QuietSchedules(w, k, NextAction(w, k, now));
    }
  }

  lemma ExecSchedules(w: World, e: Event)
    requires Inv(w) && Secured(w) && Schedules(w)
    ensures Schedules(Exec(w, e))
  {
    if !e.Advance? {
      OtherEvents(w, e);
    } else if e.k < |w.txns| {
      AdvanceSchedules(w, e.k, e.now);
    }
  }

  lemma {:induction false} SchedulesAlways(w: World, es: seq<Event>)
    requires Initial(w)
    ensures Inv(ExecAll(w, es)) && Secured(ExecAll(w, es)) && Schedules(ExecAll(w, es))
  {
    SecuredAlways(w, es);
    if es != [] {
      SecuredAlways(w, es[..|es| - 1]);
      SchedulesAlways(w, es[..|es| - 1]);
      ExecSchedules(ExecAll(w, es[..|es| - 1]), es[|es| - 1]);
    }
  }

  // ----- The condition, on the tables of the moment -----

  /** With m in force at the instant the transaction was scheduled at: an upgrade
      must have found m; any other redemption must not upgrade m, and must start
      at the tail, or at once if there is no m. */
  predicate AloneOn(t: Tables, x: Txn) {
    var m := InForce(t.subs, x.request.tenant, x.scheduled);
    if x.current.Some? && Upgrades(t.plans, x.planId, x.current.value) then m == x.current
    else if m.None? then x.schedule.start == x.scheduled
    else !Upgrades(t.plans, x.planId, m.value) && TailEnd(t.subs, x.request.tenant) == Some(x.schedule.start)
  }

  lemma AloneOnIff(t: Tables, x: Txn)
    requires ValidTables(t) && Scheduled(x) && ScheduleOk(t, x) && CurrentOk(t, x)
    ensures DecidedAlone(t, x) <==> AloneOn(t, x)
  {
    InForceLatest(t.subs, x.request.tenant, x.scheduled);
    TailEndIsMax(t.subs, x.request.tenant);
    var m := InForce(t.subs, x.request.tenant, x.scheduled);
    if m.Some? && x.current.Some? && m.value.id == x.current.value.id {
      IdsDistinct(t.subs, m.value, x.current.value);
    }
  }

  /** In every reachable world, with any redemptions under way: one that has been
      scheduled and has not committed decides as a redemption alone on the tables
      of the moment if and only if the condition holds. */
  lemma AloneIffOn(w: World, es: seq<Event>, j: nat)
    requires Initial(w) && j < |ExecAll(w, es).txns| && Scheduled(ExecAll(w, es).txns[j])
    ensures var v := ExecAll(w, es); DecidedAlone(v.tables, v.txns[j]) <==> AloneOn(v.tables, v.txns[j])
  {
    SchedulesAlways(w, es);
    var v := ExecAll(w, es);
    assert TxnSecured(v.tables, v.txns[j]);
    AloneOnIff(v.tables, v.txns[j]);
  }

  // ----- The condition, by what has committed since -----

  /** An active window, from before or committed since, holds the instant. */
  ghost predicate Held(start: World, w: World, tenant: nat, at: Time) {
    exists s :: ActiveSince(start, w, tenant, s) && Covers(s, tenant, at)
  }

  /** Such a window began later than r, and so is in force instead of it. */
  ghost predicate TakenOver(start: World, w: World, tenant: nat, r: Sub, at: Time) {
    exists s :: ActiveSince(start, w, tenant, s) && Covers(s, tenant, at) && r.start < s.start
  }

  /** A window committed since, and still active, ends later. */
  ghost predicate Outlasted(start: World, w: World, tenant: nat, tail: Time) {
    exists s :: WrittenSince(start, w, tenant, s) && !SupersededSince(start, w, tenant, s.id) && tail < s.end
  }

  /** An active window, from before or committed since, still ends there. */
  ghost predicate TailLeft(start: World, w: World, tenant: nat, tail: Time) {
    exists s :: ActiveSince(start, w, tenant, s) && s.end == tail
  }

  lemma HeldIff(start: World, w: World, tenant: nat, at: Time)
    requires LiveSince(start, w, tenant)
    ensures Held(start, w, tenant, at) <==> InForce(w.tables.subs, tenant, at).Some?
  {
    InForceLatest(w.tables.subs, tenant, at);
    var m := InForce(w.tables.subs, tenant, at);
    if m.Some? {
      assert ActiveSince(start, w, tenant, m.value);
    }
    if s :| ActiveSince(start, w, tenant, s) && Covers(s, tenant, at) {
      assert s in w.tables.subs;
    }
  }

  lemma TakenOverIff(start: World, w: World, tenant: nat, r: Sub, at: Time)
    requires ValidSubs(w.tables.subs) && LiveSince(start, w, tenant) && r in w.tables.subs
    ensures InForce(w.tables.subs, tenant, at) == Some(r) <==>
            Covers(r, tenant, at) && !TakenOver(start, w, tenant, r, at)
  {
    InForceLatest(w.tables.subs, tenant, at);
    if s :| ActiveSince(start, w, tenant, s) && Covers(s, tenant, at) && r.start < s.start {
      assert s in w.tables.subs;
    }
    if Covers(r, tenant, at) && !TakenOver(start, w, tenant, r, at) {
      forall s | s in w.tables.subs && Covers(s, tenant, at) ensures s.start <= r.start {
        assert ActiveSince(start, w, tenant, s);
      }
      InForceIs(w.tables.subs, tenant, at, r);
    }
  }

  lemma TailIff(start: World, w: World, tenant: nat, tail: Time)
    requires LiveSince(start, w, tenant) && TailEnd(start.tables.subs, tenant) == Some(tail)
    ensures TailEnd(w.tables.subs, tenant) == Some(tail) <==>
            !Outlasted(start, w, tenant, tail) && TailLeft(start, w, tenant, tail)
  {
    TailEndIsMax(start.tables.subs, tenant);
    TailEndIsMax(w.tables.subs, tenant);
    forall s | s in w.tables.subs && Live(s, tenant)
      ensures ActiveSince(start, w, tenant, s) && (s.end <= tail || Outlasted(start, w, tenant, tail)) {
    }
    if s :| WrittenSince(start, w, tenant, s) && !SupersededSince(start, w, tenant, s.id) && tail < s.end {
      assert ActiveSince(start, w, tenant, s);
    }
    if s :| ActiveSince(start, w, tenant, s) && s.end == tail {
      assert s in w.tables.subs && Live(s, tenant);
    }
  }

  /** The transaction's schedule is computed from these tables. */
  ghost predicate JustScheduled(start: World, j: nat) {
    && Inv(start) && Secured(start)
    && j < |start.txns| && Scheduled(start.txns[j]) && Computed(start.tables, start.txns[j])
  }

  /** So it is in any run, by the statement that computes the schedule. */
  lemma SchedulingStatement(w: World, es: seq<Event>, j: nat, now: Time)
    requires Initial(w) && j < |ExecAll(w, es).txns| && ExecAll(w, es).txns[j].pc == AtTail
    ensures JustScheduled(Exec(ExecAll(w, es), Advance(j, now)), j)
  {
    SecuredAlways(w, es);
    var v := ExecAll(w, es);
    ExecKeeps(v, Advance(j, now));
    ExecSecures(v, Advance(j, now));
    assert TxnOk(v, v.txns[j], j);
    TailStatement(v, j, now);
  }

  /** Any events later, the transaction not committed yet, it is the same. */
  lemma StillScheduled(start: World, es: seq<Event>, j: nat)
    requires JustScheduled(start, j) && j < |ExecAll(start, es).txns| && Scheduled(ExecAll(start, es).txns[j])
    ensures var w := ExecAll(start, es);
            var x := w.txns[j];
            && SameSchedule(start.txns[j], x) && Inv(w) && History(start, w, x.request.tenant)
            && CurrentOk(w.tables, x) && ScheduleOk(w.tables, x)
  {
    assert TxnSecured(start.tables, start.txns[j]);
    ComputedOk(start.tables, start.txns[j]);
    HistoryAlways(start, es, start.txns[j].request.tenant);
    ScheduleAlways(start, es, j);
    assert TxnSecured(ExecAll(start, es).tables, ExecAll(start, es).txns[j]);
  }

  /** An upgrade of r: as if alone exactly while r holds the instant it was
      scheduled at and nothing has taken over from r there. */
  lemma UpgradeAlone(start: World, es: seq<Event>, j: nat, r: Sub)
    requires JustScheduled(start, j) && start.txns[j].current == Some(r)
    requires Upgrades(start.tables.plans, start.txns[j].planId, r)
    requires j < |ExecAll(start, es).txns| && Scheduled(ExecAll(start, es).txns[j])
    ensures var w := ExecAll(start, es);
            var x := w.txns[j];
            DecidedAlone(w.tables, x) <==>
            Covers(r, x.request.tenant, x.scheduled) && !TakenOver(start, w, x.request.tenant, r, x.scheduled)
  {
    StillScheduled(start, es, j);
    var w := ExecAll(start, es);
    AloneOnIff(w.tables, w.txns[j]);
    TakenOverIff(start, w, w.txns[j].request.tenant, r, w.txns[j].scheduled);
  }

  /** A renewal or a downgrade of r, queued at the tail: as if alone exactly while
      no window committed since ends past that tail, some active window still ends
      there, and the plan is no upgrade to what is in force at the instant it was
      scheduled at, which is r while r holds it and nothing has taken over. (If
      nothing is in force there any more, the tail must be that very instant.) */
  lemma QueueAlone(start: World, es: seq<Event>, j: nat, r: Sub)
    requires JustScheduled(start, j) && start.txns[j].current == Some(r)
    requires !Upgrades(start.tables.plans, start.txns[j].planId, r)
    requires j < |ExecAll(start, es).txns| && Scheduled(ExecAll(start, es).txns[j])
    ensures var w := ExecAll(start, es);
            var x := w.txns[j];
            var tenant, tail, at := x.request.tenant, x.schedule.start, x.scheduled;
            var m := InForce(w.tables.subs, tenant, at);
            && TailEnd(start.tables.subs, tenant) == Some(tail)
            && (m.Some? <==> Held(start, w, tenant, at))
            && (m == Some(r) <==> Covers(r, tenant, at) && !TakenOver(start, w, tenant, r, at))
            && (DecidedAlone(w.tables, x) <==>
                if Held(start, w, tenant, at)
                then !Outlasted(start, w, tenant, tail) && TailLeft(start, w, tenant, tail)
                     && !Upgrades(w.tables.plans, x.planId, m.value)
                else tail == at)
  {
    StillScheduled(start, es, j);
    var w := ExecAll(start, es);
    var x := w.txns[j];
    QueuedAtTail(start, j, r);
    AloneOnIff(w.tables, x);
    HeldIff(start, w, x.request.tenant, x.scheduled);
    TakenOverIff(start, w, x.request.tenant, r, x.scheduled);
    TailIff(start, w, x.request.tenant, x.schedule.start);
  }

  lemma QueuedAtTail(start: World, j: nat, r: Sub)
    requires JustScheduled(start, j) && start.txns[j].current == Some(r)
    requires !Upgrades(start.tables.plans, start.txns[j].planId, r)
    ensures TailEnd(start.tables.subs, start.txns[j].request.tenant) == Some(start.txns[j].schedule.start)
  {
    assert TxnSecured(start.tables, start.txns[j]);
    TailEndIsMax(start.tables.subs, start.txns[j].request.tenant);
  }

  /** Nothing found: as if alone exactly while no active window holds the instant
      it was scheduled at, unless queued behind the last one it would start then. */
  lemma NothingAlone(start: World, es: seq<Event>, j: nat)
    requires JustScheduled(start, j) && start.txns[j].current.None?
    requires j < |ExecAll(start, es).txns| && Scheduled(ExecAll(start, es).txns[j])
    ensures var w := ExecAll(start, es);
            var x := w.txns[j];
            var tenant, at := x.request.tenant, x.scheduled;
            var m := InForce(w.tables.subs, tenant, at);
            && (m.Some? <==> Held(start, w, tenant, at))
            && (DecidedAlone(w.tables, x) <==>
                (Held(start, w, tenant, at) ==>
                   !Upgrades(w.tables.plans, x.planId, m.value) && TailEnd(w.tables.subs, tenant) == Some(at)))
  {
    StillScheduled(start, es, j);
    var w := ExecAll(start, es);
    AloneOnIff(w.tables, w.txns[j]);
    HeldIff(start, w, w.txns[j].request.tenant, w.txns[j].scheduled);
  }

  // ----- The whole decision -----

  /** The same grant but for the row's id, and for whether it is called immediate,
      which only the response tells. */
  predicate SameGrant(g: Grant, h: Grant) {
    h == g.(sub := g.sub.(id := h.sub.id), redemption := g.redemption.(subId := h.sub.id), immediate := h.immediate)
  }

  /** As if alone on the tables it commits into, a redemption commits exactly what
      the sequential decision on them grants, its coupon validated included. */
  lemma CommitAlone(w: World, es: seq<Event>, j: nat)
    requires Initial(w) && j < |ExecAll(w, es).txns| && ExecAll(w, es).txns[j].pc == AtCommit
    requires var v := ExecAll(w, es);
             DecidedAlone(v.tables, v.txns[j]) && v.txns[j].request.tenant in v.tables.liveTenants
    ensures var v := ExecAll(w, es);
            var x := v.txns[j];
            var d := Decide(v.tables, x.request, Clock(x.scheduled, x.validated, x.scheduled));
            && x.sub.Some? && x.plan.Some? && d.Ok? && SameGrant(d.value, GrantOf(x))
            && forall now :: Exec(v, Advance(j, now)).tables == Commit(v.tables, GrantOf(x))
  {
    SecuredAlways(w, es);
    var v := ExecAll(w, es);
    assert TxnOk(v, v.txns[j], j) && TxnSecured(v.tables, v.txns[j]);
    AskedDecides(v, j, v.txns[j].scheduled, v.txns[j].scheduled);
    FlightGranted(v.tables, v.txns[j]);
    forall now ensures Exec(v, Advance(j, now)).tables == Commit(v.tables, GrantOf(v.txns[j])) {
      CommitPublishes(v, j, now);
    }
  }

  lemma CommitPublishes(w: World, j: nat, now: Time)
    requires j < |w.txns| && w.txns[j].pc == AtCommit && w.txns[j].plan.Some? && w.txns[j].sub.Some?
    ensures Exec(w, Advance(j, now)).tables == Commit(w.tables, GrantOf(w.txns[j]))
  {
  }

  lemma FlightGranted(t: Tables, x: Txn)
    requires x.pc == AtCommit && FlightOk(t, x) && x.planId in t.plans && x.plan == Some(t.plans[x.planId])
    requires DecidedAlone(t, x) && x.request.tenant in t.liveTenants
    ensures var clock := Clock(x.scheduled, x.validated, x.scheduled);
            var d := DecidePlan(t, x.request, x.code, x.planId, x.days, clock);
            d.Ok? && x.sub.Some? && x.plan.Some? && SameGrant(d.value, GrantOf(x))
  {
  }

  /** And about to insert, it fails or goes on exactly as that decision says. */
  lemma InsertAlone(w: World, es: seq<Event>, j: nat, now: Time)
    requires Initial(w) && j < |ExecAll(w, es).txns| && ExecAll(w, es).txns[j].pc == AtInsert
    requires var v := ExecAll(w, es);
             && DecidedAlone(v.tables, v.txns[j]) && v.txns[j].request.tenant in v.tables.liveTenants
             && NextAction(v, j, now) != Wait
    ensures var v := ExecAll(w, es);
            var x := v.txns[j];
            match Decide(v.tables, x.request, Clock(x.scheduled, x.validated, x.scheduled))
            case Err(e) => NextAction(v, j, now) == Quit(e)
            case Ok(g) => NextAction(v, j, now).Insert? && SameGrant(g, GrantOf(NextAction(v, j, now).x))
  {
    SecuredAlways(w, es);
    var v := ExecAll(w, es);
    var x := v.txns[j];
    assert TxnOk(v, x, j) && TxnSecured(v.tables, x);
    AskedDecides(v, j, x.scheduled, x.scheduled);
  }
}
