/**
 A transaction that runs without interruption does what the sequential
 redemption does: the statement-level machine refines it.
 */
module CouponSolo {
  import opened Options
  import opened Coupons
  import opened CouponRaces
  import CouponTimeline

  /** The clock reading a statement takes. */
  function Reading(pc: Pc, clock: Clock): Time {
    match pc
    case Idle => clock.transaction
    case AtRedeemed => clock.validation
    case _ => clock.scheduling
  }

  /** Every statement gets the transaction further, or to a later candidate. */
  lemma Progresses(w: World, k: nat, now: Time)
    requires k < |w.txns| && NextAction(w, k, now) != Wait
    ensures var x, x' := w.txns[k], Perform(w, k, NextAction(w, k, now)).txns[k];
            Rank(x.pc) < Rank(x'.pc) || (x.pc == x'.pc == AtSub && |x'.rest| < |x.rest|)
    ensures |Perform(w, k, NextAction(w, k, now)).txns| == |w.txns|
  {
  }

  function NextWorld(w: World, k: nat, clock: Clock): World
    requires k < |w.txns|
  {
    Perform(w, k, NextAction(w, k, Reading(w.txns[k].pc, clock)))
  }

  /** Transaction k executes until it finishes or must wait. */
  function Solo(w: World, k: nat, clock: Clock): World
    requires k < |w.txns|
    decreases 14 - Rank(w.txns[k].pc), |w.txns[k].rest|
  {
    var now := Reading(w.txns[k].pc, clock);
    if NextAction(w, k, now).Wait? then w
    else
      Progresses(w, k, now);
      Solo(NextWorld(w, k, clock), k, clock)
  }

  /** The statements of the uninterrupted transaction, as events. */
  function SoloEvents(w: World, k: nat, clock: Clock): seq<Event>
    requires k < |w.txns|
    decreases 14 - Rank(w.txns[k].pc), |w.txns[k].rest|
  {
    var now := Reading(w.txns[k].pc, clock);
    if NextAction(w, k, now).Wait? then []
    else
      Progresses(w, k, now);
      [Advance(k, now)] + SoloEvents(NextWorld(w, k, clock), k, clock)
  }

  lemma {:induction false} SoloIsRun(w: World, k: nat, clock: Clock)
    requires k < |w.txns|
    ensures ExecAll(w, SoloEvents(w, k, clock)) == Solo(w, k, clock)
    decreases 14 - Rank(w.txns[k].pc), |w.txns[k].rest|
  {
    var now := Reading(w.txns[k].pc, clock);
    if !NextAction(w, k, now).Wait? {
      Progresses(w, k, now);
      SoloIsRun(NextWorld(w, k, clock), k, clock);
      ExecOne(w, Advance(k, now));
      ExecAppend(w, [Advance(k, now)], SoloEvents(NextWorld(w, k, clock), k, clock));
    }
  }

  lemma ExecOne(w: World, e: Event)
    ensures ExecAll(w, [e]) == Exec(w, e)
  {
    assert [e][..0] == [];
  }

  lemma {:induction false} SoloOthers(w: World, k: nat, clock: Clock, j: nat)
    requires k < |w.txns| && j < |w.txns| && j != k
    ensures |Solo(w, k, clock).txns| == |w.txns| && Solo(w, k, clock).txns[j] == w.txns[j]
    decreases 14 - Rank(w.txns[k].pc), |w.txns[k].rest|
  {
    var now := Reading(w.txns[k].pc, clock);
    if !NextAction(w, k, now).Wait? {
      Progresses(w, k, now);
      SoloOthers(NextWorld(w, k, clock), k, clock, j);
    }
  }

  lemma QuitEnds(w: World, k: nat, clock: Clock, e: CouponError)
    requires k < |w.txns| && NextAction(w, k, Reading(w.txns[k].pc, clock)) == Quit(e)
    ensures Solo(w, k, clock) == Leave(w, k, Aborted(e))
  {
    var w' := NextWorld(w, k, clock);
    assert Solo(w, k, clock) == Solo(w', k, clock);
  }

  /** The transaction ended with this decision, and the tables show it. */
  ghost predicate Ended(w: World, k: nat, t: Tables, d: Result<Grant, CouponError>)
    requires k < |w.txns|
  {
    match d
    case Ok(g) => w.txns[k].pc == Done && w.tables == Commit(t, g)
    case Err(e) => w.txns[k].pc == Aborted(e) && w.tables == t
  }

  lemma FromWrites(w: World, k: nat, clock: Clock)
    requires k < |w.txns| && InFlight(w.txns[k]) && w.txns[k].plan.Some? && w.txns[k].sub.Some?
    ensures |Solo(w, k, clock).txns| == |w.txns| && Solo(w, k, clock).txns[k].pc == Done
    ensures Solo(w, k, clock).tables == Commit(w.tables, GrantOf(w.txns[k]))
    decreases 13 - Rank(w.txns[k].pc)
  {
    if w.txns[k].pc != AtCommit {
      FromWrites(Perform(w, k, NextAction(w, k, clock.scheduling)), k, clock);
    }
  }

  ghost predicate NoFlights(w: World, k: nat) {
    k < |w.txns| && forall j :: 0 <= j < |w.txns| && j != k ==> !InFlight(w.txns[j])
  }

  lemma FromInsert(w: World, k: nat, clock: Clock)
    requires NoFlights(w, k) && w.txns[k].pc == AtInsert && w.txns[k].plan.Some?
    ensures var x := w.txns[k];
            |Solo(w, k, clock).txns| == |w.txns| &&
            Ended(Solo(w, k, clock), k, w.tables,
                  if StartTaken(w.tables.subs, x.request.tenant, x.schedule.start) then Err(ConcurrentRedeem)
                  else Ok(MakeGrant(x.request, x.code, w.tables.nextSub, x.planId, x.plan.value, x.days, x.current,
                      x.schedule)))
  {
    var x := w.txns[k];
    assert !InsertBlocked(w, k, x.request.tenant, x.schedule.start);
    if StartTaken(w.tables.subs, x.request.tenant, x.schedule.start) {
      QuitEnds(w, k, clock, ConcurrentRedeem);
    } else {
      FromWrites(NextWorld(w, k, clock), k, clock);
    }
  }

  lemma FromTail(w: World, k: nat, clock: Clock)
    requires NoFlights(w, k)
    requires var x := w.txns[k];
             && x.pc == AtTail && x.planId in w.tables.plans && x.plan == Some(w.tables.plans[x.planId])
             && x.begun == clock.transaction && x.current == InForce(w.tables.subs, x.request.tenant, x.begun)
    ensures var x := w.txns[k];
            |Solo(w, k, clock).txns| == |w.txns| &&
            Ended(Solo(w, k, clock), k, w.tables, DecidePlan(w.tables, x.request, x.code, x.planId, x.days, clock))
  {
    var x := w.txns[k];
    var w1 := NextWorld(w, k, clock);
    assert w1 == Put(w, k, x.(pc := AtTenant, scheduled := Reading(AtTail, clock), schedule := ScheduleFor(w.tables,
        x.request.tenant, x.planId, x.days, clock)));
    assert Solo(w, k, clock) == Solo(w1, k, clock);
    if x.request.tenant in w.tables.liveTenants {
      assert Solo(w1, k, clock) == Solo(NextWorld(w1, k, clock), k, clock);
      FromInsert(NextWorld(w1, k, clock), k, clock);
    } else {
      QuitEnds(w1, k, clock, TenantNotFound);
    }
  }

  /** The transaction finds no row to lock, or no row is locked. */
  predicate NoRowAwaited(w: World, k: nat, clock: Clock)
    requires k < |w.txns|
  {
    w.subLock == map[] || InForce(w.tables.subs, w.txns[k].request.tenant, clock.transaction).None?
  }

  lemma FromPick(w: World, k: nat, clock: Clock)
    requires NoFlights(w, k) && ValidTables(w.tables) && NoRowAwaited(w, k, clock)
    requires var x := w.txns[k];
             && x.pc == AtPick && x.planId in w.tables.plans && x.plan == Some(w.tables.plans[x.planId])
             && x.begun == clock.transaction
    ensures var x := w.txns[k];
            |Solo(w, k, clock).txns| == |w.txns| &&
            Ended(Solo(w, k, clock), k, w.tables, DecidePlan(w.tables, x.request, x.code, x.planId, x.days, clock))
  {
    var x := w.txns[k];
    var r := InForce(w.tables.subs, x.request.tenant, x.begun);
    var w1 := NextWorld(w, k, clock);
    assert Solo(w, k, clock) == Solo(w1, k, clock);
    if r.None? {
      FromTail(w1, k, clock);
    } else {
      FindSubIs(w.tables.subs, r.value);
      var w2 := NextWorld(w1, k, clock);
      assert w2.txns[k] == x.(pc := AtTail, picked := r, rest := w2.txns[k].rest, held := w2.txns[k].held,
          current := r);
      assert Solo(w1, k, clock) == Solo(w2, k, clock);
      FromTail(w2, k, clock);
    }
  }

  lemma FromPlan(w: World, k: nat, clock: Clock)
    requires NoFlights(w, k) && ValidTables(w.tables) && NoRowAwaited(w, k, clock)
    requires w.txns[k].pc == AtPlan && w.txns[k].begun == clock.transaction
    ensures var x := w.txns[k];
            |Solo(w, k, clock).txns| == |w.txns| &&
            Ended(Solo(w, k, clock), k, w.tables, DecidePlan(w.tables, x.request, x.code, x.planId, x.days, clock))
  {
    if w.txns[k].planId in w.tables.plans {
      var w1 := NextWorld(w, k, clock);
      assert Solo(w, k, clock) == Solo(w1, k, clock);
      FromPick(w1, k, clock);
    } else {
      QuitEnds(w, k, clock, InvalidPlan);
    }
  }

  lemma FromCoupon(w: World, k: nat, clock: Clock)
    requires NoFlights(w, k) && ValidTables(w.tables) && NoRowAwaited(w, k, clock) && w.couponLock == map[]
    requires var x := w.txns[k];
             && x.pc == AtCoupon && x.begun == clock.transaction && x.request.code.Some?
             && x.code == Some(NormalizeCode(x.request.code.value)) && CheckArguments(x.request).None?
    ensures |Solo(w, k, clock).txns| == |w.txns|
    ensures Ended(Solo(w, k, clock), k, w.tables, Decide(w.tables, w.txns[k].request, clock))
  {
    var code := w.txns[k].code.value;
    if code !in w.tables.coupons {
      QuitEnds(w, k, clock, CouponNotFound);
    } else {
      var w1 := NextWorld(w, k, clock);
      assert Solo(w, k, clock) == Solo(w1, k, clock);
      var invalid := ValidateCoupon(w.tables.coupons[code], code, w.txns[k].request.user, w.tables.redemptions,
          clock.validation);
      if invalid.Some? {
        QuitEnds(w1, k, clock, invalid.value);
      } else {
        var w2 := NextWorld(w1, k, clock);
        assert Solo(w1, k, clock) == Solo(w2, k, clock);
        FromPlan(w2, k, clock);
      }
    }
  }

  /** An uninterrupted transaction commits exactly the sequential grant, or
      aborts with the sequential error and leaves the tables alone. */
  lemma SoloIsRedeem(w: World, k: nat, clock: Clock)
    requires NoFlights(w, k) && ValidTables(w.tables) && NoRowAwaited(w, k, clock) && w.couponLock == map[]
    requires w.txns[k].pc == Idle
    ensures |Solo(w, k, clock).txns| == |w.txns|
    ensures Ended(Solo(w, k, clock), k, w.tables, Decide(w.tables, w.txns[k].request, clock))
  {
    var q := w.txns[k].request;
    if CheckArguments(q).Some? {
      QuitEnds(w, k, clock, CheckArguments(q).value);
    } else {
      var w1 := NextWorld(w, k, clock);
      assert Solo(w, k, clock) == Solo(w1, k, clock);
      if q.code.None? {
        FromPlan(w1, k, clock);
      } else {
        FromCoupon(w1, k, clock);
      }
    }
  }
}
