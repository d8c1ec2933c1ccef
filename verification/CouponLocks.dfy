/**
 What the locks of concurrent redemptions secure: the running subscription a
 transaction has read stays active and unchanged until the transaction ends, and
 what its request was validated for stays valid.
 */
module CouponLocks {
  import opened Options
  import opened Coupons
  import opened CouponRaces
  import opened CouponTimeline

  // ----- What a lock secures -----

  ghost predicate RowIn(subs: seq<Sub>, r: Row) {
    exists s :: s in subs && RowOf(s) == r
  }

  /** Candidates are rows of the table, whatever their status by now. */
  ghost predicate SnapshotOk(t: Tables, x: Txn) {
    x.pc == AtSub ==>
      && x.picked.Some? && RowIn(t.subs, RowOf(x.picked.value))
      && forall s :: s in x.rest ==> RowIn(t.subs, RowOf(s))
  }

  /** The running subscription is locked and still as it was read, and nothing
      else will be superseded. */
  ghost predicate CurrentOk(t: Tables, x: Txn) {
    && (6 <= Rank(x.pc) <= 12 && x.current.Some? ==>
          && x.current.value in t.subs && RowOf(x.current.value) in x.held
          && Covers(x.current.value, x.request.tenant, x.begun))
    && (7 <= Rank(x.pc) <= 12 && x.schedule.supersedes.Some? ==>
          x.current.Some? && x.schedule.supersedes == Some(x.current.value.id))
  }

  /** The plan and duration are those the request, or its coupon, names. */
  predicate Asked(x: Txn) {
    var q := x.request;
    && (1 <= Rank(x.pc) <= 12 ==>
          CheckArguments(q).None? && x.code == if q.code.Some? then Some(NormalizeCode(q.code.value)) else None)
    && (3 <= Rank(x.pc) <= 12 ==>
          if q.code.None? then q.planOverride == Some(x.planId) && q.daysOverride == Some(x.days)
          else
            && x.coupon.Some? && ValidateStatic(x.coupon.value, x.validated).None?
            && x.planId == x.coupon.value.plan && x.days == x.coupon.value.days)
  }

  ghost predicate Secured(w: World) {
    forall k :: 0 <= k < |w.txns| ==> TxnSecured(w.tables, w.txns[k])
  }

  ghost predicate TxnSecured(t: Tables, x: Txn) {
    SnapshotOk(t, x) && CurrentOk(t, x) && Asked(x)
  }

  lemma PickSecured(w: World, k: nat, now: Time)
    requires Inv(w) && k < |w.txns| && w.txns[k].pc == AtPick && Asked(w.txns[k])
    ensures NextAction(w, k, now).Move? && TxnSecured(w.tables, NextAction(w, k, now).x)
  {
    var t, x := w.tables, w.txns[k];
    var r := InForce(t.subs, x.request.tenant, x.begun);
    if r.Some? {
      assert r.value in t.subs;
      forall s | s in Earlier(t.subs, r.value.start) ensures RowIn(t.subs, RowOf(s)) {
        assert s in t.subs;
      }
    }
  }

  lemma LockSecured(t: Tables, x: Txn)
    requires ValidSubs(t.subs) && x.pc == AtSub && TxnSecured(t, x)
    ensures TxnSecured(t, Locked(t.subs, x))
  {
    LockedJudges(t.subs, x);
    var x' := Locked(t.subs, x);
    if x'.pc == AtTail && x'.current.Some? {
      var s :| s in t.subs && RowOf(s) == RowOf(x.picked.value);
      IdsDistinct(t.subs, s, x'.current.value);
    }
  }

  lemma MoveSecured(w: World, k: nat, now: Time)
    requires Inv(w) && k < |w.txns| && TxnSecured(w.tables, w.txns[k])
    requires NextAction(w, k, now).Move? && w.txns[k].pc != AtPick
    ensures TxnSecured(w.tables, NextAction(w, k, now).x)
  {
    assert TxnOk(w, w.txns[k], k);
  }

  lemma CouponLockSecured(w: World, k: nat, now: Time)
    requires Inv(w) && k < |w.txns| && TxnSecured(w.tables, w.txns[k]) && NextAction(w, k, now).LockCoupon?
    ensures TxnSecured(w.tables, NextAction(w, k, now).x)
  {
  }

  lemma InsertSecured(w: World, k: nat, now: Time)
    requires Inv(w) && k < |w.txns| && TxnSecured(w.tables, w.txns[k]) && NextAction(w, k, now).Insert?
    ensures TxnSecured(w.tables, NextAction(w, k, now).x)
  {
    assert w.txns[k].pc == AtInsert;
  }

  lemma SubLockIs(w: World, k: nat, now: Time)
    requires k < |w.txns|
    requires NextAction(w, k, now).LockSub? ||
             (w.txns[k].pc == AtSub && w.txns[k].picked.Some? && RowOf(w.txns[k].picked.value) !in w.subLock)
    ensures var x := w.txns[k];
            x.pc == AtSub && x.picked.Some? &&
                NextAction(w, k, now) == LockSub(RowOf(x.picked.value), Locked(w.tables.subs, x))
  {
  }

  /** The transaction an action leaves behind, if it goes on. */
  function Left(x: Txn, a: Action): Txn {
    match a
    case Move(x') => x'
    case LockCoupon(x') => x'
    case LockSub(_, x') => x'
    case Insert(x') => x'
    case _ => x
  }

  lemma StatementSecured(w: World, k: nat, now: Time)
    requires Inv(w) && k < |w.txns| && TxnSecured(w.tables, w.txns[k]) && !NextAction(w, k, now).Publish?
    ensures TxnSecured(w.tables, Left(w.txns[k], NextAction(w, k, now)))
  {
    match NextAction(w, k, now)
    case Move(_) =>
      if w.txns[k].pc == AtPick {
        PickSecured(w, k, now);
      } else {
        MoveSecured(w, k, now);
      }
    case LockCoupon(_) => CouponLockSecured(w, k, now);
    case LockSub(_, _) =>
      SubLockIs(w, k, now);
      LockSecured(w.tables, w.txns[k]);
    case Insert(_) => InsertSecured(w, k, now);
    case _ =>
  }

  /** A statement other than a commit never changes the request nor finishes. */
  predicate SameRequest(x: Txn, a: Action) {
    Left(x, a).request == x.request && (Left(x, a) == x || Rank(Left(x, a).pc) <= 12)
  }

  lemma KeepsRequest(w: World, k: nat, now: Time)
    requires k < |w.txns|
    ensures SameRequest(w.txns[k], NextAction(w, k, now))
    ensures 13 <= Rank(w.txns[k].pc) ==> NextAction(w, k, now) == Wait
  {
  }

  lemma EarlyStatement(w: World, k: nat, now: Time)
    requires k < |w.txns| && Rank(w.txns[k].pc) < 6
    ensures Rank(Left(w.txns[k], NextAction(w, k, now)).pc) <= 6
  {
  }

  /** Once scheduled, a transaction only moves on and gets its row. */
  lemma LateStatement(w: World, k: nat, now: Time)
    requires k < |w.txns| && 7 <= Rank(w.txns[k].pc) <= 12
    ensures var x, x' := w.txns[k], Left(w.txns[k], NextAction(w, k, now));
            x' == x.(pc := x'.pc, sub := x'.sub) && 7 <= Rank(x'.pc) <= 12
  {
  }

  lemma TailStatement(w: World, k: nat, now: Time)
    requires k < |w.txns| && w.txns[k].pc == AtTail && w.txns[k].plan.Some?
    ensures var x := w.txns[k];
            NextAction(w, k, now) ==
            Move(x.(pc := AtTenant, scheduled := now,
                    schedule := ComputeSchedule(x.planId, x.plan.value.price, x.days, x.current,
                                                PriceOf(w.tables.plans, x.current), TailEnd(w.tables.subs,
                                                    x.request.tenant), now)))
  {
  }

  /** A statement other than a commit: the tables stay, and only its own
      transaction moves, as its action says, or leaves. */
  lemma StatementTables(w: World, k: nat, a: Action)
    requires k < |w.txns| && !a.Publish? && SameRequest(w.txns[k], a)
    ensures var w' := Perform(w, k, a);
            && w'.tables == w.tables.(nextSub := w'.tables.nextSub)
            && |w'.txns| == |w.txns| && w'.txns == w.txns[k := w'.txns[k]]
            && w'.txns[k].request == w.txns[k].request
            && (w'.txns[k] == w.txns[k] || w'.txns[k] == Left(w.txns[k], a) || w'.txns[k].pc.Aborted?)
  {
  }

  /** A commit supersedes the row its transaction holds locked, so no row that
      another transaction holds. */
  lemma CommitSecures(w: World, k: nat, j: nat)
    requires Inv(w) && k < |w.txns| && j < |w.txns| && j != k && w.txns[k].pc == AtCommit
    requires TxnSecured(w.tables, w.txns[k]) && TxnSecured(w.tables, w.txns[j])
    ensures w.txns[k].plan.Some? && w.txns[k].sub.Some?
    ensures TxnSecured(Commit(w.tables, GrantOf(w.txns[k])), w.txns[j])
  {
    assert TxnOk(w, w.txns[k], k) && TxnOk(w, w.txns[j], j);
    var g := GrantOf(w.txns[k]);
    var t, t' := w.tables, Commit(w.tables, g);
    var y := w.txns[j];
    if y.pc == AtSub {
      RowStays(t, g, RowOf(y.picked.value));
      forall s | s in y.rest ensures RowIn(t'.subs, RowOf(s)) {
        RowStays(t, g, RowOf(s));
      }
    }
    if 6 <= Rank(y.pc) <= 12 && y.current.Some? {
      var s := y.current.value;
      if Some(s.id) == g.supersedes {
        IdsDistinct(t.subs, s, w.txns[k].current.value);
        assert HoldsSub(w.txns[k], RowOf(s)) && HoldsSub(y, RowOf(s));
      }
      LiveAfterCommit(t, g, y.request.tenant, s);
    }
  }

  lemma RowStays(t: Tables, g: Grant, r: Row)
    requires RowIn(t.subs, r)
    ensures RowIn(Commit(t, g).subs, r)
  {
    var i :| 0 <= i < |t.subs| && RowOf(t.subs[i]) == r;
    assert Commit(t, g).subs[i] in Commit(t, g).subs && RowOf(Commit(t, g).subs[i]) == r;
  }

  lemma AdvanceSecures(w: World, k: nat, now: Time)
    requires Inv(w) && Secured(w) && k < |w.txns|
    ensures Secured(Perform(w, k, NextAction(w, k, now)))
  {
    if NextAction(w, k, now).Publish? {
      PublishSecures(w, k);
    } else {
      assert TxnSecured(w.tables, w.txns[k]);
      StatementSecured(w, k, now);
      KeepsRequest(w, k, now);
      QuietSecures(w, k, NextAction(w, k, now));
    }
  }

  lemma QuietSecures(w: World, k: nat, a: Action)
    requires Secured(w) && k < |w.txns| && !a.Publish? && SameRequest(w.txns[k], a)
    requires TxnSecured(w.tables, Left(w.txns[k], a))
    ensures Secured(Perform(w, k, a))
  {
    StatementTables(w, k, a);
    var w' := Perform(w, k, a);
    forall j | 0 <= j < |w'.txns| ensures TxnSecured(w'.tables, w'.txns[j]) {
      assert TxnSecured(w.tables, w.txns[j]);
    }
  }

  lemma PublishSecures(w: World, k: nat)
    requires Inv(w) && Secured(w) && k < |w.txns| && w.txns[k].pc == AtCommit
    ensures Secured(Perform(w, k, Publish))
  {
    var w' := Perform(w, k, Publish);
    assert TxnOk(w, w.txns[k], k) && TxnSecured(w.tables, w.txns[k]);
    forall j | 0 <= j < |w'.txns| ensures TxnSecured(w'.tables, w'.txns[j]) {
      if j != k {
        assert TxnSecured(w.tables, w.txns[j]);
        CommitSecures(w, k, j);
      }
    }
  }

  lemma ExecSecures(w: World, e: Event)
    requires Inv(w) && Secured(w)
    ensures Secured(Exec(w, e))
  {
    if e.Advance? {
      if e.k < |w.txns| {
        AdvanceSecures(w, e.k, e.now);
      }
    } else {
      OtherEvents(w, e);
      forall k | 0 <= k < |w.txns| ensures TxnSecured(Exec(w, e).tables, Exec(w, e).txns[k]) {
        assert TxnSecured(w.tables, w.txns[k]);
      }
    }
  }

  lemma OtherEvents(w: World, e: Event)
    requires !e.Advance?
    ensures Exec(w, e).tables.subs == w.tables.subs && Exec(w, e).tables.plans == w.tables.plans
    ensures Exec(w, e).txns == w.txns
  {
  }

  /** In every interleaving a transaction's running subscription stays active and
      unchanged until the transaction ends, and its request stays validated. */
  lemma {:induction false} SecuredAlways(w: World, es: seq<Event>)
    requires Initial(w)
    ensures Inv(ExecAll(w, es)) && Secured(ExecAll(w, es))
  {
    InvAlways(w, es);
    if es != [] {
      SecuredAlways(w, es[..|es| - 1]);
      ExecSecures(ExecAll(w, es[..|es| - 1]), es[|es| - 1]);
    }
  }

  /** Past validation, the sequential decision on the same tables comes down to
      the plan and duration the transaction carries. */
  lemma AskedDecides(w: World, k: nat, transaction: Time, scheduling: Time)
    requires Inv(w) && k < |w.txns| && Asked(w.txns[k]) && 3 <= Rank(w.txns[k].pc) <= 12
    ensures var x := w.txns[k];
            var clock := Clock(transaction, x.validated, scheduling);
            Decide(w.tables, x.request, clock) == DecidePlan(w.tables, x.request, x.code, x.planId, x.days, clock)
  {
    assert TxnOk(w, w.txns[k], k);
  }
}
