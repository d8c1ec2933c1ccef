/**
 Concurrent redemptions, interleaved statement by statement. Each transaction
 reads committed rows only, locks first the coupon row and then the running
 subscription row, keeps its writes private, and publishes them at commit. An
 insert waits while another transaction holds an uncommitted row with the same
 tenant and start.
 */
module CouponRaces {
  import opened Options
  import opened Coupons
  import opened CouponLedger
  import CouponTimeline

  /** The statement a transaction will execute next. */
  datatype Pc =
    | Idle
    | AtCoupon        // SELECT coupon FOR UPDATE
    | AtRedeemed      // validate; SELECT from coupon_redemptions
    | AtPlan          // SELECT plan
    | AtPick          // find the running subscription
    | AtSub           // lock it FOR UPDATE and re-check it
    | AtTail          // SELECT MAX(period_end); compute the schedule
    | AtTenant        // SELECT tenant
    | AtInsert        // INSERT subscription
    | AtSupersede     // UPDATE the superseded subscription
    | AtAudit         // INSERT audit row
    | AtCount         // UPDATE the coupon's count
    | AtCommit
    | Done
    | Aborted(error: CouponError)

  /** A subscription row as a lock sees it: neither field ever changes. */
  datatype Row = Row(id: nat, start: Time)

  function RowOf(s: Sub): Row { Row(s.id, s.start) }

  /** The running subscription is sought in the statement's snapshot, latest
      start first: picked is the candidate being locked, rest the ones after it,
      held the rows locked so far. The three clock readings are kept: begun is
      SQL's now(), validated and scheduled are the application's. */
  datatype Txn = Txn(request: Request, pc: Pc, begun: Time, validated: Time, scheduled: Time,
                     code: Option<string>, coupon: Option<Coupon>,
                     planId: string, days: int, plan: Option<Plan>,
                     picked: Option<Sub>, rest: seq<Sub>, held: set<Row>,
                     current: Option<Sub>, schedule: Schedule, sub: Option<Sub>)

  datatype World = World(tables: Tables, txns: seq<Txn>, couponLock: map<string, nat>, subLock: map<Row, nat>)

  datatype Event =
    | Advance(k: nat, now: Time)
    | Edit(code: string, maxRedemptions: Option<int>, validUntil: Option<Time>, onePerUser: bool, disabled: bool)
    | Create(newCode: string, coupon: Coupon)
    | DropTenant(tenant: nat)

  // ----- Phases -----

  function Rank(pc: Pc): int {
    match pc
    case Idle => 0
    case AtCoupon => 1
    case AtRedeemed => 2
    case AtPlan => 3
    case AtPick => 4
    case AtSub => 5
    case AtTail => 6
    case AtTenant => 7
    case AtInsert => 8
    case AtSupersede => 9
    case AtAudit => 10
    case AtCount => 11
    case AtCommit => 12
    case Done => 13
    case Aborted(_) => 14
  }

  predicate Unfinished(x: Txn) { Rank(x.pc) <= 12 }

  predicate HoldsCoupon(x: Txn) { x.code.Some? && 2 <= Rank(x.pc) <= 12 }

  predicate HoldsSub(x: Txn, r: Row) { r in x.held && 5 <= Rank(x.pc) <= 12 }

  predicate InFlight(x: Txn) { 9 <= Rank(x.pc) <= 12 }

  // ----- Steps -----

  function Release<K(==)>(locks: map<K, nat>, k: nat): map<K, nat> {
    map c | c in locks && locks[c] != k :: locks[c]
  }

  function Put(w: World, k: nat, x: Txn): World
    requires k < |w.txns|
  {
    w.(txns := w.txns[k := x])
  }

  function Leave(w: World, k: nat, pc: Pc): World
    requires k < |w.txns|
  {
    World(w.tables, w.txns[k := w.txns[k].(pc := pc)], Release(w.couponLock, k), Release(w.subLock, k))
  }

  function GrantOf(x: Txn): Grant
    requires x.sub.Some? && x.plan.Some?
  {
    MakeGrant(x.request, x.code, x.sub.value.id, x.planId, x.plan.value, x.days, x.current, x.schedule)
  }

  function FindSub(subs: seq<Sub>, id: nat): (r: Option<Sub>)
    ensures r.Some? ==> r.value in subs && r.value.id == id
  {
    if subs == [] then None
    else if subs[|subs| - 1].id == id then Some(subs[|subs| - 1])
    else FindSub(subs[..|subs| - 1], id)
  }

  predicate InsertBlocked(w: World, k: nat, tenant: nat, start: Time) {
    exists j :: 0 <= j < |w.txns| && j != k && Occupies(w.txns[j], tenant, start)
  }

  predicate Occupies(x: Txn, tenant: nat, start: Time) {
    InFlight(x) && x.sub.Some? && x.sub.value.tenant == tenant && x.sub.value.start == start
  }

  function Earlier(subs: seq<Sub>, start: Time): (r: seq<Sub>)
    ensures forall s :: s in r ==> s in subs && s.start < start
    ensures |r| <= |subs|
    ensures (exists s :: s in subs && s.start >= start) ==> |r| < |subs|
  {
    if subs == [] then []
    else
      var last := subs[|subs| - 1];
      Earlier(subs[..|subs| - 1], start) + if last.start < start then [last] else []
  }

  /** With the candidate's lock in hand its newest version is checked again; if
      it no longer qualifies, the next candidate's turn comes. */
  function Locked(subs: seq<Sub>, x: Txn): Txn
    requires x.picked.Some?
  {
    var held := x.held + {RowOf(x.picked.value)};
    var r := FindSub(subs, x.picked.value.id);
    var next := InForce(x.rest, x.request.tenant, x.begun);
    if r.Some? && Covers(r.value, x.request.tenant, x.begun) then x.(pc := AtTail, current := r, held := held)
    else if next.None? then x.(pc := AtTail, current := None, held := held)
    else x.(picked := next, rest := Earlier(x.rest, next.value.start), held := held)
  }

  /** What holding the candidate's lock decides: its newest version, if that is
      still in the window; else the best of the candidates left, to be locked in
      turn; else nothing is in force. */
  lemma LockedJudges(subs: seq<Sub>, x: Txn)
    requires ValidSubs(subs) && x.pc == AtSub && x.picked.Some?
    ensures var x' := Locked(subs, x);
            var tenant := x.request.tenant;
            && RowOf(x.picked.value) in x'.held
            && (x'.pc == AtTail || x'.pc == AtSub)
            && ((exists s :: s in subs && s.id == x.picked.value.id && Covers(s, tenant, x.begun)) <==>
                x'.pc == AtTail && x'.current.Some?)
            && (x'.pc == AtTail && x'.current.Some? ==>
                x'.current.value in subs && x'.current.value.id == x.picked.value.id &&
                    Covers(x'.current.value, tenant, x.begun))
            && (x'.pc == AtTail && x'.current.None? ==> forall s :: s in x.rest ==> !Covers(s, tenant, x.begun))
            && (x'.pc == AtSub ==>
                && x'.picked.Some? && x'.picked.value in x.rest
                && (forall s :: s in x.rest && Covers(s, tenant, x.begun) ==> s.start <= x'.picked.value.start)
                && (forall s :: s in x'.rest ==> s in x.rest && s.start < x'.picked.value.start))
  {
    InForceLatest(x.rest, x.request.tenant, x.begun);
    forall s | s in subs && s.id == x.picked.value.id ensures FindSub(subs, s.id) == Some(s) {
      FindSubIs(subs, s);
    }
  }

  lemma FindSubIs(subs: seq<Sub>, s: Sub)
    requires ValidSubs(subs) && s in subs
    ensures FindSub(subs, s.id) == Some(s)
  {
    FindSubSome(subs, s);
    CouponTimeline.IdsDistinct(subs, FindSub(subs, s.id).value, s);
  }

  lemma {:induction false} FindSubSome(subs: seq<Sub>, s: Sub)
    requires s in subs
    ensures FindSub(subs, s.id).Some?
  {
    if subs[|subs| - 1].id != s.id {
      FindSubSome(subs[..|subs| - 1], s);
    }
  }

  /** What the next statement of a transaction does. */
  datatype Action =
    | Wait
    | Move(x: Txn)          // a read or a private write
    | LockCoupon(x: Txn)
    | LockSub(r: Row, x: Txn)
    | Insert(x: Txn)        // a private row, with a fresh id
    | Publish               // commit
    | Quit(error: CouponError)

  function NextAction(w: World, k: nat, now: Time): Action
    requires k < |w.txns|
  {
    var x := w.txns[k];
    var q := x.request;
    var t := w.tables;
    match x.pc
    case Idle =>
      if CheckArguments(q).Some? then Quit(CheckArguments(q).value)
      else if q.code.Some? then Move(x.(pc := AtCoupon, begun := now, code := Some(NormalizeCode(q.code.value))))
      else
        Move(x.(pc := AtPlan, begun := now, code := None,
                planId := q.planOverride.value, days := q.daysOverride.value))
    case AtCoupon =>
      if x.code.None? || x.code.value in w.couponLock then Wait
      else if x.code.value !in t.coupons then Quit(CouponNotFound)
      else LockCoupon(x.(pc := AtRedeemed, coupon := Some(t.coupons[x.code.value])))
    case AtRedeemed =>
      if x.code.None? || x.coupon.None? then Wait
      else
        var c := x.coupon.value;
        var invalid := ValidateCoupon(c, x.code.value, q.user, t.redemptions, now);
        if invalid.Some? then Quit(invalid.value)
        else Move(x.(pc := AtPlan, validated := now, planId := c.plan, days := c.days))
    case AtPlan =>
      if x.planId !in t.plans then Quit(InvalidPlan) else Move(x.(pc := AtPick, plan := Some(t.plans[x.planId])))
    case AtPick =>
      var r := InForce(t.subs, q.tenant, x.begun);
      if r.None? then Move(x.(pc := AtTail, held := {}, picked := None, current := None))
      else Move(x.(pc := AtSub, held := {}, picked := r, rest := Earlier(t.subs, r.value.start)))
    case AtSub =>
      if x.picked.None? || RowOf(x.picked.value) in w.subLock then Wait
      else LockSub(RowOf(x.picked.value), Locked(t.subs, x))
    case AtTail =>
      var price := if x.plan.Some? then x.plan.value.price else 0;
      Move(x.(pc := AtTenant, scheduled := now,
              schedule := ComputeSchedule(x.planId, price, x.days, x.current, PriceOf(t.plans, x.current),
                                          TailEnd(t.subs, q.tenant), now)))
    case AtTenant =>
      if q.tenant !in t.liveTenants then Quit(TenantNotFound) else Move(x.(pc := AtInsert))
    case AtInsert =>
      if x.plan.None? || InsertBlocked(w, k, q.tenant, x.schedule.start) then Wait
      else if StartTaken(t.subs, q.tenant, x.schedule.start) then Quit(ConcurrentRedeem)
      else Insert(x.(pc := AtSupersede, sub := Some(NewSub(t.nextSub, q.tenant, x.planId, x.plan.value, x.schedule))))
    case AtSupersede => Move(x.(pc := AtAudit))
    case AtAudit => Move(x.(pc := AtCount))
    case AtCount => Move(x.(pc := AtCommit))
    case AtCommit => if x.plan.None? || x.sub.None? then Wait else Publish
    case Done => Wait
    case Aborted(_) => Wait
  }

  function Perform(w: World, k: nat, a: Action): World
    requires k < |w.txns|
  {
    match a
    case Wait => w
    case Move(x) => Put(w, k, x)
    case LockCoupon(x) =>
      if x.code.Some? then Put(w, k, x).(couponLock := w.couponLock[x.code.value := k]) else w
    case LockSub(r, x) => Put(w, k, x).(subLock := w.subLock[r := k])
    case Insert(x) => Put(w, k, x).(tables := w.tables.(nextSub := w.tables.nextSub + 1))
    case Publish =>
      var x := w.txns[k];
      if x.plan.Some? && x.sub.Some? then Leave(w, k, Done).(tables := Commit(w.tables, GrantOf(x))) else w
    case Quit(e) => Leave(w, k, Aborted(e))
  }

  /** An event that must wait, or makes no sense, changes nothing. Editing a
      coupon row waits for its lock, as any UPDATE does. */
  function Exec(w: World, e: Event): World {
    match e
    case Advance(k, now) =>
      if k < |w.txns| then Perform(w, k, NextAction(w, k, now)) else w
    case Edit(code, maxRedemptions, validUntil, onePerUser, disabled) =>
      if code !in w.tables.coupons || code in w.couponLock then w
      else
        var c := w.tables.coupons[code].(maxRedemptions := maxRedemptions, validUntil := validUntil,
                                         onePerUser := onePerUser, disabled := disabled);
        w.(tables := w.tables.(coupons := w.tables.coupons[code := c]))
    case Create(code, c) =>
      if code == "" || code in w.tables.coupons || c.days <= 0 || c.count != 0 then w
      else w.(tables := w.tables.(coupons := w.tables.coupons[code := c]))
    case DropTenant(tenant) =>
      w.(tables := w.tables.(liveTenants := w.tables.liveTenants - {tenant}))
  }

  function ExecAll(w: World, es: seq<Event>): World {
    if es == [] then w else Exec(ExecAll(w, es[..|es| - 1]), es[|es| - 1])
  }

  lemma {:induction false} ExecAppend(w: World, a: seq<Event>, b: seq<Event>)
    ensures ExecAll(w, a + b) == ExecAll(ExecAll(w, a), b)
  {
    if b == [] {
      assert a + b == a;
    } else {
      ExecAppend(w, a, b[..|b| - 1]);
      assert (a + b)[..|a + b| - 1] == a + b[..|b| - 1];
    }
  }

  // ----- Invariant -----

  ghost predicate CouponOk(t: Tables, couponLock: map<string, nat>, x: Txn, k: nat) {
    HoldsCoupon(x) ==>
      var code := x.code.value;
      && code in couponLock && couponLock[code] == k
      && code in t.coupons && x.coupon == Some(t.coupons[code])
      && (3 <= Rank(x.pc) ==>
            && (x.coupon.value.maxRedemptions.Some? ==> x.coupon.value.count < x.coupon.value.maxRedemptions.value)
            && (x.coupon.value.onePerUser ==> !HasRedeemed(t.redemptions, code, x.request.user)))
  }

  ghost predicate SubOk(t: Tables, subLock: map<Row, nat>, x: Txn, k: nat) {
    && (forall r :: HoldsSub(x, r) ==> r in subLock && subLock[r] == k)
    && (x.pc == AtSub ==> Descends(x))
    && (x.pc == AtCoupon || x.pc == AtRedeemed ==> x.code.Some?)
    && (3 <= Rank(x.pc) <= 12 ==> x.days > 0)
    && (4 <= Rank(x.pc) <= 12 ==> x.planId in t.plans && x.plan == Some(t.plans[x.planId]))
    && (7 <= Rank(x.pc) <= 12 ==> x.schedule.start < x.schedule.end)
  }

  /** Rows are locked in the order of their starts, latest first. */
  ghost predicate Descends(x: Txn) {
    && x.picked.Some?
    && (forall r :: r in x.held ==> x.picked.value.start < r.start)
    && (forall s :: s in x.rest ==> s.start < x.picked.value.start)
  }

  ghost predicate FlightOk(t: Tables, x: Txn) {
    InFlight(x) ==>
      && x.sub.Some? && x.plan.Some?
      && x.sub.value == GrantOf(x).sub
      && x.sub.value.id < t.nextSub
      && (forall s :: s in t.subs ==> s.id != x.sub.value.id)
      && !StartTaken(t.subs, x.sub.value.tenant, x.sub.value.start)
  }

  ghost predicate FlightsApart(txns: seq<Txn>) {
    forall i, j :: 0 <= i < j < |txns| && InFlight(txns[i]) && InFlight(txns[j]) ==>
      Distinct(txns[i], txns[j])
  }

  predicate Distinct(x: Txn, y: Txn) {
    x.sub.Some? && y.sub.Some? && x.sub.value.id != y.sub.value.id && !SameStart(x.sub.value, y.sub.value)
  }

  ghost predicate LocksOk(w: World) {
    && (forall c :: c in w.couponLock ==> HeldBy(w.txns, c, w.couponLock[c]))
    && (forall s :: s in w.subLock ==> SubHeldBy(w.txns, s, w.subLock[s]))
  }

  predicate HeldBy(txns: seq<Txn>, code: string, k: nat) {
    k < |txns| && HoldsCoupon(txns[k]) && txns[k].code.value == code
  }

  predicate SubHeldBy(txns: seq<Txn>, r: Row, k: nat) {
    k < |txns| && HoldsSub(txns[k], r)
  }

  ghost predicate TxnOk(w: World, x: Txn, k: nat) {
    CouponOk(w.tables, w.couponLock, x, k) && SubOk(w.tables, w.subLock, x, k) && FlightOk(w.tables, x)
  }

  ghost predicate Inv(w: World) {
    && ValidTables(w.tables) && LocksOk(w) && FlightsApart(w.txns)
    && forall k :: 0 <= k < |w.txns| ==> TxnOk(w, w.txns[k], k)
  }

  ghost predicate Initial(w: World) {
    && ValidTables(w.tables) && Balanced(w.tables)
    && w.couponLock == map[] && w.subLock == map[]
    && forall x :: x in w.txns ==> x.pc == Idle
  }

  // ----- The invariant is kept -----

  /** A step that only moves transaction k, and locks. */
  lemma MoveKeeps(w: World, w': World, k: nat)
    requires Inv(w) && k < |w.txns| == |w'.txns| && w'.txns == w.txns[k := w'.txns[k]]
    requires w'.tables == w.tables.(nextSub := w'.tables.nextSub) && w.tables.nextSub <= w'.tables.nextSub
    requires TxnOk(w', w'.txns[k], k) && LocksOk(w')
    requires forall c :: c in w.couponLock && w.couponLock[c] != k ==>
        c in w'.couponLock && w'.couponLock[c] == w.couponLock[c]
    requires forall s :: s in w.subLock && w.subLock[s] != k ==> s in w'.subLock && w'.subLock[s] == w.subLock[s]
    requires forall j :: 0 <= j < |w.txns| && j != k && InFlight(w.txns[j]) && InFlight(w'.txns[k]) ==>
               Distinct(w.txns[j], w'.txns[k])
    ensures Inv(w')
  {
    forall j | 0 <= j < |w.txns| ensures TxnOk(w', w'.txns[j], j) {
      if j != k {
        assert TxnOk(w, w.txns[j], j);
        assert w'.txns[j] == w.txns[j];
      }
    }
  }

  lemma LeaveKeeps(w: World, k: nat, pc: Pc)
    requires Inv(w) && k < |w.txns| && 13 <= Rank(pc)
    ensures Inv(Leave(w, k, pc))
  {
    MoveKeeps(w, Leave(w, k, pc), k);
  }

  /** A step that changes no lock and no table. */
  lemma PutKeeps(w: World, k: nat, x: Txn)
    requires Inv(w) && k < |w.txns| && TxnOk(w, x, k)
    requires HoldsCoupon(w.txns[k]) ==> HoldsCoupon(x) && x.code == w.txns[k].code
    requires forall r :: HoldsSub(w.txns[k], r) ==> HoldsSub(x, r)
    requires InFlight(x) ==> InFlight(w.txns[k]) && x.sub == w.txns[k].sub
    ensures Inv(Put(w, k, x))
  {
    forall j | 0 <= j < |w.txns| && j != k && InFlight(w.txns[j]) && InFlight(x) ensures Distinct(w.txns[j], x) {
      assert if j < k then Distinct(w.txns[j], w.txns[k]) else Distinct(w.txns[k], w.txns[j]);
    }
    MoveKeeps(w, Put(w, k, x), k);
  }

  lemma CouponLockKeeps(w: World, k: nat, x: Txn, code: string)
    requires Inv(w) && k < |w.txns| && w.txns[k].pc == AtCoupon && code !in w.couponLock && code in w.tables.coupons
    requires w.txns[k].code == Some(code)
    requires x == w.txns[k].(pc := AtRedeemed, coupon := Some(w.tables.coupons[code]))
    ensures Inv(Put(w, k, x).(couponLock := w.couponLock[code := k]))
  {
    assert TxnOk(w, w.txns[k], k);
    MoveKeeps(w, Put(w, k, x).(couponLock := w.couponLock[code := k]), k);
  }

  lemma LockedOk(w: World, k: nat, now: Time)
    requires Inv(w) && k < |w.txns| && NextAction(w, k, now).LockSub?
    ensures var (r, x) := (NextAction(w, k, now).r, NextAction(w, k, now).x);
            && w.txns[k].pc == AtSub && r == RowOf(w.txns[k].picked.value) && r !in w.subLock
            && x == w.txns[k].(pc := x.pc, picked := x.picked, rest := x.rest, held := w.txns[k].held + {r},
                 current := x.current)
            && (x.pc == AtTail || (x.pc == AtSub && Descends(x)))
  {
    assert TxnOk(w, w.txns[k], k);
  }

  lemma SubLockKeeps(w: World, k: nat, now: Time)
    requires Inv(w) && k < |w.txns| && NextAction(w, k, now).LockSub?
    ensures Inv(Perform(w, k, NextAction(w, k, now)))
  {
    LockedOk(w, k, now);
    LockKeeps(w, k, NextAction(w, k, now).r, NextAction(w, k, now).x);
  }

  lemma LockKeeps(w: World, k: nat, r: Row, x: Txn)
    requires Inv(w) && k < |w.txns| && w.txns[k].pc == AtSub && r !in w.subLock
    requires x == w.txns[k].(pc := x.pc, picked := x.picked, rest := x.rest, held := w.txns[k].held + {r},
        current := x.current)
    requires x.pc == AtTail || (x.pc == AtSub && Descends(x))
    ensures Inv(Put(w, k, x).(subLock := w.subLock[r := k]))
  {
    assert TxnOk(w, w.txns[k], k);
    MoveKeeps(w, Put(w, k, x).(subLock := w.subLock[r := k]), k);
  }

  /** A private write: the rest of the transaction is as it was. */
  ghost predicate Onward(w: World, k: nat, x: Txn)
    requires k < |w.txns|
  {
    && TxnOk(w, x, k)
    && (HoldsCoupon(w.txns[k]) ==> HoldsCoupon(x) && x.code == w.txns[k].code)
    && (forall r :: HoldsSub(w.txns[k], r) ==> HoldsSub(x, r))
    && (InFlight(x) ==> InFlight(w.txns[k]) && x.sub == w.txns[k].sub)
  }

  lemma MoveEarly(w: World, k: nat, now: Time)
    requires Inv(w) && k < |w.txns| && NextAction(w, k, now).Move? && Rank(w.txns[k].pc) <= 3
    ensures Onward(w, k, NextAction(w, k, now).x)
  {
    assert TxnOk(w, w.txns[k], k);
  }

  lemma MovePick(w: World, k: nat, now: Time)
    requires Inv(w) && k < |w.txns| && w.txns[k].pc == AtPick
    ensures NextAction(w, k, now).Move? && Onward(w, k, NextAction(w, k, now).x)
  {
    var x, x' := w.txns[k], NextAction(w, k, now).x;
    assert TxnOk(w, x, k);
    assert CouponOk(w.tables, w.couponLock, x', k);
    assert SubOk(w.tables, w.subLock, x', k);
  }

  lemma MoveMiddle(w: World, k: nat, now: Time)
    requires Inv(w) && k < |w.txns| && NextAction(w, k, now).Move? && 5 <= Rank(w.txns[k].pc) <= 8
    ensures Onward(w, k, NextAction(w, k, now).x)
  {
    var x, x' := w.txns[k], NextAction(w, k, now).x;
    assert TxnOk(w, x, k);
    assert CouponOk(w.tables, w.couponLock, x', k);
    assert SubOk(w.tables, w.subLock, x', k);
  }

  lemma MoveLate(w: World, k: nat, now: Time)
    requires Inv(w) && k < |w.txns| && NextAction(w, k, now).Move? && 9 <= Rank(w.txns[k].pc)
    ensures Onward(w, k, NextAction(w, k, now).x)
  {
    assert TxnOk(w, w.txns[k], k);
    LaterOk(w, k, NextAction(w, k, now).x.pc);
  }

  lemma LaterOk(w: World, k: nat, pc: Pc)
    requires k < |w.txns| && TxnOk(w, w.txns[k], k) && 9 <= Rank(w.txns[k].pc) && Rank(w.txns[k].pc) < Rank(pc) <= 12
    ensures Onward(w, k, w.txns[k].(pc := pc))
  {
  }

  lemma InsertApart(w: World, k: nat, j: nat, now: Time)
    requires Inv(w) && k < |w.txns| && NextAction(w, k, now).Insert?
    requires j < |w.txns| && j != k && InFlight(w.txns[j])
    ensures Distinct(w.txns[j], NextAction(w, k, now).x)
  {
    assert TxnOk(w, w.txns[j], j);
    assert !Occupies(w.txns[j], w.txns[k].request.tenant, w.txns[k].schedule.start);
  }

  lemma InsertOk(w: World, k: nat, now: Time)
    requires Inv(w) && k < |w.txns| && NextAction(w, k, now).Insert?
    ensures var x := NextAction(w, k, now).x;
            && TxnOk(w.(tables := w.tables.(nextSub := w.tables.nextSub + 1)), x, k)
            && w.txns[k].pc == AtInsert && x == w.txns[k].(pc := AtSupersede, sub := x.sub)
  {
    assert TxnOk(w, w.txns[k], k);
  }

  lemma InsertKeeps(w: World, k: nat, now: Time)
    requires Inv(w) && k < |w.txns| && NextAction(w, k, now).Insert?
    ensures Inv(Perform(w, k, NextAction(w, k, now)))
  {
    InsertOk(w, k, now);
    forall j | 0 <= j < |w.txns| && j != k && InFlight(w.txns[j]) ensures Distinct(w.txns[j], NextAction(w, k, now).x) {
      InsertApart(w, k, j, now);
    }
    RowKeeps(w, k, NextAction(w, k, now).x);
  }

  lemma RowKeeps(w: World, k: nat, x: Txn)
    requires Inv(w) && k < |w.txns| && w.txns[k].pc == AtInsert && x == w.txns[k].(pc := AtSupersede, sub := x.sub)
    requires TxnOk(w.(tables := w.tables.(nextSub := w.tables.nextSub + 1)), x, k)
    requires forall j :: 0 <= j < |w.txns| && j != k && InFlight(w.txns[j]) ==> Distinct(w.txns[j], x)
    ensures Inv(Put(w, k, x).(tables := w.tables.(nextSub := w.tables.nextSub + 1)))
  {
    MoveKeeps(w, Put(w, k, x).(tables := w.tables.(nextSub := w.tables.nextSub + 1)), k);
  }

  lemma StepKeeps(w: World, k: nat, now: Time)
    requires Inv(w) && k < |w.txns|
    ensures Inv(Perform(w, k, NextAction(w, k, now)))
  {
    var a := NextAction(w, k, now);
    match a
    case Wait =>
    case Move(x) =>
      if Rank(w.txns[k].pc) <= 3 {
        MoveEarly(w, k, now);
      } else if w.txns[k].pc == AtPick {
        MovePick(w, k, now);
      } else if Rank(w.txns[k].pc) <= 8 {
        MoveMiddle(w, k, now);
      } else {
        MoveLate(w, k, now);
      }
      PutKeeps(w, k, x);
    case LockCoupon(x) => CouponLockKeeps(w, k, x, w.txns[k].code.value);
    case LockSub(_, _) => SubLockKeeps(w, k, now);
    case Insert(x) => InsertKeeps(w, k, now);
    case Publish => CommitKeeps(w, k);
    case Quit(e) => LeaveKeeps(w, k, Aborted(e));
  }

  /** A commit disturbs no other transaction: their coupons are other coupons,
      and their rows in flight have other ids and starts. */
  lemma CommitKeeps(w: World, k: nat)
    requires Inv(w) && k < |w.txns| && w.txns[k].pc == AtCommit
    ensures Inv(Perform(w, k, Publish))
  {
    var x := w.txns[k];
    assert TxnOk(w, x, k);
    var g := GrantOf(x);
    var left := Leave(w, k, Done);
    LeaveKeeps(w, k, Done);
    var w' := left.(tables := Commit(w.tables, g));
    CouponTimeline.CommitValid(w.tables, g);
    forall j | 0 <= j < |w.txns| ensures TxnOk(w', w'.txns[j], j) {
      if j != k {
        assert TxnOk(w, w.txns[j], j) && TxnOk(left, left.txns[j], j);
        OthersUndisturbed(w, w.txns[j], j, x, k);
      }
    }
  }

  lemma OthersUndisturbed(w: World, y: Txn, j: nat, x: Txn, k: nat)
    requires Inv(w) && j < |w.txns| && k < |w.txns| && j != k && y == w.txns[j] && x == w.txns[k] && InFlight(x)
    requires FlightOk(w.tables, x) && x.sub.Some? && x.plan.Some?
    requires TxnOk(w, y, j) && TxnOk(w, x, k)
    ensures var t' := Commit(w.tables, GrantOf(x));
            CouponOk(t', Release(w.couponLock, k), y, j) && SubOk(t', Release(w.subLock, k), y, j) && FlightOk(t', y)
  {
    var g := GrantOf(x);
    var t' := Commit(w.tables, g);
    if HoldsCoupon(y) {
      assert y.code != x.code;
      assert t'.redemptions == w.tables.redemptions + [g.redemption];
    }
    if InFlight(y) {
      assert Distinct(x, y) by {
        assert if j < k then Distinct(y, x) else Distinct(x, y);
      }
      forall s | s in t'.subs ensures s.id != y.sub.value.id && !(SameStart(s, y.sub.value)) {
        var i :| 0 <= i < |t'.subs| && t'.subs[i] == s;
        if i < |w.tables.subs| {
          assert w.tables.subs[i] in w.tables.subs;
        }
      }
    }
  }

  /** Other events touch no locked row. */
  lemma OutsideKeeps(w: World, t': Tables)
    requires Inv(w) && ValidTables(t')
    requires t' == w.tables.(coupons := t'.coupons, liveTenants := t'.liveTenants)
    requires forall c :: c in w.couponLock && c in w.tables.coupons ==>
        c in t'.coupons && t'.coupons[c] == w.tables.coupons[c]
    ensures Inv(w.(tables := t'))
  {
    var w' := w.(tables := t');
    forall k | 0 <= k < |w.txns| ensures TxnOk(w', w'.txns[k], k) {
      assert TxnOk(w, w.txns[k], k);
    }
  }

  lemma ExecKeeps(w: World, e: Event)
    requires Inv(w)
    ensures Inv(Exec(w, e))
  {
    match e
    case Advance(k, now) =>
      if k < |w.txns| {
        StepKeeps(w, k, now);
      }
    case Edit(code, _, _, _, _) => EditKeeps(w, e);
    case Create(code, c) =>
      if Exec(w, e) != w {
        OutsideKeeps(w, w.tables.(coupons := w.tables.coupons[code := c]));
      }
    case DropTenant(tenant) => OutsideKeeps(w, w.tables.(liveTenants := w.tables.liveTenants - {tenant}));
  }

  lemma EditKeeps(w: World, e: Event)
    requires Inv(w) && e.Edit?
    ensures Inv(Exec(w, e))
  {
    if e.code in w.tables.coupons && e.code !in w.couponLock {
      OutsideKeeps(w, Exec(w, e).tables);
    }
  }

  lemma {:induction false} InvAlways(w: World, es: seq<Event>)
    requires Initial(w)
    ensures Inv(ExecAll(w, es))
  {
    if es != [] {
      InvAlways(w, es[..|es| - 1]);
      ExecKeeps(ExecAll(w, es[..|es| - 1]), es[|es| - 1]);
    }
  }

  // ----- What waits, read off the transactions -----

  /** Transaction j has locked the coupon row and not ended. */
  predicate HasCoupon(w: World, j: nat, code: string)
    requires j < |w.txns|
  {
    w.txns[j].code == Some(code) &&
    w.txns[j].pc in {AtRedeemed, AtPlan, AtPick, AtSub, AtTail, AtTenant, AtInsert,
                     AtSupersede, AtAudit, AtCount, AtCommit}
  }

  predicate HasRow(w: World, j: nat, s: Sub)
    requires j < |w.txns|
  {
    Row(s.id, s.start) in w.txns[j].held &&
    w.txns[j].pc in {AtSub, AtTail, AtTenant, AtInsert, AtSupersede, AtAudit, AtCount, AtCommit}
  }

  /** Transaction j has inserted a row for the tenant and the start, and not committed it. */
  predicate HasInserted(w: World, j: nat, tenant: nat, start: Time)
    requires j < |w.txns|
  {
    && w.txns[j].pc in {AtSupersede, AtAudit, AtCount, AtCommit}
    && w.txns[j].sub.Some? && w.txns[j].sub.value.tenant == tenant && w.txns[j].sub.value.start == start
  }

  predicate Obstructed(w: World, k: nat)
    requires k < |w.txns|
  {
    var x := w.txns[k];
    match x.pc
    case AtCoupon => x.code.Some? && exists j :: 0 <= j < |w.txns| && j != k && HasCoupon(w, j, x.code.value)
    case AtSub => x.picked.Some? && exists j :: 0 <= j < |w.txns| && j != k && HasRow(w, j, x.picked.value)
    case AtInsert =>
      exists j :: 0 <= j < |w.txns| && j != k && HasInserted(w, j, x.request.tenant, x.schedule.start)
    case _ => false
  }

  /** An unfinished redemption waits exactly for a coupon or a subscription row that
      another has locked, or to insert where another has inserted. */
  lemma WaitsIff(w: World, es: seq<Event>, k: nat, now: Time)
    requires Initial(w) && k < |ExecAll(w, es).txns|
    ensures NextAction(ExecAll(w, es), k, now) == Wait <==>
              ExecAll(w, es).txns[k].pc.Done? || ExecAll(w, es).txns[k].pc.Aborted? || Obstructed(ExecAll(w, es), k)
  {
    InvAlways(w, es);
    WaitsFor(ExecAll(w, es), k, now);
  }

  lemma WaitsFor(w: World, k: nat, now: Time)
    requires Inv(w) && k < |w.txns|
    ensures NextAction(w, k, now) == Wait <==> w.txns[k].pc.Done? || w.txns[k].pc.Aborted? || Obstructed(w, k)
  {
    var x := w.txns[k];
    assert TxnOk(w, x, k);
    if x.pc == AtCoupon {
      CouponHeld(w, x.code.value);
    } else if x.pc == AtSub {
      RowWaits(w, k);
    } else if x.pc == AtInsert {
      forall j | 0 <= j < |w.txns|
        ensures HasInserted(w, j, x.request.tenant, x.schedule.start) <==>
                Occupies(w.txns[j], x.request.tenant, x.schedule.start)
      {
      }
    }
  }

  lemma RowWaits(w: World, k: nat)
    requires Inv(w) && k < |w.txns| && w.txns[k].pc == AtSub && w.txns[k].picked.Some? && Descends(w.txns[k])
    ensures var s := w.txns[k].picked.value;
            RowOf(s) in w.subLock <==> exists j :: 0 <= j < |w.txns| && j != k && HasRow(w, j, s)
  {
    var s := w.txns[k].picked.value;
    if RowOf(s) in w.subLock {
      assert SubHeldBy(w.txns, RowOf(s), w.subLock[RowOf(s)]);
      assert HasRow(w, w.subLock[RowOf(s)], s);
    }
    forall j | 0 <= j < |w.txns| && HasRow(w, j, s) ensures RowOf(s) in w.subLock {
      assert TxnOk(w, w.txns[j], j);
      assert HoldsSub(w.txns[j], RowOf(s));
    }
  }

  /** An edit waits while a redemption has the coupon row, and otherwise sets the
      four columns it names and no other; a deleted tenant is live no more. */
  lemma EditSets(w: World, es: seq<Event>, code: string, maxRedemptions: Option<int>, validUntil: Option<Time>,
                 onePerUser: bool, disabled: bool)
    requires Initial(w)
    ensures var w' := ExecAll(w, es);
            Exec(w', Edit(code, maxRedemptions, validUntil, onePerUser, disabled)) ==
            if code !in w'.tables.coupons || (exists j :: 0 <= j < |w'.txns| && HasCoupon(w', j, code)) then w'
            else
              var c := w'.tables.coupons[code];
              w'.(tables := w'.tables.(coupons := w'.tables.coupons[code :=
                Coupon(c.plan, c.days, maxRedemptions, c.count, c.validFrom, validUntil, onePerUser, disabled)]))
    ensures forall tenant, t :: t in Exec(ExecAll(w, es), DropTenant(tenant)).tables.liveTenants <==>
                                t in ExecAll(w, es).tables.liveTenants && t != tenant
  {
    InvAlways(w, es);
    CouponHeld(ExecAll(w, es), code);
  }

  lemma CouponHeld(w: World, code: string)
    requires Inv(w)
    ensures code in w.couponLock <==> exists j :: 0 <= j < |w.txns| && HasCoupon(w, j, code)
  {
    if code in w.couponLock {
      assert HeldBy(w.txns, code, w.couponLock[code]);
      assert HasCoupon(w, w.couponLock[code], code);
    }
    forall j | 0 <= j < |w.txns| && HasCoupon(w, j, code) ensures code in w.couponLock {
      assert TxnOk(w, w.txns[j], j);
    }
  }

  // ----- Safety -----

  /** Only a commit writes rows, and it writes exactly its grant. */
  lemma StepWrites(w: World, k: nat, a: Action)
    requires Inv(w) && k < |w.txns| && (a.Publish? ==> w.txns[k].pc == AtCommit)
    ensures var t' := Perform(w, k, a).tables;
            var x := w.txns[k];
            if a.Publish? then x.plan.Some? && x.sub.Some? && Commits(w.tables, t', GrantOf(x))
            else t' == w.tables.(nextSub := t'.nextSub)
  {
    assert TxnOk(w, w.txns[k], k);
  }

  /** What one event does to the rows: a commit of a validated transaction, or
      an edit that leaves rows and counts alone. */
  ghost predicate Effect(t: Tables, t': Tables) {
    || (exists g :: Commits(t, t', g))
    || (t'.plans == t.plans && t'.subs == t.subs && t'.redemptions == t.redemptions
        && (forall c :: c in t.coupons ==> c in t'.coupons && t'.coupons[c].count == t.coupons[c].count)
        && (forall c :: c in t'.coupons && c !in t.coupons ==> t'.coupons[c].count == 0))
  }

  ghost predicate Commits(t: Tables, t': Tables, g: Grant) {
    && t' == Commit(t, g) && Mirrors(g.redemption, g.sub)
    && (g.redemption.coupon.Some? ==>
          var code := g.redemption.coupon.value;
          && code in t.coupons
          && (t.coupons[code].maxRedemptions.Some? ==> t.coupons[code].count < t.coupons[code].maxRedemptions.value)
          && (t.coupons[code].onePerUser ==> !HasRedeemed(t.redemptions, code, g.redemption.user)))
  }

  lemma ExecEffect(w: World, e: Event)
    requires Inv(w)
    ensures Effect(w.tables, Exec(w, e).tables)
  {
    if e.Advance? {
      if e.k < |w.txns| {
        AdvanceEffect(w, e.k, NextAction(w, e.k, e.now));
      }
    } else {
      EditEffect(w, e);
    }
  }

  lemma AdvanceEffect(w: World, k: nat, a: Action)
    requires Inv(w) && k < |w.txns| && (a.Publish? ==> w.txns[k].pc == AtCommit)
    ensures Effect(w.tables, Perform(w, k, a).tables)
  {
    StepWrites(w, k, a);
  }

  lemma EditEffect(w: World, e: Event)
    requires !e.Advance?
    ensures Effect(w.tables, Exec(w, e).tables)
  {
  }

  lemma ExecAllStep(w: World, es: seq<Event>)
    requires Initial(w) && es != []
    ensures Inv(ExecAll(w, es[..|es| - 1])) && Inv(ExecAll(w, es))
    ensures Effect(ExecAll(w, es[..|es| - 1]).tables, ExecAll(w, es).tables)
  {
    InvAlways(w, es[..|es| - 1]);
    InvAlways(w, es);
    ExecEffect(ExecAll(w, es[..|es| - 1]), es[|es| - 1]);
  }

  /** Whenever an event of any run changes a coupon's count, the count grows by
      one and stays within the maximum then in force. */
  lemma CountWithinMax(w: World, es: seq<Event>, code: string)
    requires Initial(w) && es != []
    requires code in ExecAll(w, es[..|es| - 1]).tables.coupons
    ensures var before := ExecAll(w, es[..|es| - 1]).tables.coupons[code];
            && code in ExecAll(w, es).tables.coupons
            && var after := ExecAll(w, es).tables.coupons[code];
               after.count != before.count ==>
                 && after.count == before.count + 1
                 && (after.maxRedemptions.Some? ==> after.count <= after.maxRedemptions.value)
  {
    ExecAllStep(w, es);
  }

  ghost predicate OncePerUser(rows: seq<Redemption>, code: string) {
    forall i, j :: 0 <= i < j < |rows| && rows[i].coupon == rows[j].coupon == Some(code) ==>
        rows[i].user != rows[j].user
  }

  ghost predicate StaysOnePerUser(w: World, es: seq<Event>, code: string) {
    forall n :: 0 <= n <= |es| ==> OnePerUserAt(ExecAll(w, es[..n]).tables, code)
  }

  predicate OnePerUserAt(t: Tables, code: string) {
    code in t.coupons ==> t.coupons[code].onePerUser
  }

  lemma EffectOnce(t: Tables, t': Tables, code: string)
    requires Effect(t, t') && OnePerUserAt(t, code) && OncePerUser(t.redemptions, code)
    ensures OncePerUser(t'.redemptions, code)
  {
    if g :| Commits(t, t', g) {
      assert t'.redemptions == t.redemptions + [g.redemption];
      assert forall r :: r in t.redemptions && r.coupon == g.redemption.coupon == Some(code) ==>
          r.user != g.redemption.user;
    }
  }

  /** While a coupon stays one-per-user, no user redeems it twice, however the
      redemptions interleave. */
  lemma {:induction false} NoDoubleRedemption(w: World, es: seq<Event>, code: string)
    requires Initial(w) && OncePerUser(w.tables.redemptions, code) && StaysOnePerUser(w, es, code)
    ensures OncePerUser(ExecAll(w, es).tables.redemptions, code)
  {
    if es != [] {
      var n := |es| - 1;
      forall m | 0 <= m <= n ensures OnePerUserAt(ExecAll(w, es[..n][..m]).tables, code) {
        assert es[..n][..m] == es[..m];
      }
      NoDoubleRedemption(w, es[..n], code);
      ExecAllStep(w, es);
      assert es[..n][..n] == es[..n];
      EffectOnce(ExecAll(w, es[..n]).tables, ExecAll(w, es).tables, code);
    }
  }

  lemma EffectBooks(t0: Tables, t: Tables, t': Tables)
    requires Balanced(t) && Paired(t0, t) && Extends(t0, t) && Effect(t, t')
    ensures Balanced(t') && Paired(t0, t') && Extends(t0, t')
  {
    if g :| Commits(t, t', g) {
      CommitBooks(t0, t, g);
    }
  }

  /** Ledger conservation and append-only history over every interleaving. */
  lemma {:induction false} BooksAlways(w: World, es: seq<Event>)
    requires Initial(w)
    ensures var t := ExecAll(w, es).tables;
            ValidTables(t) && Balanced(t) && Paired(w.tables, t) && Extends(w.tables, t)
  {
    InvAlways(w, es);
    if es != [] {
      BooksAlways(w, es[..|es| - 1]);
      ExecAllStep(w, es);
      EffectBooks(w.tables, ExecAll(w, es[..|es| - 1]).tables, ExecAll(w, es).tables);
    }
  }

  // ----- Progress -----

  /** No deadlock: while some redemption is unfinished, some redemption can
      execute its next statement, whatever the clock says. */
  lemma SomeoneCanStep(w: World, es: seq<Event>, k: nat, now: Time) returns (j: nat)
    requires Initial(w) && k < |w.txns| && k < |ExecAll(w, es).txns| && Unfinished(ExecAll(w, es).txns[k])
    ensures j < |ExecAll(w, es).txns| && NextAction(ExecAll(w, es), j, now) != Wait
  {
    InvAlways(w, es);
    j := Unblocked(ExecAll(w, es), k, now);
  }

  /** Follow the wait: a coupon's holder is further on than its waiters; a
      subscription's holder is further on, or waits for one that starts earlier;
      and nobody waits after its insert. */
  lemma Unblocked(w: World, k: nat, now: Time) returns (j: nat)
    requires Inv(w) && k < |w.txns| && Unfinished(w.txns[k])
    ensures j < |w.txns| && NextAction(w, j, now) != Wait
    decreases 13 - Rank(w.txns[k].pc), Behind(w.txns, w.txns[k])
  {
    var x := w.txns[k];
    assert TxnOk(w, x, k);
    if NextAction(w, k, now) != Wait {
      return k;
    }
    if x.pc == AtCoupon {
      assert HeldBy(w.txns, x.code.value, w.couponLock[x.code.value]);
      j := Unblocked(w, w.couponLock[x.code.value], now);
    } else if x.pc == AtSub {
      var r := RowOf(x.picked.value);
      var h := w.subLock[r];
      assert SubHeldBy(w.txns, r, h);
      assert TxnOk(w, w.txns[h], h);
      if w.txns[h].pc == AtSub {
        BehindShrinks(w.txns, x, w.txns[h]);
      }
      j := Unblocked(w, h, now);
    } else {
      assert InsertBlocked(w, k, x.request.tenant, x.schedule.start);
      var i :| 0 <= i < |w.txns| && i != k && Occupies(w.txns[i], x.request.tenant, x.schedule.start);
      j := Unblocked(w, i, now);
    }
  }

  /** How many transactions have a candidate that starts before this one's. */
  function Behind(txns: seq<Txn>, x: Txn): nat {
    if txns == [] then 0
    else Behind(txns[..|txns| - 1], x) + if Before(txns[|txns| - 1], x) then 1 else 0
  }

  predicate Before(y: Txn, x: Txn) {
    y.picked.Some? && x.picked.Some? && y.picked.value.start < x.picked.value.start
  }

  lemma {:induction false} BehindMonotone(txns: seq<Txn>, x: Txn, y: Txn)
    requires Before(y, x)
    ensures Behind(txns, y) <= Behind(txns, x)
    ensures y in txns ==> Behind(txns, y) < Behind(txns, x)
  {
    if txns != [] {
      BehindMonotone(txns[..|txns| - 1], x, y);
    }
  }

  lemma BehindShrinks(txns: seq<Txn>, x: Txn, y: Txn)
    requires Before(y, x) && y in txns
    ensures Behind(txns, y) < Behind(txns, x)
  {
    BehindMonotone(txns, x, y);
  }
}
