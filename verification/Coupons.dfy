/**
 Coupon redemption: the tables it touches, what one redemption decides and
 writes, and what a preview announces. A coupon is keyed by its upper-cased
 code, which the unique index on upper(code) makes an identifier.
 */
module Coupons {
  import opened Options
  import opened Text

  /** Instants and durations, in microseconds. */
  type Time = int

  const DAY: Time := 86_400_000_000

  // ----- Rows -----

  datatype Terms = Terms(allowance: int, overageCap: Option<int>, overageMarkup: int, tts: bool)

  datatype Plan = Plan(price: int, billingMode: string, allowsOverage: bool, terms: Terms)

  datatype Exhaustion = WalletBalance | AllowOverage | HardBlock

  datatype Status = Active | Superseded

  datatype Sub = Sub(id: nat, tenant: nat, plan: string, status: Status, start: Time, end: Time,
                     exhaustion: Exhaustion, overage: bool, terms: Terms)

  datatype Coupon = Coupon(plan: string, days: int, maxRedemptions: Option<int>, count: int,
                           validFrom: Option<Time>, validUntil: Option<Time>,
                           onePerUser: bool, disabled: bool)

  /** An audit row. The coupon is absent for a direct admin grant. */
  datatype Redemption = Redemption(coupon: Option<string>, user: nat, tenant: nat, subId: nat,
                                   plan: string, days: int, start: Time, end: Time,
                                   grantedBy: Option<nat>)

  datatype Tables = Tables(plans: map<string, Plan>, liveTenants: set<nat>,
                           coupons: map<string, Coupon>, subs: seq<Sub>,
                           redemptions: seq<Redemption>, nextSub: nat)

  /** What the schema and the admin route keep true of the tables: keys, the
      unique index on (tenant, start), foreign keys, positive
      durations and codes that are not empty. */
  ghost predicate ValidTables(t: Tables) {
    && ValidSubs(t.subs)
    && (forall s :: s in t.subs ==> s.id < t.nextSub && s.plan in t.plans)
    && (forall c :: c in t.coupons ==> c != "" && t.coupons[c].days > 0)
  }

  ghost predicate ValidSubs(subs: seq<Sub>) {
    && (forall s :: s in subs ==> s.start < s.end)
    && (forall i, j :: 0 <= i < j < |subs| ==> subs[i].id != subs[j].id && !SameStart(subs[i], subs[j]))
  }

  predicate SameStart(a: Sub, b: Sub) {
    a.tenant == b.tenant && a.start == b.start
  }

  // ----- Queries -----

  predicate Live(s: Sub, tenant: nat) {
    s.tenant == tenant && s.status == Active
  }

  /** The window is closed at both ends, as SQL's BETWEEN is. */
  predicate Covers(s: Sub, tenant: nat, t: Time) {
    Live(s, tenant) && s.start <= t <= s.end
  }

  /** The subscription in force at t: the in-window active row with the latest start. */
  function InForce(subs: seq<Sub>, tenant: nat, t: Time): (r: Option<Sub>)
    ensures r.Some? ==> r.value in subs && Covers(r.value, tenant, t)
  {
    if subs == [] then None
    else
      var n := |subs| - 1;
      var before := InForce(subs[..n], tenant, t);
      if !Covers(subs[n], tenant, t) then before
      else if before.Some? && subs[n].start <= before.value.start then before
      else Some(subs[n])
  }

  /** In force is an active row of the tenant whose window, both ends included,
      holds the instant, with the latest start of all such rows. */
  lemma {:induction false} InForceLatest(subs: seq<Sub>, tenant: nat, t: Time)
    ensures InForce(subs, tenant, t).None? <==> forall s :: s in subs ==> !Covers(s, tenant, t)
    ensures forall s :: s in subs && Covers(s, tenant, t) ==> s.start <= InForce(subs, tenant, t).value.start
    ensures forall s :: Covers(s, tenant, t) <==> s.tenant == tenant && s.status == Active && s.start <= t && t <= s.end
  {
    if subs != [] {
      InForceLatest(subs[..|subs| - 1], tenant, t);
      assert subs[|subs| - 1] in subs;
    }
  }

  /** MAX(period_end) over the tenant's active rows. */
  function TailEnd(subs: seq<Sub>, tenant: nat): Option<Time> {
    if subs == [] then None
    else
      var n := |subs| - 1;
      var before := TailEnd(subs[..n], tenant);
      if !Live(subs[n], tenant) then before
      else if before.Some? && subs[n].end <= before.value then before
      else Some(subs[n].end)
  }

  lemma {:induction false} TailEndIsMax(subs: seq<Sub>, tenant: nat)
    ensures forall s :: Live(s, tenant) <==> s.tenant == tenant && s.status == Active
    ensures TailEnd(subs, tenant).None? <==> forall s :: s in subs ==> !Live(s, tenant)
    ensures forall s :: s in subs && Live(s, tenant) ==> s.end <= TailEnd(subs, tenant).value
    ensures TailEnd(subs, tenant).Some? ==>
        exists s :: s in subs && Live(s, tenant) && s.end == TailEnd(subs, tenant).value
  {
    if subs != [] {
      TailEndIsMax(subs[..|subs| - 1], tenant);
      assert subs[|subs| - 1] in subs;
    }
  }

  predicate StartTaken(subs: seq<Sub>, tenant: nat, start: Time) {
    exists s :: s in subs && s.tenant == tenant && s.start == start
  }

  predicate HasRedeemed(rows: seq<Redemption>, code: string, user: nat) {
    exists r :: r in rows && r.coupon == Some(code) && r.user == user
  }

  /** UPDATE ... SET status = 'superseded' WHERE id = ... */
  function Supersede(subs: seq<Sub>, id: Option<nat>): (r: seq<Sub>)
    ensures |r| == |subs|
    ensures forall i :: 0 <= i < |subs| ==>
              r[i] == if Some(subs[i].id) == id then subs[i].(status := Superseded) else subs[i]
  {
    seq(|subs|, i requires 0 <= i < |subs| =>
      if Some(subs[i].id) == id then subs[i].(status := Superseded) else subs[i])
  }

  // ----- Codes -----

  function NormalizeCode(code: string): string {
    Upper(Strip(code))
  }

  // ----- Deciding a redemption -----

  datatype CouponError =
    | BadCall
    | CouponNotFound
    | CouponDisabled
    | CouponNotYetValid
    | CouponExpired
    | CouponExhausted
    | CouponAlreadyRedeemed
    | ConcurrentRedeem
    | InvalidPlan
    | TenantNotFound
    | InvalidDuration

  datatype Request = Request(code: Option<string>, user: nat, tenant: nat, grantedBy: Option<nat>,
                             planOverride: Option<string>, daysOverride: Option<int>)

  /** One redemption reads three clocks: SQL now() is the start of the
      transaction, and the application reads its own clock when it validates
      the coupon and again when it computes the schedule. */
  datatype Clock = Clock(transaction: Time, validation: Time, scheduling: Time)

  function Frozen(now: Time): Clock { Clock(now, now, now) }

  datatype Schedule = Schedule(start: Time, end: Time, supersedes: Option<nat>)

  /** Everything one redemption writes. */
  datatype Grant = Grant(sub: Sub, supersedes: Option<nat>, redemption: Redemption, immediate: bool)

  function ComparePlanTier(a: int, b: int): int {
    if a < b then -1 else if a > b then 1 else 0
  }

  function ExhaustionBehavior(p: Plan): Exhaustion {
    if p.billingMode == "wallet" then WalletBalance
    else if p.allowsOverage then AllowOverage
    else HardBlock
  }

  function CheckArguments(q: Request): Option<CouponError> {
    if q.code.None? then
      if q.grantedBy.None? then Some(BadCall)
      else if q.planOverride.None? || q.planOverride.value == "" then Some(InvalidPlan)
      else if q.daysOverride.None? || q.daysOverride.value <= 0 then Some(InvalidDuration)
      else None
    else if q.grantedBy.Some? then Some(BadCall)
    else None
  }

  function ValidateStatic(c: Coupon, now: Time): Option<CouponError> {
    if c.disabled then Some(CouponDisabled)
    else if c.validFrom.Some? && now < c.validFrom.value then Some(CouponNotYetValid)
    else if c.validUntil.Some? && now > c.validUntil.value then Some(CouponExpired)
    else if c.maxRedemptions.Some? && c.count >= c.maxRedemptions.value then Some(CouponExhausted)
    else None
  }

  function ValidateCoupon(c: Coupon, code: string, user: nat, rows: seq<Redemption>, now: Time): Option<CouponError> {
    if ValidateStatic(c, now).Some? then ValidateStatic(c, now)
    else if c.onePerUser && HasRedeemed(rows, code, user) then Some(CouponAlreadyRedeemed)
    else None
  }

  function ComputeSchedule(planId: string, price: int, days: int, current: Option<Sub>, currentPrice: int,
                           tail: Option<Time>, now: Time): Schedule
  {
    if current.None? then Schedule(now, now + days * DAY, None)
    else
      var chainEnd := if tail.Some? then tail.value else current.value.end;
      if current.value.plan == planId || ComparePlanTier(price, currentPrice) < 0 then
        Schedule(chainEnd, chainEnd + days * DAY, None)
      else
        Schedule(now, now + days * DAY, Some(current.value.id))
  }

  /** The price the JOIN on the plan catalogue attaches to a subscription. */
  function PriceOf(plans: map<string, Plan>, s: Option<Sub>): int {
    if s.Some? && s.value.plan in plans then plans[s.value.plan].price else 0
  }

  function NewSub(id: nat, tenant: nat, planId: string, plan: Plan, sch: Schedule): Sub {
    Sub(id, tenant, planId, Active, sch.start, sch.end, ExhaustionBehavior(plan), plan.allowsOverage, plan.terms)
  }

  function NewRedemption(q: Request, code: Option<string>, sub: Sub, days: int): Redemption {
    Redemption(code, q.user, q.tenant, sub.id, sub.plan, days, sub.start, sub.end, q.grantedBy)
  }

  function MakeGrant(q: Request, code: Option<string>, id: nat, planId: string, plan: Plan, days: int,
                     current: Option<Sub>, sch: Schedule): Grant
  {
    var sub := NewSub(id, q.tenant, planId, plan, sch);
    Grant(sub, sch.supersedes, NewRedemption(q, code, sub, days), sch.supersedes.Some? || current.None?)
  }

  /** What a redemption running alone decides. */
  function Decide(t: Tables, q: Request, clock: Clock): Result<Grant, CouponError> {
    if CheckArguments(q).Some? then Err(CheckArguments(q).value)
    else if q.code.None? then DecidePlan(t, q, None, q.planOverride.value, q.daysOverride.value, clock)
    else
      var code := NormalizeCode(q.code.value);
      if code !in t.coupons then Err(CouponNotFound)
      else
        var c := t.coupons[code];
        var invalid := ValidateCoupon(c, code, q.user, t.redemptions, clock.validation);
        if invalid.Some? then Err(invalid.value)
        else DecidePlan(t, q, Some(code), c.plan, c.days, clock)
  }

  function DecidePlan(t: Tables, q: Request, code: Option<string>, planId: string, days: int, clock: Clock)
    : Result<Grant, CouponError>
  {
    if planId !in t.plans then Err(InvalidPlan)
    else
      var sch := ScheduleFor(t, q.tenant, planId, days, clock);
      if q.tenant !in t.liveTenants then Err(TenantNotFound)
      else if StartTaken(t.subs, q.tenant, sch.start) then Err(ConcurrentRedeem)
      else
        Ok(MakeGrant(q, code, t.nextSub, planId, t.plans[planId], days,
                     InForce(t.subs, q.tenant, clock.transaction), sch))
  }

  function ScheduleFor(t: Tables, tenant: nat, planId: string, days: int, clock: Clock): Schedule
    requires planId in t.plans
  {
    var current := InForce(t.subs, tenant, clock.transaction);
    ComputeSchedule(planId, t.plans[planId].price, days, current, PriceOf(t.plans, current),
                    TailEnd(t.subs, tenant), clock.scheduling)
  }

  function BumpCount(coupons: map<string, Coupon>, code: Option<string>): map<string, Coupon> {
    if code.Some? && code.value in coupons then
      coupons[code.value := coupons[code.value].(count := coupons[code.value].count + 1)]
    else coupons
  }

  /** The committed effect of a grant, on all tables at once. */
  function Commit(t: Tables, g: Grant): Tables {
    t.(subs := Supersede(t.subs, g.supersedes) + [g.sub],
       redemptions := t.redemptions + [g.redemption],
       coupons := BumpCount(t.coupons, g.redemption.coupon),
       nextSub := if g.sub.id < t.nextSub then t.nextSub else g.sub.id + 1)
  }

  /** A redemption running alone: all of its writes, or none. */
  function Redeemed(t: Tables, q: Request, clock: Clock): Tables {
    match Decide(t, q, clock)
    case Ok(g) => Commit(t, g)
    case Err(_) => t
  }

  /** Table by table and row by row, what a commit changes and what it does not. */
  lemma CommitWrites(t: Tables, g: Grant)
    ensures var t' := Commit(t, g);
            && t'.plans == t.plans && t'.liveTenants == t.liveTenants
            && t'.redemptions == t.redemptions + [g.redemption]
            && |t'.subs| == |t.subs| + 1 && t'.subs[|t.subs|] == g.sub
            && (forall i :: 0 <= i < |t.subs| ==>
                  var s := t.subs[i];
                  t'.subs[i] == if g.supersedes == Some(s.id)
                                then Sub(s.id, s.tenant, s.plan, Superseded, s.start, s.end,
                                         s.exhaustion, s.overage, s.terms)
                                else s)
            && t'.coupons.Keys == t.coupons.Keys
            && forall code :: code in t.coupons ==>
                 var c := t.coupons[code];
                 t'.coupons[code] == if g.redemption.coupon == Some(code)
                                     then Coupon(c.plan, c.days, c.maxRedemptions, c.count + 1, c.validFrom,
                                                 c.validUntil, c.onePerUser, c.disabled)
                                     else c
  {
  }

  /** A code may be typed with spaces around it and in either case. */
  lemma SpellingForgotten(t: Tables, q: Request, clock: Clock, pre: string, a: string, b: string, post: string)
    requires Blank(pre) && Blank(post) && Tight(b)
    requires |a| == |b| && forall i :: 0 <= i < |a| ==> LowerChar(a[i]) == LowerChar(b[i])
    ensures Decide(t, q.(code := Some(pre + a + post)), clock) == Decide(t, q.(code := Some(b)), clock)
  {
    UpperForgets(pre, a, b, post);
    UpperForgets("", b, b, "");
    assert "" + b + "" == b;
  }

  // ----- What is refused, read off the rows -----

  /** Where a redemption of the plan would start. */
  function StartFor(t: Tables, tenant: nat, planId: string, clock: Clock): Time {
    var current, tail := InForce(t.subs, tenant, clock.transaction), TailEnd(t.subs, tenant);
    if current.None? || tail.None? then clock.scheduling
    else if current.value.plan == planId then tail.value
    else if planId in t.plans && current.value.plan in t.plans
            && t.plans[planId].price < t.plans[current.value.plan].price
    then tail.value
    else clock.scheduling
  }

  /** The refusals that concern the plan, the tenant and its timeline. */
  ghost function PlanRefusal(t: Tables, tenant: nat, planId: string, clock: Clock): Option<CouponError> {
    if planId !in t.plans then Some(InvalidPlan)
    else if tenant !in t.liveTenants then Some(TenantNotFound)
    else if exists s :: s in t.subs && s.tenant == tenant && s.start == StartFor(t, tenant, planId, clock)
    then Some(ConcurrentRedeem)
    else None
  }

  /** The refusals that concern the coupon and its user. */
  ghost function CouponRefusal(t: Tables, code: string, user: nat, now: Time): Option<CouponError> {
    if code !in t.coupons then Some(CouponNotFound)
    else
      var c := t.coupons[code];
      if c.disabled then Some(CouponDisabled)
      else if c.validFrom.Some? && now < c.validFrom.value then Some(CouponNotYetValid)
      else if c.validUntil.Some? && c.validUntil.value < now then Some(CouponExpired)
      else if c.maxRedemptions.Some? && c.maxRedemptions.value <= c.count then Some(CouponExhausted)
      else if c.onePerUser && exists r :: r in t.redemptions && r.coupon == Some(code) && r.user == user
      then Some(CouponAlreadyRedeemed)
      else None
  }

  ghost function Refusal(t: Tables, q: Request, clock: Clock): Option<CouponError> {
    match (q.code, q.grantedBy)
    case (None, None) => Some(BadCall)
    case (Some(_), Some(_)) => Some(BadCall)
    case (None, Some(_)) =>
      if q.planOverride.None? || q.planOverride == Some("") then Some(InvalidPlan)
      else if q.daysOverride.None? || q.daysOverride.value < 1 then Some(InvalidDuration)
      else PlanRefusal(t, q.tenant, q.planOverride.value, clock)
    case (Some(raw), None) =>
      var code := Upper(Strip(raw));
      var refusal := CouponRefusal(t, code, q.user, clock.validation);
      if refusal.Some? then refusal else PlanRefusal(t, q.tenant, t.coupons[code].plan, clock)
  }

  lemma PlanRefused(t: Tables, q: Request, code: Option<string>, planId: string, days: int, clock: Clock)
    requires ValidTables(t)
    ensures var d := DecidePlan(t, q, code, planId, days, clock);
            PlanRefusal(t, q.tenant, planId, clock) == if d.Err? then Some(d.error) else None
  {
    InForceLatest(t.subs, q.tenant, clock.transaction);
    TailEndIsMax(t.subs, q.tenant);
  }

  /** Each refusal has its ground in the rows, in the order they are looked for;
      and with no ground for refusal the redemption succeeds. */
  lemma RefusedFor(t: Tables, q: Request, clock: Clock)
    requires ValidTables(t)
    ensures var d := Decide(t, q, clock); Refusal(t, q, clock) == if d.Err? then Some(d.error) else None
  {
    match (q.code, q.grantedBy)
    case (None, Some(_)) =>
      if q.planOverride.Some? && q.daysOverride.Some? {
        PlanRefused(t, q, None, q.planOverride.value, q.daysOverride.value, clock);
      }
    case (Some(raw), None) =>
      var code := NormalizeCode(raw);
      if code in t.coupons {
        PlanRefused(t, q, Some(code), t.coupons[code].plan, t.coupons[code].days, clock);
      }
    case _ =>
  }

  /** A coupon is redeemed exactly when nothing in the rows stands against it. */
  lemma CouponRedeemedIff(t: Tables, raw: string, user: nat, tenant: nat, clock: Clock)
    requires ValidTables(t)
    ensures Decide(t, Request(Some(raw), user, tenant, None, None, None), clock).Ok? <==>
            var code := Upper(Strip(raw));
            && code in t.coupons
            && var c := t.coupons[code];
               && !c.disabled
               && (c.validFrom.Some? ==> c.validFrom.value <= clock.validation)
               && (c.validUntil.Some? ==> clock.validation <= c.validUntil.value)
               && (c.maxRedemptions.Some? ==> c.count < c.maxRedemptions.value)
               && (c.onePerUser ==> forall r :: r in t.redemptions ==> !(r.coupon == Some(code) && r.user == user))
               && c.plan in t.plans && tenant in t.liveTenants
               && forall s :: s in t.subs ==> !(s.tenant == tenant && s.start == StartFor(t, tenant, c.plan, clock))
  {
    RefusedFor(t, Request(Some(raw), user, tenant, None, None, None), clock);
  }

  // ----- The transaction -----

  class CouponDb {
    const plans: map<string, Plan>
    var liveTenants: set<nat>
    var coupons: map<string, Coupon>
    var subs: seq<Sub>
    var redemptions: seq<Redemption>
    var nextSub: nat

    function Contents(): Tables
      reads this
    {
      Tables(plans, liveTenants, coupons, subs, redemptions, nextSub)
    }

    constructor (t: Tables)
      ensures Contents() == t
    {
      plans := t.plans;
      liveTenants := t.liveTenants;
      coupons := t.coupons;
      subs := t.subs;
      redemptions := t.redemptions;
      nextSub := t.nextSub;
    }

    /** Validates, schedules, inserts, supersedes, audits and counts, statement
        by statement; an error before the commit leaves no trace. */
    method Redeem(q: Request, clock: Clock) returns (r: Result<Grant, CouponError>)
      requires ValidTables(Contents())
      modifies this
      ensures r == Decide(old(Contents()), q, clock)
      ensures Refusal(old(Contents()), q, clock) == if r.Err? then Some(r.error) else None
      ensures Contents() == Redeemed(old(Contents()), q, clock)
    {
      RefusedFor(Contents(), q, clock);
      var misuse := CheckArguments(q);
      if misuse.Some? {
        return Err(misuse.value);
      }

      // 1. The coupon row, or the admin's overrides.
      var code: Option<string> := None;
      var planId, days;
      if q.code.Some? {
        var normalized := NormalizeCode(q.code.value);
        if normalized !in coupons {
          return Err(CouponNotFound);
        }
        var row := coupons[normalized];
        var invalid := ValidateCoupon(row, normalized, q.user, redemptions, clock.validation);
        if invalid.Some? {
          return Err(invalid.value);
        }
        code, planId, days := Some(normalized), row.plan, row.days;
      } else {
        planId, days := q.planOverride.value, q.daysOverride.value;
      }

      // 2-4. The plan, the running subscription, the tail and the schedule.
      if planId !in plans {
        return Err(InvalidPlan);
      }
      var plan := plans[planId];
      var current := InForce(subs, q.tenant, clock.transaction);
      var tail := TailEnd(subs, q.tenant);
      var sch := ComputeSchedule(planId, plan.price, days, current, PriceOf(plans, current), tail, clock.scheduling);
      if q.tenant !in liveTenants {
        return Err(TenantNotFound);
      }

      // 5. The new subscription; the unique index may refuse it.
      if StartTaken(subs, q.tenant, sch.start) {
        return Err(ConcurrentRedeem);
      }
      var sub := NewSub(nextSub, q.tenant, planId, plan, sch);
      var redemption := NewRedemption(q, code, sub, days);
      var g := Grant(sub, sch.supersedes, redemption, sch.supersedes.Some? || current.None?);
      assert Decide(Contents(), q, clock) == Ok(g);
      assert g.supersedes != Some(sub.id);
      Write(g);
      r := Ok(g);
    }

    /** The four writes, in order. */
    method Write(g: Grant)
      requires g.sub.id == nextSub && g.supersedes != Some(g.sub.id)
      requires g.redemption.coupon.Some? ==> g.redemption.coupon.value in coupons
      modifies this
      ensures Contents() == Commit(old(Contents()), g)
    {
      subs := subs + [g.sub];
      nextSub := nextSub + 1;
      if g.supersedes.Some? {
        SupersedeSkipsNew(old(subs), g.sub, g.supersedes);
        subs := Supersede(subs, g.supersedes);
      } else {
        assert Supersede(old(subs), None) == old(subs);
      }
      redemptions := redemptions + [g.redemption];
      var code := g.redemption.coupon;
      if code.Some? {
        coupons := coupons[code.value := coupons[code.value].(count := coupons[code.value].count + 1)];
      }
    }
  }

  lemma SupersedeSkipsNew(subs: seq<Sub>, sub: Sub, id: Option<nat>)
    requires id != Some(sub.id)
    ensures Supersede(subs + [sub], id) == Supersede(subs, id) + [sub]
  {
  }

  // ----- Preview -----

  datatype Kind = Immediate | Renewal | DowngradeQueued | UpgradeImmediate

  datatype Announcement = Announcement(kind: Kind, schedule: Schedule, alreadyRedeemed: bool)

  /** A preview reads the transaction's clock, then its own clock at validation
      and once each for the announced start and end. */
  datatype PreviewClock = PreviewClock(transaction: Time, validation: Time, start: Time, end: Time)

  /** The coupon lookup drops an empty code and joins the plan catalogue. */
  function Preview(t: Tables, rawCode: string, user: nat, tenant: Option<nat>, clock: PreviewClock)
    : Result<Announcement, CouponError>
  {
    var code := NormalizeCode(rawCode);
    if code == "" || code !in t.coupons || t.coupons[code].plan !in t.plans then Err(CouponNotFound)
    else
      var c := t.coupons[code];
      if c.disabled then Err(CouponDisabled)
      else if c.validFrom.Some? && clock.validation < c.validFrom.value then Err(CouponNotYetValid)
      else if c.validUntil.Some? && clock.validation > c.validUntil.value then Err(CouponExpired)
      else if c.maxRedemptions.Some? && c.count >= c.maxRedemptions.value then Err(CouponExhausted)
      else
        var already := c.onePerUser && HasRedeemed(t.redemptions, code, user);
        var current := if tenant.Some? then InForce(t.subs, tenant.value, clock.transaction) else None;
        if current.None? then
          Ok(Announcement(Immediate, Schedule(clock.start, clock.end + c.days * DAY, None), already))
        else
          var same := current.value.plan == c.plan;
          var cmp := ComparePlanTier(t.plans[c.plan].price, PriceOf(t.plans, current));
          if same || cmp < 0 then
            var tail := TailEnd(t.subs, tenant.value);
            var ps := if tail.Some? then tail.value else current.value.end;
            Ok(Announcement(if same then Renewal else DowngradeQueued, Schedule(ps, ps + c.days * DAY, None), already))
          else
            Ok(Announcement(UpgradeImmediate,
                            Schedule(clock.start, clock.end + c.days * DAY, Some(current.value.id)), already))
  }

  function CouponRequest(code: string, user: nat, tenant: nat): Request {
    Request(Some(code), user, tenant, None, None, None)
  }

  /** What is announced, read off the rows: the coupon's refusals but for the
      user's, which is a flag; the kind by the plan in force and the prices; and
      the window it goes with. */
  lemma PreviewIs(t: Tables, raw: string, user: nat, tenant: Option<nat>, clock: PreviewClock)
    requires ValidTables(t)
    ensures var p := Preview(t, raw, user, tenant, clock);
            var code := Upper(Strip(raw));
            var refusal := CouponRefusal(t, code, user, clock.validation);
            && (p == Err(CouponNotFound) <==> code !in t.coupons || t.coupons[code].plan !in t.plans)
            && (code in t.coupons && t.coupons[code].plan in t.plans ==>
                  && (p.Err? <==> refusal.Some? && refusal != Some(CouponAlreadyRedeemed))
                  && (p.Err? ==> refusal == Some(p.error))
                  && (p.Ok? ==> p.value.alreadyRedeemed == (refusal == Some(CouponAlreadyRedeemed))))
    ensures var p := Preview(t, raw, user, tenant, clock);
            p.Ok? ==>
              var c := t.coupons[Upper(Strip(raw))];
              var sch := p.value.schedule;
              if tenant.None? || InForce(t.subs, tenant.value, clock.transaction).None? then
                p.value.kind == Immediate && sch == Schedule(clock.start, clock.end + c.days * DAY, None)
              else
                var r := InForce(t.subs, tenant.value, clock.transaction).value;
                match p.value.kind
                case Renewal => c.plan == r.plan && QueuedAt(t, tenant.value, c.days, sch)
                case DowngradeQueued =>
                  && c.plan != r.plan && t.plans[c.plan].price < t.plans[r.plan].price
                  && QueuedAt(t, tenant.value, c.days, sch)
                case UpgradeImmediate =>
                  && c.plan != r.plan && t.plans[c.plan].price >= t.plans[r.plan].price
                  && sch == Schedule(clock.start, clock.end + c.days * DAY, Some(r.id))
                case Immediate => false
  {
    if tenant.Some? {
      InForceLatest(t.subs, tenant.value, clock.transaction);
      TailEndIsMax(t.subs, tenant.value);
    }
  }

  predicate QueuedAt(t: Tables, tenant: nat, days: int, sch: Schedule) {
    TailEnd(t.subs, tenant) == Some(sch.start) && sch.end == sch.start + days * DAY && sch.supersedes.None?
  }

  /** At a frozen clock a redemption succeeds exactly when the preview does,
      without the already-redeemed flag, for a live tenant whose timeline has
      no row at the announced start; and it does what was announced. */
  lemma PreviewForetellsRedeem(t: Tables, code: string, user: nat, tenant: nat, now: Time)
    requires ValidTables(t)
    ensures var p := Preview(t, code, user, Some(tenant), PreviewClock(now, now, now, now));
            var d := Decide(t, CouponRequest(code, user, tenant), Frozen(now));
            && (d.Ok? <==> p.Ok? && !p.value.alreadyRedeemed && tenant in t.liveTenants
                           && !StartTaken(t.subs, tenant, p.value.schedule.start))
            && (d.Ok? ==> && Schedule(d.value.sub.start, d.value.sub.end, d.value.supersedes) == p.value.schedule
                          && (d.value.immediate <==> p.value.kind in {Immediate, UpgradeImmediate})
                          && Commit(t, d.value).subs[|t.subs|] == d.value.sub)
            && (p.Err? ==> d.Err? && (p.error == CouponNotFound || d.error == p.error))
  {
  }
}
