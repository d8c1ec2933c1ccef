/**
 The timeline of one tenant under redemptions run one after another: which
 subscription is in force when, when active windows are disjoint, and how much
 time they cover.
 */
module CouponTimeline {
  import opened Options
  import opened Text
  import opened Coupons

  // ----- Shape of a timeline -----

  /** Active windows of the tenant share at most end points. */
  ghost predicate Disjoint(subs: seq<Sub>, tenant: nat) {
    forall a, b :: a in subs && b in subs && Live(a, tenant) && Live(b, tenant) && a != b ==> Apart(a, b)
  }

  predicate Apart(a: Sub, b: Sub) {
    a.end <= b.start || b.end <= a.start
  }

  /** Every active window still to come starts where another one ends. */
  ghost predicate Contiguous(subs: seq<Sub>, tenant: nat, now: Time) {
    forall s :: s in subs && Live(s, tenant) && now < s.start ==> Follows(subs, tenant, s)
  }

  ghost predicate Follows(subs: seq<Sub>, tenant: nat, s: Sub) {
    exists p :: p in subs && Live(p, tenant) && p.end == s.start
  }

  function Instants(lo: Time, hi: Time): (r: set<Time>)
    requires lo <= hi
    ensures forall x :: x in r <==> lo <= x < hi
    ensures |r| == hi - lo
    decreases hi - lo
  {
    if lo == hi then {} else Instants(lo, hi - 1) + {hi - 1}
  }

  /** Every window has a positive length. */
  ghost predicate Proper(subs: seq<Sub>) {
    forall s :: s in subs ==> s.start < s.end
  }

  /** The instants inside some active window of the tenant. */
  function Covered(subs: seq<Sub>, tenant: nat): set<Time>
    requires Proper(subs)
  {
    if subs == [] then {}
    else
      var n := |subs| - 1;
      Covered(subs[..n], tenant) + if Live(subs[n], tenant) then Instants(subs[n].start, subs[n].end) else {}
  }

  /** SQL's now() is read no later than the application's clock. */
  predicate Timely(clock: Clock) {
    clock.transaction <= clock.scheduling
  }

  // ----- Facts about single rows and queries -----

  lemma IdsDistinct(subs: seq<Sub>, a: Sub, b: Sub)
    requires ValidSubs(subs) && a in subs && b in subs && (a.id == b.id || SameStart(a, b))
    ensures a == b
  {
    var i :| 0 <= i < |subs| && subs[i] == a;
    var j :| 0 <= j < |subs| && subs[j] == b;
    assert !(i < j) && !(j < i);
  }

  /** The latest covering start is unique, so it determines the row in force. */
  lemma InForceIs(subs: seq<Sub>, tenant: nat, t: Time, s: Sub)
    requires ValidSubs(subs) && s in subs && Covers(s, tenant, t)
    requires forall r :: r in subs && Covers(r, tenant, t) ==> r.start <= s.start
    ensures InForce(subs, tenant, t) == Some(s)
  {
    InForceLatest(subs, tenant, t);
    IdsDistinct(subs, InForce(subs, tenant, t).value, s);
  }

  /** A row is in the table after a supersession iff it was there and was not
      the superseded one, or is the superseded one with its new status. */
  lemma SupersedeMember(subs: seq<Sub>, id: Option<nat>, r: Sub)
    ensures r in Supersede(subs, id) <==>
            exists s :: s in subs && r == (if Some(s.id) == id then s.(status := Superseded) else s)
  {
    var after := Supersede(subs, id);
    if r in after {
      var i :| 0 <= i < |after| && after[i] == r;
      assert subs[i] in subs;
    }
    if s :| s in subs && r == (if Some(s.id) == id then s.(status := Superseded) else s) {
      var i :| 0 <= i < |subs| && subs[i] == s;
      assert after[i] == r;
    }
  }

  /** The active rows after a commit: the new one and every old active row but
      the superseded one. */
  lemma LiveAfterCommit(t: Tables, g: Grant, tenant: nat, r: Sub)
    requires g.sub.status == Active
    ensures r in Commit(t, g).subs && Live(r, tenant) <==>
            (r == g.sub && g.sub.tenant == tenant) || (r in t.subs && Live(r, tenant) && Some(r.id) != g.supersedes)
  {
    SupersedeMember(t.subs, g.supersedes, r);
  }

  lemma SupersedeNone(subs: seq<Sub>)
    ensures Supersede(subs, None) == subs
  {
  }

  /** What a successful redemption is made of. */
  lemma GrantShape(t: Tables, q: Request, clock: Clock)
    requires ValidTables(t) && Decide(t, q, clock).Ok?
    ensures var g := Decide(t, q, clock).value;
            && Live(g.sub, q.tenant) && g.sub.id == t.nextSub
            && g.redemption.days > 0 && g.sub.end == g.sub.start + g.redemption.days * DAY
            && g.sub.start < g.sub.end
            && !StartTaken(t.subs, q.tenant, g.sub.start)
            && g.sub.plan in t.plans && q.tenant in t.liveTenants
            && g.sub.terms == t.plans[g.sub.plan].terms && g.sub.overage == t.plans[g.sub.plan].allowsOverage
            && (g.sub.exhaustion == WalletBalance <==> t.plans[g.sub.plan].billingMode == "wallet")
            && (g.sub.exhaustion == HardBlock <==> t.plans[g.sub.plan].billingMode != "wallet" && !g.sub.overage)
            && g.redemption == Redemption(g.redemption.coupon, q.user, q.tenant, g.sub.id, g.sub.plan,
                                          g.redemption.days, g.sub.start, g.sub.end, q.grantedBy)
            && (match InForce(t.subs, q.tenant, clock.transaction)
                case None => g.sub.start == clock.scheduling && g.supersedes.None? && g.immediate
                case Some(r) =>
                  if g.supersedes.Some? then g.sub.start == clock.scheduling && g.supersedes == Some(r.id) &&
                      g.immediate
                                             && g.sub.plan != r.plan
                                             && t.plans[g.sub.plan].price >= t.plans[r.plan].price
                  else Some(g.sub.start) == TailEnd(t.subs, q.tenant) && !g.immediate
                       && (g.sub.plan == r.plan || t.plans[g.sub.plan].price < t.plans[r.plan].price))
  {
    TailEndIsMax(t.subs, q.tenant);
  }

  /** Its plan and its days are the coupon's, or for a direct grant the admin's, and
      a day has the microseconds of twenty-four hours. */
  lemma GrantTerms(t: Tables, q: Request, clock: Clock)
    requires ValidTables(t) && Decide(t, q, clock).Ok?
    ensures var g := Decide(t, q, clock).value;
            && g.sub.end - g.sub.start == g.redemption.days * 24 * 60 * 60 * 1_000_000
            && match q.code
               case Some(raw) =>
                 && g.redemption.coupon == Some(Upper(Strip(raw))) && Upper(Strip(raw)) in t.coupons
                 && g.sub.plan == t.coupons[Upper(Strip(raw))].plan
                 && g.redemption.days == t.coupons[Upper(Strip(raw))].days
               case None =>
                 g.redemption.coupon == None && q.planOverride == Some(g.sub.plan)
                 && q.daysOverride == Some(g.redemption.days)
  {
    GrantShape(t, q, clock);
  }

  /** A redemption keeps the keys and the unique starts, at any clock readings. */
  lemma CommitKeepsValid(t: Tables, q: Request, clock: Clock)
    requires ValidTables(t) && Decide(t, q, clock).Ok?
    ensures ValidTables(Commit(t, Decide(t, q, clock).value))
  {
    var g := Decide(t, q, clock).value;
    assert g.redemption.days > 0 && g.sub.end == g.sub.start + g.redemption.days * DAY;
    CommitValid(t, g);
  }

  lemma CommitValid(t: Tables, g: Grant)
    requires ValidTables(t)
    requires g.sub.start < g.sub.end && g.sub.plan in t.plans
    requires !StartTaken(t.subs, g.sub.tenant, g.sub.start)
    requires forall s :: s in t.subs ==> s.id != g.sub.id
    ensures ValidTables(Commit(t, g))
  {
    var after := Commit(t, g).subs;
    forall i, j | 0 <= i < j < |after| ensures after[i].id != after[j].id && !SameStart(after[i], after[j]) {
      assert t.subs[i] in t.subs;
      if j < |t.subs| {
        assert t.subs[i].id != t.subs[j].id && !SameStart(t.subs[i], t.subs[j]);
      }
    }
    forall s | s in after ensures s.start < s.end && s.id < Commit(t, g).nextSub && s.plan in t.plans {
      var i :| 0 <= i < |after| && after[i] == s;
      if i < |t.subs| {
        assert t.subs[i] in t.subs;
      }
    }
  }

  // ----- The subscription in force -----

  /** A queued redemption (renewal or downgrade), whatever the history: it starts
      strictly after every active start, is in force from the old tail through
      its own end, and changes nothing before the old tail. */
  lemma QueuedInForce(t: Tables, q: Request, clock: Clock, at: Time)
    requires ValidTables(t) && Decide(t, q, clock).Ok? && !Decide(t, q, clock).value.immediate
    ensures var g := Decide(t, q, clock).value;
            var tail := g.sub.start;
            && TailEnd(t.subs, q.tenant) == Some(tail) && clock.transaction <= tail
            && (forall s :: s in t.subs && Live(s, q.tenant) ==> s.start < g.sub.start)
            && (at < tail ==> InForce(Commit(t, g).subs, q.tenant, at) == InForce(t.subs, q.tenant, at))
            && (g.sub.start <= at <= g.sub.end ==> InForce(Commit(t, g).subs, q.tenant, at) == Some(g.sub))
            && (g.sub.end < at ==> InForce(Commit(t, g).subs, q.tenant, at).None?)
  {
    var g := Decide(t, q, clock).value;
    GrantShape(t, q, clock);
    InForceLatest(t.subs, q.tenant, clock.transaction);
    TailEndIsMax(t.subs, q.tenant);
    CommitKeepsValid(t, q, clock);
    var after := Commit(t, g).subs;
    SupersedeNone(t.subs);
    assert after == t.subs + [g.sub];
    if at < g.sub.start {
      AppendOutside(t.subs, g.sub, q.tenant, at);
    } else if at <= g.sub.end {
      InForceIs(after, q.tenant, at, g.sub);
    }
  }

  lemma AppendOutside(subs: seq<Sub>, s: Sub, tenant: nat, at: Time)
    requires !Covers(s, tenant, at)
    ensures InForce(subs + [s], tenant, at) == InForce(subs, tenant, at)
  {
    assert (subs + [s])[..|subs|] == subs;
  }

  /** An immediate redemption, whatever the history: it is in force at once, and
      at every instant of its window until a later active start takes over. */
  lemma ImmediateInForce(t: Tables, q: Request, clock: Clock, at: Time)
    requires ValidTables(t) && Timely(clock) && Decide(t, q, clock).Ok? && Decide(t, q, clock).value.immediate
    ensures var g := Decide(t, q, clock).value;
            var now := clock.scheduling;
            && g.sub.start == now
            && InForce(Commit(t, g).subs, q.tenant, now) == Some(g.sub)
            && (now <= at <= g.sub.end ==>
                (InForce(Commit(t, g).subs, q.tenant, at) == Some(g.sub) <==>
                 forall s :: s in t.subs && Covers(s, q.tenant, at) ==> s.start < now))
  {
    var g, now := Decide(t, q, clock).value, clock.scheduling;
    GrantShape(t, q, clock);
    CommitKeepsValid(t, q, clock);
    var after := Commit(t, g).subs;
    assert g.sub == after[|t.subs|];
    forall r ensures r in after && Live(r, q.tenant) <==>
                     r == g.sub || (r in t.subs && Live(r, q.tenant) && Some(r.id) != g.supersedes) {
      LiveAfterCommit(t, g, q.tenant, r);
    }
    forall s | s in t.subs && Some(s.id) == g.supersedes ensures s.start < now {
      IdsDistinct(t.subs, s, InForce(t.subs, q.tenant, clock.transaction).value);
    }
    LatestStart(t.subs, after, g.sub, q.tenant, now, now);
    if now <= at <= g.sub.end {
      LatestStart(t.subs, after, g.sub, q.tenant, now, at);
    }
  }

  /** A window that starts now among old rows that may lose one started earlier. */
  lemma LatestStart(subs: seq<Sub>, after: seq<Sub>, added: Sub, tenant: nat, now: Time, at: Time)
    requires ValidSubs(after) && added in after && added.start == now <= at <= added.end && Live(added, tenant)
    requires !StartTaken(subs, tenant, now)
    requires forall r :: r in after && Live(r, tenant) ==> r == added || r in subs
    requires forall r :: r in subs && Live(r, tenant) && now <= r.start ==> r in after
    ensures InForce(after, tenant, at) == Some(added) <==>
            forall s :: s in subs && Covers(s, tenant, at) ==> s.start < now
  {
    InForceLatest(after, tenant, at);
    if forall s :: s in subs && Covers(s, tenant, at) ==> s.start < now {
      InForceIs(after, tenant, at, added);
    }
  }

  // ----- Disjointness, one step -----

  /** With nothing in force, a contiguous timeline has nothing to come either. */
  lemma NothingAhead(subs: seq<Sub>, tenant: nat, now: Time, s: Sub)
    requires ValidSubs(subs) && Contiguous(subs, tenant, now) && InForce(subs, tenant, now).None?
    requires s in subs && Live(s, tenant)
    ensures s.end < now
    decreases s.start - now
  {
    InForceLatest(subs, tenant, now);
    if now <= s.end {
      assert !Covers(s, tenant, now);
      assert Follows(subs, tenant, s);
      var p :| p in subs && Live(p, tenant) && p.end == s.start;
      NothingAhead(subs, tenant, now, p);
    }
  }

  /** A redemption that supersedes nothing keeps the timeline disjoint and
      contiguous, and adds exactly its own duration to the time covered. */
  lemma QuietStep(t: Tables, q: Request, clock: Clock)
    requires ValidTables(t) && Timely(clock) && Disjoint(t.subs, q.tenant)
    requires Contiguous(t.subs, q.tenant, clock.transaction)
    requires Decide(t, q, clock).Ok? && Decide(t, q, clock).value.supersedes.None?
    ensures var g := Decide(t, q, clock).value;
            var after := Commit(t, g).subs;
            && Proper(after) && Disjoint(after, q.tenant) && Contiguous(after, q.tenant, clock.scheduling)
            && |Covered(after, q.tenant)| == |Covered(t.subs, q.tenant)| + g.redemption.days * DAY
  {
    var g := Decide(t, q, clock).value;
    GrantShape(t, q, clock);
    SupersedeNone(t.subs);
    TailEndIsMax(t.subs, q.tenant);
    forall s | s in t.subs && Live(s, q.tenant) ensures s.end <= g.sub.start {
      if InForce(t.subs, q.tenant, clock.transaction).None? {
        NothingAhead(t.subs, q.tenant, clock.transaction, s);
      }
    }
    ContiguousLater(t.subs, q.tenant, clock.transaction, clock.scheduling);
    AppendKeeps(t.subs, g.sub, q.tenant, clock.scheduling);
  }

  /** A window appended behind all others. */
  lemma AppendKeeps(subs: seq<Sub>, s: Sub, tenant: nat, now: Time)
    requires Proper(subs) && Disjoint(subs, tenant) && Contiguous(subs, tenant, now)
    requires Live(s, tenant) && s.start < s.end
    requires forall r :: r in subs && Live(r, tenant) ==> r.end <= s.start
    requires now < s.start ==> Follows(subs, tenant, s)
    ensures Proper(subs + [s]) && Disjoint(subs + [s], tenant) && Contiguous(subs + [s], tenant, now)
    ensures |Covered(subs + [s], tenant)| == |Covered(subs, tenant)| + (s.end - s.start)
  {
    ContiguousAppend(subs, s, tenant, now);
    CoveredBelow(subs, tenant, s.start);
    assert (subs + [s])[..|subs|] == subs;
    assert Covered(subs, tenant) !! Instants(s.start, s.end);
  }

  lemma ContiguousAppend(subs: seq<Sub>, s: Sub, tenant: nat, now: Time)
    requires Contiguous(subs, tenant, now) && (now < s.start ==> Follows(subs, tenant, s))
    ensures Contiguous(subs + [s], tenant, now)
  {
    var after := subs + [s];
    forall r | r in after && Live(r, tenant) && now < r.start ensures Follows(after, tenant, r) {
      assert Follows(subs, tenant, r);
      var p :| p in subs && Live(p, tenant) && p.end == r.start;
      assert p in after;
    }
  }

  lemma {:induction false} CoveredBelow(subs: seq<Sub>, tenant: nat, bound: Time)
    requires Proper(subs)
    requires forall s :: s in subs && Live(s, tenant) ==> s.end <= bound
    ensures forall x :: x in Covered(subs, tenant) ==> x < bound
  {
    if subs != [] {
      CoveredBelow(subs[..|subs| - 1], tenant, bound);
    }
  }

  /** Exactly when an upgrade keeps the windows disjoint: nothing is queued behind
      the running subscription; or the new window ends no later than the running
      one would have, which is where the first queued one starts; or, the running
      one having ended between the two clock readings, so has all that was queued. */
  lemma UpgradeDisjointIff(t: Tables, q: Request, clock: Clock)
    requires ValidTables(t) && Timely(clock)
    requires Disjoint(t.subs, q.tenant) && Contiguous(t.subs, q.tenant, clock.transaction)
    requires Decide(t, q, clock).Ok? && Decide(t, q, clock).value.supersedes.Some?
    ensures var g := Decide(t, q, clock).value;
            var running := InForce(t.subs, q.tenant, clock.transaction).value;
            Disjoint(Commit(t, g).subs, q.tenant) <==>
            || !Queued(t.subs, q.tenant, clock.transaction)
            || (if clock.scheduling < running.end then clock.scheduling + g.redemption.days * DAY <= running.end
                else EndedBy(t.subs, q.tenant, clock.scheduling))
  {
    var g := Decide(t, q, clock).value;
    GrantShape(t, q, clock);
    var r := InForce(t.subs, q.tenant, clock.transaction).value;
    var after := Commit(t, g).subs;
    forall s ensures s in after && Live(s, q.tenant) <==>
                     s == g.sub || (s in t.subs && Live(s, q.tenant) && s != r) {
      LiveAfterCommit(t, g, q.tenant, s);
      if s in t.subs && s.id == r.id {
        IdsDistinct(t.subs, s, r);
      }
    }
    ReplaceDisjointIff(t.subs, after, r, g.sub, q.tenant, clock.transaction);
  }

  /** Every other active row ended before r began, or waits behind it. */
  lemma BeforeOrBehind(subs: seq<Sub>, r: Sub, tenant: nat, begun: Time, a: Sub)
    requires ValidSubs(subs) && Disjoint(subs, tenant) && InForce(subs, tenant, begun) == Some(r)
    requires a in subs && Live(a, tenant) && a != r
    ensures a.end <= r.start || (r.end <= a.start && begun < a.start)
  {
    InForceLatest(subs, tenant, begun);
    assert Apart(a, r);
  }

  /** The same for any table whose active rows are the old ones with the running
      row replaced by a window that starts now, or later. */
  lemma ReplaceDisjointIff(subs: seq<Sub>, after: seq<Sub>, r: Sub, added: Sub, tenant: nat, begun: Time)
    requires ValidSubs(subs) && Disjoint(subs, tenant) && Contiguous(subs, tenant, begun)
    requires InForce(subs, tenant, begun) == Some(r)
    requires begun <= added.start < added.end && Live(added, tenant) && !StartTaken(subs, tenant, added.start)
    requires forall s :: s in after && Live(s, tenant) <==> s == added || (s in subs && Live(s, tenant) && s != r)
    ensures Disjoint(after, tenant) <==>
            || !Queued(subs, tenant, begun)
            || (if added.start < r.end then added.end <= r.end else EndedBy(subs, tenant, added.start))
  {
    InForceLatest(subs, tenant, begun);
    if added.start < r.end {
      if Queued(subs, tenant, begun) && Disjoint(after, tenant) {
        var s :| s in subs && Live(s, tenant) && begun < s.start;
        var first := FirstQueued(subs, tenant, begun, r, s);
        assert first in after && added in after && Apart(first, added);
      }
    } else if !EndedBy(subs, tenant, added.start) {
      var s :| s in subs && Live(s, tenant) && added.start < s.end;
      Blocked(subs, after, r, added, tenant, begun, s);
    }
    if !Queued(subs, tenant, begun)
       || (if added.start < r.end then added.end <= r.end else EndedBy(subs, tenant, added.start)) {
      forall a | a in subs && Live(a, tenant) && a != r ensures Apart(a, added) {
        BeforeOrBehind(subs, r, tenant, begun, a);
      }
    }
  }

  /** Every active window of the tenant is over. */
  ghost predicate EndedBy(subs: seq<Sub>, tenant: nat, at: Time) {
    forall s :: s in subs && Live(s, tenant) ==> s.end <= at
  }

  lemma Blocked(subs: seq<Sub>, after: seq<Sub>, r: Sub, added: Sub, tenant: nat, begun: Time, s: Sub)
    requires ValidSubs(subs) && Disjoint(subs, tenant) && Contiguous(subs, tenant, begun)
    requires InForce(subs, tenant, begun) == Some(r) && r.end <= added.start < added.end && begun <= added.start
    requires forall a :: a in after && Live(a, tenant) <==> a == added || (a in subs && Live(a, tenant) && a != r)
    requires Live(added, tenant) && !StartTaken(subs, tenant, added.start)
    requires s in subs && Live(s, tenant) && added.start < s.end
    ensures Queued(subs, tenant, begun) && !Disjoint(after, tenant)
  {
    InForceLatest(subs, tenant, begun);
    BeforeOrBehind(subs, r, tenant, begun, s);
    var p := InTheWay(subs, r, tenant, begun, added.start, s);
    assert p.start != added.start;
    assert p in after && added in after && !Apart(p, added);
  }

  /** Walking back from a queued window that ends after an instant reaches one that
      holds it. */
  lemma InTheWay(subs: seq<Sub>, r: Sub, tenant: nat, begun: Time, at: Time, s: Sub) returns (p: Sub)
    requires ValidSubs(subs) && Disjoint(subs, tenant) && Contiguous(subs, tenant, begun)
    requires InForce(subs, tenant, begun) == Some(r) && r.end <= at && begun <= at
    requires s in subs && Live(s, tenant) && begun < s.start && at < s.end && s != r
    ensures p in subs && Live(p, tenant) && p != r && p.start <= at < p.end
    decreases s.start - begun
  {
    if s.start <= at {
      return s;
    }
    assert Follows(subs, tenant, s);
    var before :| before in subs && Live(before, tenant) && before.end == s.start;
    BeforeOrBehind(subs, r, tenant, begun, before);
    p := InTheWay(subs, r, tenant, begun, at, before);
  }

  ghost predicate Queued(subs: seq<Sub>, tenant: nat, now: Time) {
    exists s :: s in subs && Live(s, tenant) && now < s.start
  }

  /** Walking back from any queued window reaches one that starts where the
      running window ends. */
  lemma FirstQueued(subs: seq<Sub>, tenant: nat, now: Time, r: Sub, s: Sub) returns (first: Sub)
    requires ValidSubs(subs) && Disjoint(subs, tenant) && Contiguous(subs, tenant, now)
    requires InForce(subs, tenant, now) == Some(r)
    requires s in subs && Live(s, tenant) && now < s.start
    ensures first in subs && Live(first, tenant) && first.start == r.end && first != r && now < first.start
    decreases s.start - now
  {
    assert Follows(subs, tenant, s);
    var p :| p in subs && Live(p, tenant) && p.end == s.start;
    if p == r {
      return s;
    }
    assert Apart(p, r);
    InForceLatest(subs, tenant, now);
    if p.start <= now {
      assert Covers(p, tenant, now);
      assert false;
    }
    first := FirstQueued(subs, tenant, now, r, p);
  }

  // ----- Runs -----

  datatype Step = Step(request: Request, clock: Clock)

  function Run(t: Tables, steps: seq<Step>): Tables {
    if steps == [] then t
    else
      var before := Run(t, steps[..|steps| - 1]);
      var s := steps[|steps| - 1];
      Redeemed(before, s.request, s.clock)
  }

  function LastDecision(t: Tables, steps: seq<Step>): Result<Grant, CouponError>
    requires steps != []
  {
    var s := steps[|steps| - 1];
    Decide(Run(t, steps[..|steps| - 1]), s.request, s.clock)
  }

  /** One after another: each transaction starts after the previous one has
      computed its schedule, and computes its own after it has started. */
  ghost predicate InOrder(steps: seq<Step>) {
    && (forall i :: 0 <= i < |steps| ==> Timely(steps[i].clock))
    && (forall i, j :: 0 <= i < j < |steps| ==> steps[i].clock.scheduling <= steps[j].clock.transaction)
  }

  /** No step of the run supersedes a subscription of the tenant. */
  ghost predicate NoUpgrade(t: Tables, steps: seq<Step>, tenant: nat) {
    forall n :: 0 < n <= |steps| ==> Quiet(t, steps[..n], tenant)
  }

  ghost predicate Quiet(t: Tables, steps: seq<Step>, tenant: nat)
    requires steps != []
  {
    LastDecision(t, steps).Ok? && steps[|steps| - 1].request.tenant == tenant ==>
      LastDecision(t, steps).value.supersedes.None?
  }

  /** The durations the run redeemed for the tenant, added up. */
  function TimeRedeemed(t: Tables, steps: seq<Step>, tenant: nat): Time {
    if steps == [] then 0
    else
      var n := |steps| - 1;
      TimeRedeemed(t, steps[..n], tenant) +
      if LastDecision(t, steps).Ok? && steps[n].request.tenant == tenant
      then LastDecision(t, steps).value.redemption.days * DAY else 0
  }

  lemma {:induction false} RunKeepsValid(t: Tables, steps: seq<Step>)
    requires ValidTables(t)
    ensures ValidTables(Run(t, steps))
  {
    if steps != [] {
      RunKeepsValid(t, steps[..|steps| - 1]);
      if LastDecision(t, steps).Ok? {
        var s := steps[|steps| - 1];
        CommitKeepsValid(Run(t, steps[..|steps| - 1]), s.request, s.clock);
      }
    }
  }

  /** From a disjoint and contiguous timeline (an empty one is), in any run
      without upgrades, other tenants' redemptions interleaved at will: the
      windows stay disjoint, each one to come starts where another ends, and the
      time they cover grows by exactly the time redeemed. */
  lemma {:induction false} TimelineOfRun(t: Tables, steps: seq<Step>, tenant: nat)
    requires ValidTables(t) && InOrder(steps) && NoUpgrade(t, steps, tenant)
    requires Disjoint(t.subs, tenant) && (steps != [] ==> Contiguous(t.subs, tenant, steps[0].clock.transaction))
    ensures var subs := Run(t, steps).subs;
            && Proper(subs) && Disjoint(subs, tenant)
            && (steps != [] ==> Contiguous(subs, tenant, steps[|steps| - 1].clock.scheduling))
            && |Covered(subs, tenant)| == |Covered(t.subs, tenant)| + TimeRedeemed(t, steps, tenant)
  {
    if steps != [] {
      var n := |steps| - 1;
      var before, clock := Run(t, steps[..n]), steps[n].clock;
      NoUpgradeBefore(t, steps, tenant);
      TimelineOfRun(t, steps[..n], tenant);
      RunKeepsValid(t, steps[..n]);
      if n > 0 {
        assert steps[..n][n - 1] == steps[n - 1];
        ContiguousLater(before.subs, tenant, steps[n - 1].clock.scheduling, clock.transaction);
      }
      StepOfRun(before, steps[n].request, clock, tenant);
    }
  }

  lemma NoUpgradeBefore(t: Tables, steps: seq<Step>, tenant: nat)
    requires steps != [] && NoUpgrade(t, steps, tenant)
    ensures NoUpgrade(t, steps[..|steps| - 1], tenant) && Quiet(t, steps, tenant)
  {
    var n := |steps| - 1;
    forall m | 0 < m <= n ensures Quiet(t, steps[..n][..m], tenant) {
      assert steps[..n][..m] == steps[..m];
      assert Quiet(t, steps[..m], tenant);
    }
    assert steps[..n + 1] == steps;
  }

  /** Any redemption, successful or not, for this tenant or another. */
  lemma StepOfRun(t: Tables, q: Request, clock: Clock, tenant: nat)
    requires ValidTables(t) && Timely(clock) && Disjoint(t.subs, tenant)
    requires Contiguous(t.subs, tenant, clock.transaction)
    requires var d := Decide(t, q, clock); d.Ok? && q.tenant == tenant ==> d.value.supersedes.None?
    ensures var d := Decide(t, q, clock);
            var after := Redeemed(t, q, clock).subs;
            && Proper(after) && Disjoint(after, tenant) && Contiguous(after, tenant, clock.scheduling)
            && |Covered(after, tenant)| == |Covered(t.subs, tenant)| +
                                           if d.Ok? && q.tenant == tenant then d.value.redemption.days * DAY else 0
  {
    ContiguousLater(t.subs, tenant, clock.transaction, clock.scheduling);
    if Decide(t, q, clock).Ok? {
      if q.tenant == tenant {
        QuietStep(t, q, clock);
      } else {
        ForeignStep(t, q, clock, tenant, clock.scheduling);
      }
    }
  }

  lemma ContiguousLater(subs: seq<Sub>, tenant: nat, now: Time, later: Time)
    requires Contiguous(subs, tenant, now) && now <= later
    ensures Contiguous(subs, tenant, later)
  {
  }

  /** A redemption for one tenant leaves every other timeline as it was. */
  lemma ForeignStep(t: Tables, q: Request, clock: Clock, tenant: nat, now: Time)
    requires ValidTables(t) && Decide(t, q, clock).Ok? && q.tenant != tenant
    ensures var after := Redeemed(t, q, clock).subs;
            && (forall s :: s in after && Live(s, tenant) <==> s in t.subs && Live(s, tenant))
            && Proper(after) && Covered(after, tenant) == Covered(t.subs, tenant)
            && (Disjoint(t.subs, tenant) ==> Disjoint(after, tenant))
            && (Contiguous(t.subs, tenant, now) ==> Contiguous(after, tenant, now))
  {
    var g := Decide(t, q, clock).value;
    GrantShape(t, q, clock);
    var after := Commit(t, g).subs;
    forall s | s in t.subs && Some(s.id) == g.supersedes ensures s.tenant == q.tenant {
      IdsDistinct(t.subs, s, InForce(t.subs, q.tenant, clock.transaction).value);
    }
    forall s ensures s in after && Live(s, tenant) <==> s in t.subs && Live(s, tenant) {
      LiveAfterCommit(t, g, tenant, s);
    }
    CoveredForeign(t.subs, g.supersedes, tenant);
    assert after[..|t.subs|] == Supersede(t.subs, g.supersedes);
    if Contiguous(t.subs, tenant, now) {
      forall r | r in after && Live(r, tenant) && now < r.start ensures Follows(after, tenant, r) {
        assert Follows(t.subs, tenant, r);
        var p :| p in t.subs && Live(p, tenant) && p.end == r.start;
        assert p in after && Live(p, tenant);
      }
    }
  }

  lemma SupersedeProper(subs: seq<Sub>, id: Option<nat>)
    requires Proper(subs)
    ensures Proper(Supersede(subs, id))
  {
    forall s | s in Supersede(subs, id) ensures s.start < s.end {
      var i :| 0 <= i < |subs| && Supersede(subs, id)[i] == s;
      assert subs[i] in subs;
    }
  }

  lemma {:induction false} CoveredForeign(subs: seq<Sub>, id: Option<nat>, tenant: nat)
    requires Proper(subs) && forall s :: s in subs && Some(s.id) == id ==> s.tenant != tenant
    ensures Proper(Supersede(subs, id))
    ensures Covered(Supersede(subs, id), tenant) == Covered(subs, tenant)
  {
    SupersedeProper(subs, id);
    if subs != [] {
      var n := |subs| - 1;
      CoveredForeign(subs[..n], id, tenant);
      assert Supersede(subs, id)[..n] == Supersede(subs[..n], id);
      assert subs[n] in subs;
    }
  }

  // ----- A run that overlaps -----

  const CHEAP := Plan(100, "fixed", false, Terms(0, None, 0, false))
  const DEAR := Plan(200, "fixed", false, Terms(0, None, 0, false))

  /** An administrator grants tenant 1 a plan for thirty days. */
  function MonthOf(planId: string): Request {
    Request(None, 7, 1, Some(7), Some(planId), Some(30))
  }

  function Month(id: nat, planId: string, start: Time): Sub {
    Sub(id, 1, planId, Active, start, start + 30 * DAY, HardBlock, false, Terms(0, None, 0, false))
  }

  ghost predicate Example(t: Tables, subs: seq<Sub>) {
    t.plans == map["cheap" := CHEAP, "dear" := DEAR] && t.liveTenants == {1} && t.coupons == map[]
    && t.subs == subs && t.nextSub == |subs|
  }

  lemma FirstMonth(t: Tables)
    requires Example(t, [])
    ensures Decide(t, MonthOf("cheap"), Frozen(0)).Ok?
    ensures Example(Redeemed(t, MonthOf("cheap"), Frozen(0)), [Month(0, "cheap", 0)])
  {
    assert Decide(t, MonthOf("cheap"), Frozen(0)).value.sub == Month(0, "cheap", 0);
  }

  lemma QueuedMonth(t: Tables)
    requires Example(t, [Month(0, "cheap", 0)])
    ensures Decide(t, MonthOf("cheap"), Frozen(1)).Ok?
    ensures Example(Redeemed(t, MonthOf("cheap"), Frozen(1)), [Month(0, "cheap", 0), Month(1, "cheap", 30 * DAY)])
  {
    var a := Month(0, "cheap", 0);
    InForceIs([a], 1, 1, a);
    assert a in t.subs && TailEnd(t.subs, 1) == Some(30 * DAY);
    assert Decide(t, MonthOf("cheap"), Frozen(1)).value.sub == Month(1, "cheap", 30 * DAY);
    SupersedeNone(t.subs);
  }

  lemma UpgradeMonth(t: Tables)
    requires Example(t, [Month(0, "cheap", 0), Month(1, "cheap", 30 * DAY)])
    ensures Decide(t, MonthOf("dear"), Frozen(2)).Ok?
    ensures Redeemed(t, MonthOf("dear"), Frozen(2)).subs ==
            [Month(0, "cheap", 0).(status := Superseded), Month(1, "cheap", 30 * DAY), Month(2, "dear", 2)]
  {
    var a, b := Month(0, "cheap", 0), Month(1, "cheap", 30 * DAY);
    InForceIs([a, b], 1, 2, a);
    assert Decide(t, MonthOf("dear"), Frozen(2)).value.sub == Month(2, "dear", 2);
    assert Supersede(t.subs, Some(0)) == [a.(status := Superseded), b];
  }

  lemma RunStep(t: Tables, steps: seq<Step>, n: nat)
    requires n < |steps|
    ensures LastDecision(t, steps[..n + 1]) == Decide(Run(t, steps[..n]), steps[n].request, steps[n].clock)
    ensures Run(t, steps[..n + 1]) == Redeemed(Run(t, steps[..n]), steps[n].request, steps[n].clock)
  {
    assert steps[..n + 1][..n] == steps[..n];
  }

  ghost predicate ThreeMonths(steps: seq<Step>) {
    steps == [Step(MonthOf("cheap"), Frozen(0)), Step(MonthOf("cheap"), Frozen(1)), Step(MonthOf("dear"), Frozen(2))]
  }

  lemma AfterTwoMonths(t: Tables, steps: seq<Step>)
    requires Example(t, []) && ThreeMonths(steps)
    ensures Example(Run(t, steps[..2]), [Month(0, "cheap", 0), Month(1, "cheap", 30 * DAY)])
  {
    RunStep(t, steps, 0);
    RunStep(t, steps, 1);
    FirstMonth(t);
    QueuedMonth(Run(t, steps[..1]));
  }

  /** A month of a cheap plan, a second month queued behind it, then a month of
      a dearer plan: the upgrade supersedes only the running month, and its
      window overlaps the queued one. */
  lemma UpgradeOverlaps(t: Tables, steps: seq<Step>)
    requires Example(t, []) && ThreeMonths(steps)
    ensures ValidTables(t) && InOrder(steps) && !Disjoint(Run(t, steps).subs, 1)
  {
    ThreeInOrder(steps);
    AfterTwoMonths(t, steps);
    RunStep(t, steps, 2);
    assert steps[..3] == steps;
    UpgradeMonth(Run(t, steps[..2]));
    OverlappingRows(Run(t, steps).subs);
  }

  lemma ThreeInOrder(steps: seq<Step>)
    requires ThreeMonths(steps)
    ensures InOrder(steps)
  {
  }

  lemma OverlappingRows(subs: seq<Sub>)
    requires subs == [Month(0, "cheap", 0).(status := Superseded), Month(1, "cheap", 30 * DAY), Month(2, "dear", 2)]
    ensures !Disjoint(subs, 1)
  {
    assert subs[1] in subs && subs[2] in subs && !Apart(subs[1], subs[2]);
  }
}
