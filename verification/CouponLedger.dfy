/**
 The ledger: subscriptions and audit rows are only ever appended, a coupon's
 count is its number of audit rows, and the rows a redemption writes mirror
 one another.
 */
module CouponLedger {
  import opened Options
  import opened Coupons
  import CouponTimeline

  /** The audit rows that name a coupon. */
  function CountFor(rows: seq<Redemption>, code: string): nat {
    if rows == [] then 0
    else CountFor(rows[..|rows| - 1], code) + if rows[|rows| - 1].coupon == Some(code) then 1 else 0
  }

  /** Every coupon counts its audit rows; a code without a coupon has none. */
  ghost predicate Balanced(t: Tables) {
    forall code :: CountFor(t.redemptions, code) == if code in t.coupons then t.coupons[code].count else 0
  }

  predicate Mirrors(r: Redemption, s: Sub) {
    r.subId == s.id && r.tenant == s.tenant && r.plan == s.plan && r.start == s.start && r.end == s.end
  }

  /** The rows appended since t0 pair off in order, subscription with audit row. */
  ghost predicate Paired(t0: Tables, t: Tables) {
    && |t0.subs| <= |t.subs| && |t0.redemptions| <= |t.redemptions|
    && |t.subs| - |t0.subs| == |t.redemptions| - |t0.redemptions|
    && forall i :: |t0.subs| <= i < |t.subs| ==>
         Mirrors(t.redemptions[i - |t0.subs| + |t0.redemptions|], t.subs[i])
  }

  /** Nothing but the status of a subscription changes, and only one way. */
  predicate Ages(s: Sub, s': Sub) {
    s' == s || (s.status == Active && s' == s.(status := Superseded))
  }

  ghost predicate Extends(t: Tables, t': Tables) {
    && t'.plans == t.plans
    && |t.subs| <= |t'.subs| && (forall i :: 0 <= i < |t.subs| ==> Ages(t.subs[i], t'.subs[i]))
    && t.redemptions <= t'.redemptions
  }

  lemma ExtendsTransitive(a: Tables, b: Tables, c: Tables)
    requires Extends(a, b) && Extends(b, c)
    ensures Extends(a, c)
  {
    assert forall i :: 0 <= i < |a.subs| ==> Ages(a.subs[i], b.subs[i]) && Ages(b.subs[i], c.subs[i]);
  }

  /** One commit keeps the books, wherever in a run it happens. */
  lemma CommitBooks(t0: Tables, t: Tables, g: Grant)
    requires Balanced(t) && Paired(t0, t) && Extends(t0, t)
    requires Mirrors(g.redemption, g.sub)
    requires g.redemption.coupon.Some? ==> g.redemption.coupon.value in t.coupons
    ensures Balanced(Commit(t, g)) && Paired(t0, Commit(t, g)) && Extends(t0, Commit(t, g))
  {
    var t' := Commit(t, g);
    assert t'.redemptions[..|t.redemptions|] == t.redemptions;
    forall i | |t0.subs| <= i < |t'.subs|
      ensures Mirrors(t'.redemptions[i - |t0.subs| + |t0.redemptions|], t'.subs[i]) {
      if i < |t.subs| {
        assert Mirrors(t.redemptions[i - |t0.subs| + |t0.redemptions|], t.subs[i]);
      }
    }
    assert Extends(t, t');
    ExtendsTransitive(t0, t, t');
  }

  /** In any sequential run the books stay balanced, new rows pair off, and
      history is only appended to; a redemption that fails writes nothing. */
  lemma {:induction false} RunKeepsBooks(t: Tables, steps: seq<CouponTimeline.Step>)
    requires Balanced(t)
    ensures var t' := CouponTimeline.Run(t, steps);
            && Balanced(t') && Paired(t, t') && Extends(t, t')
            && (steps != [] && CouponTimeline.LastDecision(t, steps).Err? ==>
                t' == CouponTimeline.Run(t, steps[..|steps| - 1]))
  {
    if steps != [] {
      var n := |steps| - 1;
      RunKeepsBooks(t, steps[..n]);
      RedeemBooks(t, CouponTimeline.Run(t, steps[..n]), steps[n].request, steps[n].clock);
    }
  }

  lemma RedeemBooks(t0: Tables, t: Tables, q: Request, clock: Clock)
    requires Balanced(t) && Paired(t0, t) && Extends(t0, t)
    ensures Balanced(Redeemed(t, q, clock)) && Paired(t0, Redeemed(t, q, clock)) && Extends(t0, Redeemed(t, q, clock))
    ensures Decide(t, q, clock).Err? ==> Redeemed(t, q, clock) == t
  {
    if Decide(t, q, clock).Ok? {
      CommitBooks(t0, t, Decide(t, q, clock).value);
    }
  }
}
