/**
 A run in which neither of two redemptions upgrades and their windows overlap all
 the same. The first finds the month running and queues behind it; the second
 begins just after the month's end, finds nothing, and commits a window from its
 own instant on; then the first commits its own from the month's end on.
 */
module CouponRenewalRace {
  import opened Options
  import opened Coupons
  import opened CouponRaces
  import opened CouponSolo
  import opened CouponTimeline
  import opened CouponLocks
  import opened CouponSerial
  import CouponUpgradeRace
  import CouponLedger

  const END: Time := 30 * DAY

  function RenewalWorld(): World {
    var asked := CouponUpgradeRace.Fresh(MonthOf("cheap"));
    CouponUpgradeRace.RaceWorld().(txns := [asked, asked])
  }

  lemma RenewalInitial()
    ensures Initial(RenewalWorld())
  {
    CouponUpgradeRace.RaceInitial();
  }

  /** The first after its reads: it holds the month's row and has queued behind it. */
  function Queued(): Txn {
    CouponUpgradeRace.Fresh(MonthOf("cheap")).(
      pc := AtInsert, begun := END - 2, scheduled := END - 1, planId := "cheap", days := 30, plan := Some(CHEAP),
      picked := Some(Month(0, "cheap", 0)), held := {Row(0, 0)}, current := Some(Month(0, "cheap", 0)),
      schedule := Schedule(END, END + END, None))
  }

  const FIRST := Advance(0, END - 2)
  const THEN := Advance(0, END - 1)

  lemma Begins(w: World)
    requires w == RenewalWorld()
    ensures var w' := Exec(Exec(Exec(w, FIRST), FIRST), FIRST);
            && w'.tables == w.tables && w'.couponLock == map[] && w'.subLock == map[] && |w'.txns| == 2
            && w'.txns[1] == w.txns[1]
            && w'.txns[0] == CouponUpgradeRace.Fresh(MonthOf("cheap")).(
                 pc := AtSub, begun := END - 2, planId := "cheap", days := 30, plan := Some(CHEAP),
                 picked := Some(Month(0, "cheap", 0)))
  {
    var w1 := Exec(w, FIRST);
    var w2 := Exec(w1, FIRST);
    InForceIs(w.tables.subs, 1, END - 2, Month(0, "cheap", 0));
    assert Earlier(w.tables.subs, 0) == [];
    assert w2.txns[0].pc == AtPick && w2.txns[0].begun == END - 2;
  }

  lemma Queues(w: World)
    requires w.tables == RenewalWorld().tables && w.couponLock == map[] && w.subLock == map[] && |w.txns| == 2
    requires w.txns[0] == CouponUpgradeRace.Fresh(MonthOf("cheap")).(
               pc := AtSub, begun := END - 2, planId := "cheap", days := 30, plan := Some(CHEAP),
               picked := Some(Month(0, "cheap", 0)))
    ensures var w' := Exec(Exec(Exec(w, FIRST), THEN), THEN);
            && w'.tables == w.tables && w'.couponLock == map[] && |w'.txns| == 2
            && w'.txns[1] == w.txns[1] && w'.txns[0] == Queued()
  {
    var r := Month(0, "cheap", 0);
    assert w.tables.subs == [r];
    FindSubSome([r], r);
    var w1 := Exec(w, FIRST);
    assert w1.txns[0].pc == AtTail && w1.txns[0].current == Some(r) && w1.txns[0].held == {Row(0, 0)};
    assert TailEnd(w.tables.subs, 1) == Some(END);
    var w2 := Exec(w1, THEN);
    assert w2.txns[0].pc == AtTenant && w2.txns[0].schedule == Schedule(END, END + END, None);
  }

  /** The first six events. */
  lemma FirstReads() returns (es: seq<Event>)
    ensures var w := ExecAll(RenewalWorld(), es);
            && w.tables == RenewalWorld().tables && w.couponLock == map[] && |w.txns| == 2
            && w.txns[0] == Queued() && w.txns[1] == RenewalWorld().txns[1]
  {
    var w := RenewalWorld();
    Begins(w);
    CouponUpgradeRace.ThreeEvents(w, FIRST);
    var w' := ExecAll(w, [FIRST, FIRST, FIRST]);
    Queues(w');
    es := More(w, [FIRST, FIRST, FIRST], FIRST);
    es := More(w, es, THEN);
    es := More(w, es, THEN);
  }

  lemma More(w: World, es: seq<Event>, e: Event) returns (more: seq<Event>)
    ensures ExecAll(w, more) == Exec(ExecAll(w, es), e)
  {
    more := es + [e];
    ExecOne(ExecAll(w, es), e);
    ExecAppend(w, es, [e]);
  }

  lemma LateGranted(t: Tables)
    requires t == RenewalWorld().tables
    ensures InForce(t.subs, 1, END + 1).None?
    ensures var d := Decide(t, MonthOf("cheap"), Frozen(END + 1));
            d.Ok? && Commit(t, d.value).subs == [Month(0, "cheap", 0), Month(1, "cheap", END + 1)]
            && Commit(t, d.value).nextSub == 2
  {
    InForceLatest(t.subs, 1, END + 1);
    assert !StartTaken(t.subs, 1, END + 1);
    SupersedeNone(t.subs);
  }

  /** The second, from beginning to end, one instant after the month's. */
  lemma LateCommits(w: World)
    requires Inv(w) && w.tables == RenewalWorld().tables && w.couponLock == map[] && |w.txns| == 2
    requires w.txns[0] == Queued() && w.txns[1] == RenewalWorld().txns[1]
    ensures var v := ExecAll(w, SoloEvents(w, 1, Frozen(END + 1)));
            && |v.txns| == 2 && v.txns[0] == Queued() && v.txns[1].pc == Done
            && v.tables.subs == [Month(0, "cheap", 0), Month(1, "cheap", END + 1)]
            && v.tables.plans == w.tables.plans && v.tables.nextSub == 2
  {
    LateGranted(w.tables);
    SoloIsRedeem(w, 1, Frozen(END + 1));
    SoloOthers(w, 1, Frozen(END + 1), 0);
    SoloIsRun(w, 1, Frozen(END + 1));
  }

  /** By then the first is no longer deciding as if alone. */
  lemma TailMoved(t: Tables)
    requires t.subs == [Month(0, "cheap", 0), Month(1, "cheap", END + 1)] && t.plans == RenewalWorld().tables.plans
    ensures InForce(t.subs, 1, END - 1) == Some(Month(0, "cheap", 0)) && !DecidedAlone(t, Queued())
  {
    var a, b := Month(0, "cheap", 0), Month(1, "cheap", END + 1);
    assert t.subs[..1] == [a] && [a][..0] == [];
    assert InForce([a], 1, END - 1) == Some(a) && TailEnd([a], 1) == Some(END);
    assert TailEnd(t.subs, 1) == Some(b.end);
  }

  lemma FirstCommits(w: World)
    requires |w.txns| == 2 && w.txns[0] == Queued() && w.txns[1].pc == Done
    requires w.tables.subs == [Month(0, "cheap", 0), Month(1, "cheap", END + 1)] && w.tables.nextSub == 2
    ensures var v := ExecAll(w, SoloEvents(w, 0, Frozen(END + 5)));
            && |v.txns| == 2 && v.txns[0].pc == Done && v.txns[1].pc == Done
            && v.tables.subs == w.tables.subs + [Month(2, "cheap", END)]
  {
    FromInsert(w, 0, Frozen(END + 5));
    SoloOthers(w, 0, Frozen(END + 5), 1);
    SoloIsRun(w, 0, Frozen(END + 5));
    assert !StartTaken(w.tables.subs, 1, END);
    SupersedeNone(w.tables.subs);
  }

  /** The run: two renewals of one cheap month, both committed, their windows
      overlapping; before its commit the first no longer decides as if alone,
      though nothing has upgraded and the month it found was running. */
  lemma RenewalRace() returns (es: seq<Event>, before: nat)
    ensures Initial(RenewalWorld()) && before <= |es|
    ensures var u, v := ExecAll(RenewalWorld(), es[..before]), ExecAll(RenewalWorld(), es);
            && |u.txns| == 2 && 7 <= Rank(u.txns[0].pc) <= 12 && u.txns[0].current == Some(Month(0, "cheap", 0))
            && InForce(u.tables.subs, 1, u.txns[0].scheduled) == u.txns[0].current && !DecidedAlone(u.tables, u.txns[0])
            && |v.txns| == 2 && v.txns[0].pc == Done && v.txns[1].pc == Done && !Disjoint(v.tables.subs, 1)
    ensures forall q :: q in [0, 1] ==> RenewalWorld().txns[q].request == MonthOf("cheap")
  {
    RenewalInitial();
    var w := RenewalWorld();
    es := FirstReads();
    InvAlways(w, es);
    var w1 := ExecAll(w, es);
    LateCommits(w1);
    var late := SoloEvents(w1, 1, Frozen(END + 1));
    ExecAppend(w, es, late);
    es := es + late;
    before := |es|;
    var w2 := ExecAll(w, es);
    TailMoved(w2.tables);
    FirstCommits(w2);
    var first := SoloEvents(w2, 0, Frozen(END + 5));
    ExecAppend(w, es, first);
    es := es + first;
    assert es[..before] == es[..|es| - |first|] && es[..before] + first == es;
    Overlapping(ExecAll(w, es).tables.subs);
  }

  lemma Overlapping(subs: seq<Sub>)
    requires subs == [Month(0, "cheap", 0), Month(1, "cheap", END + 1)] + [Month(2, "cheap", END)]
    ensures !Disjoint(subs, 1)
  {
    assert subs[1] in subs && subs[2] in subs && !Apart(subs[1], subs[2]);
  }
}
