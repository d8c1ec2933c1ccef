/**
 A run in which two redemptions pick the same running subscription and both
 upgrade. The second waits for the row, finds it superseded and nothing else in
 its snapshot, and starts at once beside the first: the windows overlap.
 */
module CouponUpgradeRace {
  import opened Options
  import opened Coupons
  import opened CouponRaces
  import opened CouponSolo
  import opened CouponTimeline
  import opened CouponLocks
  import opened CouponSerial
  import CouponLedger

  function Fresh(q: Request): Txn {
    Txn(q, Idle, 0, 0, 0, None, None, "", 0, None, None, [], {}, None, Schedule(0, 0, None), None)
  }

  /** Tenant 1 is in its cheap month, and two dear months are asked for. */
  function RaceWorld(): World {
    World(Tables(map["cheap" := CHEAP, "dear" := DEAR], {1}, map[], [Month(0, "cheap", 0)], [], 1),
          [Fresh(MonthOf("dear")), Fresh(MonthOf("dear"))], map[], map[])
  }

  const READS: seq<Event> := [Advance(0, 1), Advance(0, 1), Advance(0, 1), Advance(1, 1), Advance(1, 1), Advance(1, 1)]

  /** A transaction after its first reads: about to lock the month. */
  function Waiting(): Txn {
    Fresh(MonthOf("dear")).(pc := AtSub, begun := 1, planId := "dear", days := 30, plan := Some(DEAR),
                            picked := Some(Month(0, "cheap", 0)))
  }

  lemma RaceInitial()
    ensures Initial(RaceWorld())
  {
    var t := RaceWorld().tables;
    assert t.subs[0] == Month(0, "cheap", 0);
    forall code ensures CouponLedger.CountFor(t.redemptions, code) == 0 {
    }
  }

  lemma ThreeReads(w: World, k: nat)
    requires w.tables == RaceWorld().tables && k < |w.txns| && w.txns[k] == Fresh(MonthOf("dear"))
    ensures Exec(Exec(Exec(w, Advance(k, 1)), Advance(k, 1)), Advance(k, 1)) == Put(w, k, Waiting())
  {
    var w1 := Exec(w, Advance(k, 1));
    var w2 := Exec(w1, Advance(k, 1));
    InForceIs(w.tables.subs, 1, 1, Month(0, "cheap", 0));
    assert Earlier(w.tables.subs, 0) == [];
    assert w2.txns[k].pc == AtPick && w2.txns[k].begun == 1;
    assert Exec(w2, Advance(k, 1)).txns[k] == Waiting();
  }

  function BothWaiting(): World { RaceWorld().(txns := [Waiting(), Waiting()]) }

  lemma BothRead()
    ensures ExecAll(RaceWorld(), READS) == BothWaiting()
  {
    var w := RaceWorld();
    var w' := Put(w, 0, Waiting());
    ThreeReads(w, 0);
    ThreeReads(w', 1);
    assert Put(w', 1, Waiting()) == BothWaiting();
    ThreeEvents(w, Advance(0, 1));
    ThreeEvents(w', Advance(1, 1));
    ExecAppend(w, [Advance(0, 1), Advance(0, 1), Advance(0, 1)], [Advance(1, 1), Advance(1, 1), Advance(1, 1)]);
    assert READS == [Advance(0, 1), Advance(0, 1), Advance(0, 1)] + [Advance(1, 1), Advance(1, 1), Advance(1, 1)];
  }

  lemma ThreeEvents(w: World, e: Event)
    ensures ExecAll(w, [e, e, e]) == Exec(Exec(Exec(w, e), e), e)
  {
    assert [e, e, e][..2] == [e, e] && [e, e][..1] == [e];
    ExecOne(w, e);
  }

  lemma BothMeet()
    ensures Meeting(BothWaiting(), 1, Month(0, "cheap", 0))
  {
    RaceInitial();
    SecuredAlways(RaceWorld(), READS);
    BothRead();
    assert BothWaiting().tables.subs[0] == Month(0, "cheap", 0);
    assert Waits(Waiting(), Month(0, "cheap", 0));
  }

  /** From waiting for a free lock to the end, alone. */
  function Finish(k: nat, w: World, now: Time): seq<Event>
    requires k < |w.txns| && |Exec(w, Advance(k, now)).txns| == |w.txns|
  {
    [Advance(k, now)] + SoloEvents(Exec(w, Advance(k, now)), k, Clock(w.txns[k].begun, now, now))
  }

  /** Two transactions, k about to take a free lock and find what is in force. */
  ghost predicate AboutToLock(k: nat, w: World) {
    && |w.txns| == 2 && k < 2 && w.subLock == map[] && !InFlight(w.txns[1 - k]) && ValidTables(w.tables)
    && var x := w.txns[k];
       && x.pc == AtSub && x.picked.Some? && x.planId in w.tables.plans && x.plan == Some(w.tables.plans[x.planId])
       && Locked(w.tables.subs, x).pc == AtTail
       && Locked(w.tables.subs, x).current == InForce(w.tables.subs, x.request.tenant, x.begun)
  }

  lemma Finished(k: nat, w: World, now: Time)
    requires AboutToLock(k, w)
    ensures |Exec(w, Advance(k, now)).txns| == |w.txns|
    ensures var v := ExecAll(w, Finish(k, w, now));
            var x := w.txns[k];
            && |v.txns| == 2 && v.txns[1 - k] == w.txns[1 - k]
            && Ended(v, k, w.tables, DecidePlan(w.tables, x.request, x.code, x.planId, x.days, Clock(x.begun, now,
                 now)))
  {
    LocksFree(k, w, now);
    SoloRuns(k, w, now);
    SoloEnds(k, w, Exec(w, Advance(k, now)), now);
  }

  /** The lock taken, the rest of the statements. */
  lemma SoloEnds(k: nat, w: World, w1: World, now: Time)
    requires |w.txns| == |w1.txns| == 2 && NoFlights(w1, k) && w1.tables == w.tables && w1.txns[1 - k] == w.txns[1 - k]
    requires var x, x1 := w.txns[k], w1.txns[k];
             && x1 == x.(pc := AtTail, held := x1.held, current := InForce(w.tables.subs, x.request.tenant, x.begun))
             && x.planId in w.tables.plans && x.plan == Some(w.tables.plans[x.planId])
    ensures var x := w.txns[k];
            var clock := Clock(x.begun, now, now);
            var v := Solo(w1, k, clock);
            && |v.txns| == 2 && v.txns[1 - k] == w.txns[1 - k]
            && Ended(v, k, w.tables, DecidePlan(w.tables, x.request, x.code, x.planId, x.days, clock))
  {
    FromTail(w1, k, Clock(w.txns[k].begun, now, now));
    SoloOthers(w1, k, Clock(w.txns[k].begun, now, now), 1 - k);
  }

  lemma LocksFree(k: nat, w: World, now: Time)
    requires AboutToLock(k, w)
    ensures var w1 := Exec(w, Advance(k, now));
            var x, x1 := w.txns[k], w1.txns[k];
            && |w1.txns| == 2 && w1.txns[1 - k] == w.txns[1 - k] && w1.tables == w.tables && NoFlights(w1, k)
            && x1 == x.(pc := AtTail, held := x1.held, current := InForce(w.tables.subs, x.request.tenant, x.begun))
  {
    SubLockIs(w, k, now);
  }

  lemma SoloRuns(k: nat, w: World, now: Time)
    requires k < |w.txns| && |Exec(w, Advance(k, now)).txns| == |w.txns|
    ensures ExecAll(w, Finish(k, w, now)) == Solo(Exec(w, Advance(k, now)), k, Clock(w.txns[k].begun, now, now))
  {
    var w1 := Exec(w, Advance(k, now));
    SoloIsRun(w1, k, Clock(w.txns[k].begun, now, now));
    ExecOne(w, Advance(k, now));
    ExecAppend(w, [Advance(k, now)], SoloEvents(w1, k, Clock(w.txns[k].begun, now, now)));
  }

  lemma FirstLocks(t: Tables)
    requires t == RaceWorld().tables
    ensures ValidTables(t) && InForce(t.subs, 1, 1) == Some(Month(0, "cheap", 0))
    ensures Locked(t.subs, Waiting()).pc == AtTail && Locked(t.subs, Waiting()).current == Some(Month(0, "cheap", 0))
  {
    var r := Month(0, "cheap", 0);
    RaceInitial();
    assert t.subs[0] == r;
    InForceIs(t.subs, 1, 1, r);
    FindSubIs(t.subs, r);
  }

  lemma FirstDecision(t: Tables, g: Grant)
    requires t == RaceWorld().tables
    requires DecidePlan(t, MonthOf("dear"), None, "dear", 30, Clock(1, 2, 2)) == Ok(g)
    ensures Commit(t, g).subs == [Month(0, "cheap", 0).(status := Superseded), Month(1, "dear", 2)]
    ensures Commit(t, g).nextSub == 2
  {
    FirstLocks(t);
    assert Supersede(t.subs, Some(0)) == [Month(0, "cheap", 0).(status := Superseded)];
  }

  lemma FirstAllowed(t: Tables)
    requires t == RaceWorld().tables
    ensures DecidePlan(t, MonthOf("dear"), None, "dear", 30, Clock(1, 2, 2)).Ok?
  {
    FirstLocks(t);
    assert ScheduleFor(t, 1, "dear", 30, Clock(1, 2, 2)).start == 2;
  }

  lemma FirstUpgrade(w: World)
    requires w == BothWaiting()
    ensures |Exec(w, Advance(0, 2)).txns| == 2
    ensures var v := ExecAll(w, Finish(0, w, 2));
            && |v.txns| == 2 && v.txns[0].pc == Done && v.txns[1] == Waiting()
            && v.tables.subs == [Month(0, "cheap", 0).(status := Superseded), Month(1, "dear", 2)]
            && v.tables.plans == w.tables.plans && v.tables.liveTenants == {1} && v.tables.nextSub == 2
  {
    FirstLocks(w.tables);
    Finished(0, w, 2);
    FirstAllowed(w.tables);
    FirstDecision(w.tables, DecidePlan(w.tables, MonthOf("dear"), None, "dear", 30, Clock(1, 2, 2)).value);
  }

  lemma SecondFinds(w: World)
    requires ValidTables(w.tables)
    requires w.tables.subs == [Month(0, "cheap", 0).(status := Superseded), Month(1, "dear", 2)]
    ensures InForce(w.tables.subs, 1, 1) == None
    ensures Locked(w.tables.subs, Waiting()).pc == AtTail && Locked(w.tables.subs, Waiting()).current == None
  {
    var r := Month(0, "cheap", 0).(status := Superseded);
    assert w.tables.subs[0] == r && w.tables.subs[1] == Month(1, "dear", 2);
    FindSubIs(w.tables.subs, r);
    InForceLatest(w.tables.subs, 1, 1);
  }

  lemma SecondBeside(w: World)
    requires |w.txns| == 2 && w.txns[0].pc == Done && w.txns[1] == Waiting() && Inv(w)
    requires w.tables.subs == [Month(0, "cheap", 0).(status := Superseded), Month(1, "dear", 2)]
    requires w.tables.plans == RaceWorld().tables.plans && w.tables.liveTenants == {1} && w.tables.nextSub == 2
    ensures |Exec(w, Advance(1, 3)).txns| == 2
    ensures var v := ExecAll(w, Finish(1, w, 3));
            && |v.txns| == 2 && v.txns[0].pc == Done && v.txns[1].pc == Done
            && v.tables.subs == w.tables.subs + [Month(2, "dear", 3)]
  {
    NoLocks(w);
    SecondFinds(w);
    Finished(1, w, 3);
    assert !StartTaken(w.tables.subs, 1, 3);
    SupersedeNone(w.tables.subs);
  }

  /** Nobody holds a lock while one has ended and the other only waits. */
  lemma NoLocks(w: World)
    requires Inv(w) && |w.txns| == 2 && w.txns[0].pc == Done && w.txns[1] == Waiting()
    ensures w.subLock == map[]
  {
    forall r | r in w.subLock ensures false {
      HolderHolds(w, r);
      assert false;
    }
  }

  lemma HolderHolds(w: World, r: Row)
    requires Inv(w) && r in w.subLock
    ensures exists x :: x in w.txns && HoldsSub(x, r)
  {
    assert SubHeldBy(w.txns, r, w.subLock[r]);
    assert w.txns[w.subLock[r]] in w.txns;
  }

  /** The run: both pick the cheap month, both upgrade to the dear plan, both
      commit, and the two dear months overlap. */
  lemma UpgradeRace() returns (es: seq<Event>)
    ensures Initial(RaceWorld()) && Meeting(ExecAll(RaceWorld(), READS), 1, Month(0, "cheap", 0)) && READS <= es
    ensures var v := ExecAll(RaceWorld(), es);
            |v.txns| == 2 && v.txns[0].pc == Done && v.txns[1].pc == Done && !Disjoint(v.tables.subs, 1)
  {
    RaceInitial();
    BothRead();
    BothMeet();
    var w := BothWaiting();
    FirstUpgrade(w);
    var first := Finish(0, w, 2);
    ExecAppend(RaceWorld(), READS, first);
    InvAlways(RaceWorld(), READS + first);
    var w' := ExecAll(w, first);
    SecondBeside(w');
    var second := Finish(1, w', 3);
    ExecAppend(RaceWorld(), READS + first, second);
    es := READS + first + second;
    DearMonths(ExecAll(RaceWorld(), es).tables.subs);
  }

  lemma DearMonths(subs: seq<Sub>)
    requires subs == [Month(0, "cheap", 0).(status := Superseded), Month(1, "dear", 2)] + [Month(2, "dear", 3)]
    ensures !Disjoint(subs, 1)
  {
    assert subs[1] in subs && subs[2] in subs && !Apart(subs[1], subs[2]);
  }
}
