/**
 Phone numbers and agents: the routing table keyed by number, the agent rows
 with their tombstones, and the operations that keep them in step.
 */
module PhoneRegistry {
  import opened Options

  datatype Agent = Agent(tenant: nat, deleted: bool)

  /** Routes are keyed by digits, which is the table's primary key. */
  datatype Registry = Registry(agents: map<string, Agent>, routes: map<string, string>)

  predicate IsDigit(c: char) { '0' <= c <= '9' }

  function Digits(s: string): string {
    if s == "" then "" else (if IsDigit(s[0]) then [s[0]] else []) + Digits(s[1..])
  }

  predicate LiveAgent(r: Registry, a: string) {
    a in r.agents && !r.agents[a].deleted
  }

  /** Every route leads to a live agent, and no agent has two. */
  ghost predicate Valid(r: Registry) {
    && (forall p :: p in r.routes ==> LiveAgent(r, r.routes[p]) && p != "")
    && (forall p, q :: p in r.routes && q in r.routes && r.routes[p] == r.routes[q] ==> p == q)
  }

  /** The lookup joins live agents only, and a text without digits finds nothing. */
  function AgentForPhone(r: Registry, phone: string): Option<string> {
    var d := Digits(phone);
    if d != "" && d in r.routes && LiveAgent(r, r.routes[d]) then Some(r.routes[d]) else None
  }

  /** Without the agent's own route, as DELETE ... WHERE agent_id leaves it. */
  function Unrouted(routes: map<string, string>, a: string): map<string, string> {
    map p | p in routes && routes[p] != a :: routes[p]
  }

  datatype ProvisionOutcome = Provisioned | PhoneBound

  /** The mock provisioner's transaction: upsert the agent, claim the number with
      DO NOTHING, look who owns it, and roll back if it is someone else. */
  function Provision(r: Registry, a: string, tenant: nat, phone: string): (Registry, ProvisionOutcome) {
    var agents := r.agents[a := if a in r.agents then r.agents[a].(tenant := tenant) else Agent(tenant, false)];
    var d := Digits(phone);
    if d == "" then (Registry(agents, r.routes), Provisioned)
    else if d in r.routes && r.routes[d] != a then (r, PhoneBound)
    else (Registry(agents, r.routes[d := a]), Provisioned)
  }

  datatype PatchOutcome = Patched | NotFound | InUse

  /** The guarded route: 404 outside the tenant, 409 for another agent's number. */
  function Patch(r: Registry, tenant: nat, a: string, phone: string): (Registry, PatchOutcome) {
    if !(LiveAgent(r, a) && r.agents[a].tenant == tenant) then (r, NotFound)
    else if Digits(phone) == "" then (r.(routes := Unrouted(r.routes, a)), Patched)
    else if AgentForPhone(r, phone).Some? && AgentForPhone(r, phone).value != a then (r, InUse)
    else (r.(routes := Unrouted(r.routes, a)[Digits(phone) := a]), Patched)
  }

  /** The guarded delete, after a successful teardown of the container. */
  function Delete(r: Registry, tenant: nat, a: string): Registry {
    if LiveAgent(r, a) && r.agents[a].tenant == tenant
    then Registry(r.agents[a := r.agents[a].(deleted := true)], Unrouted(r.routes, a))
    else r
  }

  class PhoneDb {
    var agents: map<string, Agent>
    var routes: map<string, string>

    function Contents(): Registry
      reads this
    {
      Registry(agents, routes)
    }

    constructor ()
      ensures Contents() == Registry(map[], map[])
    {
      agents, routes := map[], map[];
    }

    /** INSERT INTO phone_routes: the primary key must be free. */
    method InsertRoute(d: string, a: string)
      requires d !in routes
      modifies this`routes
      ensures routes == old(routes)[d := a]
    {
      routes := routes[d := a];
    }

    /** Delete the agent's own route, then insert the new one. The guard and the
        invariant together keep the insert off the primary key. */
    method PatchWhatsapp(tenant: nat, a: string, phone: string) returns (outcome: PatchOutcome)
      requires Valid(Contents())
      modifies this
      ensures (Contents(), outcome) == Patch(old(Contents()), tenant, a, phone)
      ensures Valid(Contents())
    {
      if !(LiveAgent(Contents(), a) && agents[a].tenant == tenant) {
        return NotFound;
      }
      var d := Digits(phone);
      if d == "" {
        routes := Unrouted(routes, a);
        return Patched;
      }
      var existing := AgentForPhone(Contents(), phone);
      if existing.Some? && existing.value != a {
        return InUse;
      }
      routes := Unrouted(routes, a);
      InsertRoute(d, a);
      outcome := Patched;
    }

    /** Statement by statement, with the rollback written out. */
    method ProvisionAgent(a: string, tenant: nat, phone: string) returns (outcome: ProvisionOutcome)
      modifies this
      ensures (Contents(), outcome) == Provision(old(Contents()), a, tenant, phone)
      ensures outcome == PhoneBound ==> Contents() == old(Contents())
    {
      var savedAgents, savedRoutes := agents, routes;
      if a in agents {
        agents := agents[a := agents[a].(tenant := tenant)];
      } else {
        agents := agents[a := Agent(tenant, false)];
      }
      var d := Digits(phone);
      if d != "" {
        if d !in routes {
          InsertRoute(d, a);
        }
        if routes[d] != a {
          agents, routes := savedAgents, savedRoutes;
          return PhoneBound;
        }
        assert routes == old(routes)[d := a];
      }
      outcome := Provisioned;
    }

    /** The agent is gone and its number free; every other number leads where it did. */
    method DeleteAgent(tenant: nat, a: string)
      requires Valid(Contents())
      modifies this
      ensures Contents() == Delete(old(Contents()), tenant, a) && Valid(Contents())
      ensures var allowed := LiveAgent(old(Contents()), a) && old(agents)[a].tenant == tenant;
              && (allowed ==> !LiveAgent(Contents(), a))
              && forall phone :: AgentForPhone(Contents(), phone) ==
                                 if allowed && AgentForPhone(old(Contents()), phone) == Some(a) then None
                                 else AgentForPhone(old(Contents()), phone)
    {
      if LiveAgent(Contents(), a) && agents[a].tenant == tenant {
        agents := agents[a := agents[a].(deleted := true)];
        routes := Unrouted(routes, a);
      }
    }
  }

  // ----- Read off the tables -----

  /** Character by character, the ten digits and nothing else are kept. */
  lemma {:induction false} DigitsAre(a: string, c: char, b: string)
    ensures Digits(a + [c] + b) == Digits(a) + (if c in "0123456789" then [c] else "") + Digits(b)
    ensures Digits("") == ""
  {
    if a == "" {
      var ten := "0123456789";
      assert forall i :: 0 <= i < 10 ==> ten[i] as int == 48 + i;
      assert IsDigit(c) ==> ten[c as int - 48] == c;
      assert a + [c] + b == [c] + b && ([c] + b)[1..] == b;
    } else {
      DigitsAre(a[1..], c, b);
      assert (a + [c] + b)[1..] == a[1..] + [c] + b;
    }
  }

  /** The number's row leads to an agent whose own row is not marked deleted. */
  lemma LookupAnswers(r: Registry, phone: string, a: string)
    ensures AgentForPhone(r, phone) == Some(a) <==>
              && Digits(phone) != "" && Digits(phone) in r.routes && r.routes[Digits(phone)] == a
              && a in r.agents && r.agents[a].deleted == false
  {
  }

  /** Which answer a patch gives, and that all but a patch leaves everything as it
      was; a patch moves the agent's routes to the number, or drops them. */
  lemma PatchAnswers(r: Registry, tenant: nat, a: string, phone: string)
    ensures var (r', outcome) := Patch(r, tenant, a, phone);
            var d := Digits(phone);
            && (outcome == NotFound <==>
                a !in r.agents || r.agents[a].deleted || r.agents[a].tenant != tenant)
            && (outcome == InUse <==>
                && outcome != NotFound && d != "" && d in r.routes && r.routes[d] != a
                && r.routes[d] in r.agents && !r.agents[r.routes[d]].deleted)
            && (outcome != Patched ==> r' == r)
            && (outcome == Patched ==>
                && r'.agents == r.agents
                && (forall p :: p in r'.routes <==> (p == d && d != "") || (p in r.routes && r.routes[p] != a))
                && forall p :: p in r'.routes ==> r'.routes[p] == if p == d && d != "" then a else r.routes[p])
  {
  }

  /** Another agent's number, dead or alive, refuses a provision and undoes it;
      otherwise the agent is there, marked deleted only if it was, in the tenant
      named, and the number given leads to it. */
  lemma ProvisionAnswers(r: Registry, a: string, tenant: nat, phone: string)
    ensures var (r', outcome) := Provision(r, a, tenant, phone);
            var d := Digits(phone);
            && (outcome == PhoneBound <==> d != "" && d in r.routes && r.routes[d] != a)
            && (outcome == PhoneBound ==> r' == r)
            && (outcome == Provisioned ==>
                && r'.agents == r.agents[a := Agent(tenant, a in r.agents && r.agents[a].deleted)]
                && r'.routes == if d == "" then r.routes else r.routes[d := a])
  {
  }

  /** A delete acts exactly on a live agent of the tenant: it is marked, and its
      routes go with it. */
  lemma DeleteActs(r: Registry, tenant: nat, a: string)
    ensures var r' := Delete(r, tenant, a);
            if a in r.agents && !r.agents[a].deleted && r.agents[a].tenant == tenant then
              && r'.agents == r.agents[a := Agent(tenant, true)]
              && (forall p :: p in r'.routes <==> p in r.routes && r.routes[p] != a)
              && forall p :: p in r'.routes ==> r'.routes[p] == r.routes[p]
            else r' == r
  {
  }

  /** The lookup says None exactly when the number is free. */
  lemma LookupIsExact(r: Registry, phone: string)
    requires Valid(r)
    ensures AgentForPhone(r, phone).None? <==> Digits(phone) !in r.routes
  {
  }

  /** A guarded patch never meets the primary key, and without the invariant it
      can: a number left routed to a deleted agent passes the guard and collides. */
  lemma GuardAvoidsKey(r: Registry, tenant: nat, a: string, phone: string)
    requires LiveAgent(r, a) && r.agents[a].tenant == tenant && Digits(phone) != ""
    ensures var guardPasses := AgentForPhone(r, phone).None? || AgentForPhone(r, phone) == Some(a);
            var d := Digits(phone);
            && (guardPasses ==> (d in Unrouted(r.routes, a) <==> d in r.routes && !LiveAgent(r, r.routes[d])))
            && (guardPasses && Valid(r) ==> d !in Unrouted(r.routes, a))
  {
  }

  /** Exactly when a successful provision keeps the registry valid: no number was
      given, or the agent is new or live and has no other number. A fresh agent
      id always qualifies. */
  lemma ProvisionValidIff(r: Registry, a: string, tenant: nat, phone: string)
    requires Valid(r)
    ensures var (r', outcome) := Provision(r, a, tenant, phone);
            && (outcome == PhoneBound ==> r' == r)
            && (outcome == Provisioned ==>
                (Valid(r') <==> Digits(phone) == "" ||
                                ((a !in r.agents || !r.agents[a].deleted)
                                 && forall p :: p in r.routes && r.routes[p] == a ==> p == Digits(phone))))
            && (a !in r.agents ==> Valid(r'))
  {
    var (r', outcome) := Provision(r, a, tenant, phone);
    var d := Digits(phone);
    if outcome == Provisioned && d != "" {
      assert d in r'.routes && r'.routes[d] == a;
      if p :| p in r.routes && r.routes[p] == a && p != d {
        assert p in r'.routes && r'.routes[p] == a;
      }
    }
  }

  /** A patched agent answers at its new number and at no other; every other
      agent keeps the number it had. */
  lemma PatchMoves(r: Registry, tenant: nat, a: string, phone: string, other: string)
    requires Valid(r) && Patch(r, tenant, a, phone).1 == Patched
    ensures var r' := Patch(r, tenant, a, phone).0;
            AgentForPhone(r', other) ==
            if Digits(other) == Digits(phone) && Digits(phone) != "" then Some(a)
            else if AgentForPhone(r, other) == Some(a) then None
            else AgentForPhone(r, other)
  {
  }

  // ----- Runs -----

  datatype Op =
    | ProvisionOp(agent: string, tenant: nat, phone: string)
    | PatchOp(tenant: nat, agent: string, phone: string)
    | DeleteOp(tenant: nat, agent: string)

  function Apply(r: Registry, op: Op): Registry {
    match op
    case ProvisionOp(a, t, p) => Provision(r, a, t, p).0
    case PatchOp(t, a, p) => Patch(r, t, a, p).0
    case DeleteOp(t, a) => Delete(r, t, a)
  }

  function Run(r: Registry, ops: seq<Op>): Registry {
    if ops == [] then r else Apply(Run(r, ops[..|ops| - 1]), ops[|ops| - 1])
  }

  /** Provisioned ids are new when provisioned. */
  ghost predicate FreshIds(r: Registry, ops: seq<Op>) {
    forall n :: 0 <= n < |ops| ==> FreshAt(r, ops, n)
  }

  predicate FreshAt(r: Registry, ops: seq<Op>, n: nat)
    requires n < |ops|
  {
    ops[n].ProvisionOp? ==> ops[n].agent !in Run(r, ops[..n]).agents
  }

  lemma {:induction false} ValidAlways(r: Registry, ops: seq<Op>)
    requires Valid(r) && FreshIds(r, ops)
    ensures Valid(Run(r, ops))
  {
    if ops != [] {
      var n := |ops| - 1;
      assert FreshIds(r, ops[..n]) by {
        forall m | 0 <= m < n ensures FreshAt(r, ops[..n], m) {
          assert ops[..n][..m] == ops[..m] && FreshAt(r, ops, m);
        }
      }
      ValidAlways(r, ops[..n]);
      assert FreshAt(r, ops, n);
      if ops[n].ProvisionOp? {
        ProvisionValidIff(Run(r, ops[..n]), ops[n].agent, ops[n].tenant, ops[n].phone);
      }
    }
  }

  // ----- Runs that reuse an id -----

  const NOBODY := Registry(map[], map[])

  /** The id onboarding makes of a user and an agent name has no random part. */
  const ID := "agent-1-bot"

  lemma RunOne(r: Registry, ops: seq<Op>, op: Op)
    ensures Run(r, ops + [op]) == Apply(Run(r, ops), op)
  {
    assert (ops + [op])[..|ops|] == ops;
  }

  lemma FirstNumber()
    ensures Digits("1") == "1" && Digits("2") == "2" && "1" != "2"
    ensures Run(NOBODY, [ProvisionOp(ID, 1, "1")]) == Registry(map[ID := Agent(1, false)], map["1" := ID])
  {
    assert Digits("") == "" && "1"[1..] == "" && "2"[1..] == "";
    assert "1"[0] != "2"[0];
    RunOne(NOBODY, [], ProvisionOp(ID, 1, "1"));
    assert [] + [ProvisionOp(ID, 1, "1")] == [ProvisionOp(ID, 1, "1")];
  }

  /** From nothing, the same id provisioned with one number and then another has
      both. */
  lemma TwoNumbers()
    ensures Valid(NOBODY)
    ensures var r := Run(NOBODY, [ProvisionOp(ID, 1, "1")] + [ProvisionOp(ID, 1, "2")]);
            AgentForPhone(r, "1") == AgentForPhone(r, "2") == Some(ID) && !Valid(r)
  {
    FirstNumber();
    RunOne(NOBODY, [ProvisionOp(ID, 1, "1")], ProvisionOp(ID, 1, "2"));
    var r := Run(NOBODY, [ProvisionOp(ID, 1, "1")] + [ProvisionOp(ID, 1, "2")]);
    assert r.routes["1"] == r.routes["2"] == ID;
  }

  /** From nothing, an id provisioned again after its deletion holds a number for
      an agent that stays deleted: the lookup calls the number free, and it is not. */
  lemma DeadNumber()
    ensures var r := Run(NOBODY, [ProvisionOp(ID, 1, "1")] + [DeleteOp(1, ID)] + [ProvisionOp(ID, 1, "1")]);
            AgentForPhone(r, "1") == None && "1" in r.routes && !Valid(r)
  {
    FirstNumber();
    RunOne(NOBODY, [ProvisionOp(ID, 1, "1")], DeleteOp(1, ID));
    RunOne(NOBODY, [ProvisionOp(ID, 1, "1")] + [DeleteOp(1, ID)], ProvisionOp(ID, 1, "1"));
    var gone := Run(NOBODY, [ProvisionOp(ID, 1, "1")] + [DeleteOp(1, ID)]);
    assert gone == Registry(map[ID := Agent(1, true)], map[]);
  }
}
