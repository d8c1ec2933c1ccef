/**
 The Telegram quick-connect protocol: a deep link carries a nonce, /start ties
 a Telegram user to the nonce's pending attempt, and the managed-bot webhook
 finishes the newest attempt of that user. Webhooks arrive at least once, in any
 order. The attempt ledger is the telegram row of each agent.
 */
module TelegramConnect {
  import opened Options
  import opened Text

  type Agent = string

  /** Whole seconds since the epoch. */
  type Seconds = nat

  const TTL: Seconds := 900

  datatype Started = Started(telegramUser: int, chat: int, at: Seconds)

  datatype Pending = Pending(nonce: string, appUser: int, expiresAt: Seconds, started: Option<Started>)

  datatype Bot = Bot(username: string, displayName: string)

  datatype Bridge = Bridge(enabled: bool, pending: Option<Pending>, error: Option<string>,
                           bot: Option<Bot>, managedBot: Option<string>)

  type Ledger = map<Agent, Bridge>

  /** Outcomes of the foreign calls a managed-bot update makes. */
  datatype Calls = Calls(tokenFetched: bool, secretStored: bool, configPatched: bool)

  /** The resolved and handled agents record which row the lookup found. */
  datatype Event =
    | Issue(agent: Agent, nonce: string, appUser: int, now: Seconds)
    | Start(nonce: string, telegramUser: int, chat: int, now: Seconds, resolved: Option<Agent>)
    | ManagedBot(telegramUser: int, bot: Bot, calls: Calls, handled: Option<Agent>)
    | PasteToken(agent: Agent, bot: Bot, valid: bool, secretStored: bool)
    | Disconnect(agent: Agent)

  // ----- Statements -----

  predicate UrlSafe(c: char) {
    'A' <= c <= 'Z' || 'a' <= c <= 'z' || '0' <= c <= '9' || c == '-' || c == '_'
  }

  predicate WellFormed(nonce: string) {
    nonce != "" && forall i :: 0 <= i < |nonce| ==> UrlSafe(nonce[i])
  }

  /** An upsert: a fresh row is disabled, an old one keeps its flag and identity. */
  function IssueRow(l: Ledger, a: Agent, p: Pending): Ledger {
    l[a := if a in l then l[a].(pending := Some(p), error := None) else Bridge(false, Some(p), None, None, None)]
  }

  predicate Carries(l: Ledger, a: Agent, nonce: string) {
    a in l && l[a].pending.Some? && l[a].pending.value.nonce == nonce
  }

  predicate Expired(p: Pending, now: Seconds) {
    p.expiresAt != 0 && p.expiresAt < now
  }

  /** What resolving a /start nonce may answer. */
  predicate Resolves(l: Ledger, nonce: string, now: Seconds, answer: Option<Agent>) {
    match answer
    case Some(a) => WellFormed(nonce) && Carries(l, a, nonce) && !Expired(l[a].pending.value, now)
    case None =>
      !WellFormed(nonce) || (forall a :: a in l ==> !Carries(l, a, nonce))
      || (exists a :: a in l && Carries(l, a, nonce) && Expired(l[a].pending.value, now))
  }

  function RecordRow(l: Ledger, a: Agent, s: Started): Ledger {
    if a in l && l[a].pending.Some?
    then l[a := l[a].(pending := Some(l[a].pending.value.(started := Some(s))))]
    else l
  }

  predicate AttemptOf(l: Ledger, a: Agent, u: int) {
    a in l && l[a].pending.Some? && l[a].pending.value.started.Some? &&
        l[a].pending.value.started.value.telegramUser == u
  }

  function StartedAt(l: Ledger, a: Agent): Seconds {
    if a in l && l[a].pending.Some? && l[a].pending.value.started.Some? then l[a].pending.value.started.value.at else 0
  }

  /** ORDER BY started_at DESC LIMIT 1: any of the latest attempts of the user. */
  predicate Latest(l: Ledger, u: int, answer: Option<Agent>) {
    match answer
    case Some(a) => AttemptOf(l, a, u) && forall b :: b in l && AttemptOf(l, b, u) ==>
        StartedAt(l, b) <= StartedAt(l, a)
    case None => forall b :: b in l ==> !AttemptOf(l, b, u)
  }

  function FailRow(l: Ledger, a: Agent, reason: string): Ledger {
    if a in l then l[a := l[a].(pending := None, error := Some(reason))] else l
  }

  function CompleteRow(l: Ledger, a: Agent, username: string): Ledger {
    if a in l then l[a := l[a].(pending := None, managedBot := Some(username))] else l
  }

  /** Replaces the whole configuration and enables the row. */
  function ConnectRow(l: Ledger, a: Agent, bot: Bot): Ledger {
    l[a := Bridge(true, None, None, Some(bot), None)]
  }

  function Handle(l: Ledger, a: Agent, bot: Bot, calls: Calls): Ledger {
    if !calls.tokenFetched then FailRow(l, a, "getManagedBotToken")
    else if !calls.secretStored then FailRow(l, a, "secret_write_failed")
    else if !calls.configPatched then FailRow(ConnectRow(l, a, bot), a, "config_patch_failed")
    else CompleteRow(ConnectRow(l, a, bot), a, bot.username)
  }

  // ----- Steps -----

  /** The lookups inside the event answered as recorded. */
  predicate Possible(l: Ledger, e: Event) {
    match e
    case Start(nonce, _, _, now, resolved) => Resolves(l, nonce, now, resolved)
    case ManagedBot(u, _, _, handled) => Latest(l, u, handled)
    case _ => true
  }

  function Apply(l: Ledger, e: Event): Ledger {
    match e
    case Issue(a, nonce, appUser, now) => IssueRow(l, a, Pending(nonce, appUser, now + TTL, None))
    case Start(_, u, chat, now, resolved) => if resolved.Some?
        then RecordRow(l, resolved.value, Started(u, chat, now)) else l
    case ManagedBot(_, bot, calls, handled) => if handled.Some? then Handle(l, handled.value, bot, calls) else l
    case PasteToken(a, bot, valid, secretStored) => if valid && secretStored then ConnectRow(l, a, bot) else l
    case Disconnect(a) => if a in l then l[a := l[a].(enabled := false)] else l
  }

  // ----- What the status endpoint shows -----

  datatype Status = StillPending | Connected(username: string) | Failed(reason: string)

  function ManagedStatus(l: Ledger, a: Agent): Status {
    if a !in l then StillPending
    else if l[a].enabled && l[a].bot.Some? && l[a].bot.value.username != "" then Connected(l[a].bot.value.username)
    else if l[a].error.Some? && l[a].error.value != "" then Failed(l[a].error.value)
    else StillPending
  }

  // ----- Attempts and nonces, read off the rows -----

  /** The agent's pending attempt was last started by the Telegram user. */
  predicate StartedHere(l: Ledger, a: Agent, u: int) {
    a in l && match l[a].pending
              case None => false
              case Some(p) => match p.started { case None => false case Some(s) => s.telegramUser == u }
  }

  lemma AttemptIsStart(l: Ledger, u: int)
    ensures forall a :: AttemptOf(l, a, u) <==> StartedHere(l, a, u)
    ensures forall a :: StartedHere(l, a, u) ==> StartedAt(l, a) == StartOf(l, a).at
  {
    forall a | StartedHere(l, a, u) ensures StartedAt(l, a) == StartOf(l, a).at {
    }
  }

  function StartOf(l: Ledger, a: Agent): Started
    requires a in l && l[a].pending.Some? && l[a].pending.value.started.Some?
  {
    l[a].pending.value.started.value
  }

  /** The agent's pending attempt is this nonce's. */
  predicate Holds(l: Ledger, a: Agent, nonce: string) {
    a in l && match l[a].pending { case None => false case Some(p) => p.nonce == nonce }
  }

  /** It has not expired, or never does. */
  predicate InTime(l: Ledger, a: Agent, now: Seconds)
    requires a in l && l[a].pending.Some?
  {
    now <= l[a].pending.value.expiresAt || l[a].pending.value.expiresAt == 0
  }

  const FIGURES := "0123456789-_"
  const ALPHABET := CAPITALS + SMALLS + FIGURES

  predicate InAlphabet(nonce: string) {
    nonce != "" && forall c :: c in nonce ==> c in ALPHABET
  }

  lemma AlphabetIs(c: char)
    ensures UrlSafe(c) <==> c in ALPHABET
  {
    CaseOf(c);
    assert forall i :: 0 <= i < 10 ==> FIGURES[i] as int == 48 + i;
    assert FIGURES[10] == '-' && FIGURES[11] == '_';
    if '0' <= c <= '9' {
      assert FIGURES[c as int - 48] == c;
    }
  }

  lemma WellFormedIff(nonce: string)
    ensures WellFormed(nonce) <==> InAlphabet(nonce)
  {
    forall c | c in nonce ensures UrlSafe(c) <==> c in ALPHABET {
      AlphabetIs(c);
    }
    if InAlphabet(nonce) {
      forall i | 0 <= i < |nonce| ensures UrlSafe(nonce[i]) {
        AlphabetIs(nonce[i]);
      }
    }
  }

  lemma HoldsIsCarries(l: Ledger, nonce: string)
    ensures forall a :: Holds(l, a, nonce) <==> Carries(l, a, nonce)
  {
    forall a ensures Holds(l, a, nonce) <==> Carries(l, a, nonce) {
    }
  }

  /** A nonce in the alphabet that one agent holds, and holds in time, resolves to it. */
  lemma LiveNonceResolves(l: Ledger, a: Agent, nonce: string, now: Seconds, answer: Option<Agent>)
    requires InAlphabet(nonce) && Holds(l, a, nonce) && InTime(l, a, now) && Resolves(l, nonce, now, answer)
    requires forall b :: Holds(l, b, nonce) ==> b == a
    ensures answer == Some(a)
  {
    WellFormedIff(nonce);
    HoldsIsCarries(l, nonce);
  }

  /** What the poller is shown, field by field. */
  lemma StatusIs(l: Ledger, a: Agent)
    ensures var shown := ManagedStatus(l, a);
            var named := a in l && l[a].enabled && l[a].bot.Some? && l[a].bot.value.username != "";
            var wrong := a in l && l[a].error.Some? && l[a].error.value != "";
            && (named ==> shown == Connected(l[a].bot.value.username))
            && (!named && wrong ==> shown == Failed(l[a].error.value))
            && (!named && !wrong ==> shown == StillPending)
  {
  }

  /** Everybody else's row is as it was. */
  predicate OthersStay(l: Ledger, l': Ledger, a: Agent) {
    (forall b :: b in l && b != a ==> b in l' && l'[b] == l[b]) && (forall b :: b in l' && b != a ==> b in l)
  }

  class TelegramDb {
    var bridges: Ledger

    constructor ()
      ensures bridges == map[]
    {
      bridges := map[];
    }

    /** The agent now carries the nonce, not started and good for a while; what it
        is connected to stays, and so does what the poller sees, errors aside. */
    method IssueNonce(a: Agent, nonce: string, appUser: int, now: Seconds)
      modifies this
      ensures bridges == Apply(old(bridges), Issue(a, nonce, appUser, now))
      ensures Carries(bridges, a, nonce) && bridges[a].pending.value.started.None?
      ensures forall t :: Expired(bridges[a].pending.value, t) <==> now + 900 < t
      ensures bridges[a].enabled <==> a in old(bridges) && old(bridges)[a].enabled
      ensures bridges[a].bot == if a in old(bridges) then old(bridges)[a].bot else None
      ensures var before := ManagedStatus(old(bridges), a);
              ManagedStatus(bridges, a) == if before.Connected? then before else StillPending
      ensures OthersStay(old(bridges), bridges, a)
    {
      var payload := Pending(nonce, appUser, now + TTL, None);
      if a !in bridges {
        bridges := bridges[a := Bridge(false, Some(payload), None, None, None)];
      } else {
        bridges := bridges[a := bridges[a].(pending := Some(payload), error := None)];
      }
    }

    /** Resolve, then record the Telegram identity on the attempt found. */
    method HandleStart(nonce: string, u: int, chat: int, now: Seconds) returns (resolved: Option<Agent>)
      modifies this
      ensures Possible(old(bridges), Start(nonce, u, chat, now, resolved))
      ensures resolved.Some? ==> Holds(old(bridges), resolved.value, nonce) && InTime(old(bridges), resolved.value, now)
      ensures resolved.None? ==>
                || !InAlphabet(nonce)
                || (forall a :: !Holds(old(bridges), a, nonce))
                || (exists a :: Holds(old(bridges), a, nonce) && !InTime(old(bridges), a, now))
      ensures bridges == Apply(old(bridges), Start(nonce, u, chat, now, resolved))
    {
      WellFormedIff(nonce);
      HoldsIsCarries(bridges, nonce);
      if !WellFormed(nonce) || !exists a :: a in bridges && Carries(bridges, a, nonce) {
        return None;
      }
      var a :| a in bridges && Carries(bridges, a, nonce);
      var p := bridges[a].pending.value;
      if p.expiresAt != 0 && p.expiresAt < now {
        return None;
      }
      p := p.(started := Some(Started(u, chat, now)));
      bridges := bridges[a := bridges[a].(pending := Some(p))];
      resolved := Some(a);
    }

    /** Find the user's newest attempt, fetch and store its token, connect the
        row, patch the container, and close the attempt. */
    method HandleManagedBot(u: int, bot: Bot, calls: Calls) returns (handled: Option<Agent>)
      modifies this
      ensures Possible(old(bridges), ManagedBot(u, bot, calls, handled))
      ensures handled.None? <==> forall a :: !StartedHere(old(bridges), a, u)
      ensures handled.Some? ==>
                && StartedHere(old(bridges), handled.value, u)
                && forall b :: StartedHere(old(bridges), b, u) ==>
                     StartOf(old(bridges), b).at <= StartOf(old(bridges), handled.value).at
      ensures bridges == Apply(old(bridges), ManagedBot(u, bot, calls, handled))
    {
      handled := NewestAttempt(u);
      AttemptIsStart(bridges, u);
      if handled.None? {
        return;
      }
      var a := handled.value;
      if !calls.tokenFetched {
        bridges := FailRow(bridges, a, "getManagedBotToken");
        return;
      }
      if !calls.secretStored {
        bridges := FailRow(bridges, a, "secret_write_failed");
        return;
      }
      bridges := ConnectRow(bridges, a, bot);
      if !calls.configPatched {
        bridges := FailRow(bridges, a, "config_patch_failed");
        return;
      }
      bridges := CompleteRow(bridges, a, bot.username);
    }

    method NewestAttempt(u: int) returns (r: Option<Agent>)
      ensures Latest(bridges, u, r)
      ensures r.None? <==> forall a :: !StartedHere(bridges, a, u)
      ensures r.Some? ==>
                && StartedHere(bridges, r.value, u)
                && forall b :: StartedHere(bridges, b, u) ==> StartOf(bridges, b).at <= StartOf(bridges, r.value).at
    {
      r := None;
      AttemptIsStart(bridges, u);
      var rest := bridges.Keys;
      while rest != {}
        invariant rest <= bridges.Keys
        invariant r.Some? ==> AttemptOf(bridges, r.value, u)
        invariant forall b :: b in bridges.Keys - rest && AttemptOf(bridges, b, u) ==>
                    r.Some? && StartedAt(bridges, b) <= StartedAt(bridges, r.value)
        decreases |rest|
      {
        var b :| b in rest;
        rest := rest - {b};
        if AttemptOf(bridges, b, u) && (r.None? || StartedAt(bridges, r.value) <= StartedAt(bridges, b)) {
          r := Some(b);
        }
      }
    }

    /** A good token connects the bot and ends any pending attempt; another one
        changes nothing. */
    method ConnectToken(a: Agent, bot: Bot, valid: bool, secretStored: bool)
      modifies this
      ensures bridges == Apply(old(bridges), PasteToken(a, bot, valid, secretStored))
      ensures valid && secretStored ==>
                && a in bridges && bridges[a].enabled && bridges[a].bot == Some(bot)
                && (forall u :: !AttemptOf(bridges, a, u)) && (forall nonce :: !Carries(bridges, a, nonce))
                && (bot.username != "" ==> ManagedStatus(bridges, a) == Connected(bot.username))
      ensures !(valid && secretStored) ==> bridges == old(bridges)
      ensures OthersStay(old(bridges), bridges, a)
    {
      if valid && secretStored {
        bridges := ConnectRow(bridges, a, bot);
      }
    }

    /** The poller no longer sees the agent connected; a pending attempt survives. */
    method DisconnectBot(a: Agent)
      modifies this
      ensures bridges == Apply(old(bridges), Disconnect(a))
      ensures !ManagedStatus(bridges, a).Connected? && bridges.Keys == old(bridges).Keys
      ensures forall u :: AttemptOf(bridges, a, u) <==> AttemptOf(old(bridges), a, u)
      ensures forall nonce :: Carries(bridges, a, nonce) <==> Carries(old(bridges), a, nonce)
      ensures OthersStay(old(bridges), bridges, a)
    {
      if a in bridges {
        bridges := bridges[a := bridges[a].(enabled := false)];
      }
    }
  }

  // ----- Traces -----

  function Run(trace: seq<Event>): Ledger {
    if trace == [] then map[] else Apply(Run(trace[..|trace| - 1]), trace[|trace| - 1])
  }

  ghost predicate ValidTrace(trace: seq<Event>) {
    forall n :: 0 <= n < |trace| ==> PossibleAt(trace, n)
  }

  predicate PossibleAt(trace: seq<Event>, n: nat)
    requires n < |trace|
  {
    Possible(Run(trace[..n]), trace[n])
  }

  /** Minted nonces never repeat. */
  ghost predicate FreshNonces(trace: seq<Event>) {
    forall i, j :: 0 <= i < j < |trace| && trace[i].Issue? && trace[j].Issue? ==> trace[i].nonce != trace[j].nonce
  }

  /** Events after which an older attempt of the agent is no more. */
  predicate Ends(e: Event, a: Agent) {
    || (e.Issue? && e.agent == a)
    || (e.ManagedBot? && e.handled == Some(a))
    || (e.PasteToken? && e.agent == a && e.valid && e.secretStored)
  }

  predicate StartsOn(e: Event, a: Agent, nonce: string) {
    e.Start? && e.resolved == Some(a) && e.nonce == nonce
  }

  /** The pending record was issued for the agent at i and stands since then. */
  ghost predicate IssuedAt(trace: seq<Event>, i: nat, a: Agent, p: Pending) {
    && i < |trace| && p.expiresAt >= TTL && trace[i] == Issue(a, p.nonce, p.appUser, p.expiresAt - TTL)
    && forall k :: i < k < |trace| ==> !Ends(trace[k], a)
  }

  /** Its last start, by the user recorded, came at j, in time. */
  ghost predicate StartedBy(trace: seq<Event>, i: nat, j: nat, a: Agent, p: Pending, s: Started) {
    && i < j < |trace| && trace[j] == Start(p.nonce, s.telegramUser, s.chat, s.at, Some(a)) && s.at <= p.expiresAt
    && forall k :: j < k < |trace| ==> !StartsOn(trace[k], a, p.nonce)
  }

  ghost predicate Traced(trace: seq<Event>, a: Agent) {
    var l := Run(trace);
    a in l && l[a].pending.Some? ==>
      exists i :: 0 <= i < |trace| && IssuedAt(trace, i, a, l[a].pending.value) &&
          Begun(trace, i, a, l[a].pending.value)
  }

  ghost predicate Begun(trace: seq<Event>, i: nat, a: Agent, p: Pending) {
    if p.started.Some? then exists j :: 0 <= j < |trace| && StartedBy(trace, i, j, a, p, p.started.value)
    else forall k :: i < k < |trace| ==> !StartsOn(trace[k], a, p.nonce)
  }

  /** Every pending record of every trace has its history. */
  lemma {:induction false} PendingTraced(trace: seq<Event>, a: Agent)
    requires ValidTrace(trace)
    ensures Traced(trace, a)
  {
    if trace == [] {
      return;
    }
    var n := |trace| - 1;
    var before, e := trace[..n], trace[n];
    assert ValidTrace(before) by {
      forall k | 0 <= k < n ensures PossibleAt(before, k) {
        assert before[..k] == trace[..k] && PossibleAt(trace, k);
      }
    }
    PendingTraced(before, a);
    assert PossibleAt(trace, n) && trace == before + [e];
    var l, l' := Run(before), Run(trace);
    if a in l' && l'[a].pending.Some? {
      var p := l'[a].pending.value;
      if e.Issue? && e.agent == a {
        assert IssuedAt(trace, n, a, p) && Begun(trace, n, a, p);
      } else {
        assert !Ends(e, a) && a in l && l[a].pending.Some?;
        var q := l[a].pending.value;
        var i :| 0 <= i < n && IssuedAt(before, i, a, q) && Begun(before, i, a, q);
        KeepsHistory(before, e, i, a, q, p);
      }
    }
  }

  lemma KeepsHistory(before: seq<Event>, e: Event, i: nat, a: Agent, q: Pending, p: Pending)
    requires IssuedAt(before, i, a, q) && Begun(before, i, a, q) && !Ends(e, a)
    requires Possible(Run(before), e) && a in Run(before) && Run(before)[a].pending == Some(q)
    requires a in Apply(Run(before), e) && Apply(Run(before), e)[a].pending == Some(p)
    ensures IssuedAt(before + [e], i, a, p) && Begun(before + [e], i, a, p)
  {
    var trace := before + [e];
    if StartsOn(e, a, q.nonce) {
      assert StartedBy(trace, i, |before|, a, p, p.started.value);
    } else {
      assert p == q;
      if q.started.Some? {
        var j :| 0 <= j < |before| && StartedBy(before, i, j, a, q, q.started.value);
        assert StartedBy(trace, i, j, a, p, p.started.value);
      }
    }
  }

  /** The update at n rests on the nonce issued at i and the start at j: its own
      user started the nonce, in time, nobody started it after them, and nothing
      re-issued, finished or token-connected the agent in between. */
  ghost predicate RestsOn(trace: seq<Event>, n: nat, i: nat, j: nat)
    requires n < |trace| && trace[n].ManagedBot? && trace[n].handled.Some?
  {
    var a := trace[n].handled.value;
    && i < j < n && trace[i].Issue? && trace[i].agent == a
    && StartsOn(trace[j], a, trace[i].nonce)
    && trace[j].telegramUser == trace[n].telegramUser && trace[j].now <= trace[i].now + TTL
    && (forall k :: j < k < n ==> !StartsOn(trace[k], a, trace[i].nonce))
    && (forall k :: i < k < n ==> !Ends(trace[k], a))
  }

  lemma ValidPrefix(trace: seq<Event>, n: nat)
    requires ValidTrace(trace) && n <= |trace|
    ensures ValidTrace(trace[..n])
  {
    forall k | 0 <= k < n ensures PossibleAt(trace[..n], k) {
      assert trace[..n][..k] == trace[..k] && PossibleAt(trace, k);
    }
  }

  /** Provenance: a managed-bot update touches an agent only on such grounds. */
  lemma Provenance(trace: seq<Event>, n: nat) returns (i: nat, j: nat)
    requires ValidTrace(trace) && n < |trace| && trace[n].ManagedBot? && trace[n].handled.Some?
    ensures RestsOn(trace, n, i, j)
  {
    var before := trace[..n];
    var a := trace[n].handled.value;
    ValidPrefix(trace, n);
    PendingTraced(before, a);
    assert PossibleAt(trace, n);
    var p := Run(before)[a].pending.value;
    i :| 0 <= i < n && IssuedAt(before, i, a, p) && Begun(before, i, a, p);
    j :| 0 <= j < n && StartedBy(before, i, j, a, p, p.started.value);
  }

  /** The last start on the agent's standing nonce. */
  ghost predicate LastStart(trace: seq<Event>, n: nat, b: Agent, i: nat, j: nat)
    requires n <= |trace|
  {
    && i < j < n && trace[i].Issue? && trace[i].agent == b && StartsOn(trace[j], b, trace[i].nonce)
    && (forall k :: j < k < n ==> !StartsOn(trace[k], b, trace[i].nonce))
    && (forall k :: i < k < n ==> !Ends(trace[k], b))
  }

  lemma StartTraced(trace: seq<Event>, n: nat, b: Agent, u: int) returns (i: nat, j: nat)
    requires ValidTrace(trace) && n <= |trace| && StartedHere(Run(trace[..n]), b, u)
    ensures LastStart(trace, n, b, i, j) && trace[j].telegramUser == u
    ensures trace[j].now == StartOf(Run(trace[..n]), b).at
  {
    var before := trace[..n];
    ValidPrefix(trace, n);
    PendingTraced(before, b);
    var p := Run(before)[b].pending.value;
    i :| 0 <= i < n && IssuedAt(before, i, b, p) && Begun(before, i, b, p);
    j :| 0 <= j < n && StartedBy(before, i, j, b, p, p.started.value);
  }

  /** Over every trace, a managed-bot update handles the attempt its user started
      last: every attempt of theirs still pending had its last start no later. */
  lemma NewestIsHandled(trace: seq<Event>, n: nat, b: Agent, ib: nat, jb: nat) returns (i: nat, j: nat)
    requires ValidTrace(trace) && n < |trace| && trace[n].ManagedBot? && trace[n].handled.Some?
    requires LastStart(trace, n, b, ib, jb) && trace[jb].telegramUser == trace[n].telegramUser
    ensures LastStart(trace, n, trace[n].handled.value, i, j) && trace[j].telegramUser == trace[n].telegramUser
    ensures trace[jb].now <= trace[j].now
  {
    assert PossibleAt(trace, n);
    var l := Run(trace[..n]);
    var a, u := trace[n].handled.value, trace[n].telegramUser;
    i, j := StartTraced(trace, n, a, u);
    StandsStarted(trace, n, b, ib, jb);
  }

  /** And it finds none only if its user has started none that is still pending. */
  lemma NoneIsHandled(trace: seq<Event>, n: nat, b: Agent, i: nat, j: nat)
    requires ValidTrace(trace) && n < |trace| && trace[n].ManagedBot? && trace[n].handled.None?
    requires LastStart(trace, n, b, i, j)
    ensures trace[j].telegramUser != trace[n].telegramUser
  {
    assert PossibleAt(trace, n);
    StandsStarted(trace, n, b, i, j);
  }

  /** A last start that nothing has ended stands in the ledger. */
  lemma {:induction false} StandsStarted(trace: seq<Event>, n: nat, b: Agent, i: nat, j: nat)
    requires ValidTrace(trace) && n <= |trace| && LastStart(trace, n, b, i, j)
    ensures StartedHere(Run(trace[..n]), b, trace[j].telegramUser)
    ensures StartOf(Run(trace[..n]), b).at == trace[j].now && Holds(Run(trace[..n]), b, trace[i].nonce)
  {
    var e := trace[n - 1];
    var before := Run(trace[..n - 1]);
    assert trace[..n][..n - 1] == trace[..n - 1] && Run(trace[..n]) == Apply(before, e);
    assert PossibleAt(trace, n - 1);
    if n - 1 == j {
      assert Carries(before, b, trace[i].nonce);
    } else {
      StandsStarted(trace, n - 1, b, i, j);
      StandsOne(before, e, b, trace[i].nonce);
    }
  }

  lemma StandsOne(l: Ledger, e: Event, b: Agent, nonce: string)
    requires Possible(l, e) && Holds(l, b, nonce) && !Ends(e, b) && !StartsOn(e, b, nonce)
    ensures b in Apply(l, e) && Apply(l, e)[b].pending == l[b].pending
  {
  }

  /** Token and secret in hand, from a managed-bot update or a paste. */
  predicate Enables(e: Event, a: Agent) {
    || (e.ManagedBot? && e.handled == Some(a) && e.calls.tokenFetched && e.calls.secretStored)
    || (e.PasteToken? && e.agent == a && e.valid && e.secretStored)
  }

  lemma EnablingStep(l: Ledger, e: Event, a: Agent)
    requires Possible(l, e) && a in Apply(l, e) && Apply(l, e)[a].enabled
    ensures Enables(e, a) ==> Apply(l, e)[a].bot == Some(e.bot)
    ensures !Enables(e, a) ==> a in l && l[a].enabled && Apply(l, e)[a].bot == l[a].bot && e != Disconnect(a)
  {
  }

  /** In every trace, an enabled agent is connected to the bot of the last event
      that enabled it, with no disconnection since; and if that was a managed-bot
      update, it rested on a nonce of the agent's own. */
  lemma {:induction false} EnabledBecause(trace: seq<Event>, a: Agent) returns (n: nat)
    requires ValidTrace(trace) && a in Run(trace) && Run(trace)[a].enabled
    ensures n < |trace| && Enables(trace[n], a) && Run(trace)[a].bot == Some(trace[n].bot)
    ensures forall k :: n < k < |trace| ==> !Enables(trace[k], a) && trace[k] != Disconnect(a)
    ensures trace[n].ManagedBot? ==> exists i: nat, j: nat :: RestsOn(trace, n, i, j)
  {
    var last := |trace| - 1;
    ValidPrefix(trace, last);
    assert PossibleAt(trace, last);
    EnablingStep(Run(trace[..last]), trace[last], a);
    if Enables(trace[last], a) {
      n := last;
    } else {
      n := EnabledBecause(trace[..last], a);
    }
    if trace[n].ManagedBot? {
      var i, j := Provenance(trace, n);
    }
  }

  /** A nonce leads to at most one agent. */
  lemma NonceUnique(trace: seq<Event>, a: Agent, b: Agent, nonce: string)
    requires ValidTrace(trace) && FreshNonces(trace)
    requires Carries(Run(trace), a, nonce) && Carries(Run(trace), b, nonce)
    ensures a == b
  {
    PendingTraced(trace, a);
    PendingTraced(trace, b);
    var i :| 0 <= i < |trace| && IssuedAt(trace, i, a, Run(trace)[a].pending.value);
    var j :| 0 <= j < |trace| && IssuedAt(trace, j, b, Run(trace)[b].pending.value);
    assert i < j || j < i || i == j;
  }

  // ----- Redelivery -----

  /** Success or failure, a handled attempt leaves no pending record, and other
      rows are untouched. */
  lemma HandledIsGone(l: Ledger, a: Agent, bot: Bot, calls: Calls, u: int)
    requires AttemptOf(l, a, u)
    ensures var l' := Handle(l, a, bot, calls);
            && l'.Keys == l.Keys && l'[a].pending.None?
            && (l'[a].error.None? && calls.tokenFetched ==> l'[a].managedBot == Some(bot.username))
            && (forall b :: b in l && b != a ==> l'[b] == l[b])
            && Attempts(l', u) == Attempts(l, u) - {a} && |Attempts(l', u)| == |Attempts(l, u)| - 1
  {
    var l' := Handle(l, a, bot, calls);
    assert Attempts(l', u) == Attempts(l, u) - {a};
  }

  function Attempts(l: Ledger, u: int): set<Agent> {
    set a | a in l && AttemptOf(l, a, u)
  }

  /** One delivery of a managed-bot update, the newest attempt being any of the
      latest ones. */
  ghost predicate Delivers(l: Ledger, u: int, bot: Bot, calls: Calls, l': Ledger) {
    exists handled :: Latest(l, u, handled) && l' == Apply(l, ManagedBot(u, bot, calls, handled))
  }

  lemma LatestExists(l: Ledger, u: int, rest: set<Agent>) returns (r: Option<Agent>)
    requires rest <= l.Keys
    ensures match r
            case Some(a) => a in rest && AttemptOf(l, a, u)
                            && forall b :: b in rest && AttemptOf(l, b, u) ==> StartedAt(l, b) <= StartedAt(l, a)
            case None => forall b :: b in rest ==> !AttemptOf(l, b, u)
    decreases |rest|
  {
    if rest == {} {
      return None;
    }
    var b :| b in rest;
    r := LatestExists(l, u, rest - {b});
    if AttemptOf(l, b, u) && (r.None? || StartedAt(l, r.value) <= StartedAt(l, b)) {
      r := Some(b);
    }
  }

  /** A second delivery, whatever its foreign calls come to, changes nothing. */
  ghost predicate Redelivery(l: Ledger, u: int, bot: Bot, calls: Calls) {
    forall l1, later, l2 :: Delivers(l, u, bot, calls, l1) && Delivers(l1, u, bot, later, l2) ==> l2 == l1
  }

  /** Delivering an update twice is delivering it once exactly when the Telegram
      user has at most one pending attempt; with more, each delivery consumes
      another one, since replay is not keyed on the bot. */
  lemma RedeliveryIff(l: Ledger, u: int, bot: Bot, calls: Calls)
    ensures Redelivery(l, u, bot, calls) <==> |Attempts(l, u)| <= 1
  {
    if |Attempts(l, u)| <= 1 {
      forall l1, later, l2 | Delivers(l, u, bot, calls, l1) && Delivers(l1, u, bot, later, l2) ensures l2 == l1 {
        NoneLeft(l, u, bot, calls, l1);
        NothingToDo(l1, u, bot, later, l2);
      }
    } else {
      var l1 := DeliverOne(l, u, bot, calls);
      var l2 := DeliverOne(l1, u, bot, calls);
      assert Attempts(l2, u) != Attempts(l1, u);
    }
  }

  /** With an attempt pending, a delivery consumes exactly one. */
  lemma DeliverOne(l: Ledger, u: int, bot: Bot, calls: Calls) returns (l': Ledger)
    requires |Attempts(l, u)| > 0
    ensures Delivers(l, u, bot, calls, l') && |Attempts(l', u)| == |Attempts(l, u)| - 1
  {
    var a :| a in Attempts(l, u);
    var newest := LatestExists(l, u, l.Keys);
    l' := Handle(l, newest.value, bot, calls);
    HandledIsGone(l, newest.value, bot, calls, u);
    assert Latest(l, u, newest) && l' == Apply(l, ManagedBot(u, bot, calls, newest));
  }

  lemma NoneLeft(l: Ledger, u: int, bot: Bot, calls: Calls, l1: Ledger)
    requires |Attempts(l, u)| <= 1 && Delivers(l, u, bot, calls, l1)
    ensures Attempts(l1, u) == {}
  {
    var handled :| Latest(l, u, handled) && l1 == Apply(l, ManagedBot(u, bot, calls, handled));
    if handled.Some? {
      HandledIsGone(l, handled.value, bot, calls, u);
    }
  }

  /** So any number of deliveries in a row, one or more, their foreign calls
      turning out as they may, amounts to the first. */
  lemma {:induction false} ManyDeliveries(ls: seq<Ledger>, u: int, bot: Bot, calls: seq<Calls>, n: nat)
    requires |ls| == |calls| + 1 && |Attempts(ls[0], u)| <= 1 && 0 < n < |ls|
    requires forall k :: 0 <= k < |calls| ==> Delivers(ls[k], u, bot, calls[k], ls[k + 1])
    ensures ls[n] == ls[1]
  {
    NoneLeft(ls[0], u, bot, calls[0], ls[1]);
    if n > 1 {
      ManyDeliveries(ls, u, bot, calls, n - 1);
      assert Delivers(ls[n - 1], u, bot, calls[n - 1], ls[n - 1 + 1]);
      NothingToDo(ls[n - 1], u, bot, calls[n - 1], ls[n]);
    }
  }

  lemma NothingToDo(l: Ledger, u: int, bot: Bot, calls: Calls, l': Ledger)
    requires Attempts(l, u) == {} && Delivers(l, u, bot, calls, l')
    ensures l' == l
  {
    forall a | a in l ensures !AttemptOf(l, a, u) {
      assert a !in Attempts(l, u);
    }
  }

  // ----- A redelivery that does more -----

  const BOT := Bot("b", "B")
  const FINE := Calls(true, true, true)

  lemma RunOne(trace: seq<Event>, e: Event)
    requires ValidTrace(trace) && Possible(Run(trace), e)
    ensures Run(trace + [e]) == Apply(Run(trace), e) && ValidTrace(trace + [e])
  {
    var more := trace + [e];
    assert more[..|trace|] == trace;
    forall k | 0 <= k < |more| ensures PossibleAt(more, k) {
      if k < |trace| {
        assert more[..k] == trace[..k] && PossibleAt(trace, k);
      }
    }
  }

  function Row(nonce: string, started: Option<Started>): Bridge {
    Bridge(false, Some(Pending(nonce, 7, 900, started)), None, None, None)
  }

  lemma TwoIssued() returns (trace: seq<Event>)
    ensures ValidTrace(trace) && |trace| == 2 && trace[0].Issue? && trace[1].Issue?
    ensures Run(trace) == map["x" := Row("n", None), "y" := Row("m", None)]
  {
    trace := [] + [Issue("x", "n", 7, 0)];
    RunOne([], Issue("x", "n", 7, 0));
    assert Run(trace) == map["x" := Row("n", None)];
    RunOne(trace, Issue("y", "m", 7, 0));
    assert "x"[0] != "y"[0];
    trace := trace + [Issue("y", "m", 7, 0)];
  }

  function Both(): Ledger {
    map["x" := Row("n", Some(Started(5, 1, 1))), "y" := Row("m", Some(Started(5, 1, 2)))]
  }

  lemma TwoStarted() returns (trace: seq<Event>)
    ensures ValidTrace(trace) && |trace| == 4 && trace[2].Start? && trace[3].Start? && Run(trace) == Both()
  {
    assert "x"[0] != "y"[0] && "n"[0] != "m"[0] && WellFormed("n") && WellFormed("m");
    trace := TwoIssued();
    var e := Start("n", 5, 1, 1, Some("x"));
    RunOne(trace, e);
    trace := trace + [e];
    assert Run(trace) == map["x" := Row("n", Some(Started(5, 1, 1))), "y" := Row("m", None)];
    e := Start("m", 5, 1, 2, Some("y"));
    RunOne(trace, e);
    trace := trace + [e];
  }

  lemma TwoDelivered(l: Ledger)
    requires l == Both()
    ensures Attempts(l, 5) == {"x", "y"} && |Attempts(l, 5)| == 2
    ensures Latest(l, 5, Some("y"))
    ensures var l' := Apply(l, ManagedBot(5, BOT, FINE, Some("y")));
            Latest(l', 5, Some("x")) && Apply(l', ManagedBot(5, BOT, FINE, Some("x"))) != l'
  {
    assert "x"[0] != "y"[0];
    assert Attempts(l, 5) == {"x", "y"};
    var l' := Apply(l, ManagedBot(5, BOT, FINE, Some("y")));
    assert l' == map["x" := Row("n", Some(Started(5, 1, 1))), "y" := Bridge(true, None, None, Some(BOT), Some("b"))];
    assert Apply(l', ManagedBot(5, BOT, FINE, Some("x")))["x"].enabled;
  }

  /** One Telegram user starts two agents' links, and one update is delivered
      twice: the second delivery connects the same bot to the other agent. */
  lemma RedeliveryDoesMore() returns (trace: seq<Event>)
    ensures ValidTrace(trace) && |trace| == 6 && trace[4].ManagedBot? && trace[5].ManagedBot?
    ensures trace[5] == trace[4].(handled := trace[5].handled) && |Attempts(Run(trace[..4]), 5)| == 2
    ensures Run(trace[..6]) != Run(trace[..5])
  {
    var started := TwoStarted();
    TwoDelivered(Run(started));
    var once := started + [ManagedBot(5, BOT, FINE, Some("y"))];
    RunOne(started, ManagedBot(5, BOT, FINE, Some("y")));
    RunOne(once, ManagedBot(5, BOT, FINE, Some("x")));
    trace := once + [ManagedBot(5, BOT, FINE, Some("x"))];
    assert trace[..4] == started && trace[..5] == once && trace[..6] == trace;
  }

  // ----- What the status endpoint shows after an update -----

  /** After a handled update the poller sees the new bot exactly when the row was
      written, even if the container patch then failed; an earlier failure shows
      as an error only if no bot was connected before. */
  lemma StatusAfterHandling(l: Ledger, a: Agent, u: int, bot: Bot, calls: Calls)
    requires AttemptOf(l, a, u) && bot.username != ""
    ensures var s := ManagedStatus(Handle(l, a, bot, calls), a);
            if calls.tokenFetched && calls.secretStored then s == Connected(bot.username)
            else if ManagedStatus(l, a).Connected? then s == ManagedStatus(l, a)
            else s == Failed(if calls.tokenFetched then "secret_write_failed" else "getManagedBotToken")
  {
  }

  /** No event touches another agent's row, and nothing but a new bot or a
      disconnection changes what an enabled row is connected to. */
  lemma OneRow(l: Ledger, e: Event, b: Agent)
    requires b in l
    ensures b in Apply(l, e)
    ensures Apply(l, e)[b] != l[b] ==> Target(e) == Some(b)
    ensures l[b].enabled && (e.Issue? || e.Start?) ==> Apply(l, e)[b].enabled && Apply(l, e)[b].bot == l[b].bot
    ensures l[b].enabled && !Apply(l, e)[b].enabled ==> e.Disconnect?
  {
  }

  /** The agent whose row an event may write. */
  function Target(e: Event): Option<Agent> {
    match e
    case Start(_, _, _, _, resolved) => resolved
    case ManagedBot(_, _, _, handled) => handled
    case Issue(a, _, _, _) => Some(a)
    case PasteToken(a, _, _, _) => Some(a)
    case Disconnect(a) => Some(a)
  }
}
