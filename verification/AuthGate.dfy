/**
 The auth gate: SELECT by uid, INSERT ... ON CONFLICT (supabase_uid) DO NOTHING,
 then a re-SELECT or an email lookup, run statement by statement by any number
 of requests at once, with soft deletes in between. uid and email are each
 unique. A row inserted by an uncommitted transaction is invisible, and an
 insert that conflicts with one waits for it.
 */
module AuthGate {
  import opened Options
  import opened Text

  datatype User = User(id: nat, uid: string, email: string, deleted: bool)

  datatype Outcome =
    | Granted(row: User)
    | AccountRevoked
    | EmailAlreadyRegistered
    | FellThrough        // the final AuthError
    | UnknownViolation   // the re-raised UniqueViolation

  /** The statement a request executes next. */
  datatype Pc =
    | Select
    | Insert
    | Commit(inserted: User)
    | Reselect
    | Lookup
    | Done(outcome: Outcome)

  /** late marks a request that arrived when its uid was already revoked. */
  datatype Request = Request(uid: string, email: string, pc: Pc, late: bool)

  datatype World = World(users: seq<User>, requests: seq<Request>, nextId: nat)

  datatype Event =
    | Arrive(uid: string, email: string)
    | Advance(k: nat, choice: nat)
    | SoftDelete(id: nat)

  function FindUid(users: seq<User>, uid: string): (r: Option<User>)
    ensures r.Some? ==> r.value in users && r.value.uid == uid
    ensures r.None? ==> forall u :: u in users ==> u.uid != uid
  {
    if users == [] then None
    else if users[|users| - 1].uid == uid then Some(users[|users| - 1])
    else FindUid(users[..|users| - 1], uid)
  }

  predicate HasUid(users: seq<User>, uid: string) {
    exists u :: u in users && u.uid == uid
  }

  predicate HasEmail(users: seq<User>, email: string) {
    exists u :: u in users && u.email == email
  }

  /** An uncommitted row of another request that conflicts. */
  predicate InFlightConflict(w: World, k: nat, uid: string, email: string) {
    exists j :: 0 <= j < |w.requests| && j != k && Pending(w.requests[j], uid, email)
  }

  predicate Pending(r: Request, uid: string, email: string) {
    r.pc.Commit? && (r.pc.inserted.uid == uid || r.pc.inserted.email == email)
  }

  /** The email lookup ignores case and may match several rows; any of them can
      be the one fetched, so the choice picks among the matches. */
  function EmailMatches(users: seq<User>, email: string): (r: seq<User>)
    ensures forall u :: u in r ==> u in users && Lower(u.email) == Lower(email)
    ensures forall u :: u in users && Lower(u.email) == Lower(email) ==> u in r
  {
    if users == [] then []
    else
      var n := |users| - 1;
      EmailMatches(users[..n], email) + if Lower(users[n].email) == Lower(email) then [users[n]] else []
  }

  function Admit(row: User): Outcome {
    if row.deleted then AccountRevoked else Granted(row)
  }

  /** The request's next statement, or None while it must wait. When both
      unique constraints are violated, either may be reported. */
  function NextPc(w: World, k: nat, choice: nat): Option<Pc>
    requires k < |w.requests|
  {
    var r := w.requests[k];
    match r.pc
    case Select =>
      var row := FindUid(w.users, r.uid);
      Some(if row.None? then Insert else Done(Admit(row.value)))
    case Insert =>
      var uidTaken := HasUid(w.users, r.uid);
      var emailTaken := HasEmail(w.users, r.email);
      if uidTaken && (!emailTaken || choice % 2 == 0) then Some(Reselect)
      else if emailTaken then Some(Lookup)
      else if InFlightConflict(w, k, r.uid, r.email) then None
      else Some(Commit(User(w.nextId, r.uid, r.email, false)))
    case Commit(row) => Some(Done(Granted(row)))
    case Reselect =>
      var row := FindUid(w.users, r.uid);
      Some(Done(if row.None? then FellThrough else Admit(row.value)))
    case Lookup =>
      var found := EmailMatches(w.users, r.email);
      if found == [] then Some(Done(UnknownViolation))
      else
        var other := found[choice % |found|];
        Some(Done(if other.uid == r.uid then Admit(other)
                  else if other.deleted then AccountRevoked
                  else EmailAlreadyRegistered))
    case Done(_) => None
  }

  function Deleting(users: seq<User>, id: nat): (r: seq<User>)
    ensures |r| == |users|
    ensures forall i :: 0 <= i < |users| ==> r[i] == if users[i].id == id then users[i].(deleted := true) else users[i]
  {
    seq(|users|, i requires 0 <= i < |users| => if users[i].id == id then users[i].(deleted := true) else users[i])
  }

  predicate Revoked(users: seq<User>, uid: string) {
    exists u :: u in users && u.uid == uid && u.deleted
  }

  function Exec(w: World, e: Event): World {
    match e
    case Arrive(uid, email) =>
      w.(requests := w.requests + [Request(uid, email, Select, Revoked(w.users, uid))])
    case SoftDelete(id) => w.(users := Deleting(w.users, id))
    case Advance(k, choice) =>
      if k >= |w.requests| || NextPc(w, k, choice).None? then w
      else
        var r := w.requests[k];
        var pc := NextPc(w, k, choice).value;
        World(if r.pc.Commit? then w.users + [r.pc.inserted] else w.users,
              w.requests[k := r.(pc := pc)],
              if pc.Commit? then w.nextId + 1 else w.nextId)
  }

  function ExecAll(w: World, es: seq<Event>): World {
    if es == [] then w else Exec(ExecAll(w, es[..|es| - 1]), es[|es| - 1])
  }

  // ----- Invariant -----

  predicate Apart(a: User, b: User) {
    a.id != b.id && a.uid != b.uid && a.email != b.email
  }

  ghost predicate Keys(users: seq<User>, nextId: nat) {
    && (forall i, j :: 0 <= i < j < |users| ==> Apart(users[i], users[j]))
    && (forall u :: u in users ==> u.id < nextId)
  }

  /** A user row with this identity, deleted since or not. */
  ghost predicate Known(users: seq<User>, row: User) {
    exists u :: u in users && u.id == row.id && u.uid == row.uid && u.email == row.email
  }

  ghost predicate RequestOk(w: World, r: Request) {
    match r.pc
    case Select => r.late ==> Revoked(w.users, r.uid)
    case Insert => !r.late
    case Commit(row) =>
      && !r.late && row == User(row.id, r.uid, r.email, false) && row.id < w.nextId
      && forall u :: u in w.users ==> Apart(u, row)
    case Reselect => !r.late && HasUid(w.users, r.uid)
    case Lookup => !r.late && HasEmail(w.users, r.email)
    case Done(Granted(row)) => !r.late && row.uid == r.uid && !row.deleted && Known(w.users, row)
    case Done(o) => o != FellThrough && o != UnknownViolation && (r.late ==> o == AccountRevoked)
  }

  ghost predicate FlightsApart(rs: seq<Request>) {
    forall i, j :: 0 <= i < j < |rs| && rs[i].pc.Commit? && rs[j].pc.Commit? ==>
        Apart(rs[i].pc.inserted, rs[j].pc.inserted)
  }

  ghost predicate Inv(w: World) {
    && Keys(w.users, w.nextId) && FlightsApart(w.requests)
    && forall r :: r in w.requests ==> RequestOk(w, r)
  }

  ghost predicate Initial(w: World) {
    Keys(w.users, w.nextId) && w.requests == []
  }

  // ----- The invariant is kept -----

  /** Rows only gain deletion marks and successors. */
  ghost predicate Grows(users: seq<User>, users': seq<User>) {
    |users| <= |users'| && forall i :: 0 <= i < |users| ==> Later(users[i], users'[i])
  }

  predicate Later(u: User, u': User) {
    u' == u || u' == u.(deleted := true)
  }

  lemma KnownStays(users: seq<User>, users': seq<User>, row: User)
    requires Grows(users, users') && Known(users, row)
    ensures Known(users', row)
  {
    var i :| 0 <= i < |users| && users[i].id == row.id && users[i].uid == row.uid && users[i].email == row.email;
    assert Later(users[i], users'[i]) && users'[i] in users';
  }

  lemma GrowthKeeps(users: seq<User>, users': seq<User>, uid: string, email: string)
    requires Grows(users, users')
    ensures HasUid(users, uid) ==> HasUid(users', uid)
    ensures HasEmail(users, email) ==> HasEmail(users', email)
    ensures Revoked(users, uid) ==> Revoked(users', uid)
  {
    forall i | 0 <= i < |users| ensures users'[i] in users' && Later(users[i], users'[i]) {
    }
  }

  lemma RequestStays(w: World, w': World, r: Request)
    requires RequestOk(w, r) && Grows(w.users, w'.users) && w.nextId <= w'.nextId
    requires r.pc.Commit? ==> forall u :: u in w'.users ==> Apart(u, r.pc.inserted)
    ensures RequestOk(w', r)
  {
    GrowthKeeps(w.users, w'.users, r.uid, r.email);
    if r.pc.Done? && r.pc.outcome.Granted? {
      KnownStays(w.users, w'.users, r.pc.outcome.row);
    }
  }

  lemma DeleteKeeps(w: World, id: nat)
    requires Inv(w)
    ensures Inv(w.(users := Deleting(w.users, id)))
  {
    var w' := w.(users := Deleting(w.users, id));
    assert forall i :: 0 <= i < |w.users| ==> Later(w.users[i], w'.users[i]);
    forall i, j | 0 <= i < j < |w'.users| ensures Apart(w'.users[i], w'.users[j]) {
      assert Apart(w.users[i], w.users[j]);
    }
    forall r | r in w.requests ensures RequestOk(w', r) {
      forall u | r.pc.Commit? && u in w'.users ensures Apart(u, r.pc.inserted) {
        var i :| 0 <= i < |w'.users| && w'.users[i] == u;
        assert Apart(w.users[i], r.pc.inserted);
      }
      RequestStays(w, w', r);
    }
  }

  lemma CommitKeeps(w: World, k: nat)
    requires Inv(w) && k < |w.requests| && w.requests[k].pc.Commit?
    ensures Inv(Exec(w, Advance(k, 0)))
  {
    var row := w.requests[k].pc.inserted;
    var w' := Exec(w, Advance(k, 0));
    assert RequestOk(w, w.requests[k]);
    assert forall i :: 0 <= i < |w.users| ==> w.users[i] in w.users;
    assert row in w'.users;
    forall r | r in w'.requests ensures RequestOk(w', r) {
      var j :| 0 <= j < |w'.requests| && w'.requests[j] == r;
      if j != k {
        assert RequestOk(w, w.requests[j]);
        if r.pc.Commit? {
          assert Apart(row, r.pc.inserted) by {
            assert if j < k then Apart(r.pc.inserted, row) else Apart(row, r.pc.inserted);
          }
        }
        RequestStays(w, w', r);
      }
    }
  }

  /** Any statement but a commit: it touches no row. */
  lemma StatementKeeps(w: World, k: nat, choice: nat)
    requires Inv(w) && k < |w.requests| && !w.requests[k].pc.Commit?
    ensures Inv(Exec(w, Advance(k, choice)))
  {
    var w' := Exec(w, Advance(k, choice));
    assert RequestOk(w, w.requests[k]);
    if NextPc(w, k, choice).Some? {
      StatementOk(w, k, choice);
      forall r | r in w'.requests ensures RequestOk(w', r) {
        var j :| 0 <= j < |w'.requests| && w'.requests[j] == r;
        if j != k {
          RequestStays(w, w', r);
        }
      }
      if w'.requests[k].pc.Commit? {
        forall j | 0 <= j < |w.requests| && j != k && w.requests[j].pc.Commit?
          ensures Apart(w.requests[j].pc.inserted, w'.requests[k].pc.inserted) {
          assert RequestOk(w, w.requests[j]);
          assert !Pending(w.requests[j], w.requests[k].uid, w.requests[k].email);
        }
      }
    }
  }

  lemma StatementOk(w: World, k: nat, choice: nat)
    requires Inv(w) && k < |w.requests| && !w.requests[k].pc.Commit? && NextPc(w, k, choice).Some?
    ensures var w' := Exec(w, Advance(k, choice)); RequestOk(w', w'.requests[k])
  {
    assert RequestOk(w, w.requests[k]);
    match w.requests[k].pc
    case Select => SelectOk(w, k, choice);
    case Insert => InsertOk(w, k, choice);
    case Reselect => ReselectOk(w, k, choice);
    case Lookup => LookupOk(w, k, choice);
    case _ =>
  }

  /** The request after its next statement. */
  function Advanced(w: World, k: nat, choice: nat): Request
    requires k < |w.requests| && NextPc(w, k, choice).Some?
  {
    w.requests[k].(pc := NextPc(w, k, choice).value)
  }

  lemma SelectOk(w: World, k: nat, choice: nat)
    requires Keys(w.users, w.nextId) && k < |w.requests| && w.requests[k].pc == Select && RequestOk(w, w.requests[k])
    ensures RequestOk(w, Advanced(w, k, choice)) && !Advanced(w, k, choice).pc.Commit?
  {
    var r := w.requests[k];
    if r.late {
      RevokedFound(w.users, w.nextId, r.uid);
    }
    FoundKnown(w.users, r.uid);
  }

  lemma FoundKnown(users: seq<User>, uid: string)
    ensures FindUid(users, uid).Some? ==> Known(users, FindUid(users, uid).value)
  {
  }

  lemma InsertOk(w: World, k: nat, choice: nat)
    requires Keys(w.users, w.nextId) && k < |w.requests| && w.requests[k].pc == Insert && RequestOk(w, w.requests[k])
    requires NextPc(w, k, choice).Some?
    ensures var r' := Advanced(w, k, choice);
            RequestOk(w.(nextId := if r'.pc.Commit? then w.nextId + 1 else w.nextId), r')
  {
  }

  lemma ReselectOk(w: World, k: nat, choice: nat)
    requires Keys(w.users, w.nextId) && k < |w.requests| && w.requests[k].pc == Reselect && RequestOk(w, w.requests[k])
    ensures RequestOk(w, Advanced(w, k, choice)) && !Advanced(w, k, choice).pc.Commit?
  {
    FoundKnown(w.users, w.requests[k].uid);
  }

  lemma LookupOk(w: World, k: nat, choice: nat)
    requires k < |w.requests| && w.requests[k].pc == Lookup && RequestOk(w, w.requests[k])
    ensures RequestOk(w, Advanced(w, k, choice)) && !Advanced(w, k, choice).pc.Commit?
  {
    var r := w.requests[k];
    var found := EmailMatches(w.users, r.email);
    var u :| u in w.users && u.email == r.email;
    assert u in found;
    assert found[choice % |found|] in w.users;
  }

  lemma RevokedFound(users: seq<User>, nextId: nat, uid: string)
    requires Keys(users, nextId) && Revoked(users, uid)
    ensures FindUid(users, uid).Some? && FindUid(users, uid).value.deleted
  {
    var u :| u in users && u.uid == uid && u.deleted;
    SameRow(users, nextId, u, FindUid(users, uid).value);
  }

  lemma SameRow(users: seq<User>, nextId: nat, a: User, b: User)
    requires Keys(users, nextId) && a in users && b in users && !Apart(a, b)
    ensures a == b
  {
    var i :| 0 <= i < |users| && users[i] == a;
    var j :| 0 <= j < |users| && users[j] == b;
    assert i < j ==> Apart(a, b);
    assert j < i ==> Apart(b, a);
  }

  lemma {:induction false} InvAlways(w: World, es: seq<Event>)
    requires Initial(w)
    ensures Inv(ExecAll(w, es))
  {
    if es != [] {
      var v := ExecAll(w, es[..|es| - 1]);
      InvAlways(w, es[..|es| - 1]);
      match es[|es| - 1]
      case Arrive(_, _) =>
        forall r | r in v.requests ensures RequestOk(ExecAll(w, es), r) {
          RequestStays(v, ExecAll(w, es), r);
        }
      case SoftDelete(id) => DeleteKeeps(v, id);
      case Advance(k, choice) =>
        if k < |v.requests| {
          if v.requests[k].pc.Commit? {
            CommitKeeps(v, k);
          } else {
            StatementKeeps(v, k, choice);
          }
        }
    }
  }

  // ----- Theorems -----

  /** In every run: one row per uid and per email; the fall-through error and the
      unknown violation never happen; a granted row carries the caller's uid and
      was live; two grants to one uid are the same account; and a request that
      arrives after its uid was revoked can only be told so. */
  lemma GateIsSafe(w: World, es: seq<Event>, k: nat, j: nat)
    requires Initial(w) && k < |ExecAll(w, es).requests| && j < |ExecAll(w, es).requests|
    ensures var v := ExecAll(w, es);
            var r := v.requests[k];
            && (forall a, b :: 0 <= a < b < |v.users| ==>
                 v.users[a].uid != v.users[b].uid && v.users[a].email != v.users[b].email)
            && (r.pc.Done? ==> r.pc.outcome != FellThrough && r.pc.outcome != UnknownViolation)
            && (r.pc.Done? && r.pc.outcome.Granted? ==>
                 r.pc.outcome.row.uid == r.uid && !r.pc.outcome.row.deleted && !r.late)
            && (SameGrant(r, v.requests[j]))
            && (r.late ==> r.pc == Select || r.pc == Done(AccountRevoked))
  {
    InvAlways(w, es);
    var v := ExecAll(w, es);
    var r, s := v.requests[k], v.requests[j];
    assert RequestOk(v, r) && RequestOk(v, s);
    forall a, b | 0 <= a < b < |v.users|
      ensures v.users[a].uid != v.users[b].uid && v.users[a].email != v.users[b].email {
      assert Apart(v.users[a], v.users[b]);
    }
    if r.uid == s.uid && IsGranted(r) && IsGranted(s) {
      var a :| a in v.users && a.id == r.pc.outcome.row.id && a.uid == r.uid;
      var b :| b in v.users && b.id == s.pc.outcome.row.id && b.uid == s.uid;
      SameRow(v.users, v.nextId, a, b);
    }
  }

  predicate IsGranted(r: Request) { r.pc.Done? && r.pc.outcome.Granted? }

  predicate SameGrant(r: Request, s: Request) {
    r.uid == s.uid && IsGranted(r) && IsGranted(s) ==> r.pc.outcome.row.id == s.pc.outcome.row.id
  }

  /** A granted row was in the table, live, when the granting statement read it,
      or is the row that statement commits; a revoked uid creates no row. */
  lemma GrantIsLive(w: World, es: seq<Event>, k: nat, choice: nat)
    requires Initial(w) && k < |ExecAll(w, es).requests| && !ExecAll(w, es).requests[k].pc.Done?
    ensures var v := ExecAll(w, es);
            var v' := Exec(v, Advance(k, choice));
            && (IsGranted(v'.requests[k]) ==> v'.requests[k].pc.outcome.row in v'.users)
            && (v.requests[k].late ==> v'.users == v.users)
            && (Revoked(v.users, v.requests[k].uid) ==> v'.users == v.users)
  {
    InvAlways(w, es);
    var v := ExecAll(w, es);
    assert RequestOk(v, v.requests[k]);
    if Revoked(v.users, v.requests[k].uid) {
      RevokedAddsNothing(v, k, choice);
    }
  }

  lemma RevokedAddsNothing(w: World, k: nat, choice: nat)
    requires k < |w.requests| && RequestOk(w, w.requests[k]) && Revoked(w.users, w.requests[k].uid)
    ensures !w.requests[k].pc.Commit? && Exec(w, Advance(k, choice)).users == w.users
  {
  }

  /** The gate never wedges: while a request is unfinished, some request can
      execute a statement. */
  lemma SomeoneCanStep(w: World, es: seq<Event>, k: nat, choice: nat) returns (j: nat)
    requires Initial(w) && k < |ExecAll(w, es).requests| && !ExecAll(w, es).requests[k].pc.Done?
    ensures j < |ExecAll(w, es).requests| && NextPc(ExecAll(w, es), j, choice).Some?
  {
    var v := ExecAll(w, es);
    if NextPc(v, k, choice).Some? {
      return k;
    }
    j :| 0 <= j < |v.requests| && j != k && Pending(v.requests[j], v.requests[k].uid, v.requests[k].email);
  }

  // ----- What each statement answers, read off the rows -----

  /** What a row with the caller's own uid means to the caller. */
  function Own(u: User): Outcome {
    if u.deleted then AccountRevoked else Granted(u)
  }

  /** What a row with another uid means to the caller. */
  function Others(u: User): Outcome {
    if u.deleted then AccountRevoked else EmailAlreadyRegistered
  }

  /** A request is marked late exactly if its uid is of a deleted row as it comes. */
  lemma ArrivesLate(w: World, uid: string, email: string)
    ensures var late := exists u :: u in w.users && u.uid == uid && u.deleted;
            Exec(w, Arrive(uid, email)) == w.(requests := w.requests + [Request(uid, email, Select, late)])
  {
  }

  lemma FoundBySelect(w: World, k: nat, choice: nat, u: User)
    requires Keys(w.users, w.nextId) && k < |w.requests| && w.requests[k].pc in {Select, Reselect}
    requires u in w.users && u.uid == w.requests[k].uid
    ensures NextPc(w, k, choice) == Some(Done(Own(u)))
  {
    SameRow(w.users, w.nextId, u, FindUid(w.users, u.uid).value);
  }

  /** An unknown uid goes on to insert; the insert reports a conflict that there
      is, waits for one that may come, and otherwise writes the row. */
  lemma InsertAnswers(w: World, k: nat, choice: nat)
    requires k < |w.requests|
    ensures var r := w.requests[k];
            r.pc == Select && (forall u :: u in w.users ==> u.uid != r.uid) ==> NextPc(w, k, choice) == Some(Insert)
    ensures var r, next := w.requests[k], NextPc(w, k, choice);
            var known := exists u :: u in w.users && u.uid == r.uid;
            var taken := exists u :: u in w.users && u.email == r.email;
            var coming := exists j :: && 0 <= j < |w.requests| && j != k && w.requests[j].pc.Commit?
                                      && (w.requests[j].pc.inserted.uid == r.uid ||
                                          w.requests[j].pc.inserted.email == r.email);
            r.pc == Insert ==>
              if known && taken then next == Some(if choice % 2 == 0 then Reselect else Lookup)
              else if known then next == Some(Reselect)
              else if taken then next == Some(Lookup)
              else if coming then next == None
              else next == Some(Commit(User(w.nextId, r.uid, r.email, false)))
  {
    var r := w.requests[k];
    if j :| 0 <= j < |w.requests| && j != k && w.requests[j].pc.Commit?
            && (w.requests[j].pc.inserted.uid == r.uid || w.requests[j].pc.inserted.email == r.email) {
      assert Pending(w.requests[j], r.uid, r.email);
    }
  }

  /** The email lookup answers for some row whose email matches up to case: by its
      deletion mark if it is the caller's; otherwise revoked if it is deleted, and
      the email taken if it is live. */
  lemma LookupAnswers(w: World, k: nat, choice: nat) returns (u: User)
    requires k < |w.requests| && w.requests[k].pc == Lookup
    requires exists u :: u in w.users && u.email == w.requests[k].email
    ensures u in w.users && Lower(u.email) == Lower(w.requests[k].email)
    ensures NextPc(w, k, choice) == Some(Done(if u.uid == w.requests[k].uid then Own(u) else Others(u)))
  {
    var r := w.requests[k];
    var found := EmailMatches(w.users, r.email);
    var v :| v in w.users && v.email == r.email;
    assert v in found;
    u := found[choice % |found|];
    assert u in found;
  }

  /** A request that runs without interruption: a known uid gets its account or
      learns of its revocation; a new uid gets a new row, unless its exact email
      is taken, and then the answer is for a row whose email matches up to case.
      An email that differs in case only does not stand in the way. */
  lemma SoloOutcome(w: World, k: nat, choice: nat)
    requires Inv(w) && k < |w.requests| && w.requests[k].pc == Select
    requires forall j :: 0 <= j < |w.requests| ==> !w.requests[j].pc.Commit?
    ensures var r := w.requests[k];
            var w1 := Exec(w, Advance(k, choice));
            forall u :: u in w.users && u.uid == r.uid ==> w1 == w.(requests := w.requests[k := r.(pc := Done(Own(u)))])
    ensures var r := w.requests[k];
            var w1 := Exec(w, Advance(k, choice));
            var v := Exec(Exec(w1, Advance(k, choice)), Advance(k, choice));
            (forall u :: u in w.users ==> u.uid != r.uid) ==>
              if exists u :: u in w.users && u.email == r.email then
                && v.users == w.users
                && exists u :: u in w.users && Lower(u.email) == Lower(r.email) && v.requests[k].pc == Done(Others(u))
              else
                var row := User(w.nextId, r.uid, r.email, false);
                v.users == w.users + [row] && v.requests[k].pc == Done(Granted(row))
  {
    var r := w.requests[k];
    forall u | u in w.users && u.uid == r.uid
      ensures Exec(w, Advance(k, choice)) == w.(requests := w.requests[k := r.(pc := Done(Own(u)))]) {
      FoundBySelect(w, k, choice, u);
    }
    if forall u :: u in w.users ==> u.uid != r.uid {
      InsertAnswers(w, k, choice);
      var w1 := w.(requests := w.requests[k := r.(pc := Insert)]);
      assert Exec(w, Advance(k, choice)) == w1;
      if exists u :: u in w.users && u.email == r.email {
        var u := SoloCollision(w1, k, choice);
      } else {
        SoloInsert(w1, k, choice);
      }
    }
  }

  /** So an email held by one live account, and by no other up to case, is
      reported as registered; by one deleted account, as revoked. */
  lemma SoloTaken(w: World, k: nat, choice: nat, holder: User)
    requires Inv(w) && k < |w.requests| && w.requests[k].pc == Select
    requires forall j :: 0 <= j < |w.requests| ==> !w.requests[j].pc.Commit?
    requires holder in w.users && holder.email == w.requests[k].email
    requires forall u :: u in w.users ==> u.uid != w.requests[k].uid
    requires forall u :: u in w.users && Lower(u.email) == Lower(holder.email) ==> u == holder
    ensures var v := Exec(Exec(Exec(w, Advance(k, choice)), Advance(k, choice)), Advance(k, choice));
            v.requests[k].pc == Done(if holder.deleted then AccountRevoked else EmailAlreadyRegistered)
  {
    SoloOutcome(w, k, choice);
  }

  lemma SoloInsert(w: World, k: nat, choice: nat)
    requires k < |w.requests| && w.requests[k].pc == Insert
    requires forall j :: 0 <= j < |w.requests| ==> !w.requests[j].pc.Commit?
    requires !HasUid(w.users, w.requests[k].uid) && !HasEmail(w.users, w.requests[k].email)
    ensures var row := User(w.nextId, w.requests[k].uid, w.requests[k].email, false);
            var v := Exec(Exec(w, Advance(k, choice)), Advance(k, choice));
            v.users == w.users + [row] && v.requests[k].pc == Done(Granted(row))
  {
    assert !InFlightConflict(w, k, w.requests[k].uid, w.requests[k].email);
  }

  lemma SoloCollision(w: World, k: nat, choice: nat) returns (u: User)
    requires k < |w.requests| && w.requests[k].pc == Insert
    requires forall u :: u in w.users ==> u.uid != w.requests[k].uid
    requires exists u :: u in w.users && u.email == w.requests[k].email
    ensures u in w.users && Lower(u.email) == Lower(w.requests[k].email)
    ensures var v := Exec(Exec(w, Advance(k, choice)), Advance(k, choice));
            v.users == w.users && v.requests[k].pc == Done(Others(u))
  {
    InsertAnswers(w, k, choice);
    var w1 := w.(requests := w.requests[k := w.requests[k].(pc := Lookup)]);
    assert Exec(w, Advance(k, choice)) == w1;
    u := LookupAnswers(w1, k, choice);
  }

  // ----- Who is refused -----

  predicate Refused(o: Outcome) { o == AccountRevoked || o == EmailAlreadyRegistered }

  /** The row the email lookup fetches. */
  function Fetched(w: World, email: string, choice: nat): (r: Option<User>)
    ensures r.Some? ==> r.value in w.users && Lower(r.value.email) == Lower(email)
  {
    var found := EmailMatches(w.users, email);
    if found == [] then None else Some(found[choice % |found|])
  }

  /** A uid with a live row is refused exactly by the email lookup, when the row
      it fetches is someone else's. */
  lemma RefusedIff(w: World, k: nat, choice: nat, mine: User)
    requires Inv(w) && k < |w.requests| && !w.requests[k].pc.Done? && NextPc(w, k, choice).Some?
    requires mine in w.users && mine.uid == w.requests[k].uid && !mine.deleted
    ensures var r := w.requests[k];
            RefusedNext(w, k, choice) <==>
            r.pc == Lookup && Fetched(w, r.email, choice).Some? && Fetched(w, r.email, choice).value.uid != r.uid
  {
    var r := w.requests[k];
    if FindUid(w.users, r.uid).Some? {
      SameRow(w.users, w.nextId, mine, FindUid(w.users, r.uid).value);
    }
    if Fetched(w, r.email, choice).Some? && Fetched(w, r.email, choice).value.uid == r.uid {
      SameRow(w.users, w.nextId, mine, Fetched(w, r.email, choice).value);
    }
  }

  /** So at the lookup it can be refused if and only if another account's email
      matches its own up to case. */
  lemma RefusableIff(w: World, k: nat, mine: User)
    requires Inv(w) && k < |w.requests| && w.requests[k].pc == Lookup
    requires mine in w.users && mine.uid == w.requests[k].uid && !mine.deleted
    ensures (exists choice: nat :: RefusedNext(w, k, choice)) <==>
        Namesake(w.users, w.requests[k].uid, w.requests[k].email)
  {
    var r := w.requests[k];
    if Namesake(w.users, r.uid, r.email) {
      var u :| u in w.users && u.uid != r.uid && Lower(u.email) == Lower(r.email);
      var choice := ChoiceFor(w.users, r.email, u);
      assert Fetched(w, r.email, choice) == Some(u);
      RefusedIff(w, k, choice, mine);
    }
    if choice: nat :| RefusedNext(w, k, choice) {
      RefusedIff(w, k, choice, mine);
    }
  }

  predicate RefusedNext(w: World, k: nat, choice: nat)
    requires k < |w.requests|
  {
    NextPc(w, k, choice).Some? && NextPc(w, k, choice).value.Done? && Refused(NextPc(w, k, choice).value.outcome)
  }

  predicate Namesake(users: seq<User>, uid: string, email: string) {
    exists u :: u in users && u.uid != uid && Lower(u.email) == Lower(email)
  }

  lemma ChoiceFor(users: seq<User>, email: string, u: User) returns (choice: nat)
    requires u in users && Lower(u.email) == Lower(email)
    ensures EmailMatches(users, email) != [] && EmailMatches(users, email)[choice % |EmailMatches(users, email)|] == u
  {
    var found := EmailMatches(users, email);
    assert u in found;
    choice :| choice < |found| && found[choice] == u;
    SmallRemainder(choice, |found|);
  }

  lemma SmallRemainder(a: nat, n: nat)
    requires a < n
    ensures a % n == a
  {
  }

  // ----- Two emails that differ in case -----

  const EMPTY := World([], [], 0)

  lemma ExecMore(w: World, es: seq<Event>, e: Event)
    ensures ExecAll(w, es + [e]) == Exec(ExecAll(w, es), e)
  {
    assert (es + [e])[..|es|] == es;
  }

  /** A new account, alone: it arrives and runs to the end. */
  lemma NewAccount(w: World, uid: string, email: string)
    requires !HasUid(w.users, uid) && !HasEmail(w.users, email)
    requires forall r :: r in w.requests ==> r.pc.Done?
    ensures var k := |w.requests|;
            var row := User(w.nextId, uid, email, false);
            var v := Exec(Exec(Exec(Exec(w, Arrive(uid, email)), Advance(k, 0)), Advance(k, 0)), Advance(k, 0));
            v == World(w.users + [row], w.requests + [Request(uid, email, Done(Granted(row)), false)], w.nextId + 1)
  {
    var k := |w.requests|;
    var w1 := Exec(w, Arrive(uid, email));
    assert w1 == w.(requests := w.requests + [Request(uid, email, Select, false)]);
    var w2 := w.(requests := w.requests + [Request(uid, email, Insert, false)]);
    assert Exec(w1, Advance(k, 0)) == w2;
    assert !InFlightConflict(w2, k, uid, email);
    var row := User(w.nextId, uid, email, false);
    var w3 := World(w.users, w.requests + [Request(uid, email, Commit(row), false)], w.nextId + 1);
    assert Exec(w2, Advance(k, 0)) == w3;
    assert Exec(w3, Advance(k, 0)).requests == w.requests + [Request(uid, email, Done(Granted(row)), false)];
  }

  lemma FourEvents(w: World, es: seq<Event>, a: Event, e: Event)
    ensures ExecAll(w, es + [a] + [e] + [e] + [e]) == Exec(Exec(Exec(Exec(ExecAll(w, es), a), e), e), e)
  {
    ExecMore(w, es, a);
    ExecMore(w, es + [a], e);
    ExecMore(w, es + [a] + [e], e);
    ExecMore(w, es + [a] + [e] + [e], e);
  }

  function SignIn(uid: string, email: string, k: nat): seq<Event> {
    [Arrive(uid, email), Advance(k, 0), Advance(k, 0), Advance(k, 0)]
  }

  lemma SignsIn(w: World, es: seq<Event>, uid: string, email: string)
    requires var v := ExecAll(w, es);
             !HasUid(v.users, uid) && !HasEmail(v.users, email) && forall r :: r in v.requests ==> r.pc.Done?
    ensures var v := ExecAll(w, es);
            var row := User(v.nextId, uid, email, false);
            ExecAll(w, es + SignIn(uid, email, |v.requests|)) ==
            World(v.users + [row], v.requests + [Request(uid, email, Done(Granted(row)), false)], v.nextId + 1)
  {
    var v := ExecAll(w, es);
    var a, e := Arrive(uid, email), Advance(|v.requests|, 0);
    NewAccount(v, uid, email);
    FourEvents(w, es, a, e);
    assert es + SignIn(uid, email, |v.requests|) == es + [a] + [e] + [e] + [e];
  }

  const UPPER := User(0, "1", "A", false)
  const LOWER := User(1, "2", "a", false)

  lemma UpperSignsIn()
    ensures ExecAll(EMPTY, SignIn("1", "A", 0)) == World([UPPER], [Request("1", "A", Done(Granted(UPPER)), false)], 1)
  {
    SignsIn(EMPTY, [], "1", "A");
    assert [] + SignIn("1", "A", 0) == SignIn("1", "A", 0);
  }

  lemma TwinEmails()
    ensures Lower("A") == Lower("a") && "A" != "a" && "1" != "2"
  {
    assert "1"[0] != "2"[0] && "A"[0] != "a"[0];
    assert LowerChar('A') == 'a' && LowerChar('a') == 'a';
    assert Lower("A") == "a" && Lower("a") == "a";
  }

  /** From nothing, "A" and then "a" sign in: both get an account, though the
      lookup would take either for the other. */
  lemma CaseTwins()
    ensures Initial(EMPTY)
    ensures var v := ExecAll(EMPTY, SignIn("1", "A", 0) + SignIn("2", "a", 1));
            && v.users == [UPPER, LOWER] && Lower(UPPER.email) == Lower(LOWER.email) && UPPER.email != LOWER.email
            && v.requests == [Request("1", "A", Done(Granted(UPPER)), false),
                              Request("2", "a", Done(Granted(LOWER)), false)]
  {
    UpperSignsIn();
    TwinEmails();
    SignsIn(EMPTY, SignIn("1", "A", 0), "2", "a");
  }

  function Racing(first: Pc, second: Pc): seq<Request> {
    [Request("1", "A", Done(Granted(UPPER)), false), Request("2", "a", first, false), Request("2", "a", second, false)]
  }

  lemma FreeInsert(gone: User, w: World)
    requires gone == UPPER.(deleted := true) && w == World([gone], Racing(Insert, Insert), 1)
    ensures Exec(w, Advance(1, 0)) == World([gone], Racing(Commit(LOWER), Insert), 2)
  {
    TwinEmails();
    assert !HasUid(w.users, "2") && !HasEmail(w.users, "a") && !InFlightConflict(w, 1, "2", "a");
  }

  lemma LoserLooks(gone: User, w: World)
    requires w == World([gone, LOWER], Racing(Done(Granted(LOWER)), Insert), 2)
    ensures Exec(w, Advance(2, 1)) == World([gone, LOWER], Racing(Done(Granted(LOWER)), Lookup), 2)
  {
    assert w.users[1] == LOWER;
    assert HasUid(w.users, "2") && HasEmail(w.users, "a");
  }

  lemma LoserFetches(gone: User, w: World)
    requires gone == UPPER.(deleted := true) && w == World([gone, LOWER], Racing(Done(Granted(LOWER)), Lookup), 2)
    ensures Exec(w, Advance(2, 0)) == World([gone, LOWER], Racing(Done(Granted(LOWER)), Done(AccountRevoked)), 2)
  {
    TwinEmails();
    assert w.users[..1] == [gone] && [gone][..0] == [];
    assert EmailMatches([gone], "a") == [gone];
    assert EmailMatches(w.users, "a") == [gone, LOWER];
  }

  lemma BothSelect(gone: User, w: World)
    requires gone == UPPER.(deleted := true) && w == World([gone], Racing(Select, Select), 1)
    ensures Exec(Exec(w, Advance(1, 0)), Advance(2, 0)) == World([gone], Racing(Insert, Insert), 1)
  {
    TwinEmails();
    assert Exec(w, Advance(1, 0)) == World([gone], Racing(Insert, Select), 1);
  }

  lemma TwoArrive(gone: User, w: World)
    requires gone == UPPER.(deleted := true) && w == World([gone], [Request("1", "A", Done(Granted(UPPER)), false)], 1)
    ensures Exec(Exec(w, Arrive("2", "a")), Arrive("2", "a")) == World([gone], Racing(Select, Select), 1)
  {
    TwinEmails();
    assert !Revoked(w.users, "2");
    assert Exec(w, Arrive("2", "a")).requests == w.requests + [Request("2", "a", Select, false)];
  }

  /** "A" signs in and is deleted; then "a" signs in twice at once. The request
      that loses the race looks the email up, fetches the deleted row, and is told
      that its account, live by then, is revoked. */
  lemma LiveRefused() returns (es: seq<Event>)
    ensures var v := ExecAll(EMPTY, es);
            && LOWER in v.users && !LOWER.deleted && |v.requests| == 3
            && v.requests[2] == Request("2", "a", Done(AccountRevoked), false) && v.requests[2].uid == LOWER.uid
  {
    var gone := UPPER.(deleted := true);
    UpperSignsIn();
    es := More(SignIn("1", "A", 0), SoftDelete(0));
    assert ExecAll(EMPTY, es) == World([gone], [Request("1", "A", Done(Granted(UPPER)), false)], 1);
    TwoArrive(gone, ExecAll(EMPTY, es));
    es := More(es, Arrive("2", "a"));
    es := More(es, Arrive("2", "a"));
    BothSelect(gone, ExecAll(EMPTY, es));
    es := More(es, Advance(1, 0));
    es := More(es, Advance(2, 0));
    FreeInsert(gone, ExecAll(EMPTY, es));
    es := More(es, Advance(1, 0));
    FirstCommits(gone, ExecAll(EMPTY, es));
    es := More(es, Advance(1, 0));
    LoserLooks(gone, ExecAll(EMPTY, es));
    es := More(es, Advance(2, 1));
    LoserFetches(gone, ExecAll(EMPTY, es));
    es := More(es, Advance(2, 0));
    assert [gone, LOWER][1] == LOWER;
  }

  lemma FirstCommits(gone: User, w: World)
    requires w == World([gone], Racing(Commit(LOWER), Insert), 2)
    ensures Exec(w, Advance(1, 0)) == World([gone, LOWER], Racing(Done(Granted(LOWER)), Insert), 2)
  {
  }

  lemma More(es: seq<Event>, e: Event) returns (more: seq<Event>)
    ensures ExecAll(EMPTY, more) == Exec(ExecAll(EMPTY, es), e)
  {
    more := es + [e];
    ExecMore(EMPTY, es, e);
  }
}
