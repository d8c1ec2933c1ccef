/**
 The sliding-window limiter: a dictionary of deques of accepted timestamps, one
 per user, popped lazily. Time is the process's monotonic clock, in seconds.
 */
module RateLimiter {

  const WINDOW: real := 60.0
  const LIMIT := 30

  ghost predicate Sorted(s: seq<real>) {
    forall i, j :: 0 <= i < j < |s| ==> s[i] <= s[j]
  }

  /** The timestamps inside a closed interval. */
  function Within(s: seq<real>, from: real, upto: real): seq<real> {
    if s == [] then []
    else
      var rest := Within(s[..|s| - 1], from, upto);
      if from <= s[|s| - 1] <= upto then rest + [s[|s| - 1]] else rest
  }

  /** Call by call, those inside and no others, in order. */
  lemma {:induction false} WithinIs(a: seq<real>, x: real, b: seq<real>, from: real, upto: real)
    ensures Within(a + [x] + b, from, upto) ==
            Within(a, from, upto) + (if x < from || upto < x then [] else [x]) + Within(b, from, upto)
    ensures Within([], from, upto) == []
  {
    if b == [] {
      assert a + [x] + b == a + [x] && (a + [x])[..|a|] == a;
    } else {
      var n := |b| - 1;
      WithinIs(a, x, b[..n], from, upto);
      assert (a + [x] + b)[..|a + [x] + b| - 1] == a + [x] + b[..n];
    }
  }

  /** The bucket is the tail of the accepted calls from some instant on; what was
      dropped was out of the window by now. */
  ghost predicate Tracks(all: seq<real>, bucket: seq<real>, now: real) {
    && Sorted(all) && Limited(all) && (all != [] ==> all[|all| - 1] <= now)
    && |bucket| <= |all| && bucket == all[|all| - |bucket|..]
    && (forall i :: 0 <= i < |all| - |bucket| ==> now - all[i] > WINDOW)
  }

  /** The thirtieth call back, if there is one, is more than sixty seconds old. */
  ghost predicate Room(all: seq<real>, now: real) {
    |all| < 30 || now - all[|all| - 30] > 60.0
  }

  /** The bucket is the calls of the last sixty seconds, in order. */
  ghost predicate LastMinute(all: seq<real>, bucket: seq<real>, now: real) {
    && |bucket| <= |all| && bucket == all[|all| - |bucket|..]
    && (forall i :: 0 <= i < |all| - |bucket| ==> now - all[i] > 60.0)
    && forall i :: 0 <= i < |bucket| ==> now - bucket[i] <= 60.0
  }

  /** defaultdict(deque): a user never seen has an empty one. */
  function Of(m: map<nat, seq<real>>, user: nat): seq<real> {
    if user in m then m[user] else []
  }

  ghost predicate UserTracks(accepted: map<nat, seq<real>>, buckets: map<nat, seq<real>>, now: real, user: nat) {
    Tracks(Of(accepted, user), Of(buckets, user), now)
  }

  ghost predicate AllTrack(accepted: map<nat, seq<real>>, buckets: map<nat, seq<real>>, now: real) {
    forall user :: UserTracks(accepted, buckets, now, user)
  }

  class Limiter {
    var buckets: map<nat, seq<real>>
    /** Every call ever accepted, by user, in order. */
    ghost var accepted: map<nat, seq<real>>

    constructor (now: real)
      ensures AllTrack(accepted, buckets, now) && buckets == map[] && accepted == map[]
    {
      buckets, accepted := map[], map[];
      new;
      NothingYet(now);
    }

    /** A call is refused iff thirty of the user's accepted calls lie in the sixty
        seconds that end now; the deque is then exactly those calls, plus this
        one if it is accepted. No other user notices. */
    method CheckRate(user: nat, now: real, ghost last: real) returns (ok: bool)
      requires AllTrack(accepted, buckets, last) && last <= now
      modifies this
      ensures AllTrack(accepted, buckets, now)
      ensures ok <==> |Within(Of(old(accepted), user), now - WINDOW, now)| < LIMIT
      ensures ok <==> Room(if user in old(accepted) then old(accepted)[user] else [], now)
      ensures accepted == old(accepted)[user := Of(old(accepted), user) + if ok then [now] else []]
      ensures buckets == old(buckets)[user := Within(accepted[user], now - WINDOW, now)]
      ensures LastMinute(accepted[user], buckets[user], now)
    {
      Expire(accepted, buckets, last, now, user);
      var bucket := PopExpired(Of(buckets, user), now, Of(accepted, user));
      ok := |bucket| < LIMIT;
      var more := if ok then [now] else [];
      Settle(accepted, buckets, last, now, user, bucket, more);
      ghost var all := Of(accepted, user) + more;
      bucket := bucket + more;
      accepted, buckets := accepted[user := all], buckets[user := bucket];
      assert accepted[user] == all && buckets[user] == bucket;
    }
  }

  /** The front of the deque is dropped while it is out of the window. */
  method PopExpired(deque: seq<real>, now: real, ghost all: seq<real>) returns (bucket: seq<real>)
    requires Tracks(all, deque, now)
    ensures Tracks(all, bucket, now) && bucket == Within(all, now - WINDOW, now)
    ensures |bucket| < LIMIT <==> Room(all, now)
    ensures LastMinute(all, bucket, now)
  {
    bucket := deque;
    while bucket != [] && now - bucket[0] > WINDOW
      invariant Tracks(all, bucket, now)
      decreases |bucket|
    {
      PopTracks(all, bucket, now);
      bucket := bucket[1..];
    }
    BucketIsWindow(all, bucket, now);
  }

  lemma Settle(accepted: map<nat, seq<real>>, buckets: map<nat, seq<real>>, last: real, now: real,
               user: nat, bucket: seq<real>, more: seq<real>)
    requires AllTrack(accepted, buckets, last) && last <= now && Tracks(Of(accepted, user), bucket, now)
    requires bucket == Within(Of(accepted, user), now - WINDOW, now) && LastMinute(Of(accepted, user), bucket, now)
    requires more == if |bucket| < LIMIT then [now] else []
    ensures AllTrack(accepted[user := Of(accepted, user) + more], buckets[user := bucket + more], now)
    ensures Within(Of(accepted, user) + more, now - WINDOW, now) == bucket + more
    ensures LastMinute(Of(accepted, user) + more, bucket + more, now)
  {
    var all := Of(accepted, user);
    if more == [] {
      assert all + more == all && bucket + more == bucket;
    } else {
      PushTracks(all, bucket, now);
      assert (all + more)[..|all|] == all;
    }
    OthersTrack(accepted, buckets, last, now, user, all + more, bucket + more);
  }

  lemma NothingYet(now: real)
    ensures AllTrack(map[], map[], now)
  {
    forall user: nat | true ensures UserTracks(map[], map[], now, user) {
      assert Tracks([], [], now);
    }
  }

  lemma Expire(accepted: map<nat, seq<real>>, buckets: map<nat, seq<real>>, last: real, now: real, user: nat)
    requires AllTrack(accepted, buckets, last) && last <= now
    ensures Tracks(Of(accepted, user), Of(buckets, user), now)
  {
    assert UserTracks(accepted, buckets, last, user);
    TracksLater(Of(accepted, user), Of(buckets, user), last, now);
  }

  lemma OthersTrack(accepted: map<nat, seq<real>>, buckets: map<nat, seq<real>>, last: real, now: real,
                    user: nat, all: seq<real>, bucket: seq<real>)
    requires AllTrack(accepted, buckets, last) && last <= now && Tracks(all, bucket, now)
    ensures AllTrack(accepted[user := all], buckets[user := bucket], now)
  {
    var accepted', buckets' := accepted[user := all], buckets[user := bucket];
    forall u: nat | true ensures UserTracks(accepted', buckets', now, u) {
      if u != user {
        Expire(accepted, buckets, last, now, u);
      }
    }
  }

  lemma TracksLater(all: seq<real>, bucket: seq<real>, last: real, now: real)
    requires Tracks(all, bucket, last) && last <= now
    ensures Tracks(all, bucket, now)
  {
  }

  lemma PopTracks(all: seq<real>, bucket: seq<real>, now: real)
    requires Tracks(all, bucket, now) && bucket != [] && now - bucket[0] > WINDOW
    ensures Tracks(all, bucket[1..], now)
  {
    assert all[|all| - |bucket|] == bucket[0];
  }

  lemma PushTracks(all: seq<real>, bucket: seq<real>, now: real)
    requires Tracks(all, bucket, now) && |bucket| < LIMIT
    ensures Tracks(all + [now], bucket + [now], now)
  {
    AppendLimited(all, bucket, now);
    forall i | 0 <= i < |all| ensures all[i] <= now {
      assert i == |all| - 1 || all[i] <= all[|all| - 1];
    }
  }

  /** No closed window of sixty seconds holds more than thirty of the calls. */
  ghost predicate Limited(s: seq<real>) {
    forall i :: 0 <= i && i + LIMIT < |s| ==> s[i + LIMIT] - s[i] > WINDOW
  }

  /** Of a sorted sequence up to now, the calls in the window are its tail. */
  lemma {:induction false} WithinTail(s: seq<real>, k: nat, now: real)
    requires k <= |s| && forall i :: 0 <= i < k ==> now - s[i] > WINDOW
    requires forall i :: k <= i < |s| ==> now - WINDOW <= s[i] <= now
    ensures Within(s, now - WINDOW, now) == s[k..]
  {
    if s != [] {
      var n := |s| - 1;
      if k == |s| {
        WithinTail(s[..n], n, now);
      } else {
        WithinTail(s[..n], k, now);
        assert s[..n][k..] + [s[n]] == s[k..];
      }
    }
  }

  lemma BucketIsWindow(all: seq<real>, bucket: seq<real>, now: real)
    requires Tracks(all, bucket, now) && (bucket != [] ==> now - bucket[0] <= WINDOW)
    ensures Within(all, now - WINDOW, now) == bucket
    ensures LastMinute(all, bucket, now)
  {
    var k := |all| - |bucket|;
    forall i | k <= i < |all| ensures now - WINDOW <= all[i] <= now {
      assert all[k] == bucket[0];
      assert i == k || all[k] <= all[i];
      assert i == |all| - 1 || all[i] <= all[|all| - 1];
    }
    WithinTail(all, k, now);
  }

  lemma AppendLimited(all: seq<real>, bucket: seq<real>, now: real)
    requires Tracks(all, bucket, now) && |bucket| < LIMIT
    ensures Limited(all + [now])
  {
  }

  /** Spacing limits counting: if calls thirty apart are more than a window
      apart, no closed window of any position holds more than thirty. */
  lemma WindowBound(s: seq<real>, from: real)
    requires Sorted(s) && Limited(s)
    ensures |Within(s, from, from + WINDOW)| <= LIMIT
  {
    var i := FirstAtLeast(s, from);
    forall k | i + LIMIT <= k < |s| ensures from + WINDOW < s[k] {
      assert s[i + LIMIT] - s[i] > WINDOW;
      assert k == i + LIMIT || s[i + LIMIT] <= s[k];
    }
    WithinCount(s, from, from + WINDOW, i);
  }

  /** So no user ever gets more than thirty calls through in sixty seconds. */
  lemma EveryWindow(accepted: map<nat, seq<real>>, buckets: map<nat, seq<real>>, now: real, user: nat, from: real)
    requires AllTrack(accepted, buckets, now)
    ensures |Within(Of(accepted, user), from, from + 60.0)| <= 30
    ensures user in accepted ==>
              forall i :: 0 <= i && i + 30 < |accepted[user]| ==> accepted[user][i + 30] - accepted[user][i] > 60.0
  {
    assert UserTracks(accepted, buckets, now, user);
    WindowBound(Of(accepted, user), from);
  }

  lemma FirstAtLeast(s: seq<real>, from: real) returns (i: nat)
    requires Sorted(s)
    ensures i <= |s| && (forall k :: 0 <= k < i ==> s[k] < from) && (forall k :: i <= k < |s| ==> from <= s[k])
  {
    i := 0;
    while i < |s| && s[i] < from
      invariant i <= |s| && forall k :: 0 <= k < i ==> s[k] < from
    {
      i := i + 1;
    }
  }

  lemma {:induction false} WithinCount(s: seq<real>, from: real, upto: real, i: nat)
    requires i <= |s| && (forall k :: 0 <= k < i ==> s[k] < from)
    requires forall k :: i + LIMIT <= k < |s| ==> upto < s[k]
    ensures |Within(s, from, upto)| <= if |s| - i < LIMIT then |s| - i else LIMIT
  {
    if s != [] {
      var n := |s| - 1;
      if i == |s| {
        WithinCount(s[..n], from, upto, n);
      } else {
        WithinCount(s[..n], from, upto, i);
      }
    }
  }
}
