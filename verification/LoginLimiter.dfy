/**
 The sliding-window limiter in front of the login route.

 Each client has a deque of admission times; a request first drops the entries that have left
 the window and is then admitted if fewer than twenty remain.  The history functions below give
 every admission a client ever had, against which the deque and the verdicts are judged.
 */
module LoginLimiter {
  import opened Sequences

  const WINDOW := 60.0
  const MAX_ATTEMPTS := 20

  datatype Request = Request(client: string, at: real)

  /** What the pruning loop leaves: it stops at the first entry still inside the window. */
  function Pruned(attempts: seq<real>, now: real): (kept: seq<real>) {
    if attempts != [] && now - attempts[0] >= WINDOW then Pruned(attempts[1..], now) else attempts
  }

  predicate Admits(attempts: seq<real>, now: real) {
    |Pruned(attempts, now)| < MAX_ATTEMPTS
  }

  function Next(attempts: seq<real>, now: real): seq<real> {
    var kept := Pruned(attempts, now);
    if |kept| < MAX_ATTEMPTS then kept + [now] else kept
  }

  function AttemptsOf(attempts: map<string, seq<real>>, client: string): seq<real> {
    if client in attempts then attempts[client] else []
  }

  class Limiter {
    var attempts: map<string, seq<real>>

    constructor ()
      ensures attempts == map[]
    {
      attempts := map[];
    }

    method Login(client: string, now: real) returns (admitted: bool)
      modifies this
      ensures admitted == Admits(AttemptsOf(old(attempts), client), now)
      ensures attempts == old(attempts)[client := Next(AttemptsOf(old(attempts), client), now)]
    {
      var window := AttemptsOf(attempts, client);
      while window != [] && now - window[0] >= WINDOW
        invariant Pruned(window, now) == Pruned(AttemptsOf(attempts, client), now)
        decreases |window|
      {
        window := window[1..];
      }
      admitted := |window| < MAX_ATTEMPTS;
      if admitted {
        window := window + [now];
      }
      attempts := attempts[client := window];
    }
  }

  // ---------------------------------------------------------------- histories

  /** The deque of one client after requests at the given times. */
  function Deque(times: seq<real>): seq<real> {
    if times == [] then [] else Next(Deque(Front(times)), Last(times))
  }

  /** Every admission of one client, however old. */
  function Admissions(times: seq<real>): seq<real> {
    if times == [] then []
    else if Admits(Deque(Front(times)), Last(times)) then Admissions(Front(times)) + [Last(times)]
    else Admissions(Front(times))
  }

  /** The entries less than one window old at `now`: a plain filter, in no particular order. */
  function Recent(admissions: seq<real>, now: real): seq<real> {
    if admissions == [] then []
    else if now - Last(admissions) < WINDOW then Recent(Front(admissions), now) + [Last(admissions)]
    else Recent(Front(admissions), now)
  }

  ghost predicate Ordered(times: seq<real>) {
    forall i, j :: 0 <= i <= j < |times| ==> times[i] <= times[j]
  }

  function TimesOf(requests: seq<Request>, client: string): seq<real> {
    if requests == [] then []
    else if Last(requests).client == client then TimesOf(Front(requests), client) + [Last(requests).at]
    else TimesOf(Front(requests), client)
  }

  /** The table after a stream of requests from any clients. */
  function Table(requests: seq<Request>): map<string, seq<real>> {
    if requests == [] then map[]
    else
      var before := Table(Front(requests));
      before[Last(requests).client := Next(AttemptsOf(before, Last(requests).client), Last(requests).at)]
  }

  /** Clients do not share budgets: a client's deque is that of its own requests alone. */
  lemma {:induction false} ClientsAreIndependent(requests: seq<Request>, client: string)
    ensures AttemptsOf(Table(requests), client) == Deque(TimesOf(requests, client))
  {
    if requests != [] {
      ClientsAreIndependent(Front(requests), client);
      var earlier := TimesOf(Front(requests), client);
      if Last(requests).client == client {
        assert TimesOf(requests, client) == earlier + [Last(requests).at];
        assert Front(earlier + [Last(requests).at]) == earlier;
      } else {
        assert TimesOf(requests, client) == earlier;
      }
    }
  }

  // ---------------------------------------------------------------- the window

  /** On ordered times, the entries a filter keeps are exactly a suffix. */
  ghost predicate RecentFrom(admissions: seq<real>, now: real, k: nat) {
    && k <= |admissions|
    && (forall i :: 0 <= i < k ==> now - admissions[i] >= WINDOW)
    && (forall i :: k <= i < |admissions| ==> now - admissions[i] < WINDOW)
  }

  lemma {:induction false} RecentIsSuffix(admissions: seq<real>, now: real, k: nat)
    requires RecentFrom(admissions, now, k)
    ensures Recent(admissions, now) == admissions[k..]
  {
    if admissions != [] {
      if k == |admissions| {
        RecentIsSuffix(Front(admissions), now, k - 1);
        NothingRecent(admissions, now);
      } else {
        RecentIsSuffix(Front(admissions), now, k);
        OneMoreRecent(admissions, now, k);
      }
    }
  }

  lemma NothingRecent(admissions: seq<real>, now: real)
    requires admissions != [] && now - Last(admissions) >= WINDOW && Recent(Front(admissions), now) == Front(admissions)[|admissions| - 1..]
    ensures Recent(admissions, now) == admissions[|admissions|..]
  {
  }

  lemma OneMoreRecent(admissions: seq<real>, now: real, k: nat)
    requires k < |admissions| && now - Last(admissions) < WINDOW && Recent(Front(admissions), now) == Front(admissions)[k..]
    ensures Recent(admissions, now) == admissions[k..]
  {
    assert admissions[k..] == Front(admissions)[k..] + [Last(admissions)];
  }

  /** Pruning stops at the first young entry, and behind it all are young. */
  lemma {:induction false} PrunedIsSuffix(attempts: seq<real>, now: real) returns (k: nat)
    requires Ordered(attempts)
    ensures RecentFrom(attempts, now, k) && Pruned(attempts, now) == attempts[k..]
  {
    if attempts != [] && now - attempts[0] >= WINDOW {
      assert Ordered(attempts[1..]);
      var m := PrunedIsSuffix(attempts[1..], now);
      k := m + 1;
      assert forall i :: 1 <= i < |attempts| ==> attempts[i] == attempts[1..][i - 1];
    } else {
      k := 0;
    }
  }

  /** Admissions are themselves ordered and no later than the last request. */
  lemma {:induction false} AdmissionsOrdered(times: seq<real>)
    requires Ordered(times)
    ensures Ordered(Admissions(times))
    ensures forall i :: 0 <= i < |Admissions(times)| ==> Admissions(times)[i] <= Last(times)
  {
    if times != [] {
      AdmissionsOrdered(Front(times));
    }
  }

  /** One more request moves the cut between forgotten and remembered admissions. */
  lemma CutMoves(all: seq<real>, d: nat, k: nat, now: real)
    requires d + k <= |all|
    ensures all[d..][k..] == all[d + k..]
    ensures (all + [now])[d + k..] == all[d + k..] + [now]
  {
  }

  lemma NextIsSuffix(all: seq<real>, d: nat, now: real) returns (dropped: nat)
    requires Ordered(all) && d <= |all|
    requires forall i :: 0 <= i < |all| ==> all[i] <= now
    requires forall i :: 0 <= i < d ==> now - all[i] >= WINDOW
    ensures RecentFrom(all, now, dropped) && Pruned(all[d..], now) == all[dropped..]
  {
    var k := PrunedIsSuffix(all[d..], now);
    dropped := d + k;
    CutMoves(all, d, k, now);
    assert forall i :: d <= i < |all| ==> all[i] == all[d..][i - d];
  }

  lemma DequeGrows(times: seq<real>, dropped: nat)
    requires times != [] && RecentFrom(Admissions(Front(times)), Last(times), dropped)
    requires Pruned(Deque(Front(times)), Last(times)) == Admissions(Front(times))[dropped..]
    ensures RecentFrom(Admissions(times), Last(times), dropped)
    ensures Deque(times) == Admissions(times)[dropped..]
    ensures |Deque(Front(times))| <= MAX_ATTEMPTS ==> |Deque(times)| <= MAX_ATTEMPTS
  {
    var now, all := Last(times), Admissions(Front(times));
    CutMoves(all, 0, dropped, now);
    PrunedShrinks(Deque(Front(times)), now);
  }

  lemma {:induction false} PrunedShrinks(attempts: seq<real>, now: real)
    ensures |Pruned(attempts, now)| <= |attempts|
  {
    if attempts != [] && now - attempts[0] >= WINDOW { PrunedShrinks(attempts[1..], now); }
  }

  /** What the deque has forgotten is too old to matter at any later reading of the clock. */
  lemma {:induction false} DequeIsSuffix(times: seq<real>) returns (dropped: nat)
    requires Ordered(times)
    ensures dropped <= |Admissions(times)| && Deque(times) == Admissions(times)[dropped..]
    ensures times != [] ==> RecentFrom(Admissions(times), Last(times), dropped)
    ensures |Deque(times)| <= MAX_ATTEMPTS
  {
    if times == [] {
      dropped := 0;
    } else {
      var d := DequeIsSuffix(Front(times));
      AdmissionsOrdered(Front(times));
      dropped := NextIsSuffix(Admissions(Front(times)), d, Last(times));
      DequeGrows(times, dropped);
    }
  }

  /** The deque holds exactly the admissions of the last sixty seconds, never more than twenty. */
  lemma DequeIsWindow(times: seq<real>)
    requires Ordered(times) && times != []
    ensures Deque(times) == Recent(Admissions(times), Last(times))
    ensures |Recent(Admissions(times), Last(times))| <= MAX_ATTEMPTS
  {
    var k := DequeIsSuffix(times);
    RecentIsSuffix(Admissions(times), Last(times), k);
  }

  /** A request is refused exactly when twenty admissions lie in the sixty seconds before it. */
  lemma RefusedIffWindowFull(times: seq<real>, now: real)
    requires Ordered(times + [now])
    ensures !Admits(Deque(times), now) <==> |Recent(Admissions(times), now)| == MAX_ATTEMPTS
    ensures |Recent(Admissions(times), now)| <= MAX_ATTEMPTS
  {
    var all := times + [now];
    assert Front(all) == times && Last(all) == now;
    assert forall i :: 0 <= i < |times| ==> times[i] == all[i];
    var d := DequeIsSuffix(times);
    AdmissionsOrdered(times);
    var adm := Admissions(times);
    var k := NextIsSuffix(adm, d, now);
    RecentIsSuffix(adm, now, k);
  }

  /** Any twenty-one consecutive admissions of one client span at least sixty seconds. */
  lemma {:induction false} AdmissionsAreSpread(times: seq<real>, i: nat)
    requires Ordered(times)
    requires i + MAX_ATTEMPTS < |Admissions(times)|
    ensures Admissions(times)[i + MAX_ATTEMPTS] - Admissions(times)[i] >= WINDOW
  {
    var earlier := Admissions(Front(times));
    if i + MAX_ATTEMPTS < |earlier| {
      AdmissionsAreSpread(Front(times), i);
    } else {
      var k := DequeIsSuffix(times);
      assert |Admissions(times)[k..]| <= MAX_ATTEMPTS;
      assert i < k;
    }
  }

  /** In the numbers of the route: a minute, and twenty attempts in it. */
  lemma TwentyAMinute(times: seq<real>, now: real)
    requires Ordered(times + [now])
    ensures var recent := Recent(Admissions(times), now);
            && (!Admits(Deque(times), now) <==> |recent| >= 20)
            && (forall i :: 0 <= i < |Admissions(times)| && now - Admissions(times)[i] < 60.0 ==> Admissions(times)[i] in recent)
            && (forall t :: t in recent ==> t in Admissions(times) && now - t < 60.0)
  {
    RefusedIffWindowFull(times, now);
    RecentHolds(Admissions(times), now);
  }

  lemma {:induction false} RecentHolds(admissions: seq<real>, now: real)
    ensures forall t :: t in Recent(admissions, now) <==> t in admissions && now - t < 60.0
  {
    if admissions != [] {
      RecentHolds(Front(admissions), now);
      assert admissions == Front(admissions) + [Last(admissions)];
    }
  }

  lemma {:induction false} TimesOrdered(requests: seq<Request>, client: string)
    requires forall i, j :: 0 <= i <= j < |requests| ==> requests[i].at <= requests[j].at
    ensures Ordered(TimesOf(requests, client))
    ensures forall i :: 0 <= i < |TimesOf(requests, client)| ==> TimesOf(requests, client)[i] <= Last(requests).at
  {
    if requests != [] {
      TimesOrdered(Front(requests), client);
    }
  }

  /** The verdict on the next request of a mixed stream, stated on that client's own admissions. */
  lemma VerdictInStream(requests: seq<Request>, next: Request)
    requires forall i, j :: 0 <= i <= j < |requests| + 1 ==> (requests + [next])[i].at <= (requests + [next])[j].at
    ensures !Admits(AttemptsOf(Table(requests), next.client), next.at)
       <==> |Recent(Admissions(TimesOf(requests, next.client)), next.at)| == MAX_ATTEMPTS
  {
    var times := TimesOf(requests, next.client);
    ClientsAreIndependent(requests, next.client);
    assert forall i :: 0 <= i < |requests| ==> requests[i] == (requests + [next])[i];
    TimesOrdered(requests, next.client);
    assert requests != [] ==> (requests + [next])[|requests| - 1].at <= (requests + [next])[|requests|].at;
    assert requests == [] ==> times == [];
    assert forall i :: 0 <= i < |times| ==> times[i] <= next.at;
    RefusedIffWindowFull(times, next.at);
  }
}
