/**
 The recurring-prompt sweep: at most twenty due schedules at a time, oldest first.

 A sweep's batch is any list the ordered, limited query may return, ties included.  The
 theorems bound how long a due schedule can be passed over and how close two dispatches can be.
 */
module Schedules {
  import opened Wrappers

  type Id = string

  datatype Schedule = Schedule(interval: int, enabled: bool, next: int)

  type Table = map<Id, Schedule>

  const BATCH := 20
  const MIN_INTERVAL := 60
  const BUSY_DEFERRAL := 300

  datatype Outcome = Dispatched | Deferred | DeferredBusy

  predicate Due(t: Table, now: int, id: Id) {
    id in t && t[id].enabled && t[id].next <= now
  }

  ghost predicate IsBatch(t: Table, now: int, batch: seq<Id>) {
    && |batch| <= BATCH
    && (forall i :: 0 <= i < |batch| ==> Due(t, now, batch[i]))
    && (forall i, j :: 0 <= i < j < |batch| ==> batch[i] != batch[j] && t[batch[i]].next <= t[batch[j]].next)
    && (forall id :: Due(t, now, id) && id !in batch ==>
          |batch| == BATCH && forall i :: 0 <= i < |batch| ==> t[batch[i]].next <= t[id].next)
  }

  /** Claiming a schedule moves its next run first, whatever becomes of the occurrence. */
  function Advance(s: Schedule, now: int, outcome: Outcome): Schedule {
    s.(next := now + if outcome.DeferredBusy? && s.interval > BUSY_DEFERRAL then BUSY_DEFERRAL else s.interval)
  }

  function Claimed(t: Table, now: int, claimed: seq<Id>, outcomes: Id -> Outcome): Table {
    map id | id in t :: if id in claimed then Advance(t[id], now, outcomes(id)) else t[id]
  }

  // ---------------------------------------------------------------- steps

  /** A sweep that raised half-way has claimed only the first `reached` of its batch. */
  datatype Step =
    | Sweep(batch: seq<Id>, outcomes: Id -> Outcome, reached: nat)
    | Create(id: Id, interval: int, enabled: bool)
    | Update(id: Id, newInterval: Option<int>, newEnabled: Option<bool>)
    | Delete(id: Id)

  datatype Moment = Moment(now: int, step: Step)

  ghost predicate Allowed(t: Table, m: Moment) {
    match m.step
    case Sweep(batch, _, reached) => IsBatch(t, m.now, batch) && reached <= |batch|
    case Create(id, interval, _) => id !in t && interval >= MIN_INTERVAL
    case Update(id, interval, _) => id in t && (interval.Some? ==> interval.value >= MIN_INTERVAL)
    case Delete(id) => id in t
  }

  function Updated(s: Schedule, now: int, interval: Option<int>, enabled: Option<bool>): Schedule {
    var moved := if interval.Some? then s.(interval := interval.value, next := now + interval.value) else s;
    if enabled.Some? then moved.(enabled := enabled.value) else moved
  }

  function Apply(t: Table, m: Moment): Table {
    match m.step
    case Sweep(batch, outcomes, reached) => Claimed(t, m.now, if reached <= |batch| then batch[..reached] else batch, outcomes)
    case Create(id, interval, enabled) => t[id := Schedule(interval, enabled, m.now + interval)]
    case Update(id, interval, enabled) => if id in t then t[id := Updated(t[id], m.now, interval, enabled)] else t
    case Delete(id) => t - {id}
  }

  /** The table after the first k moments. */
  function At(t: Table, ms: seq<Moment>, k: nat): Table
    requires k <= |ms|
  {
    if k == 0 then t else Apply(At(t, ms, k - 1), ms[k - 1])
  }

  ghost predicate Valid(t: Table) {
    forall id :: id in t ==> t[id].interval >= MIN_INTERVAL
  }

  ghost predicate AllowedAt(t: Table, ms: seq<Moment>, i: nat)
    requires i < |ms|
  {
    Allowed(At(t, ms, i), ms[i])
  }

  ghost predicate Possible(t: Table, ms: seq<Moment>) {
    && (forall i {:trigger AllowedAt(t, ms, i)} :: 0 <= i < |ms| ==> AllowedAt(t, ms, i))
    && (forall i, j :: 0 <= i <= j < |ms| ==> ms[i].now <= ms[j].now)
  }

  /** When a schedule runs next: a claimed one after its interval, or after five minutes at most if the project was busy. */
  lemma NextRunAfterSweep(t: Table, now: int, batch: seq<Id>, outcomes: Id -> Outcome, id: Id)
    requires IsBatch(t, now, batch) && Valid(t) && id in t
    ensures var u := Apply(t, Moment(now, Sweep(batch, outcomes, |batch|)));
            && u.Keys == t.Keys && u[id] == t[id].(next := u[id].next)
            && (id !in batch ==> u[id].next == t[id].next)
            && (id in batch && outcomes(id) != DeferredBusy ==> u[id].next - now == t[id].interval)
            && (id in batch && outcomes(id) == DeferredBusy && t[id].interval <= 300 ==> u[id].next - now == t[id].interval)
            && (id in batch && outcomes(id) == DeferredBusy && t[id].interval > 300 ==> u[id].next - now == 300)
            && (id in batch ==> !Due(u, now, id))
  {
    assert batch[..|batch|] == batch;
  }

  /** Changing the interval starts it anew; switching a schedule on or off leaves its next run alone. */
  lemma NextRunAfterUpdate(t: Table, now: int, id: Id, interval: Option<int>, enabled: Option<bool>)
    requires id in t
    ensures var s, u := t[id], Apply(t, Moment(now, Update(id, interval, enabled)))[id];
            && (interval.None? ==> u.interval == s.interval && u.next == s.next)
            && (interval.Some? ==> u.interval == interval.value && u.next - now == interval.value)
            && (enabled.None? ==> u.enabled == s.enabled) && (enabled.Some? ==> u.enabled == enabled.value)
  {
  }

  lemma ClaimOneMore(t: Table, now: int, claimed: seq<Id>, id: Id, outcomes: Id -> Outcome)
    requires id in t && id !in claimed
    ensures Claimed(t, now, claimed + [id], outcomes)
            == Claimed(t, now, claimed, outcomes)[id := Advance(t[id], now, outcomes(id))]
    ensures Claimed(t, now, claimed, outcomes)[id] == t[id]
  {
  }

  lemma {:induction false} StaysValid(t: Table, ms: seq<Moment>, k: nat)
    requires Valid(t) && Possible(t, ms) && k <= |ms|
    ensures Valid(At(t, ms, k))
  {
    if k > 0 {
      StaysValid(t, ms, k - 1);
      assert AllowedAt(t, ms, k - 1);
    }
  }

  // ---------------------------------------------------------------- no schedule starves

  /** The enabled schedules that may be taken before `target`, ties counted against it. */
  function Ahead(t: Table, target: Id): set<Id>
    requires target in t
  {
    set id | id in t && id != target && t[id].enabled && t[id].next <= t[target].next
  }

  predicate Claims(m: Moment, target: Id) {
    m.step.Sweep? && target in (if m.step.reached <= |m.step.batch| then m.step.batch[..m.step.reached] else m.step.batch)
  }

  predicate CompleteSweep(m: Moment) {
    m.step.Sweep? && m.step.reached == |m.step.batch|
  }

  function CompleteSweeps(ms: seq<Moment>, k: nat): nat
    requires k <= |ms|
  {
    if k == 0 then 0 else CompleteSweeps(ms, k - 1) + (if CompleteSweep(ms[k - 1]) then 1 else 0)
  }

  /** A disabled schedule brought back with its old, possibly overdue, next run. */
  predicate Revives(t: Table, m: Moment) {
    m.step.Update? && m.step.newEnabled == Some(true) && m.step.newInterval.None?
    && m.step.id in t && !t[m.step.id].enabled
  }

  predicate Touches(m: Moment, target: Id) {
    match m.step
    case Update(id, _, _) => id == target
    case Delete(id) => id == target
    case Create(id, _, _) => id == target
    case Sweep(_, _, _) => Claims(m, target)
  }

  lemma SubsetSmaller(a: set<Id>, b: set<Id>)
    requires a <= b
    ensures |a| <= |b|
  {
    assert b == a + (b - a);
  }

  lemma {:induction false} DistinctCount(s: seq<Id>) returns (ids: set<Id>)
    requires forall i, j :: 0 <= i < j < |s| ==> s[i] != s[j]
    ensures ids == (set x | x in s) && |ids| == |s|
  {
    if s == [] {
      ids := {};
    } else {
      var front := DistinctCount(s[..|s| - 1]);
      ids := front + {s[|s| - 1]};
      assert s[|s| - 1] !in front;
      assert forall x :: x in s <==> x in s[..|s| - 1] || x == s[|s| - 1];
    }
  }

  /** One step that leaves a due target alone: nobody new gets ahead, a full sweep removes twenty. */
  lemma StepAhead(t: Table, m: Moment, target: Id)
    requires Valid(t) && Due(t, m.now, target) && Allowed(t, m) && !Touches(m, target) && !Revives(t, m)
    ensures target in Apply(t, m) && Apply(t, m)[target] == t[target]
    ensures Ahead(Apply(t, m), target) <= Ahead(t, target)
    ensures |Ahead(Apply(t, m), target)| + (if CompleteSweep(m) then 20 else 0) <= |Ahead(t, target)|
  {
    var u := Apply(t, m);
    assert Ahead(u, target) <= Ahead(t, target) by {
      forall id | id in Ahead(u, target) ensures id in Ahead(t, target) {
        assert id in t && t[id].enabled && t[id].next <= t[target].next;
      }
    }
    SubsetSmaller(Ahead(u, target), Ahead(t, target));
    if CompleteSweep(m) {
      var batch := m.step.batch;
      assert batch[..m.step.reached] == batch;
      assert target !in batch && |batch| == BATCH;
      var taken := DistinctCount(batch);
      assert taken <= Ahead(t, target);
      assert Ahead(u, target) <= Ahead(t, target) - taken;
      SubsetSmaller(Ahead(u, target), Ahead(t, target) - taken);
    }
  }

  predicate Disturbs(t: Table, ms: seq<Moment>, i: nat, target: Id)
    requires i < |ms|
  {
    Touches(ms[i], target) || Revives(At(t, ms, i), ms[i])
  }

  lemma {:induction false} PassedOver(t: Table, ms: seq<Moment>, target: Id, now: int, k: nat)
    requires Valid(t) && Possible(t, ms) && Due(t, now, target) && k <= |ms|
    requires forall i :: 0 <= i < k ==> now <= ms[i].now
    requires forall i {:trigger Disturbs(t, ms, i, target)} :: 0 <= i < k ==> !Disturbs(t, ms, i, target)
    ensures target in At(t, ms, k) && At(t, ms, k)[target] == t[target]
    ensures |Ahead(At(t, ms, k), target)| + BATCH * CompleteSweeps(ms, k) <= |Ahead(t, target)|
  {
    if k > 0 {
      PassedOver(t, ms, target, now, k - 1);
      StaysValid(t, ms, k - 1);
      assert AllowedAt(t, ms, k - 1);
      assert !Disturbs(t, ms, k - 1, target);
      StepAhead(At(t, ms, k - 1), ms[k - 1], target);
    }
  }

  /**
   No starvation: a due schedule with k schedules ahead of it is claimed within k / 20 + 1
   completed sweeps, whatever else becomes due or is created, edited, deleted or aborted meanwhile,
   unless it is edited itself or an overdue disabled schedule is switched back on.
   */
  lemma NoStarvation(t: Table, ms: seq<Moment>, target: Id, now: int)
    requires Valid(t) && Possible(t, ms) && Due(t, now, target)
    requires ms != [] ==> now <= ms[0].now
    requires CompleteSweeps(ms, |ms|) > |Ahead(t, target)| / 20
    ensures exists i :: 0 <= i < |ms| && Disturbs(t, ms, i, target)
  {
    if forall i {:trigger Disturbs(t, ms, i, target)} :: 0 <= i < |ms| ==> !Disturbs(t, ms, i, target) {
      PassedOver(t, ms, target, now, |ms|);
      assert false;
    }
  }

  // ---------------------------------------------------------------- spacing

  predicate Dispatches(m: Moment, id: Id) {
    Claims(m, id) && m.step.outcomes(id) == Dispatched
  }

  /** While `id` is configured at no less than `least`, its next run stays `least` after `since`. */
  lemma StepSpacing(t: Table, m: Moment, id: Id, since: int, least: int)
    requires Valid(t) && Allowed(t, m) && since <= m.now
    requires id in t ==> t[id].next >= since + least
    requires id in Apply(t, m) ==> Apply(t, m)[id].interval >= least
    ensures id in Apply(t, m) ==> Apply(t, m)[id].next >= since + least
  {
    if m.step.Sweep? && Claims(m, id) {
      assert id in m.step.batch;
    }
  }

  lemma DispatchSpacing(t: Table, m: Moment, id: Id, least: int)
    requires Allowed(t, m) && Dispatches(m, id)
    requires id in Apply(t, m) ==> Apply(t, m)[id].interval >= least
    ensures id in Apply(t, m) ==> Apply(t, m)[id].next >= m.now + least
  {
  }

  ghost predicate ConfiguredAtLeast(t: Table, ms: seq<Moment>, i: nat, j: nat, id: Id, least: int)
    requires j <= |ms|
  {
    forall k {:trigger AtLeastAt(t, ms, k, id, least)} :: i < k <= j ==> AtLeastAt(t, ms, k, id, least)
  }

  ghost predicate AtLeastAt(t: Table, ms: seq<Moment>, k: nat, id: Id, least: int)
    requires k <= |ms|
  {
    id in At(t, ms, k) ==> At(t, ms, k)[id].interval >= least
  }

  lemma {:induction false} KeepsSpacing(t: Table, ms: seq<Moment>, i: nat, j: nat, id: Id, least: int)
    requires Valid(t) && Possible(t, ms) && i < j <= |ms| && Dispatches(ms[i], id)
    requires ConfiguredAtLeast(t, ms, i, j, id, least)
    ensures id in At(t, ms, j) ==> At(t, ms, j)[id].next >= ms[i].now + least
    decreases j
  {
    StaysValid(t, ms, j - 1);
    assert AllowedAt(t, ms, j - 1) && AtLeastAt(t, ms, j, id, least);
    if i < j - 1 {
      KeepsSpacing(t, ms, i, j - 1, id, least);
      StepSpacing(At(t, ms, j - 1), ms[j - 1], id, ms[i].now, least);
    } else {
      DispatchSpacing(At(t, ms, j - 1), ms[j - 1], id, least);
    }
  }

  /** Two dispatches of a schedule are at least the smallest interval configured in between apart. */
  lemma MinimumSpacing(t: Table, ms: seq<Moment>, i: nat, j: nat, id: Id, least: int)
    requires Valid(t) && Possible(t, ms) && i < j < |ms| && Dispatches(ms[i], id) && Dispatches(ms[j], id)
    requires ConfiguredAtLeast(t, ms, i, j, id, least)
    ensures ms[j].now - ms[i].now >= least
  {
    KeepsSpacing(t, ms, i, j, id, least);
    assert AllowedAt(t, ms, j);
    assert id in ms[j].step.batch;
    assert Due(At(t, ms, j), ms[j].now, id);
  }

  // ---------------------------------------------------------------- the sweep as a loop

  class Dispatcher {
    var schedules: Table

    constructor (initial: Table)
      ensures schedules == initial
    {
      schedules := initial;
    }

    /** One transaction of the sweep. */
    method ClaimSchedule(id: Id, now: int, outcome: Outcome)
      requires id in schedules
      modifies this
      ensures schedules == old(schedules)[id := Advance(old(schedules)[id], now, outcome)]
    {
      var schedule := schedules[id];
      schedule := schedule.(next := now + schedule.interval);
      if outcome == DeferredBusy {
        schedule := schedule.(next := now + if schedule.interval < BUSY_DEFERRAL then schedule.interval else BUSY_DEFERRAL);
      }
      schedules := schedules[id := schedule];
    }

    /** Claims the batch one schedule per transaction; stops short where a transaction raises. */
    method DispatchDueSchedules(now: int, batch: seq<Id>, outcomes: Id -> Outcome, reached: nat) returns (dispatched: nat)
      requires IsBatch(schedules, now, batch) && reached <= |batch|
      modifies this
      ensures schedules == Apply(old(schedules), Moment(now, Sweep(batch, outcomes, reached)))
      ensures dispatched == CountDispatched(batch[..reached], outcomes)
    {
      BatchIsKnown(schedules, now, batch);
      dispatched := ClaimEach(now, batch[..reached], outcomes);
    }

    method ClaimEach(now: int, ids: seq<Id>, outcomes: Id -> Outcome) returns (dispatched: nat)
      requires Known(schedules, ids)
      modifies this
      ensures schedules == Claimed(old(schedules), now, ids, outcomes) && dispatched == CountDispatched(ids, outcomes)
    {
      dispatched := 0;
      ghost var before := schedules;
      NothingClaimed(before, now, outcomes);
      var i := 0;
      while i < |ids|
        invariant 0 <= i <= |ids|
        invariant schedules == Claimed(before, now, ids[..i], outcomes)
        invariant dispatched == CountDispatched(ids[..i], outcomes)
      {
        BatchStep(before, now, ids, i, outcomes);
        ClaimSchedule(ids[i], now, outcomes(ids[i]));
        if outcomes(ids[i]) == Dispatched {
          dispatched := dispatched + 1;
        }
        i := i + 1;
      }
      assert ids[..i] == ids;
    }
  }

  /** Existing schedules, each named once. */
  ghost predicate Known(t: Table, ids: seq<Id>) {
    (forall i :: 0 <= i < |ids| ==> ids[i] in t) && forall i, j :: 0 <= i < j < |ids| ==> ids[i] != ids[j]
  }

  lemma BatchIsKnown(t: Table, now: int, batch: seq<Id>)
    requires IsBatch(t, now, batch)
    ensures forall n :: 0 <= n <= |batch| ==> Known(t, batch[..n])
  {
    assert forall i :: 0 <= i < |batch| ==> Due(t, now, batch[i]);
  }

  function CountDispatched(ids: seq<Id>, outcomes: Id -> Outcome): nat {
    if ids == [] then 0
    else CountDispatched(ids[..|ids| - 1], outcomes) + (if outcomes(ids[|ids| - 1]) == Dispatched then 1 else 0)
  }

  lemma NothingClaimed(t: Table, now: int, outcomes: Id -> Outcome)
    ensures Claimed(t, now, [], outcomes) == t
  {
  }

  lemma BatchStep(t: Table, now: int, batch: seq<Id>, i: nat, outcomes: Id -> Outcome)
    requires Known(t, batch) && i < |batch|
    ensures batch[i] in t && Claimed(t, now, batch[..i], outcomes)[batch[i]] == t[batch[i]]
    ensures Claimed(t, now, batch[..i + 1], outcomes)
            == Claimed(t, now, batch[..i], outcomes)[batch[i] := Advance(t[batch[i]], now, outcomes(batch[i]))]
    ensures CountDispatched(batch[..i + 1], outcomes)
            == CountDispatched(batch[..i], outcomes) + (if outcomes(batch[i]) == Dispatched then 1 else 0)
  {
    assert batch[i] !in batch[..i];
    ClaimOneMore(t, now, batch[..i], batch[i], outcomes);
    assert batch[..i + 1] == batch[..i] + [batch[i]];
    assert batch[..i + 1][..i] == batch[..i];
  }
}
