/**
 Project phases: a gate guards each forward step, backward moves are free.

 The facts a gate looks at may come and go between two attempts, so a project's phase says
 nothing about the facts that hold now; the theorem says what its history must contain.
 */
module Phases {

  datatype Facts = Facts(connected: bool, finding: bool, requirement: bool, specification: bool,
                         artifact: bool, validation: bool, staged: bool, uat: bool)

  datatype Phase = Discovery | Requirements | Design | Build | Validate | Uat | ReadyForProduction

  function Rank(phase: Phase): (rank: nat)
    ensures rank < 7
  {
    match phase
    case Discovery => 0
    case Requirements => 1
    case Design => 2
    case Build => 3
    case Validate => 4
    case Uat => 5
    case ReadyForProduction => 6
  }

  predicate Gate(facts: Facts, phase: Phase) {
    match phase
    case Discovery => true
    case Requirements => facts.connected && facts.finding
    case Design => facts.requirement
    case Build => facts.specification
    case Validate => facts.artifact
    case Uat => facts.validation
    case ReadyForProduction => facts.staged && facts.uat
  }

  /** What each phase asks for, fact by fact. */
  predicate Meets(phase: Phase, facts: Facts) {
    && (phase == Requirements ==> facts.connected && facts.finding)
    && (phase == Design ==> facts.requirement)
    && (phase == Build ==> facts.specification)
    && (phase == Validate ==> facts.artifact)
    && (phase == Uat ==> facts.validation)
    && (phase == ReadyForProduction ==> facts.staged && facts.uat)
  }

  datatype Verdict = Moved | Skipped | Blocked

  function Judge(current: Phase, target: Phase, facts: Facts): Verdict {
    if Rank(target) > Rank(current) + 1 then Skipped
    else if Gate(facts, target) then Moved
    else Blocked
  }

  class Project {
    var phase: Phase

    constructor ()
      ensures phase == Discovery
    {
      phase := Discovery;
    }

    method UpdatePhase(target: Phase, facts: Facts) returns (verdict: Verdict)
      modifies this
      ensures verdict == Judge(old(phase), target, facts)
      ensures phase == if verdict == Moved then target else old(phase)
      ensures verdict == Skipped <==> Rank(target) > Rank(old(phase)) + 1
      ensures verdict == Moved <==> Rank(target) <= Rank(old(phase)) + 1 && Meets(target, facts)
    {
      if Rank(target) > Rank(phase) + 1 {
        return Skipped;
      }
      if !Gate(facts, target) {
        return Blocked;
      }
      phase := target;
      verdict := Moved;
    }
  }

  // ---------------------------------------------------------------- histories

  datatype Attempt = Attempt(target: Phase, facts: Facts)

  function PhaseAfter(attempts: seq<Attempt>, k: nat): Phase
    requires k <= |attempts|
  {
    if k == 0 then Discovery
    else
      var before, a := PhaseAfter(attempts, k - 1), attempts[k - 1];
      if Judge(before, a.target, a.facts) == Moved then a.target else before
  }

  /** Attempt i was accepted into the phase of this rank, whose gate held at that moment. */
  ghost predicate Entered(attempts: seq<Attempt>, i: nat, rank: nat) {
    && i < |attempts|
    && Rank(attempts[i].target) == rank
    && Judge(PhaseAfter(attempts, i), attempts[i].target, attempts[i].facts) == Moved
    && Gate(attempts[i].facts, attempts[i].target)
  }

  /** One entry for every rank up to the present one, in time order. */
  ghost predicate Ascent(attempts: seq<Attempt>, entries: seq<nat>, k: nat) {
    && (forall j :: 0 <= j < |entries| ==> entries[j] < k && Entered(attempts, entries[j], j + 1))
    && (forall i, j :: 0 <= i < j < |entries| ==> entries[i] < entries[j])
  }

  /**
   However a project wandered, a project of rank r has passed the gates of ranks 1 to r one
   after another, in that order.
   */
  lemma {:induction false} PhaseWasEarned(attempts: seq<Attempt>, k: nat) returns (entries: seq<nat>)
    requires k <= |attempts|
    ensures |entries| == Rank(PhaseAfter(attempts, k))
    ensures Ascent(attempts, entries, k)
  {
    if k == 0 {
      entries := [];
    } else {
      var before := PhaseWasEarned(attempts, k - 1);
      var a := attempts[k - 1];
      if Judge(PhaseAfter(attempts, k - 1), a.target, a.facts) != Moved {
        entries := before;
      } else if Rank(a.target) <= |before| {
        entries := before[..Rank(a.target)];
      } else {
        entries := before + [k - 1];
        assert Entered(attempts, k - 1, |before| + 1);
      }
    }
  }

  /** A project that is ready for production showed everything the six gates ask for, one after another. */
  lemma ReadyPassedEveryGate(attempts: seq<Attempt>)
      returns (explored: nat, required: nat, specified: nat, built: nat, validated: nat, ready: nat)
    requires PhaseAfter(attempts, |attempts|) == ReadyForProduction
    ensures explored < required < specified < built < validated < ready < |attempts|
    ensures attempts[explored].facts.connected && attempts[explored].facts.finding
    ensures attempts[required].facts.requirement && attempts[specified].facts.specification
    ensures attempts[built].facts.artifact && attempts[validated].facts.validation
    ensures attempts[ready].facts.staged && attempts[ready].facts.uat
  {
    var e := PhaseWasEarned(attempts, |attempts|);
    assert forall j :: 0 <= j < 6 ==> Entered(attempts, e[j], j + 1);
    explored, required, specified, built, validated, ready := e[0], e[1], e[2], e[3], e[4], e[5];
  }

  /** A project that is ready for production was earlier admitted to UAT on a passed validation. */
  lemma ReadyWentThroughUat(attempts: seq<Attempt>) returns (uat: nat, ready: nat)
    requires PhaseAfter(attempts, |attempts|) == ReadyForProduction
    ensures uat < ready < |attempts|
    ensures attempts[uat].target == Uat && attempts[uat].facts.validation
    ensures attempts[ready].target == ReadyForProduction && attempts[ready].facts.staged && attempts[ready].facts.uat
  {
    var entries := PhaseWasEarned(attempts, |attempts|);
    uat, ready := entries[4], entries[5];
    assert Entered(attempts, entries[4], 5) && Entered(attempts, entries[5], 6);
  }
}
