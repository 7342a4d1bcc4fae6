/**
 Histories the transactions permit, and the exact laws they delimit: what a relabelled instance
 does to the production gates, and what a rolled-back staging deployment still counts for.
 */
module ReleaseScenarios {
  import opened Wrappers
  import opened Phases
  import Text
  import opened ReleaseModel
  import opened ReleaseHistory

  // ---------------------------------------------------------------- pieces of histories

  lemma {:induction false} AtConcat(w: World, a: seq<Action>, b: seq<Action>, j: nat)
    requires j <= |b|
    ensures At(w, a + b, |a| + j) == At(At(w, a, |a|), b, j)
  {
    if j == 0 {
      AtPrefix(w, a, b, |a|);
    } else {
      AtConcat(w, a, b, j - 1);
    }
  }

  lemma {:induction false} AtPrefix(w: World, a: seq<Action>, b: seq<Action>, k: nat)
    requires k <= |a|
    ensures At(w, a + b, k) == At(w, a, k)
  {
    if k > 0 { AtPrefix(w, a, b, k - 1); }
  }

  /** The world at the end of a history. */
  function End(w: World, actions: seq<Action>): World {
    At(w, actions, |actions|)
  }

  lemma EndConcat(w: World, a: seq<Action>, b: seq<Action>)
    ensures End(w, a + b) == End(End(w, a), b)
  {
    AtConcat(w, a, b, |b|);
  }

  /** One more action after a history: what it meets, and what it leaves. */
  lemma EndThen(w: World, a: seq<Action>, x: Action)
    ensures At(w, a + [x], |a|) == End(w, a) && (a + [x])[|a|] == x
    ensures End(w, a + [x]) == Apply(End(w, a), x)
  {
    AtPrefix(w, a, [x], |a|);
  }

  function Packed(w: World, artifact: ArtifactId, digest: string): World {
    w.(artifacts := w.artifacts[artifact := Artifact(1, true, digest)], passed := w.passed + {artifact})
  }

  /** User 10 requests for project 1, user 11 approves. */
  function Approval(w: World, instance: InstanceId, artifact: ArtifactId): seq<Action> {
    [Request(1, instance, artifact, 10, "restore")] + [Decide(|w.deployments|, 11, true, true)]
  }

  function Row(w: World, instance: InstanceId, artifact: ArtifactId): Deployment
    requires instance in w.instances
  {
    NewDeployment(w, 1, instance, artifact, 10)
  }

  function WithRow(w: World, d: Deployment): World {
    w.(deployments := w.deployments + [d])
  }

  lemma EndOne(w: World, x: Action)
    ensures End(w, [x]) == Apply(w, x)
  {
    assert At(w, [x], 0) == w;
  }

  lemma RowChanges(w: World, d: Deployment, e: Deployment)
    ensures Put(WithRow(w, d), |w.deployments|, e) == WithRow(w, e)
  {
    assert (w.deployments + [d])[|w.deployments| := e] == w.deployments + [e];
  }

  lemma ApprovalEnds(w: World, instance: InstanceId, artifact: ArtifactId)
    requires Gates(w, 1, instance, artifact, "restore")
    ensures End(w, Approval(w, instance, artifact)) == WithRow(w, Decided(Row(w, instance, artifact), 11, true))
  {
    var d := Row(w, instance, artifact);
    EndConcat(w, [Request(1, instance, artifact, 10, "restore")], [Decide(|w.deployments|, 11, true, true)]);
    EndOne(w, Request(1, instance, artifact, 10, "restore"));
    EndOne(WithRow(w, d), Decide(|w.deployments|, 11, true, true));
    RowChanges(w, d, Decided(d, 11, true));
  }

  // ---------------------------------------------------------------- relabelled instances

  const RELABELLED := Instance(1, Production, true, true)

  function OnlyStaging(): World {
    World(map[1 := Build], map[7 := Instance(1, Staging, true, true)], map[], {}, {}, [])
  }

  /** Everything up to the executor's turn. */
  function Relabelling(): seq<Action> {
    [Package("a", 1, "x", true)] + Approval(OnlyStaging(), 7, "a") + [EditInstance(7, RELABELLED)]
  }

  lemma RelabellingEnds()
    ensures var w := Packed(OnlyStaging(), "a", "x");
            End(OnlyStaging(), Relabelling())
            == WithRow(w, Decided(Row(w, 7, "a"), 11, true)).(instances := map[7 := RELABELLED])
  {
    var w0, w1 := OnlyStaging(), Packed(OnlyStaging(), "a", "x");
    var a, b := [Package("a", 1, "x", true)], Approval(w0, 7, "a");
    EndOne(w0, a[0]);
    EndConcat(w0, a, b);
    RelabelledGates();
    ApprovalEnds(w1, 7, "a");
    EndThen(w0, a + b, EditInstance(7, RELABELLED));
    EditStep(WithRow(w1, Decided(Row(w1, 7, "a"), 11, true)));
  }

  lemma RelabelledGates()
    ensures Gates(Packed(OnlyStaging(), "a", "x"), 1, 7, "a", "restore")
  {
    Text.StripFixed("restore");
  }

  lemma EditStep(w: World)
    requires w.instances.Keys == {7}
    ensures Apply(w, EditInstance(7, RELABELLED)) == w.(instances := map[7 := RELABELLED])
  {
  }

  /**
   The instance was staging when the deployment was requested and is production when it is
   executed: the artifact gets there although nobody staged or accepted it.
   */
  lemma RelabelledInstanceIsShippedTo()
    ensures var actions := Relabelling() + [Execute(0, true)];
            var k := |Relabelling()|;
            var now := At(OnlyStaging(), actions, k);
            && ShipsToProduction(OnlyStaging(), actions, k, Staging)
            && Ships(now, actions[k]) == Some(Shipment(0, "a", false))
            && now.evidence == {} && !Staged(now, "a") && !Chained(OnlyStaging(), actions, k, "a")
  {
    var actions, k := Relabelling() + [Execute(0, true)], |Relabelling()|;
    RelabellingEnds();
    EndThen(OnlyStaging(), Relabelling(), Execute(0, true));
    var now := At(OnlyStaging(), actions, k);
    assert |now.deployments| == 1 && now.deployments[0].status == Approved;
    assert forall i :: 0 <= i < |actions| ==> !actions[i].AcceptUat?;
  }

  /**
   A shipment to an instance that is in production now is guaranteed to have its staging chain if
   and only if the request already recorded production: what the executor would have to compare
   before it delivers is the recorded environment with the instance's present one.
   */
  lemma ChainIsGuaranteedIffRecorded(recorded: Environment)
    requires recorded != OtherEnvironment
    ensures (forall w, actions, k :: ShipsToProduction(w, actions, k, recorded) ==>
               Chained(w, actions, k, Ships(At(w, actions, k), actions[k]).value.artifact))
            <==> recorded == Production
  {
    if recorded == Production {
      forall w, actions, k | ShipsToProduction(w, actions, k, recorded)
        ensures Chained(w, actions, k, Ships(At(w, actions, k), actions[k]).value.artifact)
      {
        var staging, staged, accepted, requested := ProductionWasStaged(w, actions, k);
      }
    } else {
      RelabelledInstanceIsShippedTo();
    }
  }

  // ---------------------------------------------------------------- rolled back, yet staged

  function BothInstances(): World {
    World(map[1 := Uat], map[7 := Instance(1, Staging, true, true), 8 := Instance(1, Production, true, true)],
          map[], {}, {}, [])
  }

  ghost predicate ReadyFor(w: World, artifact: ArtifactId) {
    artifact !in w.artifacts && w.phases == BothInstances().phases && w.instances == BothInstances().instances
  }

  lemma ExecuteRow(w: World, d: Deployment)
    requires d.status == Approved
    ensures Apply(WithRow(w, d), Execute(|w.deployments|, true)) == WithRow(w, d.(status := Executing))
    ensures Ships(WithRow(w, d), Execute(|w.deployments|, true)) == Some(Shipment(|w.deployments|, d.artifact, false))
  {
    RowChanges(w, d, d.(status := Executing));
  }

  lemma SettleRow(w: World, d: Deployment)
    requires d.status == Executing
    ensures Apply(WithRow(w, d), Settle(|w.deployments|, true)) == WithRow(w, Settled(d, true))
  {
    RowChanges(w, d, Settled(d, true));
  }

  lemma RefreshRow(w: World, d: Deployment, state: BridgeState, smokeOk: bool)
    requires d.job && d.instance in w.instances && w.instances[d.instance].bridged
    ensures Apply(WithRow(w, d), Refresh(|w.deployments|, state, smokeOk, true)) == WithRow(w, Refreshed(d, state, smokeOk, true))
    ensures Ships(WithRow(w, d), Refresh(|w.deployments|, state, smokeOk, true))
         == if state == JobSucceeded && !smokeOk && d.prior.Some? then Some(Shipment(|w.deployments|, d.prior.value, true)) else None
  {
    RowChanges(w, d, Refreshed(d, state, smokeOk, true));
  }

  /** Package an artifact and deliver it to staging. */
  function Delivery(w: World, artifact: ArtifactId, digest: string): seq<Action> {
    [Package(artifact, 1, digest, true)] + Approval(w, 7, artifact)
    + [Execute(|w.deployments|, true)] + [Settle(|w.deployments|, true)]
  }

  function Delivered(w: World, artifact: ArtifactId): Deployment
    requires 7 in w.instances
  {
    Settled(Decided(Row(w, 7, artifact), 11, true).(status := Executing), true)
  }

  lemma StagingGates(w: World, artifact: ArtifactId, digest: string)
    requires ReadyFor(w, artifact)
    ensures Gates(Packed(w, artifact, digest), 1, 7, artifact, "restore")
  {
    Text.StripFixed("restore");
  }

  lemma DeliveryEnds(w: World, artifact: ArtifactId, digest: string)
    requires ReadyFor(w, artifact)
    ensures End(w, Delivery(w, artifact, digest)) == WithRow(Packed(w, artifact, digest), Delivered(w, artifact))
  {
    var n, w1, d := |w.deployments|, Packed(w, artifact, digest), Decided(Row(w, 7, artifact), 11, true);
    var a := [Package(artifact, 1, digest, true)];
    EndOne(w, a[0]);
    EndConcat(w, a, Approval(w, 7, artifact));
    StagingGates(w, artifact, digest);
    ApprovalEnds(w1, 7, artifact);
    var b := a + Approval(w, 7, artifact);
    assert End(w, b) == WithRow(w1, d);
    EndThen(w, b, Execute(n, true));
    ExecuteRow(w1, d);
    EndThen(w, b + [Execute(n, true)], Settle(n, true));
    SettleRow(w1, d.(status := Executing));
  }

  /** A first release that does well, and a second one delivered after it. */
  function FirstTrial(): seq<Action> {
    Delivery(BothInstances(), "p", "x") + [Refresh(0, JobSucceeded, true, true)]
  }

  function AfterFirst(): World {
    WithRow(Packed(BothInstances(), "p", "x"), Refreshed(Delivered(BothInstances(), "p"), JobSucceeded, true, true))
  }

  function SecondDelivery(): seq<Action> {
    FirstTrial() + Delivery(AfterFirst(), "a", "y")
  }

  function SecondRow(): Deployment {
    Deployment(1, 7, "a", Staging, 10, Some("p"), Deploying, Some(11), true, NotNeeded)
  }

  lemma FirstTrialEnds()
    ensures End(BothInstances(), FirstTrial()) == AfterFirst()
    ensures ReadyFor(AfterFirst(), "a") && Delivered(AfterFirst(), "a") == SecondRow()
  {
    var w0 := BothInstances();
    DeliveryEnds(w0, "p", "x");
    EndThen(w0, Delivery(w0, "p", "x"), Refresh(0, JobSucceeded, true, true));
    RefreshRow(Packed(w0, "p", "x"), Delivered(w0, "p"), JobSucceeded, true);
    assert "p"[0] != "a"[0];
    assert AfterFirst().deployments == [Refreshed(Delivered(w0, "p"), JobSucceeded, true, true)];
  }

  lemma SecondDeliveryEnds()
    ensures End(BothInstances(), SecondDelivery()) == WithRow(Packed(AfterFirst(), "a", "y"), SecondRow())
    ensures |AfterFirst().deployments| == 1 && AfterFirst().deployments[0].artifact == "p"
    ensures var w := Packed(AfterFirst(), "a", "y");
            && w.artifacts == map["p" := Artifact(1, true, "x"), "a" := Artifact(1, true, "y")]
            && w.passed == {"p", "a"} && w.evidence == {}
            && w.phases == BothInstances().phases && w.instances == BothInstances().instances
  {
    FirstTrialEnds();
    EndConcat(BothInstances(), FirstTrial(), Delivery(AfterFirst(), "a", "y"));
    DeliveryEnds(AfterFirst(), "a", "y");
  }

  /** The second release fails its smoke tests; the rollback is delivered. */
  const FAILED_TRIAL := Refresh(1, JobSucceeded, false, true)

  function RolledBackRow(): Deployment {
    SecondRow().(status := Succeeded, recovery := Recovered)
  }

  lemma SecondTrialFails()
    ensures var w, actions := BothInstances(), SecondDelivery() + [FAILED_TRIAL];
            && End(w, actions) == WithRow(Packed(AfterFirst(), "a", "y"), RolledBackRow())
            && At(w, actions, |SecondDelivery()|) == End(w, SecondDelivery())
            && actions[|SecondDelivery()|] == FAILED_TRIAL
            && Ships(End(w, SecondDelivery()), FAILED_TRIAL) == Some(Shipment(1, "p", true))
  {
    SecondDeliveryEnds();
    EndThen(BothInstances(), SecondDelivery(), FAILED_TRIAL);
    RefreshRow(Packed(AfterFirst(), "a", "y"), SecondRow(), JobSucceeded, false);
  }

  const REREAD := Refresh(1, JobQueued, true, true)

  lemma LinkServesTheOther()
    ensures var later := End(BothInstances(), SecondDelivery() + [FAILED_TRIAL] + [REREAD]);
            Served(later, 1, "y") == Some("y") && Served(later, 1, "x") == None
  {
    var base := Packed(AfterFirst(), "a", "y");
    SecondDeliveryEnds();
    SecondTrialFails();
    EndThen(BothInstances(), SecondDelivery() + [FAILED_TRIAL], REREAD);
    RefreshRow(base, RolledBackRow(), JobQueued, true);
    OpenRowServesItsOwn(base, RolledBackRow().(status := Deploying));
  }

  lemma RollbackPinsThePrior()
    ensures var actions, k := SecondDelivery() + [FAILED_TRIAL] + [REREAD], |SecondDelivery()|;
            var now := At(BothInstances(), actions, k);
            && Ships(now, actions[k]) == Some(Shipment(1, "p", true))
            && "p" in now.artifacts && now.artifacts["p"].digest == "x"
  {
    SecondDeliveryEnds();
    SecondTrialFails();
    AtPrefix(BothInstances(), SecondDelivery() + [FAILED_TRIAL], [REREAD], |SecondDelivery()|);
  }

  /**
   The job of that rollback pins the digest of "p"; once a refresh reads it as queued, its link
   serves "a".
   */
  lemma WrongBundleIsServed()
    ensures var actions, k := SecondDelivery() + [FAILED_TRIAL] + [REREAD], |SecondDelivery()|;
            var now, later := At(BothInstances(), actions, k), End(BothInstances(), actions);
            && Empty(BothInstances()) && Ships(now, actions[k]) == Some(Shipment(1, "p", true))
            && "p" in now.artifacts && now.artifacts["p"].digest == "x"
            && Served(later, 1, "y") == Some("y") && Served(later, 1, "x") == None
  {
    RollbackPinsThePrior();
    LinkServesTheOther();
  }

  lemma OpenRowServesItsOwn(w: World, d: Deployment)
    requires |w.deployments| == 1 && d.artifact == "a" && d.status == Deploying
    requires "a" in w.artifacts && w.artifacts["a"].digest == "y"
    ensures Served(WithRow(w, d), 1, "y") == Some("y") && Served(WithRow(w, d), 1, "x") == None
  {
    assert "x"[0] != "y"[0];
  }

  // ---------------------------------------------------------------- failed at the first attempt

  /** Nothing was deployed before, so there is nothing to fall back to. */
  function FailedFirst(): seq<Action> {
    Delivery(BothInstances(), "p", "x") + [Refresh(0, JobSucceeded, false, true)]
  }

  /** A first staging deployment whose smoke tests fail is not recovered, and counts as staged. */
  lemma FailedFirstCountsAsStaged()
    ensures var now := End(BothInstances(), FailedFirst());
            && |now.deployments| == 1 && now.deployments[0].recovery == Unrecoverable && Staged(now, "p")
            && Accepted(now, AcceptUat(12, "p"))
  {
    var w := BothInstances();
    DeliveryEnds(w, "p", "x");
    EndThen(w, Delivery(w, "p", "x"), Refresh(0, JobSucceeded, false, true));
    RefreshRow(Packed(w, "p", "x"), Delivered(w, "p"), JobSucceeded, false);
    var now := End(w, FailedFirst());
    assert now.deployments[0] in now.deployments;
  }

  // ---------------------------------------------------------------- rolled back, yet on to production

  function AfterFailure(): World {
    WithRow(Packed(AfterFirst(), "a", "y"), RolledBackRow())
  }

  /** A user accepts the artifact, and it is requested and approved for production. */
  function OnToProduction(): seq<Action> {
    SecondDelivery() + [FAILED_TRIAL] + [AcceptUat(12, "a")] + Approval(AfterFailure(), 8, "a")
  }

  function ProductionRow(): Deployment {
    Deployment(1, 8, "a", Production, 10, None, Approved, Some(11), false, NotNeeded)
  }

  lemma {:induction false} NothingThereYet(deployments: seq<Deployment>, instance: InstanceId)
    requires forall d <- deployments :: d.instance != instance
    ensures Prior(deployments, instance, Production) == None
  {
    if deployments != [] { NothingThereYet(deployments[..|deployments| - 1], instance); }
  }

  lemma AfterFailureRows()
    ensures var rows := AfterFailure().deployments;
            |rows| == 2 && rows[0].artifact == "p" && rows[0].instance == 7 && rows[1] == RolledBackRow()
  {
    SecondDeliveryEnds();
  }

  lemma StagedAfterFailure()
    ensures Staged(AfterFailure(), "a") && |AfterFailure().deployments| == 2
    ensures forall d <- AfterFailure().deployments :: d.instance == 7
  {
    var w := AfterFailure();
    SecondDeliveryEnds();
    assert w.deployments[1] == RolledBackRow() && w.deployments[1] in w.deployments;
    assert w.deployments[0].instance == 7;
  }

  /** A staged artifact of project 1 goes through acceptance, request and approval. */
  lemma GoesOn(w: World, a: seq<Action>, v: World)
    requires v == End(w, a) && Staged(v, "a") && v.evidence == {} && "a" in v.artifacts && "a" in v.passed
    requires v.artifacts["a"].project == 1 && v.artifacts["a"].validated
    requires v.phases == BothInstances().phases && v.instances == BothInstances().instances
    requires forall d <- v.deployments :: d.instance == 7
    ensures End(w, a + [AcceptUat(12, "a")] + Approval(v, 8, "a")) == WithRow(v.(evidence := {"a"}), ProductionRow())
  {
    var u := v.(evidence := {"a"});
    AcceptStep(w, a, "a");
    EndConcat(w, a + [AcceptUat(12, "a")], Approval(v, 8, "a"));
    Text.StripFixed("restore");
    assert Staged(u, "a");
    NothingThereYet(u.deployments, 8);
    ApprovalEnds(u, 8, "a");
    assert v.evidence + {"a"} == {"a"} && Approval(v, 8, "a") == Approval(u, 8, "a");
    assert Decided(Row(u, 8, "a"), 11, true) == ProductionRow();
  }

  lemma AcceptStep(w: World, a: seq<Action>, artifact: ArtifactId)
    requires artifact in End(w, a).artifacts && Staged(End(w, a), artifact)
    ensures End(w, a + [AcceptUat(12, artifact)]) == End(w, a).(evidence := End(w, a).evidence + {artifact})
  {
    EndThen(w, a, AcceptUat(12, artifact));
  }

  lemma OnToProductionEnds()
    ensures End(BothInstances(), OnToProduction()) == WithRow(AfterFailure().(evidence := {"a"}), ProductionRow())
  {
    SecondDeliveryEnds();
    SecondTrialFails();
    StagedAfterFailure();
    GoesOn(BothInstances(), SecondDelivery() + [FAILED_TRIAL], AfterFailure());
  }

  /**
   An artifact whose one and only staging deployment failed its smoke tests and was rolled back
   is accepted by a user, requested for production and shipped there, every gate passing.
   */
  lemma FailedStagingReachesProduction()
    ensures var actions, k := OnToProduction() + [Execute(2, true)], |OnToProduction()|;
            var now := At(BothInstances(), actions, k);
            && Empty(BothInstances()) && Ships(now, actions[k]) == Some(Shipment(2, "a", false))
            && |now.deployments| == 3 && now.deployments[2].environment == Production && Staged(now, "a")
            && forall d <- now.deployments :: d.artifact == "a" && d.environment == Staging ==> d.recovery == Recovered
  {
    var base := AfterFailure().(evidence := {"a"});
    OnToProductionEnds();
    AfterFailureRows();
    EndThen(BothInstances(), OnToProduction(), Execute(2, true));
    ExecuteRow(base, ProductionRow());
    OnlyStagingRowWasRolledBack(base);
  }

  lemma OnlyStagingRowWasRolledBack(base: World)
    requires |base.deployments| == 2 && base.deployments[0].artifact == "p" && base.deployments[1] == RolledBackRow()
    ensures var now := WithRow(base, ProductionRow());
            && |now.deployments| == 3 && now.deployments[2] == ProductionRow() && Staged(now, "a")
            && forall d <- now.deployments :: d.artifact == "a" && d.environment == Staging ==> d.recovery == Recovered
  {
    var now := WithRow(base, ProductionRow());
    assert now.deployments[1] in now.deployments;
    assert "p"[0] != "a"[0];
  }
}
