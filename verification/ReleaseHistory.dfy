/** What the history of a database must contain once something has been shipped. */
module ReleaseHistory {
  import opened Wrappers
  import opened Phases
  import opened ReleaseModel

  datatype Mark = WasRequested | WasApproved | WasShipped

  /** Did action j do this to deployment `id`? */
  predicate Happens(w: World, actions: seq<Action>, j: nat, id: nat, mark: Mark)
    requires j < |actions|
  {
    var now, action := At(w, actions, j), actions[j];
    Accepted(now, action) &&
    match mark
    case WasRequested => action.Request? && |now.deployments| == id
    case WasApproved => action.Decide? && action.id == id && action.approve
    case WasShipped => action.Execute? && action.id == id
  }

  /** The first of the first k actions that did. */
  function First(w: World, actions: seq<Action>, k: nat, id: nat, mark: Mark): (r: Option<nat>)
    requires k <= |actions|
    ensures r.Some? ==> r.value < k && Happens(w, actions, r.value, id, mark)
  {
    if k == 0 then None
    else
      var earlier := First(w, actions, k - 1, id, mark);
      if earlier.Some? then earlier
      else if Happens(w, actions, k - 1, id, mark) then Some(k - 1)
      else None
  }

  function Executions(w: World, actions: seq<Action>, k: nat, id: nat): nat
    requires k <= |actions|
  {
    if k == 0 then 0
    else Executions(w, actions, k - 1, id) + if Happens(w, actions, k - 1, id, WasShipped) then 1 else 0
  }

  predicate SameTerms(a: Deployment, b: Deployment) {
    && a.project == b.project && a.instance == b.instance && a.artifact == b.artifact
    && a.environment == b.environment && a.requester == b.requester && a.prior == b.prior
  }

  predicate Handed(status: Status) {
    status in {Executing, Deploying, Succeeded, Failed, RolledBack}
  }

  /** What one action may do to one row. */
  lemma RowStep(w: World, action: Action, id: nat)
    requires id < |w.deployments|
    requires w.deployments[id].job ==> Handed(w.deployments[id].status)
    ensures var next := Apply(w, action).deployments;
            && id < |next| && SameTerms(next[id], w.deployments[id])
            && (next[id].job ==> Handed(next[id].status))
            && (Handed(next[id].status) && !Handed(w.deployments[id].status) ==>
                  Accepted(w, action) && action.Execute? && action.id == id)
            && (Accepted(w, action) && action.Execute? && action.id == id ==>
                  w.deployments[id].status == Approved && Handed(next[id].status))
            && (next[id].status == Approved && w.deployments[id].status != Approved ==>
                  Accepted(w, action) && action.Decide? && action.id == id && action.approve)
            && (Handed(w.deployments[id].status) ==> Handed(next[id].status))
  {
  }

  /** Rows are only ever added, by requests, each with its terms and gates. */
  lemma RowsAreRequested(w: World, action: Action)
    ensures |w.deployments| <= |Apply(w, action).deployments|
    ensures |Apply(w, action).deployments| > |w.deployments| ==>
              && action.Request? && Gates(w, action.project, action.instance, action.artifact, action.plan)
              && Apply(w, action).deployments
                 == w.deployments + [NewDeployment(w, action.project, action.instance, action.artifact, action.user)]
  {
  }

  /** An action that leaves row `id` non-existent does nothing to it. */
  lemma NothingHappensTo(w: World, action: Action, id: nat)
    requires id >= |Apply(w, action).deployments| && Accepted(w, action)
    ensures !(action.Request? && |w.deployments| == id) && !(action.Decide? && action.id == id)
    ensures !(action.Execute? && action.id == id) && !Touches(action, id)
  {
  }

  lemma {:induction false} UnknownIsUnmarked(w: World, actions: seq<Action>, k: nat, id: nat, mark: Mark)
    requires k <= |actions| && id >= |At(w, actions, k).deployments|
    ensures First(w, actions, k, id, mark).None? && Executions(w, actions, k, id) == 0
  {
    if k > 0 {
      RowsAreRequested(At(w, actions, k - 1), actions[k - 1]);
      if Accepted(At(w, actions, k - 1), actions[k - 1]) { NothingHappensTo(At(w, actions, k - 1), actions[k - 1], id); }
      UnknownIsUnmarked(w, actions, k - 1, id, mark);
    }
  }

  /** The row's place in its own history. */
  ghost predicate Chronicled(w: World, actions: seq<Action>, k: nat, id: nat)
    requires k <= |actions|
  {
    && id < |At(w, actions, k).deployments|
    && var d := At(w, actions, k).deployments[id];
    var requested, approved, shipped :=
      First(w, actions, k, id, WasRequested), First(w, actions, k, id, WasApproved), First(w, actions, k, id, WasShipped);
    && (d.job ==> Handed(d.status))
    && requested.Some? && AsRequested(w, actions, requested.value, d)
    && (approved.Some? ==> requested.value < approved.value)
    && (d.status == Approved || Handed(d.status) ==> approved.Some?)
    && (Handed(d.status) <==> shipped.Some?)
    && (shipped.Some? ==> approved.Some? && approved.value < shipped.value)
    && Executions(w, actions, k, id) == if shipped.Some? then 1 else 0
  }

  /** The deployment carries the terms of the request that created it, which met the gates then. */
  ghost predicate AsRequested(w: World, actions: seq<Action>, j: nat, d: Deployment) {
    && j < |actions| && actions[j].Request?
    && var a, before := actions[j], At(w, actions, j);
    && Gates(before, a.project, a.instance, a.artifact, a.plan)
    && SameTerms(d, NewDeployment(before, a.project, a.instance, a.artifact, a.user))
  }

  /** A new row carries the terms of the request that is being handled, and waits for approval. */
  lemma NewRowIsRequested(w: World, actions: seq<Action>, k: nat, id: nat)
    requires k < |actions| && |At(w, actions, k).deployments| <= id < |At(w, actions, k + 1).deployments|
    ensures Happens(w, actions, k, id, WasRequested) && AsRequested(w, actions, k, At(w, actions, k + 1).deployments[id])
    ensures var d := At(w, actions, k + 1).deployments[id];
            d.status == PendingApproval && !d.job && d.recovery == NotNeeded
    ensures !Happens(w, actions, k, id, WasApproved) && !Happens(w, actions, k, id, WasShipped)
  {
    RowsAreRequested(At(w, actions, k), actions[k]);
  }

  lemma NewRowChronicled(w: World, actions: seq<Action>, k: nat, id: nat)
    requires k < |actions| && |At(w, actions, k).deployments| <= id < |At(w, actions, k + 1).deployments|
    ensures Chronicled(w, actions, k + 1, id)
  {
    UnknownIsUnmarked(w, actions, k, id, WasRequested);
    UnknownIsUnmarked(w, actions, k, id, WasApproved);
    UnknownIsUnmarked(w, actions, k, id, WasShipped);
    NewRowIsRequested(w, actions, k, id);
    assert First(w, actions, k + 1, id, WasRequested) == Some(k);
    assert First(w, actions, k + 1, id, WasApproved).None? && First(w, actions, k + 1, id, WasShipped).None?;
  }

  lemma RowStaysChronicled(w: World, actions: seq<Action>, k: nat, id: nat)
    requires k < |actions| && Chronicled(w, actions, k, id)
    ensures Chronicled(w, actions, k + 1, id)
  {
    RowStep(At(w, actions, k), actions[k], id);
  }

  lemma {:induction false} RowsAreChronicled(w: World, actions: seq<Action>, k: nat, id: nat)
    requires Empty(w) && k <= |actions| && id < |At(w, actions, k).deployments|
    ensures Chronicled(w, actions, k, id)
  {
    if id < |At(w, actions, k - 1).deployments| {
      RowsAreChronicled(w, actions, k - 1, id);
      RowStaysChronicled(w, actions, k - 1, id);
    } else {
      NewRowChronicled(w, actions, k - 1, id);
    }
  }

  // ---------------------------------------------------------------- direct executions

  /** Requested under the gates, then approved by somebody else, then handed over: in that order. */
  ghost predicate Released(w: World, actions: seq<Action>, d: Deployment, id: nat, requested: nat, approved: nat, shipped: nat) {
    && requested < approved < shipped < |actions|
    && Happens(w, actions, requested, id, WasRequested) && AsRequested(w, actions, requested, d)
    && Happens(w, actions, approved, id, WasApproved)
    && actions[approved].user != d.requester && actions[approved].isApprover
    && Happens(w, actions, shipped, id, WasShipped)
  }

  lemma {:induction false} TermsAreFixed(w: World, actions: seq<Action>, j: nat, k: nat, id: nat)
    requires Empty(w) && j <= k <= |actions| && id < |At(w, actions, j).deployments|
    ensures id < |At(w, actions, k).deployments|
    ensures SameTerms(At(w, actions, j).deployments[id], At(w, actions, k).deployments[id])
  {
    if j < k {
      TermsAreFixed(w, actions, j, k - 1, id);
      RowsAreChronicled(w, actions, k - 1, id);
      RowStep(At(w, actions, k - 1), actions[k - 1], id);
    }
  }

  /** Whatever has left the approval queue was released, and the executor took it up once. */
  lemma HandedWasReleased(w: World, actions: seq<Action>, k: nat, id: nat)
      returns (requested: nat, approved: nat, shipped: nat)
    requires Empty(w) && k <= |actions| && id < |At(w, actions, k).deployments|
    requires Handed(At(w, actions, k).deployments[id].status)
    ensures shipped < k
    ensures Released(w, actions, At(w, actions, k).deployments[id], id, requested, approved, shipped)
  {
    RowsAreChronicled(w, actions, k, id);
    requested := First(w, actions, k, id, WasRequested).value;
    approved := First(w, actions, k, id, WasApproved).value;
    shipped := First(w, actions, k, id, WasShipped).value;
    TermsAreFixed(w, actions, approved, k, id);
  }

  /** The executor hands over a deployment at most once, whatever is redelivered to it. */
  lemma ExecutedAtMostOnce(w: World, actions: seq<Action>, id: nat)
    requires Empty(w)
    ensures Executions(w, actions, |actions|, id) <= 1
  {
    if id < |At(w, actions, |actions|).deployments| {
      RowsAreChronicled(w, actions, |actions|, id);
    } else {
      UnknownIsUnmarked(w, actions, |actions|, id, WasShipped);
    }
  }

  lemma RejectionStays(w: World, action: Action, id: nat)
    requires id < |w.deployments| && w.deployments[id].status == Rejected && !w.deployments[id].job
    ensures id < |Apply(w, action).deployments| && Apply(w, action).deployments[id] == w.deployments[id]
    ensures !(Accepted(w, action) && action.Execute? && action.id == id)
  {
  }

  /** What was rejected stays rejected and is never handed over, whatever is tried afterwards. */
  lemma {:induction false} RejectedIsNeverShipped(w: World, actions: seq<Action>, j: nat, k: nat, id: nat)
    requires Empty(w) && j < k <= |actions|
    requires actions[j].Decide? && actions[j].id == id && !actions[j].approve && Accepted(At(w, actions, j), actions[j])
    ensures id < |At(w, actions, k).deployments|
    ensures At(w, actions, k).deployments[id].status == Rejected && !At(w, actions, k).deployments[id].job
    ensures Executions(w, actions, k, id) == 0
  {
    if j + 1 < k {
      RejectedIsNeverShipped(w, actions, j, k - 1, id);
      RejectionStays(At(w, actions, k - 1), actions[k - 1], id);
    } else {
      RowsAreChronicled(w, actions, j, id);
    }
  }

  // ---------------------------------------------------------------- everything shipped

  /** A fallback artifact is that of the newest deployment to the same place on record as succeeded. */
  lemma PriorSource(deployments: seq<Deployment>, instance: InstanceId, environment: Environment) returns (source: nat)
    requires Prior(deployments, instance, environment).Some?
    ensures Newest(deployments, instance, environment, source)
    ensures deployments[source].artifact == Prior(deployments, instance, environment).value
  {
    source :| Newest(deployments, instance, environment, source)
              && deployments[source].artifact == Prior(deployments, instance, environment).value;
  }

  lemma PriorIsNewest(deployments: seq<Deployment>, instance: InstanceId, environment: Environment)
    ensures Prior(deployments, instance, environment).None?
            <==> forall i :: 0 <= i < |deployments| ==> !StandsAt(deployments[i], instance, environment)
    ensures forall i :: Newest(deployments, instance, environment, i) ==>
              Prior(deployments, instance, environment) == Some(deployments[i].artifact)
  {
    if Prior(deployments, instance, environment).Some? {
      var source := PriorSource(deployments, instance, environment);
      assert forall i :: Newest(deployments, instance, environment, i) ==> i == source;
    }
  }

  /**
   A deployment has a fallback if and only if, when it was requested, some deployment to the same
   place stood as succeeded; and then its fallback is the artifact of the newest such deployment.
   */
  lemma FallbackIsNewest(w: World, actions: seq<Action>, k: nat, id: nat) returns (requested: nat)
    requires Empty(w) && k <= |actions| && id < |At(w, actions, k).deployments|
    ensures requested < k && Happens(w, actions, requested, id, WasRequested)
    ensures var d, before := At(w, actions, k).deployments[id], At(w, actions, requested).deployments;
            && (d.prior.None? <==> forall i :: 0 <= i < |before| ==> !StandsAt(before[i], d.instance, d.environment))
            && (forall i :: Newest(before, d.instance, d.environment, i) ==> d.prior == Some(before[i].artifact))
  {
    RowsAreChronicled(w, actions, k, id);
    requested := First(w, actions, k, id, WasRequested).value;
    var d := At(w, actions, k).deployments[id];
    var before := At(w, actions, requested).deployments;
    assert d.prior == Prior(before, d.instance, d.environment);
    PriorIsNewest(before, d.instance, d.environment);
  }

  /** An automatic rollback ships the artifact of the newest deployment that stood there when the failed one was requested. */
  lemma RollbackShipsNewest(w: World, actions: seq<Action>, k: nat) returns (requested: nat, source: nat)
    requires Empty(w) && k < |actions| && Ships(At(w, actions, k), actions[k]).Some?
    requires Ships(At(w, actions, k), actions[k]).value.rollback
    ensures var shipment := Ships(At(w, actions, k), actions[k]).value;
            && requested < k && Happens(w, actions, requested, shipment.id, WasRequested)
            && var d, before := At(w, actions, k).deployments[shipment.id], At(w, actions, requested).deployments;
            Newest(before, d.instance, d.environment, source) && shipment.artifact == before[source].artifact
  {
    var shipment := Ships(At(w, actions, k), actions[k]).value;
    var d := At(w, actions, k).deployments[shipment.id];
    requested := FallbackIsNewest(w, actions, k, shipment.id);
    var before := At(w, actions, requested).deployments;
    var i :| 0 <= i < |before| && StandsAt(before[i], d.instance, d.environment);
    source := NewestOf(before, d.instance, d.environment, i);
  }

  lemma {:induction false} NewestOf(deployments: seq<Deployment>, instance: InstanceId, environment: Environment, i: nat)
      returns (source: nat)
    requires i < |deployments| && StandsAt(deployments[i], instance, environment)
    ensures Newest(deployments, instance, environment, source)
    decreases |deployments| - i
  {
    if forall j :: i < j < |deployments| ==> !StandsAt(deployments[j], instance, environment) {
      source := i;
    } else {
      var j :| i < j < |deployments| && StandsAt(deployments[j], instance, environment);
      source := NewestOf(deployments, instance, environment, j);
    }
  }

  /** The rollback artifact was itself released, to the same place, before the deployment it replaces was requested. */
  lemma FallbackWasReleased(w: World, actions: seq<Action>, k: nat, id: nat)
      returns (source: nat, requested: nat, approved: nat, shipped: nat)
    requires Empty(w) && k <= |actions| && id < |At(w, actions, k).deployments|
    requires At(w, actions, k).deployments[id].prior.Some?
    ensures source < id
    ensures var d, e := At(w, actions, k).deployments[id], At(w, actions, k).deployments[source];
            && e.artifact == d.prior.value && e.instance == d.instance && e.environment == d.environment
            && shipped < k && Released(w, actions, e, source, requested, approved, shipped)
  {
    RowsAreChronicled(w, actions, k, id);
    var created := First(w, actions, k, id, WasRequested).value;
    var d := At(w, actions, k).deployments[id];
    source := PriorSource(At(w, actions, created).deployments, d.instance, d.environment);
    requested, approved, shipped := HandedWasReleased(w, actions, created, source);
    TermsAreFixed(w, actions, created, k, source);
  }

  lemma ExecutedWasReleased(w: World, actions: seq<Action>, k: nat, id: nat) returns (requested: nat, approved: nat, shipped: nat)
    requires Empty(w) && k < |actions| && Happens(w, actions, k, id, WasShipped)
    ensures id < |At(w, actions, k + 1).deployments| && shipped == k
    ensures Released(w, actions, At(w, actions, k + 1).deployments[id], id, requested, approved, shipped)
  {
    RowsAreChronicled(w, actions, k, id);
    RowStep(At(w, actions, k), actions[k], id);
    requested, approved, shipped := HandedWasReleased(w, actions, k + 1, id);
    ExecutionIs(w, actions, k, id, shipped);
  }

  /**
   Everything shipped was gated: any artifact named in an execution or in an automatic rollback
   belongs to a deployment to that same place which met the gates when requested, was approved
   by somebody other than its requester, and was executed.
   */
  lemma ShippedWasReleased(w: World, actions: seq<Action>, k: nat)
      returns (source: nat, requested: nat, approved: nat, shipped: nat)
    requires Empty(w) && k < |actions| && Ships(At(w, actions, k), actions[k]).Some?
    ensures var shipment := Ships(At(w, actions, k), actions[k]).value;
            && source < |At(w, actions, k + 1).deployments| && shipment.id < |At(w, actions, k + 1).deployments|
            && var d, e := At(w, actions, k + 1).deployments[shipment.id], At(w, actions, k + 1).deployments[source];
            && e.artifact == shipment.artifact && e.instance == d.instance && e.environment == d.environment
            && Released(w, actions, e, source, requested, approved, shipped)
            && (if shipment.rollback then source < shipment.id && shipped < k else source == shipment.id && shipped == k)
  {
    var shipment := Ships(At(w, actions, k), actions[k]).value;
    TermsAreFixed(w, actions, k, k + 1, shipment.id);
    if shipment.rollback {
      source, requested, approved, shipped := FallbackWasReleased(w, actions, k, shipment.id);
      TermsAreFixed(w, actions, k, k + 1, source);
    } else {
      source := shipment.id;
      requested, approved, shipped := ExecutedWasReleased(w, actions, k, source);
    }
  }

  lemma {:induction false} NoneMeansNever(w: World, actions: seq<Action>, k: nat, id: nat, mark: Mark, j: nat)
    requires j < k <= |actions| && First(w, actions, k, id, mark).None?
    ensures !Happens(w, actions, j, id, mark)
  {
    if j < k - 1 {
      NoneMeansNever(w, actions, k - 1, id, mark, j);
    }
  }

  lemma ExecutionIs(w: World, actions: seq<Action>, k: nat, id: nat, shipped: nat)
    requires shipped <= k < |actions| && First(w, actions, k, id, WasShipped).None?
    requires Happens(w, actions, shipped, id, WasShipped)
    ensures shipped == k
  {
    if shipped < k {
      NoneMeansNever(w, actions, k, id, WasShipped, shipped);
    }
  }

  // ---------------------------------------------------------------- production

  /** The first acceptance of an artifact on record. */
  function FirstAcceptance(w: World, actions: seq<Action>, k: nat, artifact: ArtifactId): (r: Option<nat>)
    requires k <= |actions|
    ensures r.Some? ==> r.value < k && actions[r.value].AcceptUat? && actions[r.value].artifact == artifact
                        && Staged(At(w, actions, r.value), artifact)
  {
    if k == 0 then None
    else
      var earlier := FirstAcceptance(w, actions, k - 1, artifact);
      if earlier.Some? then earlier
      else if actions[k - 1].AcceptUat? && actions[k - 1].artifact == artifact && Accepted(At(w, actions, k - 1), actions[k - 1])
      then Some(k - 1)
      else None
  }

  lemma {:induction false} EvidenceWasAccepted(w: World, actions: seq<Action>, k: nat, artifact: ArtifactId)
    requires Empty(w) && k <= |actions|
    ensures artifact in At(w, actions, k).evidence <==> FirstAcceptance(w, actions, k, artifact).Some?
  {
    if k > 0 {
      EvidenceWasAccepted(w, actions, k - 1, artifact);
    }
  }

  lemma StagedWasReleased(w: World, actions: seq<Action>, k: nat, artifact: ArtifactId)
      returns (source: nat, requested: nat, approved: nat, shipped: nat)
    requires Empty(w) && k <= |actions| && Staged(At(w, actions, k), artifact)
    ensures source < |At(w, actions, k).deployments| && shipped < k
    ensures var e := At(w, actions, k).deployments[source];
            && e.artifact == artifact && e.environment == Staging && e.status == Succeeded
            && Released(w, actions, e, source, requested, approved, shipped)
  {
    var d :| d in At(w, actions, k).deployments && d.artifact == artifact && d.environment == Staging && d.status == Succeeded;
    source :| 0 <= source < |At(w, actions, k).deployments| && At(w, actions, k).deployments[source] == d;
    requested, approved, shipped := HandedWasReleased(w, actions, k, source);
  }

  /**
   The artifact was shipped to staging and reported as succeeded, then accepted by a user, and
   only then requested, with a passed validation; all before action k.
   */
  ghost predicate StagingChain(w: World, actions: seq<Action>, k: nat, artifact: ArtifactId,
                               staging: nat, staged: nat, accepted: nat, requested: nat) {
    && staged < accepted < requested < k <= |actions|
    && staging < |At(w, actions, accepted).deployments|
    && var e := At(w, actions, accepted).deployments[staging];
    && e.artifact == artifact && e.environment == Staging && e.status == Succeeded
    && Happens(w, actions, staged, staging, WasShipped)
    && actions[accepted].AcceptUat? && actions[accepted].artifact == artifact
    && actions[requested].Request? && actions[requested].artifact == artifact
    && artifact in At(w, actions, requested).passed
  }

  /** Every shipment of a deployment recorded as production, rollbacks included, has its staging chain. */
  lemma ProductionWasStaged(w: World, actions: seq<Action>, k: nat)
      returns (staging: nat, staged: nat, accepted: nat, requested: nat)
    requires Empty(w) && k < |actions| && Ships(At(w, actions, k), actions[k]).Some?
    requires At(w, actions, k).deployments[Ships(At(w, actions, k), actions[k]).value.id].environment == Production
    ensures StagingChain(w, actions, k, Ships(At(w, actions, k), actions[k]).value.artifact, staging, staged, accepted, requested)
  {
    var source, r, p, s := ShippedWasReleased(w, actions, k);
    var artifact := Ships(At(w, actions, k), actions[k]).value.artifact;
    requested := r;
    TermsAreFixed(w, actions, k, k + 1, Ships(At(w, actions, k), actions[k]).value.id);
    assert Gates(At(w, actions, r), actions[r].project, actions[r].instance, artifact, actions[r].plan);
    EvidenceWasAccepted(w, actions, r, artifact);
    accepted := FirstAcceptance(w, actions, r, artifact).value;
    var sr, sp;
    staging, sr, sp, staged := StagedWasReleased(w, actions, accepted, artifact);
  }

  ghost predicate Chained(w: World, actions: seq<Action>, k: nat, artifact: ArtifactId) {
    exists staging, staged, accepted, requested ::
      StagingChain(w, actions, k, artifact, staging, staged, accepted, requested)
  }

  /** Action k ships to an instance that is in production now, with the environment its request recorded. */
  ghost predicate ShipsToProduction(w: World, actions: seq<Action>, k: nat, recorded: Environment) {
    && Empty(w) && k < |actions| && Ships(At(w, actions, k), actions[k]).Some?
    && var now := At(w, actions, k);
    var d := now.deployments[Ships(now, actions[k]).value.id];
    && d.environment == recorded
    && d.instance in now.instances && now.instances[d.instance].environment == Production
  }

  // ---------------------------------------------------------------- what can be fetched

  lemma {:induction false} ArtifactsAreFixed(w: World, actions: seq<Action>, j: nat, k: nat, artifact: ArtifactId)
    requires j <= k <= |actions| && artifact in At(w, actions, j).artifacts
    ensures artifact in At(w, actions, k).artifacts
    ensures At(w, actions, k).artifacts[artifact] == At(w, actions, j).artifacts[artifact]
  {
    if j < k {
      ArtifactsAreFixed(w, actions, j, k - 1, artifact);
    }
  }

  lemma ShippedIsKnown(w: World, actions: seq<Action>, k: nat)
    requires Empty(w) && k < |actions| && Ships(At(w, actions, k), actions[k]).Some?
    ensures var shipment := Ships(At(w, actions, k), actions[k]).value;
            && shipment.artifact in At(w, actions, k).artifacts
            && At(w, actions, k).deployments[shipment.id].artifact in At(w, actions, k).artifacts
  {
    var source, requested, approved, shipped := ShippedWasReleased(w, actions, k);
    var shipment := Ships(At(w, actions, k), actions[k]).value;
    ArtifactsAreFixed(w, actions, requested, k, shipment.artifact);
    RowsAreChronicled(w, actions, k, shipment.id);
    var own := First(w, actions, k, shipment.id, WasRequested).value;
    ArtifactsAreFixed(w, actions, own, k, At(w, actions, k).deployments[shipment.id].artifact);
  }

  /** The last accepted action that named the deployment. */
  function LastTouch(w: World, actions: seq<Action>, k: nat, id: nat): (r: Option<nat>)
    requires k <= |actions|
    ensures r.Some? ==> r.value < k && Touches(actions[r.value], id) && Accepted(At(w, actions, r.value), actions[r.value])
  {
    if k == 0 then None
    else if Touches(actions[k - 1], id) && Accepted(At(w, actions, k - 1), actions[k - 1]) then Some(k - 1)
    else LastTouch(w, actions, k - 1, id)
  }

  predicate Touches(action: Action, id: nat) {
    match action
    case Decide(n, _, _, _) => n == id
    case Execute(n, _) => n == id
    case Settle(n, _) => n == id
    case Refresh(n, _, _, _) => n == id
    case _ => false
  }

  /** Does this action leave the deployment in a state its download link answers in? */
  predicate Opens(action: Action) {
    match action
    case Decide(_, _, _, approve) => approve
    case Execute(_, _) => true
    case Settle(_, delivered) => delivered
    case Refresh(_, state, _, _) => state == JobQueued || state == JobRunning
    case _ => false
  }

  lemma TouchSetsStatus(w: World, action: Action, id: nat)
    requires Accepted(w, action) && id < |w.deployments|
    ensures id < |Effect(w, action).deployments|
    ensures Touches(action, id) ==> (Effect(w, action).deployments[id].status in {Approved, Executing, Deploying} <==> Opens(action))
    ensures !Touches(action, id) ==> Effect(w, action).deployments[id] == w.deployments[id]
  {
  }

  lemma {:induction false} UnknownIsUntouched(w: World, actions: seq<Action>, k: nat, id: nat)
    requires k <= |actions| && id >= |At(w, actions, k).deployments|
    ensures LastTouch(w, actions, k, id).None?
  {
    if k > 0 {
      RowsAreRequested(At(w, actions, k - 1), actions[k - 1]);
      if Accepted(At(w, actions, k - 1), actions[k - 1]) { NothingHappensTo(At(w, actions, k - 1), actions[k - 1], id); }
      UnknownIsUntouched(w, actions, k - 1, id);
    }
  }

  lemma {:induction false} StatusFollowsTouch(w: World, actions: seq<Action>, k: nat, id: nat)
    requires Empty(w) && k <= |actions| && id < |At(w, actions, k).deployments|
    ensures At(w, actions, k).deployments[id].status in {Approved, Executing, Deploying}
            <==> LastTouch(w, actions, k, id).Some? && Opens(actions[LastTouch(w, actions, k, id).value])
  {
    var before := At(w, actions, k - 1);
    if id < |before.deployments| {
      StatusFollowsTouch(w, actions, k - 1, id);
      if Accepted(before, actions[k - 1]) { TouchSetsStatus(before, actions[k - 1], id); }
    } else {
      UnknownIsUntouched(w, actions, k - 1, id);
    }
  }

  lemma OwnArtifactIsKnown(w: World, actions: seq<Action>, k: nat, id: nat)
    requires Empty(w) && k <= |actions| && id < |At(w, actions, k).deployments|
    ensures At(w, actions, k).deployments[id].artifact in At(w, actions, k).artifacts
  {
    RowsAreChronicled(w, actions, k, id);
    var own := First(w, actions, k, id, WasRequested).value;
    ArtifactsAreFixed(w, actions, own, k, At(w, actions, k).deployments[id].artifact);
  }

  /**
   The download link of a deployment answers exactly when the last thing that happened to it was
   an approval, the start of its execution, a delivery, or a refresh that read a waiting job; and
   then with its own artifact as it was packaged, or not at all.
   */
  lemma ServedExactly(w: World, actions: seq<Action>, k: nat, id: nat, bundle: string)
    requires Empty(w) && k <= |actions| && id < |At(w, actions, k).deployments|
    ensures At(w, actions, k).deployments[id].artifact in At(w, actions, k).artifacts
    ensures Served(At(w, actions, k), id, bundle).Some?
            <==> LastTouch(w, actions, k, id).Some? && Opens(actions[LastTouch(w, actions, k, id).value])
                 && bundle == At(w, actions, k).artifacts[At(w, actions, k).deployments[id].artifact].digest
  {
    StatusFollowsTouch(w, actions, k, id);
    OwnArtifactIsKnown(w, actions, k, id);
  }

  lemma {:induction false} TouchedSince(w: World, actions: seq<Action>, k: nat, m: nat, id: nat)
    requires k < m <= |actions| && Touches(actions[k], id) && Accepted(At(w, actions, k), actions[k])
    ensures LastTouch(w, actions, m, id).Some? && k <= LastTouch(w, actions, m, id).value
  {
    if k + 1 < m { TouchedSince(w, actions, k, m - 1, id); }
  }

  /**
   The job of an automatic rollback pins the digest of the fallback artifact.  Its link serves a
   bundle with that digest if and only if a later refresh, the last thing to happen, read the job
   as waiting, and the artifact being rolled back has the very same digest.
   */
  lemma RollbackIsServedIff(w: World, actions: seq<Action>, k: nat, m: nat)
    requires Empty(w) && k < m <= |actions| && Ships(At(w, actions, k), actions[k]).Some?
    requires Ships(At(w, actions, k), actions[k]).value.rollback
    ensures var now, shipment := At(w, actions, k), Ships(At(w, actions, k), actions[k]).value;
            var own := now.deployments[shipment.id].artifact;
            && shipment.artifact in now.artifacts && own in now.artifacts
            && (Served(At(w, actions, m), shipment.id, now.artifacts[shipment.artifact].digest).Some?
                <==> && LastTouch(w, actions, m, shipment.id).Some? && k < LastTouch(w, actions, m, shipment.id).value
                     && Opens(actions[LastTouch(w, actions, m, shipment.id).value])
                     && now.artifacts[own].digest == now.artifacts[shipment.artifact].digest)
  {
    var shipment := Ships(At(w, actions, k), actions[k]).value;
    ShippedIsKnown(w, actions, k);
    TermsAreFixed(w, actions, k, m, shipment.id);
    ArtifactsAreFixed(w, actions, k, m, At(w, actions, k).deployments[shipment.id].artifact);
    ServedExactly(w, actions, m, shipment.id, At(w, actions, k).artifacts[shipment.artifact].digest);
    TouchedSince(w, actions, k, m, shipment.id);
  }

  /** An execution is never served anything but what its job pinned. */
  lemma ExecutionIsServedItsArtifact(w: World, actions: seq<Action>, k: nat, m: nat, bundle: string)
    requires Empty(w) && k < m <= |actions| && Ships(At(w, actions, k), actions[k]).Some?
    requires !Ships(At(w, actions, k), actions[k]).value.rollback
    ensures var now, shipment := At(w, actions, k), Ships(At(w, actions, k), actions[k]).value;
            && shipment.artifact in now.artifacts
            && (Served(At(w, actions, m), shipment.id, bundle).Some?
                <==> && LastTouch(w, actions, m, shipment.id).Some? && Opens(actions[LastTouch(w, actions, m, shipment.id).value])
                     && bundle == now.artifacts[shipment.artifact].digest)
  {
    var shipment := Ships(At(w, actions, k), actions[k]).value;
    ShippedIsKnown(w, actions, k);
    TermsAreFixed(w, actions, k, m, shipment.id);
    ArtifactsAreFixed(w, actions, k, m, shipment.artifact);
    ServedExactly(w, actions, m, shipment.id, bundle);
  }
}
