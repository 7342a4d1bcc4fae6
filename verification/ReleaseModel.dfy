/**
 Release gates: packaging, acceptance, requests, decisions, executions and rollbacks as
 transactions over one database.  A deployment's identifier is its position, so creation order
 is the order of identifiers.
 */
module ReleaseModel {
  import opened Wrappers
  import Text
  import opened Phases

  type ProjectId = int
  type InstanceId = int
  type UserId = int
  type ArtifactId = string

  datatype Environment = Staging | Production | OtherEnvironment

  datatype Instance = Instance(project: ProjectId, environment: Environment, deployable: bool, bridged: bool)

  datatype Artifact = Artifact(project: ProjectId, validated: bool, digest: string)

  datatype Status = PendingApproval | Approved | Rejected | Executing | Deploying | Succeeded | Failed | RolledBack

  datatype Recovery = NotNeeded | Recovering | Recovered | Unrecoverable

  datatype Deployment = Deployment(
    project: ProjectId, instance: InstanceId, artifact: ArtifactId, environment: Environment,
    requester: UserId, prior: Option<ArtifactId>,
    status: Status, approver: Option<UserId>, job: bool, recovery: Recovery)

  datatype World = World(
    phases: map<ProjectId, Phase>, instances: map<InstanceId, Instance>, artifacts: map<ArtifactId, Artifact>,
    passed: set<ArtifactId>, evidence: set<ArtifactId>, deployments: seq<Deployment>)

  // ---------------------------------------------------------------- requests

  predicate Staged(w: World, artifact: ArtifactId) {
    exists d <- w.deployments :: d.artifact == artifact && d.environment == Staging && d.status == Succeeded
  }

  predicate Gates(w: World, project: ProjectId, instance: InstanceId, artifact: ArtifactId, plan: string) {
    && project in w.phases && instance in w.instances && artifact in w.artifacts
    && var target := w.instances[instance];
    && target.project == project && w.artifacts[artifact].project == project
    && (target.environment == Staging || target.environment == Production)
    && target.deployable
    && artifact in w.passed && w.artifacts[artifact].validated
    && (target.environment == Production ==>
          && Staged(w, artifact) && artifact in w.evidence
          && (w.phases[project] == Uat || w.phases[project] == ReadyForProduction)
          && Text.Strip(plan) != "")
  }

  predicate StandsAt(d: Deployment, instance: InstanceId, environment: Environment) {
    d.instance == instance && d.environment == environment && d.status == Succeeded
  }

  /** Row i is the last one on record as succeeded at that place. */
  ghost predicate Newest(deployments: seq<Deployment>, instance: InstanceId, environment: Environment, i: int) {
    && 0 <= i < |deployments| && StandsAt(deployments[i], instance, environment)
    && forall j :: i < j < |deployments| ==> !StandsAt(deployments[j], instance, environment)
  }

  /** The newest succeeded deployment to the same place names the artifact to fall back to; without one there is none. */
  function Prior(deployments: seq<Deployment>, instance: InstanceId, environment: Environment): (prior: Option<ArtifactId>)
    ensures prior.Some? ==> exists i :: Newest(deployments, instance, environment, i) && deployments[i].artifact == prior.value
    ensures prior.None? ==> forall i :: 0 <= i < |deployments| ==> !StandsAt(deployments[i], instance, environment)
  {
    if deployments == [] then None
    else
      var n := |deployments| - 1;
      if StandsAt(deployments[n], instance, environment) then
        assert Newest(deployments, instance, environment, n);
        Some(deployments[n].artifact)
      else
        var prior := Prior(deployments[..n], instance, environment);
        assert prior.Some? ==> exists i :: Newest(deployments, instance, environment, i) && deployments[i].artifact == prior.value by {
          if prior.Some? {
            var i :| Newest(deployments[..n], instance, environment, i) && deployments[..n][i].artifact == prior.value;
            assert Newest(deployments, instance, environment, i);
          }
        }
        prior
  }

  function NewDeployment(w: World, project: ProjectId, instance: InstanceId, artifact: ArtifactId, user: UserId): Deployment
    requires instance in w.instances
  {
    var environment := w.instances[instance].environment;
    Deployment(project, instance, artifact, environment, user, Prior(w.deployments, instance, environment),
               PendingApproval, None, false, NotNeeded)
  }

  // ---------------------------------------------------------------- one deployment

  function Decided(d: Deployment, user: UserId, approve: bool): Deployment {
    d.(approver := Some(user), status := if approve then Approved else Rejected)
  }

  predicate MayDecide(d: Deployment, user: UserId, isApprover: bool) {
    user != d.requester && isApprover
  }

  function Settled(d: Deployment, delivered: bool): Deployment {
    if delivered then d.(job := true, status := Deploying) else d.(status := Failed)
  }

  function Rescued(d: Deployment, delivered: bool): Deployment {
    if d.prior.None? || !delivered then d.(recovery := Unrecoverable)
    else d.(recovery := Recovered, status := RolledBack, job := true)
  }

  datatype BridgeState = JobQueued | JobRunning | JobSucceeded | JobFailed | JobRolledBack

  function Mirrored(state: BridgeState): Status {
    match state
    case JobQueued => Deploying
    case JobRunning => Deploying
    case JobSucceeded => Succeeded
    case JobFailed => Failed
    case JobRolledBack => RolledBack
  }

  /**
   A refresh copies the job's state.  Failing smoke tests trigger a rollback in a session of its
   own; the refreshing session then writes the status it read from the bridge over the
   rollback's, unless the row already held that status when it was loaded.
   */
  function Refreshed(d: Deployment, state: BridgeState, smokeOk: bool, delivered: bool): Deployment {
    var mirrored := d.(status := Mirrored(state));
    if state != JobSucceeded || smokeOk then mirrored
    else if d.status == Succeeded then Rescued(mirrored, delivered)
    else Rescued(mirrored, delivered).(status := Succeeded)
  }

  /** One row whose columns the routes and the worker update in place. */
  class DeploymentRow {
    const terms: Deployment
    var status: Status
    var approver: Option<UserId>
    var job: bool
    var recovery: Recovery

    constructor (created: Deployment)
      ensures View() == created && terms == created
    {
      terms := created;
      status, approver, job, recovery := created.status, created.approver, created.job, created.recovery;
    }

    function View(): Deployment
      reads this
    {
      terms.(status := status, approver := approver, job := job, recovery := recovery)
    }

    method DecideDeployment(user: UserId, isApprover: bool, approve: bool) returns (accepted: bool)
      modifies this
      ensures accepted == (MayDecide(old(View()), user, isApprover) && old(status) == PendingApproval)
      ensures View() == if accepted then Decided(old(View()), user, approve) else old(View())
    {
      if user == terms.requester || !isApprover || status != PendingApproval {
        return false;
      }
      approver := Some(user);
      status := if approve then Approved else Rejected;
      accepted := true;
    }

    /** A delivery that raised is a failure whether or not the job got through. */
    method ExecuteDeployment(configReadable: bool, delivered: bool) returns (attempted: bool)
      modifies this
      ensures attempted == (old(status) == Approved && configReadable)
      ensures View() == if attempted then Settled(old(View()).(status := Executing), delivered) else old(View())
    {
      if status != Approved || !configReadable {
        return false;
      }
      status := Executing;
      attempted := true;
      if delivered {
        job := true;
        status := Deploying;
      } else {
        status := Failed;
      }
    }

    method ExecuteRollback(delivered: bool) returns (recovered: bool)
      modifies this
      ensures View() == Rescued(old(View()), delivered)
      ensures recovered == (terms.prior.Some? && delivered)
    {
      if terms.prior.None? {
        recovery := Unrecoverable;
        return false;
      }
      recovery := Recovering;
      if !delivered {
        recovery := Unrecoverable;
        return false;
      }
      job := true;
      recovery := Recovered;
      status := RolledBack;
      recovered := true;
    }

    method RefreshBridgeDeployment(state: BridgeState, smokeOk: bool, delivered: bool)
      modifies this
      ensures View() == Refreshed(old(View()), state, smokeOk, delivered)
    {
      var loaded := status;
      status := Mirrored(state);
      if status == Succeeded && !smokeOk {
        var recovered := ExecuteRollback(delivered);
        if loaded != Succeeded {
          status := Succeeded;
        }
      }
    }
  }

  /** A failed smoke test that was rolled back is still on record as a success, except on a repeat. */
  lemma RefreshVerdict(d: Deployment, state: BridgeState, smokeOk: bool, delivered: bool)
    ensures Refreshed(d, state, smokeOk, delivered).status == Succeeded <==>
              state == JobSucceeded && (smokeOk || d.prior.None? || !delivered || d.status != Succeeded)
    ensures Refreshed(d, state, smokeOk, delivered).recovery == Recovered <==>
              if state == JobSucceeded && !smokeOk then d.prior.Some? && delivered else d.recovery == Recovered
    ensures Refreshed(d, state, smokeOk, delivered).recovery == Unrecoverable <==>
            if state == JobSucceeded && !smokeOk then d.prior.None? || !delivered else d.recovery == Unrecoverable
    ensures Refreshed(d, state, smokeOk, delivered).status == Failed <==> state == JobFailed
    ensures Refreshed(d, state, smokeOk, delivered).status == RolledBack <==>
            || state == JobRolledBack
            || (state == JobSucceeded && !smokeOk && d.prior.Some? && delivered && d.status == Succeeded)
    ensures Refreshed(d, state, smokeOk, delivered).status == Deploying <==> state == JobQueued || state == JobRunning
  {
  }

  /** A decision and the outcome of an execution, on a row that waits for them; nothing else of the row changes. */
  lemma DecisionAndOutcome(w: World, id: nat, user: UserId, isApprover: bool, approve: bool, delivered: bool)
    requires id < |w.deployments|
    ensures var d, e := w.deployments[id], Apply(w, Decide(id, user, isApprover, approve)).deployments[id];
            if d.status == PendingApproval && user != d.requester && isApprover
            then e == d.(status := if approve then Approved else Rejected, approver := Some(user)) else e == d
    ensures var d, e := w.deployments[id], Apply(w, Execute(id, true)).deployments[id];
            e == if d.status == Approved then d.(status := Executing) else d
    ensures var d, e := w.deployments[id], Apply(w, Settle(id, delivered)).deployments[id];
            if d.status != Executing then e == d
            else if delivered then e == d.(status := Deploying, job := true) else e == d.(status := Failed)
  {
  }

  /** What a request must show: the places and the artifact, a passed validation, and for production the staging record. */
  ghost predicate Requestable(w: World, project: ProjectId, instance: InstanceId, artifact: ArtifactId, plan: string) {
    && project in w.phases && instance in w.instances && artifact in w.artifacts
    && w.instances[instance].project == project && w.artifacts[artifact].project == project
    && w.instances[instance].deployable && w.instances[instance].environment != OtherEnvironment
    && artifact in w.passed && w.artifacts[artifact].validated
    && (w.instances[instance].environment == Production ==>
          && (exists i :: 0 <= i < |w.deployments| && w.deployments[i].artifact == artifact
                          && w.deployments[i].environment == Staging && w.deployments[i].status == Succeeded)
          && artifact in w.evidence
          && w.phases[project] in {Uat, ReadyForProduction}
          && Text.Strip(plan) != "")
  }

  /** A request makes one new row that waits for approval, exactly when it shows all of that. */
  lemma RequestIff(w: World, project: ProjectId, instance: InstanceId, artifact: ArtifactId, user: UserId, plan: string)
    ensures var next := Apply(w, Request(project, instance, artifact, user, plan)).deployments;
            if Requestable(w, project, instance, artifact, plan)
            then |next| == |w.deployments| + 1 && next[..|w.deployments|] == w.deployments
                 && next[|w.deployments|].artifact == artifact && next[|w.deployments|].instance == instance
                 && next[|w.deployments|].environment == w.instances[instance].environment
                 && next[|w.deployments|].requester == user && next[|w.deployments|].status == PendingApproval
            else next == w.deployments
  {
    StagedAt(w, artifact);
  }

  lemma StagedAt(w: World, artifact: ArtifactId)
    ensures Staged(w, artifact) <==>
            exists i :: 0 <= i < |w.deployments| && w.deployments[i].artifact == artifact
                        && w.deployments[i].environment == Staging && w.deployments[i].status == Succeeded
  {
    if Staged(w, artifact) {
      var d :| d in w.deployments && d.artifact == artifact && d.environment == Staging && d.status == Succeeded;
      var i :| 0 <= i < |w.deployments| && w.deployments[i] == d;
    }
  }

  // ---------------------------------------------------------------- transactions

  datatype Action =
    | SetPhase(project: ProjectId, phase: Phase)
    | EditInstance(instance: InstanceId, settings: Instance)
    | Package(artifact: ArtifactId, project: ProjectId, digest: string, ok: bool)
    | AcceptUat(user: UserId, artifact: ArtifactId)
    | Request(project: ProjectId, instance: InstanceId, artifact: ArtifactId, user: UserId, plan: string)
    | Decide(id: nat, user: UserId, isApprover: bool, approve: bool)
    | Execute(id: nat, configReadable: bool)
    | Settle(id: nat, delivered: bool)
    | Refresh(id: nat, state: BridgeState, smokeOk: bool, delivered: bool)

  /** The guards of the routes and of the worker; a refused action changes nothing. */
  predicate Accepted(w: World, action: Action) {
    match action
    case SetPhase(_, _) => true
    case EditInstance(_, _) => true
    case Package(artifact, _, _, _) => artifact !in w.artifacts
    case AcceptUat(_, artifact) => artifact in w.artifacts && Staged(w, artifact)
    case Request(project, instance, artifact, _, plan) => Gates(w, project, instance, artifact, plan)
    case Decide(id, user, isApprover, _) =>
      id < |w.deployments| && MayDecide(w.deployments[id], user, isApprover) && w.deployments[id].status == PendingApproval
    case Execute(id, configReadable) => id < |w.deployments| && w.deployments[id].status == Approved && configReadable
    case Settle(id, _) => id < |w.deployments| && w.deployments[id].status == Executing
    case Refresh(id, _, _, _) =>
      id < |w.deployments| && w.deployments[id].job
      && w.deployments[id].instance in w.instances && w.instances[w.deployments[id].instance].bridged
  }

  function Put(w: World, id: nat, d: Deployment): World
    requires id < |w.deployments|
  {
    w.(deployments := w.deployments[id := d])
  }

  function Effect(w: World, action: Action): World
    requires Accepted(w, action)
  {
    match action
    case SetPhase(project, phase) => w.(phases := w.phases[project := phase])
    case EditInstance(instance, settings) => w.(instances := w.instances[instance := settings])
    case Package(artifact, project, digest, ok) =>
      w.(artifacts := w.artifacts[artifact := Artifact(project, ok, digest)],
         passed := if ok then w.passed + {artifact} else w.passed)
    case AcceptUat(_, artifact) => w.(evidence := w.evidence + {artifact})
    case Request(project, instance, artifact, user, _) =>
      w.(deployments := w.deployments + [NewDeployment(w, project, instance, artifact, user)])
    case Decide(id, user, _, approve) => Put(w, id, Decided(w.deployments[id], user, approve))
    case Execute(id, _) => Put(w, id, w.deployments[id].(status := Executing))
    case Settle(id, delivered) => Put(w, id, Settled(w.deployments[id], delivered))
    case Refresh(id, state, smokeOk, delivered) => Put(w, id, Refreshed(w.deployments[id], state, smokeOk, delivered))
  }

  function Apply(w: World, action: Action): World {
    if Accepted(w, action) then Effect(w, action) else w
  }

  /** An artifact handed to a target: by an execution, or by an automatic rollback. */
  datatype Shipment = Shipment(id: nat, artifact: ArtifactId, rollback: bool)

  function Ships(w: World, action: Action): Option<Shipment> {
    if !Accepted(w, action) then None
    else match action
      case Execute(id, _) => Some(Shipment(id, w.deployments[id].artifact, false))
      case Refresh(id, state, smokeOk, _) =>
        var d := w.deployments[id];
        if state == JobSucceeded && !smokeOk && d.prior.Some? then Some(Shipment(id, d.prior.value, true)) else None
      case _ => None
  }

  function At(w: World, actions: seq<Action>, k: nat): World
    requires k <= |actions|
  {
    if k == 0 then w else Apply(At(w, actions, k - 1), actions[k - 1])
  }

  /** Any configuration, before anything was packaged. */
  predicate Empty(w: World) {
    w.artifacts == map[] && w.passed == {} && w.evidence == {} && w.deployments == []
  }

  /** What the download route serves for a deployment, given the digest of the bundle built now. */
  function Served(w: World, id: nat, bundle: string): Option<string> {
    if id < |w.deployments|
       && w.deployments[id].status in {Approved, Executing, Deploying}
       && w.deployments[id].artifact in w.artifacts
       && w.artifacts[w.deployments[id].artifact].digest == bundle
    then Some(bundle)
    else None
  }
}
