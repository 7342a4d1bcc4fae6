/** What a deployment's status and recovery columns say about its history, exactly. */
module ReleaseRollbacks {
  import opened Wrappers
  import opened ReleaseModel
  import opened ReleaseHistory

  /** A refresh of this deployment that was carried out. */
  predicate IsRefresh(w: World, actions: seq<Action>, j: nat, id: nat)
    requires j < |actions|
  {
    actions[j].Refresh? && actions[j].id == id && Accepted(At(w, actions, j), actions[j])
  }

  /** One that read the job as succeeded and found the smoke tests failing. */
  predicate IsFailure(w: World, actions: seq<Action>, j: nat, id: nat)
    requires j < |actions|
  {
    IsRefresh(w, actions, j, id) && actions[j].state == JobSucceeded && !actions[j].smokeOk
  }

  function LastRefresh(w: World, actions: seq<Action>, k: nat, id: nat): (r: Option<nat>)
    requires k <= |actions|
    ensures r.Some? ==> r.value < k && IsRefresh(w, actions, r.value, id) && id < |At(w, actions, r.value).deployments|
  {
    if k == 0 then None else if IsRefresh(w, actions, k - 1, id) then Some(k - 1) else LastRefresh(w, actions, k - 1, id)
  }

  function LastFailure(w: World, actions: seq<Action>, k: nat, id: nat): (r: Option<nat>)
    requires k <= |actions|
    ensures r.Some? ==> r.value < k && IsFailure(w, actions, r.value, id)
  {
    if k == 0 then None else if IsFailure(w, actions, k - 1, id) then Some(k - 1) else LastFailure(w, actions, k - 1, id)
  }

  /** A row with a job is past its execution, and one past a refresh has a job. */
  ghost predicate Tracked(w: World, actions: seq<Action>, k: nat, id: nat)
    requires k <= |actions| && id < |At(w, actions, k).deployments|
  {
    var d := At(w, actions, k).deployments[id];
    && (d.job ==> d.status in {Deploying, Succeeded, Failed, RolledBack})
    && (LastRefresh(w, actions, k, id).Some? ==> d.job)
    && (LastRefresh(w, actions, k, id).None? ==> d.recovery == NotNeeded && d.status !in {Succeeded, RolledBack})
  }

  lemma RowMoves(w: World, action: Action, id: nat)
    requires id < |w.deployments|
    ensures var d, next := w.deployments[id], Apply(w, action).deployments;
            && id < |next|
            && (if Accepted(w, action) && action.Refresh? && action.id == id
                then d.job && next[id] == Refreshed(d, action.state, action.smokeOk, action.delivered)
                else next[id].recovery == d.recovery && (d.job ==> next[id].job)
                     && (next[id].job && !d.job ==> next[id].status == Deploying)
                     && (d.job && d.status in {Deploying, Succeeded, Failed, RolledBack} ==> next[id] == d)
                     && (next[id].status in {Succeeded, RolledBack} ==> d.status in {Succeeded, RolledBack}))
  {
  }

  lemma {:induction false} UnknownIsUnrefreshed(w: World, actions: seq<Action>, k: nat, id: nat)
    requires k <= |actions| && id >= |At(w, actions, k).deployments|
    ensures LastRefresh(w, actions, k, id).None? && LastFailure(w, actions, k, id).None?
  {
    if k > 0 {
      RowsAreRequested(At(w, actions, k - 1), actions[k - 1]);
      UnknownIsUnrefreshed(w, actions, k - 1, id);
    }
  }

  lemma NewRowIsUnrefreshed(w: World, actions: seq<Action>, k: nat, id: nat)
    requires k < |actions| && |At(w, actions, k).deployments| <= id < |At(w, actions, k + 1).deployments|
    ensures LastRefresh(w, actions, k + 1, id).None? && LastFailure(w, actions, k + 1, id).None?
    ensures var d := At(w, actions, k + 1).deployments[id];
            d.status == PendingApproval && !d.job && d.recovery == NotNeeded
  {
    UnknownIsUnrefreshed(w, actions, k, id);
    NewRowIsRequested(w, actions, k, id);
  }

  lemma RowStaysTracked(w: World, actions: seq<Action>, k: nat, id: nat)
    requires k < |actions| && id < |At(w, actions, k).deployments| && Tracked(w, actions, k, id)
    ensures id < |At(w, actions, k + 1).deployments| && Tracked(w, actions, k + 1, id)
  {
    RowMoves(At(w, actions, k), actions[k], id);
  }

  lemma {:induction false} RowsAreTracked(w: World, actions: seq<Action>, k: nat, id: nat)
    requires Empty(w) && k <= |actions| && id < |At(w, actions, k).deployments|
    ensures Tracked(w, actions, k, id)
  {
    if id < |At(w, actions, k - 1).deployments| {
      RowsAreTracked(w, actions, k - 1, id);
      RowStaysTracked(w, actions, k - 1, id);
    } else {
      NewRowIsUnrefreshed(w, actions, k - 1, id);
    }
  }

  ghost predicate RecoveryIsTold(w: World, actions: seq<Action>, k: nat, id: nat)
    requires k <= |actions| && id < |At(w, actions, k).deployments|
  {
    var d, last := At(w, actions, k).deployments[id], LastFailure(w, actions, k, id);
    d.recovery == if last.None? then NotNeeded
                  else if d.prior.Some? && actions[last.value].delivered then Recovered
                  else Unrecoverable
  }

  lemma RecoveryStaysTold(w: World, actions: seq<Action>, k: nat, id: nat)
    requires k < |actions| && id < |At(w, actions, k).deployments| && RecoveryIsTold(w, actions, k, id)
    requires id < |At(w, actions, k + 1).deployments|
    requires At(w, actions, k + 1).deployments[id].prior == At(w, actions, k).deployments[id].prior
    ensures RecoveryIsTold(w, actions, k + 1, id)
  {
    RowMoves(At(w, actions, k), actions[k], id);
  }

  /** The recovery column is the outcome of the last failed smoke test. */
  lemma {:induction false} RecoveryTells(w: World, actions: seq<Action>, k: nat, id: nat)
    requires Empty(w) && k <= |actions| && id < |At(w, actions, k).deployments|
    ensures RecoveryIsTold(w, actions, k, id)
  {
    if id < |At(w, actions, k - 1).deployments| {
      RecoveryTells(w, actions, k - 1, id);
      TermsAreFixed(w, actions, k - 1, k, id);
      RecoveryStaysTold(w, actions, k - 1, id);
    } else {
      NewRowIsUnrefreshed(w, actions, k - 1, id);
    }
  }

  ghost predicate SuccessIsTold(w: World, actions: seq<Action>, k: nat, id: nat)
    requires k <= |actions| && id < |At(w, actions, k).deployments|
  {
    var d, last := At(w, actions, k).deployments[id], LastRefresh(w, actions, k, id);
    d.status == Succeeded <==>
      && last.Some? && actions[last.value].state == JobSucceeded
      && (actions[last.value].smokeOk || d.prior.None? || !actions[last.value].delivered
          || At(w, actions, last.value).deployments[id].status != Succeeded)
  }

  lemma SuccessStaysTold(w: World, actions: seq<Action>, k: nat, id: nat)
    requires k < |actions| && id < |At(w, actions, k).deployments|
    requires Tracked(w, actions, k, id) && SuccessIsTold(w, actions, k, id)
    requires id < |At(w, actions, k + 1).deployments|
    requires At(w, actions, k + 1).deployments[id].prior == At(w, actions, k).deployments[id].prior
    ensures SuccessIsTold(w, actions, k + 1, id)
  {
    var d, action := At(w, actions, k).deployments[id], actions[k];
    RowMoves(At(w, actions, k), action, id);
    if IsRefresh(w, actions, k, id) {
      RefreshVerdict(d, action.state, action.smokeOk, action.delivered);
      assert LastRefresh(w, actions, k + 1, id) == Some(k);
    } else {
      assert LastRefresh(w, actions, k + 1, id) == LastRefresh(w, actions, k, id);
    }
  }

  /** A deployment stands as succeeded exactly when its last refresh left it so. */
  lemma {:induction false} SuccessTells(w: World, actions: seq<Action>, k: nat, id: nat)
    requires Empty(w) && k <= |actions| && id < |At(w, actions, k).deployments|
    ensures SuccessIsTold(w, actions, k, id)
  {
    if id < |At(w, actions, k - 1).deployments| {
      SuccessTells(w, actions, k - 1, id);
      RowsAreTracked(w, actions, k - 1, id);
      TermsAreFixed(w, actions, k - 1, k, id);
      SuccessStaysTold(w, actions, k - 1, id);
    } else {
      NewRowIsUnrefreshed(w, actions, k - 1, id);
    }
  }

  /**
   A deployment counts as staged although it was rolled back, exactly when the rollback of its
   last failed smoke test was delivered, its last refresh read the job as succeeded, and either
   that refresh is a later one or the row did not stand as succeeded when that smoke test failed.
   */
  lemma StagedThoughRolledBack(w: World, actions: seq<Action>, k: nat, id: nat)
    requires Empty(w) && k <= |actions| && id < |At(w, actions, k).deployments|
    ensures var d := At(w, actions, k).deployments[id];
            var failure, last := LastFailure(w, actions, k, id), LastRefresh(w, actions, k, id);
            d.status == Succeeded && d.recovery == Recovered <==>
              && failure.Some? && d.prior.Some? && actions[failure.value].delivered
              && last.Some? && actions[last.value].state == JobSucceeded
              && (failure.value < last.value || At(w, actions, last.value).deployments[id].status != Succeeded)
  {
    var d := At(w, actions, k).deployments[id];
    RecoveryTells(w, actions, k, id);
    SuccessTells(w, actions, k, id);
    FailureBeforeRefresh(w, actions, k, id);
    if d.status == Succeeded && d.recovery == Recovered { assert LastFailure(w, actions, k, id).Some?; }
  }

  /**
   A deployment stands as succeeded although its last smoke test failed, exactly when the refresh
   that found the failure is the last one, and there was nothing to fall back to, or the rollback
   was not delivered, or the row did not stand as succeeded when it was loaded.
   */
  lemma StagedThoughFailed(w: World, actions: seq<Action>, k: nat, id: nat)
    requires Empty(w) && k <= |actions| && id < |At(w, actions, k).deployments|
    ensures var d := At(w, actions, k).deployments[id];
            var failure, last := LastFailure(w, actions, k, id), LastRefresh(w, actions, k, id);
            d.status == Succeeded && last.Some? && !actions[last.value].smokeOk <==>
              && failure.Some? && failure == last
              && (d.prior.None? || !actions[last.value].delivered || At(w, actions, last.value).deployments[id].status != Succeeded)
  {
    SuccessTells(w, actions, k, id);
    FailureBeforeRefresh(w, actions, k, id);
  }

  lemma {:induction false} FailureBeforeRefresh(w: World, actions: seq<Action>, k: nat, id: nat)
    requires k <= |actions|
    ensures var failure, last := LastFailure(w, actions, k, id), LastRefresh(w, actions, k, id);
            && (failure.Some? ==> last.Some? && failure.value <= last.value)
            && (last.Some? && IsFailure(w, actions, last.value, id) ==> failure == last)
  {
    if k > 0 { FailureBeforeRefresh(w, actions, k - 1, id); }
  }
}
