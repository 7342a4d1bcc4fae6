/** The cache object and the engine's `check`, proved against the functions of `Permissions`. */
module PermissionCacheObject {
  import opened Wrappers
  import opened Permissions

  class PermissionCache {
    var store: Store

    constructor ()
      ensures store == map[]
    {
      store := map[];
    }

    method Get(k: Key, now: real) returns (hit: Option<Decision>)
      modifies this
      ensures (hit, store) == Lookup(old(store), k, now)
    {
      if k !in store {
        return None;
      }
      var (decision, expiresAt) := store[k];
      if now > expiresAt {
        store := store - {k};
        return None;
      }
      return Some(decision.(cached := true));
    }

    method Set(k: Key, decision: Decision, now: real)
      modifies this
      ensures store == old(store)[k := (decision, now + TTL)]
    {
      store := store[k := (decision, now + TTL)];
    }

    /** Removes every entry of the scope, and only those. */
    method Invalidate(projectId: Option<int>, userId: Option<int>)
      modifies this
      ensures store == InvalidateScope(old(store), projectId, userId)
    {
      var keys := set k | k in store && Covers(projectId, userId, k);
      while keys != {}
        invariant forall k <- keys :: k in old(store) && Covers(projectId, userId, k)
        invariant forall k :: k in store <==> k in old(store) && (k in keys || !Covers(projectId, userId, k))
        invariant forall k <- store :: store[k] == old(store)[k]
        decreases |keys|
      {
        var k :| k in keys;
        store := store - {k};
        keys := keys - {k};
      }
    }

    method Clear()
      modifies this
      ensures store == map[] == InvalidateScope(old(store), None, None)
    {
      store := map[];
    }

    method CheckPermission(grants: seq<Grant>, q: Query, now: real, p: Policy) returns (decision: Decision)
      modifies this
      ensures (decision, store) == Check(old(store), grants, q, now, p)
    {
      if q.tool in p.safe {
        return Decision(true, "safe_tool", false, false, None);
      }
      var hit := Get(KeyOf(q), now);
      if hit.Some? {
        return hit.value;
      }
      decision := CheckGrants(grants, q, now, p);
      if decision.requiresApproval {
        if q.approval == Some("approved") {
          decision := Decision(true, "approved_by_human", false, false, decision.grantId);
        } else if q.approval == Some("rejected") {
          decision := Decision(false, "rejected_by_human", false, false, decision.grantId);
        }
      }
      if !decision.requiresApproval {
        Set(KeyOf(q), decision, now);
      }
    }
  }
}
