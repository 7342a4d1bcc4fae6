/**
 The permission engine: which resource a tool call touches, how grants decide it, and the
 time-limited cache in front of that chain.  Grant patterns are matched by a function `matches`.
 */
module Permissions {
  import opened Wrappers
  import Text

  datatype Grant = Grant(
    id: string, projectId: Option<int>, userId: Option<int>, pattern: string, decision: string, expiresAt: Option<real>)

  datatype Decision = Decision(allowed: bool, reason: string, requiresApproval: bool, cached: bool, grantId: Option<string>)

  /** Tool arguments as the strings the engine reads from them. */
  datatype Args = Args(path: string, check: string, command: string)

  /** `erpType` is None when the instance reports no capabilities at all. */
  datatype Query = Query(
    projectId: int, userId: int, tool: string, args: Args, erpType: Option<string>, approval: Option<string>)

  const WRITE_TOOLS: set<string> := {"write_file", "patch_file", "create_directory"}

  /** The engine's fixed tool classes and its pattern matcher. */
  datatype Policy = Policy(safe: set<string>, approval: set<string>, orm: set<string>, matches: (string, string) -> bool)

  function EnginePolicy(matches: (string, string) -> bool): Policy {
    Policy(
      {"inspect_instance", "installed_modules", "inspect_company", "inspect_users", "inspect_odoo_schema",
       "inspect_views", "inspect_access", "inspect_access_rules", "inspect_computed_fields", "inspect_master_data",
       "list_directory", "read_file", "inspect_url", "browser_snapshot", "check_deployment_status", "save_memory",
       "search_memory", "save_user_preference", "save_verified_fact", "run_project_check", "inspect_module_dependency",
       "inspect_module_deps", "discover_module_structure", "discover_security_matrix", "discover_business_flow",
       "discover_source_symbols", "generate_change_plan", "estimate_migration_impact", "pri_erp_health",
       "pri_erp_list_instances", "pri_erp_get_instance", "pri_erp_list_addons", "pri_erp_list_files",
       "pri_erp_read_file", "pri_erp_list_backups"},
      {"update_company_contact", "configure_inventory", "create_draft_invoice", "execute_deployment",
       "install_module_dependency", "install_module_safe", "terminal_command", "pri_erp_exec_terminal",
       "pri_erp_install_module", "pri_erp_backup", "pri_erp_restore", "revert_changes"},
      {"inspect_odoo_schema", "inspect_views", "inspect_access", "inspect_access_rules", "create_partner",
       "create_product", "create_quotation", "create_rfq", "create_crm_lead", "create_draft_invoice",
       "configure_sales", "configure_purchase", "configure_inventory", "update_company_contact"},
      matches)
  }

  /** All the theorems need of the tool classes: project checks never reach the cache. */
  ghost predicate ChecksAreSafe(p: Policy) {
    "run_project_check" in p.safe
  }

  lemma EngineChecksAreSafe(matches: (string, string) -> bool)
    ensures ChecksAreSafe(EnginePolicy(matches))
  {
  }

  // ---------------------------------------------------------------- resources

  function StripDotsAndSlashes(s: string): string {
    if s != "" && s[0] in {'.', '/'} then StripDotsAndSlashes(s[1..]) else s
  }

  function ResourceFor(tool: string, args: Args): string {
    var path := Text.Strip(args.path);
    if path != "" && tool in WRITE_TOOLS then "workspace:" + StripDotsAndSlashes(path)
    else if tool == "run_project_check" then "command:" + args.check
    else if tool == "terminal_command" then "command:" + args.command
    else "erp:" + tool
  }

  function Resource(q: Query): string {
    ResourceFor(q.tool, q.args)
  }

  // ---------------------------------------------------------------- grants

  /** The sort key: denials first, then project-scoped, then user-scoped grants. */
  function Rank(g: Grant): nat {
    (if g.decision == "deny" then 4 else 0) + (if g.projectId.Some? then 2 else 0) + (if g.userId.Some? then 1 else 0)
  }

  /** The head of the stable descending sort: the first grant of the highest rank. */
  function Top(gs: seq<Grant>): (g: Grant)
    requires gs != []
    ensures g in gs && forall h :: h in gs ==> Rank(h) <= Rank(g)
    ensures exists i :: 0 <= i < |gs| && gs[i] == g && forall j :: 0 <= j < i ==> Rank(gs[j]) < Rank(g)
  {
    if |gs| == 1 then gs[0]
    else
      var rest := Top(gs[1..]);
      if Rank(gs[0]) >= Rank(rest) then gs[0] else rest
  }

  function Evaluate(gs: seq<Grant>, resource: string): Option<Decision> {
    if gs == [] then None
    else
      var top := Top(gs);
      Some(if top.decision == "deny" then Decision(false, "explicit_deny:" + resource, false, false, Some(top.id))
           else if top.decision == "allow" then Decision(true, "explicit_allow:" + resource, false, false, Some(top.id))
           else Decision(false, "ask_required:" + resource, true, false, Some(top.id)))
  }

  predicate InScope(g: Grant, q: Query, now: real) {
    && (g.projectId.None? || g.projectId.value == q.projectId)
    && (g.userId.None? || g.userId.value == q.userId)
    && (g.expiresAt.None? || g.expiresAt.value > now)
  }

  function Matching(grants: seq<Grant>, q: Query, now: real, resource: string, p: Policy): (r: seq<Grant>)
    ensures forall g :: g in r <==> g in grants && InScope(g, q, now) && p.matches(g.pattern, resource)
  {
    if grants == [] then []
    else
      (if InScope(grants[0], q, now) && p.matches(grants[0].pattern, resource) then [grants[0]] else [])
      + Matching(grants[1..], q, now, resource, p)
  }

  predicate Capable(tool: string, erpType: string, p: Policy) {
    erpType == "pri_erp" ==> tool !in p.orm
  }

  /** What the grants on the resource and on the tool come to, layer after layer. */
  function Layers(resource: string, tool: string, direct: Option<Decision>, erp: Option<Decision>,
                  erpType: Option<string>, p: Policy): Decision {
    if "workspace:" <= resource && direct.Some? then direct.value
    else if "workspace:" <= resource && tool in WRITE_TOOLS then Decision(false, "no_workspace_grant", true, false, None)
    else if "command:" <= resource && direct.Some? then direct.value
    else if erp.Some? && !erp.value.allowed then erp.value
    else if erpType.Some? && !Capable(tool, erpType.value, p) then
      Decision(false, "erp_capability_missing:" + tool, false, false, None)
    else if tool in p.approval then Decision(false, "requires_human_approval", true, false, None)
    else Decision(true, "default_allow", false, false, None)
  }

  /** The decision of the grants that match a resource. */
  function Settled(grants: seq<Grant>, q: Query, now: real, resource: string, p: Policy): Option<Decision> {
    Evaluate(Matching(grants, q, now, resource, p), resource)
  }

  function CheckGrants(grants: seq<Grant>, q: Query, now: real, p: Policy): Decision {
    Layers(Resource(q), q.tool, Settled(grants, q, now, Resource(q), p), Settled(grants, q, now, "erp:" + q.tool, p), q.erpType, p)
  }

  /** The whole chain without the cache. */
  function Uncached(grants: seq<Grant>, q: Query, now: real, p: Policy): Decision {
    if q.tool in p.safe then Decision(true, "safe_tool", false, false, None)
    else
      var d := CheckGrants(grants, q, now, p);
      if d.requiresApproval && q.approval == Some("approved") then Decision(true, "approved_by_human", false, false, d.grantId)
      else if d.requiresApproval && q.approval == Some("rejected") then Decision(false, "rejected_by_human", false, false, d.grantId)
      else d
  }

  /** A matching deny always wins over every other matching grant. */
  lemma DenyWins(gs: seq<Grant>, resource: string)
    requires gs != []
    ensures Evaluate(gs, resource).value.reason == "explicit_deny:" + resource <==> exists g :: g in gs && g.decision == "deny"
    ensures Evaluate(gs, resource).value.allowed ==> forall g :: g in gs ==> g.decision != "deny"
  {
    var top := Top(gs);
    if top.decision != "deny" {
      assert forall g :: g in gs ==> Rank(g) <= Rank(top) < 4;
      assert ("explicit_allow:" + resource)[9] != ("explicit_deny:" + resource)[9];
      assert ("ask_required:" + resource)[0] != ("explicit_deny:" + resource)[0];
    }
  }

  /** A freshly computed decision: not from the cache, and never both allowed and in need of approval. */
  predicate Exclusive(d: Decision) {
    !d.cached && !(d.allowed && d.requiresApproval)
  }

  lemma EvaluateExclusive(gs: seq<Grant>, resource: string)
    ensures Evaluate(gs, resource).Some? ==> Exclusive(Evaluate(gs, resource).value)
  {
  }

  lemma CheckGrantsExclusive(grants: seq<Grant>, q: Query, now: real, p: Policy)
    ensures Exclusive(CheckGrants(grants, q, now, p))
  {
    EvaluateExclusive(Matching(grants, q, now, Resource(q), p), Resource(q));
    EvaluateExclusive(Matching(grants, q, now, "erp:" + q.tool, p), "erp:" + q.tool);
    LayersExclusive(Resource(q), q.tool, Settled(grants, q, now, Resource(q), p),
                    Settled(grants, q, now, "erp:" + q.tool, p), q.erpType, p);
  }

  lemma LayersExclusive(resource: string, tool: string, direct: Option<Decision>, erp: Option<Decision>,
                        erpType: Option<string>, p: Policy)
    requires (direct.Some? ==> Exclusive(direct.value)) && (erp.Some? ==> Exclusive(erp.value))
    ensures Exclusive(Layers(resource, tool, direct, erp, erpType, p))
  {
  }

  /** A request that needs approval is never allowed at the same time. */
  lemma ApprovalIsNotAllowed(grants: seq<Grant>, q: Query, now: real, p: Policy)
    ensures Exclusive(Uncached(grants, q, now, p))
  {
    CheckGrantsExclusive(grants, q, now, p);
  }

  // ---------------------------------------------------------------- why the key may omit the tool

  /** Outside the always-allowed set, a resource pins the tool down unless it is a workspace path. */
  lemma ResourceNamesTool(a: Query, b: Query, p: Policy)
    requires ChecksAreSafe(p) && a.tool !in p.safe && b.tool !in p.safe && Resource(a) == Resource(b)
    ensures a.tool == b.tool || ("workspace:" <= Resource(a) && a.tool in WRITE_TOOLS && b.tool in WRITE_TOOLS)
  {
    ResourceShape(a, p);
    ResourceShape(b, p);
    if Resource(a)[0] == 'e' {
      assert Resource(a)[4..] == a.tool == b.tool;
    }
  }

  lemma ResourceShape(q: Query, p: Policy)
    requires ChecksAreSafe(p) && q.tool !in p.safe
    ensures Resource(q) != ""
    ensures Resource(q)[0] == 'w' ==> "workspace:" <= Resource(q) && q.tool in WRITE_TOOLS
    ensures Resource(q)[0] == 'c' ==> q.tool == "terminal_command"
    ensures Resource(q)[0] !in {'w', 'c'} ==> Resource(q)[0] == 'e' && Resource(q) == "erp:" + q.tool
  {
  }

  /** Resource, scope, approval, grants and capabilities determine the decision. */
  lemma KeyDetermines(grants: seq<Grant>, a: Query, b: Query, now: real, p: Policy)
    requires ChecksAreSafe(p) && a.tool !in p.safe && b.tool !in p.safe
    requires KeyOf(a) == KeyOf(b) && a.erpType == b.erpType
    ensures Uncached(grants, a, now, p) == Uncached(grants, b, now, p)
  {
    ResourceNamesTool(a, b, p);
    if a.tool == b.tool {
      SameToolSameDecision(grants, a, b, now, p);
    } else {
      SameScope(grants, a, b, now, Resource(a), p);
      WorkspaceDecision(grants, a, now, p);
      WorkspaceDecision(grants, b, now, p);
    }
  }

  lemma SameToolSameDecision(grants: seq<Grant>, a: Query, b: Query, now: real, p: Policy)
    requires KeyOf(a) == KeyOf(b) && a.erpType == b.erpType && a.tool == b.tool
    ensures CheckGrants(grants, a, now, p) == CheckGrants(grants, b, now, p)
  {
    SameScope(grants, a, b, now, Resource(a), p);
    SameScope(grants, a, b, now, "erp:" + a.tool, p);
    assert Settled(grants, a, now, Resource(a), p) == Settled(grants, b, now, Resource(b), p);
    assert Settled(grants, a, now, "erp:" + a.tool, p) == Settled(grants, b, now, "erp:" + b.tool, p);
  }

  /** Workspace resources are settled by their own grants alone. */
  lemma WorkspaceDecision(grants: seq<Grant>, q: Query, now: real, p: Policy)
    requires "workspace:" <= Resource(q) && q.tool in WRITE_TOOLS
    ensures var direct := Evaluate(Matching(grants, q, now, Resource(q), p), Resource(q));
            CheckGrants(grants, q, now, p)
            == if direct.Some? then direct.value else Decision(false, "no_workspace_grant", true, false, None)
  {
  }

  lemma {:induction false} SameScope(grants: seq<Grant>, a: Query, b: Query, now: real, resource: string, p: Policy)
    requires a.projectId == b.projectId && a.userId == b.userId
    ensures Matching(grants, a, now, resource, p) == Matching(grants, b, now, resource, p)
  {
    if grants != [] { SameScope(grants[1..], a, b, now, resource, p); }
  }

  // ---------------------------------------------------------------- the cache

  datatype Key = Key(projectId: int, userId: int, resource: string, approval: Option<string>)

  type Store = map<Key, (Decision, real)>

  const TTL: real := 60.0

  function KeyOf(q: Query): Key {
    Key(q.projectId, q.userId, Resource(q), q.approval)
  }

  predicate Covers(projectId: Option<int>, userId: Option<int>, k: Key) {
    (projectId.None? || k.projectId == projectId.value) && (userId.None? || k.userId == userId.value)
  }

  function Lookup(store: Store, k: Key, now: real): (Option<Decision>, Store) {
    if k !in store then (None, store)
    else if now > store[k].1 then (None, store - {k})
    else (Some(store[k].0.(cached := true)), store)
  }

  /** One `check`: its answer and the cache it leaves behind. */
  function Check(store: Store, grants: seq<Grant>, q: Query, now: real, p: Policy): (Decision, Store) {
    if q.tool in p.safe then (Uncached(grants, q, now, p), store)
    else
      var (hit, kept) := Lookup(store, KeyOf(q), now);
      if hit.Some? then (hit.value, kept)
      else
        var d := Uncached(grants, q, now, p);
        (d, if d.requiresApproval then kept else kept[KeyOf(q) := (d, now + TTL)])
  }

  function InvalidateScope(store: Store, projectId: Option<int>, userId: Option<int>): Store {
    map k | k in store && !Covers(projectId, userId, k) :: store[k]
  }

  // ---------------------------------------------------------------- traces

  datatype Action = Ask(q: Query) | Invalidate(projectId: Option<int>, userId: Option<int>)

  /** Something that happened, the clock, and the grant table as it stood then (edited at will). */
  datatype Moment = Moment(now: real, grants: seq<Grant>, action: Action)

  function StoreAfter(trace: seq<Moment>, p: Policy): Store {
    if trace == [] then map[]
    else
      var before, m := StoreAfter(trace[..|trace| - 1], p), trace[|trace| - 1];
      match m.action
      case Ask(q) => Check(before, m.grants, q, m.now, p).1
      case Invalidate(project, user) => InvalidateScope(before, project, user)
  }

  function Answer(trace: seq<Moment>, i: nat, p: Policy): Decision
    requires i < |trace| && trace[i].action.Ask?
  {
    Check(StoreAfter(trace[..i], p), trace[i].grants, trace[i].action.q, trace[i].now, p).0
  }

  ghost predicate ClockRuns(trace: seq<Moment>) {
    forall i, j :: 0 <= i <= j < |trace| ==> trace[i].now <= trace[j].now
  }

  /** This moment's call yields the entry under key k. */
  predicate Computes(m: Moment, k: Key, entry: (Decision, real), p: Policy) {
    && m.action.Ask? && m.action.q.tool !in p.safe && KeyOf(m.action.q) == k
    && entry == (Uncached(m.grants, m.action.q, m.now, p), m.now + TTL)
  }

  /** Moment j computed the decision that now stands in the cache under key k. */
  ghost predicate Computed(trace: seq<Moment>, j: int, k: Key, entry: (Decision, real), p: Policy) {
    && 0 <= j < |trace| && Computes(trace[j], k, entry, p)
    && forall i :: j < i < |trace| && trace[i].action.Invalidate? ==>
         !Covers(trace[i].action.projectId, trace[i].action.userId, k)
  }

  lemma ComputedStays(trace: seq<Moment>, m: Moment, j: int, k: Key, entry: (Decision, real), p: Policy)
    requires Computed(trace, j, k, entry, p)
    requires m.action.Invalidate? ==> !Covers(m.action.projectId, m.action.userId, k)
    ensures Computed(trace + [m], j, k, entry, p)
  {
    assert (trace + [m])[j] == trace[j];
  }

  lemma ComputedNow(trace: seq<Moment>, m: Moment, p: Policy)
    requires m.action.Ask? && m.action.q.tool !in p.safe
    ensures Computed(trace + [m], |trace|, KeyOf(m.action.q), (Uncached(m.grants, m.action.q, m.now, p), m.now + TTL), p)
  {
    var all, k, entry := trace + [m], KeyOf(m.action.q), (Uncached(m.grants, m.action.q, m.now, p), m.now + TTL);
    assert all[|trace|] == m && Computes(m, k, entry, p);
  }

  /** Where an entry of the cache comes from: this very call, or the cache before it. */
  lemma EntrySource(store: Store, grants: seq<Grant>, q: Query, now: real, k: Key, p: Policy)
    requires k in Check(store, grants, q, now, p).1
    ensures var after := Check(store, grants, q, now, p).1;
            || (k in store && after[k] == store[k])
            || (q.tool !in p.safe && k == KeyOf(q) && after[k] == (Uncached(grants, q, now, p), now + TTL))
  {
  }

  /** Every cache entry was computed at some moment that no later invalidation covers. */
  lemma {:induction false} EntriesAreComputed(trace: seq<Moment>, p: Policy)
    ensures forall k :: k in StoreAfter(trace, p) ==>
              exists j :: Computed(trace, j, k, StoreAfter(trace, p)[k], p)
  {
    if trace != [] {
      var front, m := trace[..|trace| - 1], trace[|trace| - 1];
      assert trace == front + [m];
      var before, store := StoreAfter(front, p), StoreAfter(trace, p);
      EntriesAreComputed(front, p);
      forall k | k in store ensures exists j :: Computed(trace, j, k, store[k], p) {
        if m.action.Ask? { EntrySource(before, m.grants, m.action.q, m.now, k, p); }
        if k in before && store[k] == before[k] {
          var j :| Computed(front, j, k, before[k], p);
          ComputedStays(front, m, j, k, before[k], p);
        } else {
          ComputedNow(front, m, p);
        }
      }
    }
  }

  /** A hit repeats the stored decision, within its lifetime; a miss recomputes. */
  lemma AnswerSource(store: Store, grants: seq<Grant>, q: Query, now: real, p: Policy)
    ensures var d := Check(store, grants, q, now, p).0;
            || d == Uncached(grants, q, now, p)
            || (q.tool !in p.safe && KeyOf(q) in store && now <= store[KeyOf(q)].1
                && d == store[KeyOf(q)].0.(cached := true))
  {
  }

  /**
   Bounded staleness: every answer is, up to the cached flag, what the whole chain says about
   the very same call under the grants and capabilities of some moment at most 60 seconds ago,
   and no invalidation of its scope lies between that moment and the answer.
   */
  lemma BoundedStaleness(trace: seq<Moment>, i: nat, p: Policy) returns (j: nat)
    requires ChecksAreSafe(p) && ClockRuns(trace) && i < |trace| && trace[i].action.Ask?
    ensures j <= i && trace[i].now - TTL <= trace[j].now <= trace[i].now && trace[j].action.Ask?
    ensures Answer(trace, i, p).(cached := false)
            == Uncached(trace[j].grants, trace[i].action.q.(erpType := trace[j].action.q.erpType), trace[j].now, p)
    ensures forall m :: j < m < i && trace[m].action.Invalidate? ==>
              !Covers(trace[m].action.projectId, trace[m].action.userId, KeyOf(trace[i].action.q))
  {
    var front, q, now := trace[..i], trace[i].action.q, trace[i].now;
    var store := StoreAfter(front, p);
    AnswerSource(store, trace[i].grants, q, now, p);
    if Answer(trace, i, p) == Uncached(trace[i].grants, q, now, p) {
      ApprovalIsNotAllowed(trace[i].grants, q, now, p);
      j := i;
      assert q.(erpType := q.erpType) == q;
    } else {
      j := HitMoment(front, q, now, p);
      assert trace[j] == front[j];
      forall m | j < m < i && trace[m].action.Invalidate?
        ensures !Covers(trace[m].action.projectId, trace[m].action.userId, KeyOf(q)) { assert trace[m] == front[m]; }
    }
  }

  /** The engine's own tool classes meet the assumption, whatever its pattern matcher does. */
  lemma EngineStaleness(trace: seq<Moment>, i: nat, matches: (string, string) -> bool) returns (j: nat)
    requires ClockRuns(trace) && i < |trace| && trace[i].action.Ask?
    ensures j <= i && trace[i].now - TTL <= trace[j].now <= trace[i].now && trace[j].action.Ask?
    ensures Answer(trace, i, EnginePolicy(matches)).(cached := false)
            == Uncached(trace[j].grants, trace[i].action.q.(erpType := trace[j].action.q.erpType), trace[j].now, EnginePolicy(matches))
    ensures forall m :: j < m < i && trace[m].action.Invalidate? ==>
              !Covers(trace[m].action.projectId, trace[m].action.userId, KeyOf(trace[i].action.q))
  {
    EngineChecksAreSafe(matches);
    j := BoundedStaleness(trace, i, EnginePolicy(matches));
  }

  /** The moment that computed the entry a hit returns. */
  lemma HitMoment(front: seq<Moment>, q: Query, now: real, p: Policy) returns (j: nat)
    requires ChecksAreSafe(p) && q.tool !in p.safe && KeyOf(q) in StoreAfter(front, p)
    requires now <= StoreAfter(front, p)[KeyOf(q)].1
    ensures j < |front| && front[j].action.Ask? && now - TTL <= front[j].now
    ensures StoreAfter(front, p)[KeyOf(q)].0.(cached := true).(cached := false)
            == Uncached(front[j].grants, q.(erpType := front[j].action.q.erpType), front[j].now, p)
    ensures forall m :: j < m < |front| && front[m].action.Invalidate? ==>
              !Covers(front[m].action.projectId, front[m].action.userId, KeyOf(q))
  {
    var entry := StoreAfter(front, p)[KeyOf(q)];
    EntriesAreComputed(front, p);
    j :| Computed(front, j, KeyOf(q), entry, p);
    StaleAnswer(front, j, q, entry, p);
  }

  lemma StaleAnswer(front: seq<Moment>, j: nat, q: Query, entry: (Decision, real), p: Policy)
    requires ChecksAreSafe(p) && q.tool !in p.safe && Computed(front, j, KeyOf(q), entry, p)
    ensures entry.0.(cached := true).(cached := false)
            == Uncached(front[j].grants, q.(erpType := front[j].action.q.erpType), front[j].now, p)
  {
    var earlier := front[j].action.q;
    var same := q.(erpType := earlier.erpType);
    assert KeyOf(same) == KeyOf(q) by { assert Resource(same) == Resource(q); }
    KeyDetermines(front[j].grants, earlier, same, front[j].now, p);
    ApprovalIsNotAllowed(front[j].grants, earlier, front[j].now, p);
  }
}
