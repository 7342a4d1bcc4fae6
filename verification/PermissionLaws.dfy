/**
 When a tool call is allowed and when it needs approval, in terms of the grants that apply to it,
 the tool classes and the instance alone.
 */
module PermissionLaws {
  import opened Wrappers
  import opened Permissions
  import Text

  // ---------------------------------------------------------------- the grant that decides

  /** The grant is for this project and user, has not expired, and its pattern matches the resource. */
  predicate Applies(g: Grant, q: Query, now: real, resource: string, p: Policy) {
    && (g.projectId == None || g.projectId == Some(q.projectId))
    && (g.userId == None || g.userId == Some(q.userId))
    && (g.expiresAt.Some? ==> g.expiresAt.value > now)
    && p.matches(g.pattern, resource)
  }

  /** A denial goes first, then a grant for one project, then one for one user. */
  predicate Outranks(g: Grant, h: Grant) {
    if (g.decision == "deny") != (h.decision == "deny") then g.decision == "deny"
    else if g.projectId.Some? != h.projectId.Some? then g.projectId.Some?
    else g.userId.Some? && h.userId.None?
  }

  /** Grant i applies, outranks every applicable grant listed before it, and is outranked by none. */
  ghost predicate Decisive(grants: seq<Grant>, q: Query, now: real, resource: string, p: Policy, i: int) {
    && 0 <= i < |grants| && Applies(grants[i], q, now, resource, p)
    && (forall j :: 0 <= j < i && Applies(grants[j], q, now, resource, p) ==> Outranks(grants[i], grants[j]))
    && (forall j :: i < j < |grants| && Applies(grants[j], q, now, resource, p) ==> !Outranks(grants[j], grants[i]))
  }

  /** What the applicable grants on a resource say: nothing, or the decision of the decisive one. */
  datatype Voice = Nothing | Denies | Allows | Asks

  ghost predicate Says(grants: seq<Grant>, q: Query, now: real, resource: string, p: Policy, v: Voice) {
    match v
    case Nothing => Silent(grants, q, now, resource, p)
    case Denies => exists i :: Decisive(grants, q, now, resource, p, i) && grants[i].decision == "deny"
    case Allows => exists i :: Decisive(grants, q, now, resource, p, i) && grants[i].decision == "allow"
    case Asks => exists i :: Decisive(grants, q, now, resource, p, i) && grants[i].decision != "deny" && grants[i].decision != "allow"
  }

  ghost predicate Silent(grants: seq<Grant>, q: Query, now: real, resource: string, p: Policy) {
    forall i :: 0 <= i < |grants| ==> !Applies(grants[i], q, now, resource, p)
  }

  lemma OutranksIsRank(g: Grant, h: Grant)
    ensures Outranks(g, h) <==> Rank(h) < Rank(g)
  {
  }

  lemma AppliesIsMatching(grants: seq<Grant>, q: Query, now: real, resource: string, p: Policy, g: Grant)
    ensures g in Matching(grants, q, now, resource, p) <==> g in grants && Applies(g, q, now, resource, p)
  {
  }

  lemma SilentMatches(grants: seq<Grant>, q: Query, now: real, resource: string, p: Policy)
    ensures Silent(grants, q, now, resource, p) <==> Matching(grants, q, now, resource, p) == []
  {
    var m := Matching(grants, q, now, resource, p);
    if m != [] {
      AppliesIsMatching(grants, q, now, resource, p, m[0]);
      assert m[0] in grants;
    } else {
      forall i | 0 <= i < |grants| ensures !Applies(grants[i], q, now, resource, p) {
        AppliesIsMatching(grants, q, now, resource, p, grants[i]);
      }
    }
  }

  lemma DecisiveInRest(grants: seq<Grant>, q: Query, now: real, resource: string, p: Policy, i: int)
    requires i > 0 && Decisive(grants, q, now, resource, p, i)
    ensures Decisive(grants[1..], q, now, resource, p, i - 1)
  {
    assert grants[1..][i - 1] == grants[i];
    forall j | 0 <= j < i - 1 && Applies(grants[1..][j], q, now, resource, p) ensures Outranks(grants[i], grants[1..][j]) {
      assert grants[1..][j] == grants[j + 1];
    }
    forall j | i - 1 < j < |grants[1..]| && Applies(grants[1..][j], q, now, resource, p) ensures !Outranks(grants[1..][j], grants[i]) {
      assert grants[1..][j] == grants[j + 1];
    }
  }

  lemma TopCons(g: Grant, rest: seq<Grant>)
    ensures Top([g] + rest) == if rest == [] || Rank(g) >= Rank(Top(rest)) then g else Top(rest)
  {
    assert ([g] + rest)[1..] == rest;
  }

  lemma MatchingCons(grants: seq<Grant>, q: Query, now: real, resource: string, p: Policy)
    requires grants != []
    ensures var rest := Matching(grants[1..], q, now, resource, p);
            Matching(grants, q, now, resource, p) == if Applies(grants[0], q, now, resource, p) then [grants[0]] + rest else rest
  {
  }

  lemma TopOfCons(grants: seq<Grant>, q: Query, now: real, resource: string, p: Policy, t: Grant)
    requires grants != []
    requires var rest := Matching(grants[1..], q, now, resource, p);
             if Applies(grants[0], q, now, resource, p) && (rest == [] || Rank(grants[0]) >= Rank(Top(rest)))
             then t == grants[0] else rest != [] && t == Top(rest)
    ensures Matching(grants, q, now, resource, p) != [] && Top(Matching(grants, q, now, resource, p)) == t
  {
    MatchingCons(grants, q, now, resource, p);
    TopCons(grants[0], Matching(grants[1..], q, now, resource, p));
  }

  lemma DecisiveBeatsHead(grants: seq<Grant>, q: Query, now: real, resource: string, p: Policy, i: int)
    requires i > 0 && Decisive(grants, q, now, resource, p, i) && Applies(grants[0], q, now, resource, p)
    ensures Rank(grants[0]) < Rank(grants[i])
  {
    OutranksIsRank(grants[i], grants[0]);
  }

  /** The head of the sorted matching grants is the decisive one. */
  lemma {:induction false} TopIsDecisive(grants: seq<Grant>, q: Query, now: real, resource: string, p: Policy, i: int)
    requires Decisive(grants, q, now, resource, p, i)
    ensures Matching(grants, q, now, resource, p) != []
    ensures Top(Matching(grants, q, now, resource, p)) == grants[i]
  {
    if i == 0 {
      if Matching(grants[1..], q, now, resource, p) != [] { HeadOutranksRest(grants, q, now, resource, p); }
    } else {
      DecisiveInRest(grants, q, now, resource, p, i);
      TopIsDecisive(grants[1..], q, now, resource, p, i - 1);
      if Applies(grants[0], q, now, resource, p) { DecisiveBeatsHead(grants, q, now, resource, p, i); }
    }
    TopOfCons(grants, q, now, resource, p, grants[i]);
  }

  lemma HeadOutranksRest(grants: seq<Grant>, q: Query, now: real, resource: string, p: Policy)
    requires Decisive(grants, q, now, resource, p, 0) && Matching(grants[1..], q, now, resource, p) != []
    ensures Rank(Top(Matching(grants[1..], q, now, resource, p))) <= Rank(grants[0])
  {
    var t := Top(Matching(grants[1..], q, now, resource, p));
    AppliesIsMatching(grants[1..], q, now, resource, p, t);
    var j :| 0 <= j < |grants[1..]| && grants[1..][j] == t;
    assert grants[j + 1] == t;
    OutranksIsRank(t, grants[0]);
  }

  /** Unless nothing applies there is exactly one decisive grant; here, that there is one. */
  lemma {:induction false} SomeoneDecides(grants: seq<Grant>, q: Query, now: real, resource: string, p: Policy) returns (i: nat)
    requires !Silent(grants, q, now, resource, p)
    ensures Decisive(grants, q, now, resource, p, i)
  {
    var rest := grants[1..];
    assert forall j :: 0 <= j < |rest| ==> rest[j] == grants[j + 1];
    if Silent(rest, q, now, resource, p) {
      i := 0;
      assert forall j :: 0 < j < |grants| ==> grants[j] == rest[j - 1];
    } else {
      var k := SomeoneDecides(rest, q, now, resource, p);
      i := Contest(grants, q, now, resource, p, k);
    }
  }

  /** The first grant against the decisive one of the rest. */
  lemma Contest(grants: seq<Grant>, q: Query, now: real, resource: string, p: Policy, k: nat) returns (i: nat)
    requires grants != [] && Decisive(grants[1..], q, now, resource, p, k)
    ensures Decisive(grants, q, now, resource, p, i)
  {
    var rest := grants[1..];
    assert forall j :: 0 < j < |grants| ==> grants[j] == rest[j - 1];
    if Applies(grants[0], q, now, resource, p) && !Outranks(rest[k], grants[0]) {
      i := 0;
      forall j | 0 < j < |grants| && Applies(grants[j], q, now, resource, p) ensures !Outranks(grants[j], grants[0]) {
        OutranksIsRank(rest[k], grants[0]);
        OutranksIsRank(grants[j], grants[0]);
        OutranksIsRank(rest[k], rest[j - 1]);
        OutranksIsRank(rest[j - 1], rest[k]);
      }
    } else {
      i := k + 1;
    }
  }

  function VoiceOf(d: Option<Decision>): Voice {
    if d.None? then Nothing else if d.value.allowed then Allows else if d.value.requiresApproval then Asks else Denies
  }

  /** The engine hears what the grants say. */
  lemma SettledSays(grants: seq<Grant>, q: Query, now: real, resource: string, p: Policy, v: Voice)
    requires Says(grants, q, now, resource, p, v)
    ensures VoiceOf(Settled(grants, q, now, resource, p)) == v
  {
    match v
    case Nothing => SilentMatches(grants, q, now, resource, p);
    case Denies =>
      var i :| Decisive(grants, q, now, resource, p, i) && grants[i].decision == "deny";
      TopIsDecisive(grants, q, now, resource, p, i);
    case Allows =>
      var i :| Decisive(grants, q, now, resource, p, i) && grants[i].decision == "allow";
      TopIsDecisive(grants, q, now, resource, p, i);
    case Asks =>
      var i :| Decisive(grants, q, now, resource, p, i) && grants[i].decision != "deny" && grants[i].decision != "allow";
      TopIsDecisive(grants, q, now, resource, p, i);
  }

  /** On every resource the grants say one thing. */
  lemma OneVoice(grants: seq<Grant>, q: Query, now: real, resource: string, p: Policy) returns (v: Voice)
    ensures Says(grants, q, now, resource, p, v)
    ensures forall w :: Says(grants, q, now, resource, p, w) ==> w == v
  {
    v := VoiceOf(Settled(grants, q, now, resource, p));
    if Silent(grants, q, now, resource, p) {
      SettledSays(grants, q, now, resource, p, Nothing);
    } else {
      var i := SomeoneDecides(grants, q, now, resource, p);
      var w := if grants[i].decision == "deny" then Denies else if grants[i].decision == "allow" then Allows else Asks;
      assert Says(grants, q, now, resource, p, w);
      SettledSays(grants, q, now, resource, p, w);
    }
    forall w | Says(grants, q, now, resource, p, w) ensures w == v { SettledSays(grants, q, now, resource, p, w); }
  }

  /** A denial that applies is what the grants say. */
  lemma DenialIsHeard(grants: seq<Grant>, q: Query, now: real, resource: string, p: Policy, g: Grant)
    requires g in grants && g.decision == "deny" && Applies(g, q, now, resource, p)
    ensures Says(grants, q, now, resource, p, Denies)
  {
    var k :| 0 <= k < |grants| && grants[k] == g;
    var i := SomeoneDecides(grants, q, now, resource, p);
    if i != k { assert grants[i].decision == "deny"; }
  }

  // ---------------------------------------------------------------- the whole chain

  /** Which resource a call touches. */
  ghost predicate Touches(tool: string, args: Args, resource: string) {
    var path := Text.Strip(args.path);
    if tool in {"write_file", "patch_file", "create_directory"} && path != "" then
      exists k :: 0 <= k <= |path| && resource == "workspace:" + path[k..] && LeadsWith(path, k)
    else if tool == "run_project_check" then resource == "command:" + args.check
    else if tool == "terminal_command" then resource == "command:" + args.command
    else resource == "erp:" + tool
  }

  /** The first k characters, and no more, are dots and slashes. */
  predicate LeadsWith(path: string, k: int)
    requires 0 <= k <= |path|
  {
    && (forall j :: 0 <= j < k ==> path[j] == '.' || path[j] == '/')
    && (k < |path| ==> path[k] != '.' && path[k] != '/')
  }

  lemma {:induction false} StripLeads(s: string) returns (k: nat)
    ensures k <= |s| && StripDotsAndSlashes(s) == s[k..] && LeadsWith(s, k)
  {
    if s != "" && s[0] in {'.', '/'} {
      var j := StripLeads(s[1..]);
      k := j + 1;
      assert s[1..][j..] == s[k..];
      forall i | 0 <= i < k ensures s[i] == '.' || s[i] == '/' { if i > 0 { assert s[i] == s[1..][i - 1]; } }
    } else {
      k := 0;
      assert s[0..] == s;
    }
  }

  lemma ResourceIsTouched(q: Query)
    ensures Touches(q.tool, q.args, Resource(q))
  {
    var k := StripLeads(Text.Strip(q.args.path));
  }

  /** The call stops at the layer of its path or command: a grant on it decides, and a path needs one. */
  predicate StopsEarly(q: Query, resource: string, direct: Voice) {
    || ("workspace:" <= resource && (direct != Nothing || q.tool in {"write_file", "patch_file", "create_directory"}))
    || ("command:" <= resource && direct != Nothing)
  }

  predicate CanDo(q: Query, p: Policy) {
    !(q.erpType == Some("pri_erp") && q.tool in p.orm)
  }

  /** Grants, instance and tool classes allow the call. */
  predicate ChainAllows(q: Query, resource: string, direct: Voice, erp: Voice, p: Policy) {
    if StopsEarly(q, resource, direct) then direct == Allows
    else (erp == Nothing || erp == Allows) && CanDo(q, p) && q.tool !in p.approval
  }

  /** They leave it to a human. */
  predicate ChainAsks(q: Query, resource: string, direct: Voice, erp: Voice, p: Policy) {
    if StopsEarly(q, resource, direct) then direct == Asks || direct == Nothing
    else erp == Asks || ((erp == Nothing || erp == Allows) && CanDo(q, p) && q.tool in p.approval)
  }

  lemma LayersSay(resource: string, q: Query, direct: Option<Decision>, erp: Option<Decision>, p: Policy)
    ensures VoiceOf(Some(Layers(resource, q.tool, direct, erp, q.erpType, p)))
            == if ChainAllows(q, resource, VoiceOf(direct), VoiceOf(erp), p) then Allows
               else if ChainAsks(q, resource, VoiceOf(direct), VoiceOf(erp), p) then Asks else Denies
  {
  }

  lemma ChainSays(grants: seq<Grant>, q: Query, now: real, p: Policy, direct: Voice, erp: Voice)
    requires Says(grants, q, now, Resource(q), p, direct) && Says(grants, q, now, "erp:" + q.tool, p, erp)
    ensures VoiceOf(Some(CheckGrants(grants, q, now, p)))
            == if ChainAllows(q, Resource(q), direct, erp, p) then Allows
               else if ChainAsks(q, Resource(q), direct, erp, p) then Asks else Denies
  {
    SettledSays(grants, q, now, Resource(q), p, direct);
    SettledSays(grants, q, now, "erp:" + q.tool, p, erp);
    LayersSay(Resource(q), q, Settled(grants, q, now, Resource(q), p), Settled(grants, q, now, "erp:" + q.tool, p), p);
  }

  /** What the chain leaves to a human the approval settles. */
  lemma ApprovalSettles(grants: seq<Grant>, q: Query, now: real, p: Policy)
    requires q.tool !in p.safe
    ensures var d, v := Uncached(grants, q, now, p), VoiceOf(Some(CheckGrants(grants, q, now, p)));
            && (d.allowed <==> v == Allows || (v == Asks && q.approval == Some("approved")))
            && (d.requiresApproval <==> v == Asks && q.approval != Some("approved") && q.approval != Some("rejected"))
  {
    CheckGrantsExclusive(grants, q, now, p);
  }

  /** Exactly when a call is allowed, and exactly when it waits for a human. */
  lemma AllowedIff(grants: seq<Grant>, q: Query, now: real, p: Policy, direct: Voice, erp: Voice)
    requires q.tool !in p.safe
    requires Says(grants, q, now, Resource(q), p, direct) && Says(grants, q, now, "erp:" + q.tool, p, erp)
    ensures var asks := ChainAsks(q, Resource(q), direct, erp, p);
            && (Uncached(grants, q, now, p).allowed <==>
                  ChainAllows(q, Resource(q), direct, erp, p) || (asks && q.approval == Some("approved")))
            && (Uncached(grants, q, now, p).requiresApproval <==>
                  asks && q.approval != Some("approved") && q.approval != Some("rejected"))
  {
    ChainSays(grants, q, now, p, direct, erp);
    ApprovalSettles(grants, q, now, p);
  }

  lemma ChainRefuses(grants: seq<Grant>, q: Query, now: real, p: Policy, direct: Voice, erp: Voice)
    requires q.tool !in p.safe
    requires Says(grants, q, now, Resource(q), p, direct) && Says(grants, q, now, "erp:" + q.tool, p, erp)
    requires !ChainAllows(q, Resource(q), direct, erp, p) && !ChainAsks(q, Resource(q), direct, erp, p)
    ensures !Uncached(grants, q, now, p).allowed && !Uncached(grants, q, now, p).requiresApproval
  {
    AllowedIff(grants, q, now, p, direct, erp);
  }

  lemma ResourceKinds(q: Query)
    ensures "workspace:" <= Resource(q) || "command:" <= Resource(q) || Resource(q) == "erp:" + q.tool
  {
  }

  /** An explicit denial of the resource a call touches is final, whatever else was granted or approved. */
  lemma DenialIsFinal(grants: seq<Grant>, q: Query, now: real, p: Policy, g: Grant)
    requires q.tool !in p.safe && g in grants && g.decision == "deny"
    requires Applies(g, q, now, Resource(q), p)
    ensures !Uncached(grants, q, now, p).allowed && !Uncached(grants, q, now, p).requiresApproval
  {
    DenialIsHeard(grants, q, now, Resource(q), p, g);
    var erp := OneVoice(grants, q, now, "erp:" + q.tool, p);
    ResourceKinds(q);
    ChainRefuses(grants, q, now, p, Denies, erp);
  }

  /** So is one of the tool, unless the layer of its path or command decides first. */
  lemma ToolDenialIsFinal(grants: seq<Grant>, q: Query, now: real, p: Policy, g: Grant, direct: Voice)
    requires q.tool !in p.safe && g in grants && g.decision == "deny"
    requires Applies(g, q, now, "erp:" + q.tool, p)
    requires Says(grants, q, now, Resource(q), p, direct) && !StopsEarly(q, Resource(q), direct)
    ensures !Uncached(grants, q, now, p).allowed && !Uncached(grants, q, now, p).requiresApproval
  {
    DenialIsHeard(grants, q, now, "erp:" + q.tool, p, g);
    ChainRefuses(grants, q, now, p, direct, Denies);
  }

  // ---------------------------------------------------------------- the check and its cache

  /** A safe tool needs no decision and leaves the cache alone. */
  lemma SafeToolsPass(store: Store, grants: seq<Grant>, q: Query, now: real, p: Policy)
    requires q.tool in p.safe
    ensures Check(store, grants, q, now, p) == (Decision(true, "safe_tool", false, false, None), store)
  {
  }

  /** A live entry answers, marked as cached. */
  lemma LiveEntryAnswers(store: Store, grants: seq<Grant>, q: Query, now: real, p: Policy)
    requires q.tool !in p.safe
    requires var k := Key(q.projectId, q.userId, Resource(q), q.approval); k in store && now <= store[k].1
    ensures Check(store, grants, q, now, p)
            == (store[Key(q.projectId, q.userId, Resource(q), q.approval)].0.(cached := true), store)
  {
  }

  lemma Overwritten(store: Store, k: Key, entry: (Decision, real))
    ensures (store - {k})[k := entry] == store[k := entry] && (k !in store ==> store - {k} == store)
  {
  }

  /** Otherwise the chain does, and its answer is kept for a minute unless it asks. */
  lemma ChainAnswers(store: Store, grants: seq<Grant>, q: Query, now: real, p: Policy)
    requires q.tool !in p.safe
    requires var k := Key(q.projectId, q.userId, Resource(q), q.approval); k in store ==> store[k].1 < now
    ensures var k, d := Key(q.projectId, q.userId, Resource(q), q.approval), Uncached(grants, q, now, p);
            Check(store, grants, q, now, p) == (d, if d.requiresApproval then store - {k} else store[k := (d, now + 60.0)])
  {
    Overwritten(store, KeyOf(q), (Uncached(grants, q, now, p), now + 60.0));
  }

  /** On an empty cache a denied call is refused. */
  lemma ColdDenial(grants: seq<Grant>, q: Query, now: real, p: Policy, g: Grant)
    requires q.tool !in p.safe && g in grants && g.decision == "deny" && Applies(g, q, now, Resource(q), p)
    ensures var d := Check(map[], grants, q, now, p).0; !d.allowed && !d.requiresApproval && !d.cached
  {
    ChainAnswers(map[], grants, q, now, p);
    DenialIsFinal(grants, q, now, p, g);
    ApprovalIsNotAllowed(grants, q, now, p);
  }
}
