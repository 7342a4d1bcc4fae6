/** The acceptance checks compiled from a request, and which such runs can succeed. */
module SpecificationChecks {
  import opened Wrappers
  import opened TaskGraph
  import opened RunModel
  import opened RunSuccess
  import opened RunOutcome
  import opened PlannedGraphs

  /** A model the request was taken to be about, with the number of fields found for it. */
  datatype Target = Target(name: string, fields: nat)

  function Required(task: TaskId, kind: string): Check {
    Check(Some(task), kind, true, CheckPending)
  }

  function FieldChecks(n: nat): seq<Check> {
    seq(n, i => Required("validate_and_verify", "model_field"))
  }

  /** A form and a list view; each is to exist and to load. */
  function ViewChecks(): seq<Check> {
    [ Required("implement_views", "xml_id"), Required("validate_and_verify", "view_load"),
      Required("implement_views", "xml_id"), Required("validate_and_verify", "view_load") ]
  }

  function AllFields(targets: seq<Target>): seq<Check> {
    if targets == [] then [] else FieldChecks(targets[0].fields) + AllFields(targets[1..])
  }

  /** Views are checked for the first two models. */
  function AllViews(targets: seq<Target>): seq<Check> {
    if |targets| == 0 then [] else if |targets| == 1 then ViewChecks() else ViewChecks() + ViewChecks()
  }

  /** Access rules are checked for the first three. */
  function AllAccess(targets: seq<Target>): seq<Check> {
    seq(if |targets| < 3 then |targets| else 3, i => Required("implement_security", "acl"))
  }

  function Compiled(upgrade: bool, targets: seq<Target>): seq<Check> {
    [ Required("validate_and_verify", if upgrade then "module_upgrade" else "module_install"),
      Required("validate_and_verify", "artifact_digest") ]
    + (AllFields(targets) + (AllViews(targets) + (AllAccess(targets) + [Required("validate_and_verify", "business_scenario")])))
  }

  lemma {:induction false} FieldsAreRewritable(targets: seq<Target>)
    ensures forall c <- AllFields(targets) :: Rewritable(c)
  {
    if targets != [] { FieldsAreRewritable(targets[1..]); }
  }

  /** The checks packaging cannot write belong to the views and access tasks, and only models bring them in. */
  lemma CompiledWithoutModels(upgrade: bool, t: TaskId)
    ensures Attainable(Compiled(upgrade, []), t)
  {
    var checks := Compiled(upgrade, []);
    assert forall c <- checks :: Rewritable(c);
    assert forall i :: 0 <= i < |checks| ==> checks[i] in checks;
    assert Owes(checks[0], Some("validate_and_verify"));
  }

  lemma AccessIsNotRewritable()
    ensures !Rewritable(Required("implement_security", "acl"))
  {
    assert "acl"[1] != "artifact_digest"[1];
    assert "implement_security"[0] != "validate_and_verify"[0];
  }

  lemma CompiledWithModels(upgrade: bool, targets: seq<Target>)
    requires targets != []
    ensures !Attainable(Compiled(upgrade, targets), "implement_security")
  {
    var checks, acl := Compiled(upgrade, targets), Required("implement_security", "acl");
    assert AllAccess(targets)[0] == acl;
    assert acl in checks;
    AccessIsNotRewritable();
    var i :| 0 <= i < |checks| && checks[i] == acl;
    assert Owes(checks[i], Some("implement_security"));
  }

  /**
   A run of the specification graph with the checks compiled for it can succeed if and only if
   the request named no model: nothing ever records the outcome of the view and access checks.
   */
  lemma CompiledRunSucceedsIff(s: State, repair: bool, upgrade: bool, targets: seq<Target>)
    requires Unstarted(s) && s.run.graph == BuildFromSpecification() && s.run.checks == Compiled(upgrade, targets)
    ensures CanSucceed(s, repair) <==> targets == []
  {
    var g := s.run.graph;
    SuccessExact(s, repair);
    ShippedIsPlanned(g);
    PlannedIsSound(g);
    if targets == [] {
      forall i | 0 <= i < |g| ensures Attainable(s.run.checks, g[i].id) {
        CompiledWithoutModels(upgrade, g[i].id);
      }
    } else {
      CompiledWithModels(upgrade, targets);
      assert g[3].id == "implement_security";
    }
  }
}
