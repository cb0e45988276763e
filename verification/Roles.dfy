/** Runtime gate roles: defaults, merging of repository overrides and validation
    (`internal/config/runtime_gates.go`). */
module Roles {
  import opened Results
  import opened Text
  import opened Filters

  datatype RoleSpec = RoleSpec(
    gateID: string, producerProcedures: seq<string>, passCheckIDs: seq<string>,
    passRequiresRoles: Option<seq<string>>, required: Option<bool>)

  datatype RolesSpec = RolesSpec(localVerification: RoleSpec, prePRAIReview: RoleSpec, prReadiness: RoleSpec)

  const LOCAL_VERIFICATION := "local_verification"
  const PRE_PR_AI_REVIEW := "pre_pr_ai_review"
  const PR_READINESS := "pr_readiness"

  const VALID_REQUIRES: set<string> := {LOCAL_VERIFICATION, PRE_PR_AI_REVIEW}

  const DEFAULTS := RolesSpec(
    RoleSpec("local-verification", ["implement", "change-inspect"], [], None, None),
    RoleSpec("local-coderabbit", ["change-inspect"], ["local-coderabbit-cli"], None, Some(true)),
    RoleSpec("pr-readiness", ["change-inspect"], ["review-closure"],
             Some([LOCAL_VERIFICATION, PRE_PR_AI_REVIEW]), None))

  const EMPTY_ROLE := RoleSpec("", [], [], None, None)

  function TrimmedNonEmpty(xs: seq<string>): seq<string> {
    if xs == [] then []
    else if Blank(xs[0]) then TrimmedNonEmpty(xs[1..])
    else [Trim(xs[0])] + TrimmedNonEmpty(xs[1..])
  }

  /** `cloneTrimmedNonEmpty`. */
  method CloneTrimmedNonEmpty(xs: seq<string>) returns (out: seq<string>)
    ensures out == TrimmedNonEmpty(xs)
  {
    out := [];
    for i := 0 to |xs|
      invariant TrimmedNonEmpty(xs) == out + TrimmedNonEmpty(xs[i..])
    {
      assert xs[i..][0] == xs[i] && xs[i..][1..] == xs[i + 1..];
      var trimmed := Trim(xs[i]);
      if trimmed != "" {
        out := out + [trimmed];
      }
    }
  }

  /** `mergeRuntimeGateRole`: fields an override leaves blank keep their default. */
  function MergeRole(base: RoleSpec, change: RoleSpec): RoleSpec {
    var procedures, checks := TrimmedNonEmpty(change.producerProcedures), TrimmedNonEmpty(change.passCheckIDs);
    RoleSpec(
      if Blank(change.gateID) then base.gateID else Trim(change.gateID),
      if procedures == [] then base.producerProcedures else procedures,
      if checks == [] then base.passCheckIDs else checks,
      match change.passRequiresRoles case None => base.passRequiresRoles case Some(rs) => Some(TrimmedNonEmpty(rs)),
      if change.required.Some? then change.required else base.required)
  }

  /** `EffectiveRuntimeGateRoles`; `None` is an absent configuration. */
  function Effective(configured: Option<RolesSpec>): RolesSpec {
    match configured
    case None => DEFAULTS
    case Some(c) => RolesSpec(
      MergeRole(DEFAULTS.localVerification, c.localVerification),
      MergeRole(DEFAULTS.prePRAIReview, c.prePRAIReview),
      MergeRole(DEFAULTS.prReadiness, c.prReadiness))
  }

  function ByName(roles: RolesSpec, name: string): RoleSpec {
    if name == LOCAL_VERIFICATION then roles.localVerification
    else if name == PRE_PR_AI_REVIEW then roles.prePRAIReview
    else if name == PR_READINESS then roles.prReadiness
    else EMPTY_ROLE
  }

  function Requires(roles: RolesSpec): seq<string> {
    match roles.prReadiness.passRequiresRoles case None => [] case Some(rs) => rs
  }

  // ---------------------------------------------------------------- validation

  /** `role` and `previous` count roles in the order of `InOrder`. */
  datatype RoleError =
    | BlankGateID(role: nat) | DuplicateGateID(role: nat, previous: nat)
    | BlankProcedure(role: nat) | BlankCheckID(role: nat) | BadRequires(index: nat)

  predicate NoBlank(xs: seq<string>) {
    forall i :: 0 <= i < |xs| ==> !Blank(xs[i])
  }

  predicate RoleComplete(role: RoleSpec) {
    !Blank(role.gateID) && NoBlank(role.producerProcedures) && NoBlank(role.passCheckIDs)
  }

  predicate DistinctGates(roles: RolesSpec) {
    && roles.localVerification.gateID != roles.prePRAIReview.gateID
    && roles.localVerification.gateID != roles.prReadiness.gateID
    && roles.prePRAIReview.gateID != roles.prReadiness.gateID
  }

  predicate KnownRequires(roles: RolesSpec) {
    forall i :: 0 <= i < |Requires(roles)| ==> Requires(roles)[i] in VALID_REQUIRES
  }

  /** A contract that configuration loading accepts. */
  predicate Valid(roles: RolesSpec) {
    && RoleComplete(roles.localVerification) && RoleComplete(roles.prePRAIReview) && RoleComplete(roles.prReadiness)
    && DistinctGates(roles) && KnownRequires(roles)
  }

  /** The reported fault is there. */
  predicate Faulty(roles: RolesSpec, e: RoleError) {
    var ordered := [roles.localVerification, roles.prePRAIReview, roles.prReadiness];
    match e
    case BlankGateID(i) => i < 3 && Trim(ordered[i].gateID) == ""
    case DuplicateGateID(i, j) => j < i < 3 && ordered[i].gateID == ordered[j].gateID
    case BlankProcedure(i) => i < 3 && exists x :: x in ordered[i].producerProcedures && Trim(x) == ""
    case BlankCheckID(i) => i < 3 && exists x :: x in ordered[i].passCheckIDs && Trim(x) == ""
    case BadRequires(k) =>
      k < |Requires(roles)| && Requires(roles)[k] != "local_verification" && Requires(roles)[k] != "pre_pr_ai_review"
  }

  lemma SomeBlank(xs: seq<string>)
    ensures !NoBlank(xs) <==> exists x :: x in xs && Trim(x) == ""
  {
  }

  method FirstBlank(xs: seq<string>) returns (found: bool)
    ensures found <==> !NoBlank(xs)
  {
    for i := 0 to |xs|
      invariant forall j :: 0 <= j < i ==> !Blank(xs[j])
    {
      if Trim(xs[i]) == "" {
        return true;
      }
    }
    return false;
  }

  /** The roles in the order in which validation visits them. */
  function InOrder(roles: RolesSpec): seq<RoleSpec> {
    [roles.localVerification, roles.prePRAIReview, roles.prReadiness]
  }

  /** `validateRuntimeGateRoles`. */
  method ValidateRoles(configured: Option<RolesSpec>) returns (r: Option<RoleError>)
    ensures r.None? <==> Valid(Effective(configured))
    ensures r.Some? ==> Faulty(Effective(configured), r.value)
  {
    r := ValidateEffective(Effective(configured));
  }

  method ValidateEffective(roles: RolesSpec) returns (r: Option<RoleError>)
    ensures r.None? <==> Valid(roles)
    ensures r.Some? ==> Faulty(roles, r.value)
  {
    var ordered := InOrder(roles);
    var seen: map<string, nat> := map[];
    for i := 0 to |ordered|
      invariant forall j :: 0 <= j < i ==> RoleComplete(ordered[j])
      invariant forall j, k :: 0 <= j < k < i ==> ordered[j].gateID != ordered[k].gateID
      invariant forall g :: g in seen ==> seen[g] < i && ordered[seen[g]].gateID == g
      invariant forall j :: 0 <= j < i ==> ordered[j].gateID in seen
    {
      var role := ordered[i];
      assert !RoleComplete(role) ==> !Valid(roles);
      if Trim(role.gateID) == "" {
        return Some(BlankGateID(i));
      }
      if role.gateID in seen {
        return Some(DuplicateGateID(i, seen[role.gateID]));
      }
      seen := seen[role.gateID := i];
      var blankProcedure := FirstBlank(role.producerProcedures);
      SomeBlank(role.producerProcedures);
      if blankProcedure {
        return Some(BlankProcedure(i));
      }
      var blankCheck := FirstBlank(role.passCheckIDs);
      SomeBlank(role.passCheckIDs);
      if blankCheck {
        return Some(BlankCheckID(i));
      }
    }
    assert RoleComplete(ordered[0]) && RoleComplete(ordered[1]) && RoleComplete(ordered[2]);
    assert ordered[0].gateID != ordered[1].gateID && ordered[0].gateID != ordered[2].gateID
           && ordered[1].gateID != ordered[2].gateID;
    r := ValidateRequires(roles);
  }

  method ValidateRequires(roles: RolesSpec) returns (r: Option<RoleError>)
    ensures r.None? <==> KnownRequires(roles)
    ensures r.Some? ==> Faulty(roles, r.value)
  {
    for i := 0 to |Requires(roles)|
      invariant forall j :: 0 <= j < i ==> Requires(roles)[j] in VALID_REQUIRES
    {
      if Requires(roles)[i] !in VALID_REQUIRES {
        return Some(BadRequires(i));
      }
    }
    return None;
  }

  // ---------------------------------------------------------------- what merging guarantees

  lemma {:induction false} TrimmedNonEmptyClean(xs: seq<string>)
    ensures forall i :: 0 <= i < |TrimmedNonEmpty(xs)| ==>
              !Blank(TrimmedNonEmpty(xs)[i]) && Trimmed(TrimmedNonEmpty(xs)[i])
  {
    if xs != [] {
      TrimmedNonEmptyClean(xs[1..]);
      TrimFixpoint(xs[0]);
    }
  }

  lemma NotBlank(s: string)
    requires s != "" && Trimmed(s)
    ensures !Blank(s)
  {
    TrimFixpoint(s);
  }

  lemma MergeComplete(base: RoleSpec, change: RoleSpec)
    requires RoleComplete(base) && Trimmed(base.gateID)
    ensures RoleComplete(MergeRole(base, change)) && Trimmed(MergeRole(base, change).gateID)
  {
    TrimFixpoint(change.gateID);
    TrimmedNonEmptyClean(change.producerProcedures);
    TrimmedNonEmptyClean(change.passCheckIDs);
  }

  lemma DefaultsValid()
    ensures Valid(DEFAULTS)
    ensures Trimmed(DEFAULTS.localVerification.gateID) && Trimmed(DEFAULTS.prePRAIReview.gateID)
    ensures Trimmed(DEFAULTS.prReadiness.gateID)
  {
    NotBlank("local-verification");
    NotBlank("local-coderabbit");
    NotBlank("pr-readiness");
    NotBlank("implement");
    NotBlank("change-inspect");
    NotBlank("local-coderabbit-cli");
    NotBlank("review-closure");
  }

  /** Whatever a repository configures, merged roles are complete: validation can only fail on two roles
      sharing a gate or on an unknown required role. */
  lemma EffectiveComplete(configured: Option<RolesSpec>)
    ensures var roles := Effective(configured);
            && Trimmed(roles.localVerification.gateID) && Trimmed(roles.prePRAIReview.gateID)
            && Trimmed(roles.prReadiness.gateID)
            && (Valid(roles) <==> DistinctGates(roles) && KnownRequires(roles))
  {
    DefaultsValid();
    if configured.Some? {
      MergeComplete(DEFAULTS.localVerification, configured.value.localVerification);
      MergeComplete(DEFAULTS.prePRAIReview, configured.value.prePRAIReview);
      MergeComplete(DEFAULTS.prReadiness, configured.value.prReadiness);
    }
  }

  // ---------------------------------------------------------------- how overrides win

  predicate Speaks(x: string) {
    Trim(x) != ""
  }

  function Cut(x: string): string {
    Trim(x)
  }

  /** The entries that are not blank, trimmed, in order. */
  function Spoken(xs: seq<string>): seq<string> {
    Map(Filter(xs, Speaks), Cut)
  }

  lemma {:induction false} SpokenIff(xs: seq<string>)
    ensures TrimmedNonEmpty(xs) == Spoken(xs)
    ensures Spoken(xs) == [] <==> forall x :: x in xs ==> Trim(x) == ""
  {
    if xs != [] {
      SpokenIff(xs[1..]);
      assert xs == [xs[0]] + xs[1..];
    }
  }

  /** Field by field, a configured value wins and a blank one leaves the default. */
  lemma OverrideWins(base: RoleSpec, change: RoleSpec)
    ensures var m := MergeRole(base, change);
            && (Trim(change.gateID) != "" ==> m.gateID == Trim(change.gateID))
            && (Trim(change.gateID) == "" ==> m.gateID == base.gateID)
            && ((exists x :: x in change.producerProcedures && Trim(x) != "") ==>
                  m.producerProcedures == Spoken(change.producerProcedures))
            && ((forall x :: x in change.producerProcedures ==> Trim(x) == "") ==>
                  m.producerProcedures == base.producerProcedures)
            && ((exists x :: x in change.passCheckIDs && Trim(x) != "") ==>
                  m.passCheckIDs == Spoken(change.passCheckIDs))
            && ((forall x :: x in change.passCheckIDs ==> Trim(x) == "") ==> m.passCheckIDs == base.passCheckIDs)
            && (change.passRequiresRoles.Some? ==> m.passRequiresRoles == Some(Spoken(change.passRequiresRoles.value)))
            && (change.passRequiresRoles.None? ==> m.passRequiresRoles == base.passRequiresRoles)
            && (change.required.Some? ==> m.required == change.required)
            && (change.required.None? ==> m.required == base.required)
  {
    SpokenIff(change.producerProcedures);
    SpokenIff(change.passCheckIDs);
    if change.passRequiresRoles.Some? {
      SpokenIff(change.passRequiresRoles.value);
    }
  }

  /** The roles that pr-readiness may require, by their configuration names. */
  lemma RequiresMeaning(roles: RolesSpec)
    ensures KnownRequires(roles) <==>
            forall name :: name in Requires(roles) ==> name == "local_verification" || name == "pre_pr_ai_review"
    ensures ByName(roles, "local_verification") == roles.localVerification
    ensures ByName(roles, "pre_pr_ai_review") == roles.prePRAIReview
    ensures ByName(roles, "pr_readiness") == roles.prReadiness
  {
    assert forall i :: 0 <= i < |Requires(roles)| ==> Requires(roles)[i] in Requires(roles);
  }

  /** A blank override changes nothing, and each role starts from its own default. */
  lemma BlankOverride(role: RoleSpec)
    ensures MergeRole(role, EMPTY_ROLE) == role
    ensures Effective(None) == DEFAULTS == Effective(Some(RolesSpec(EMPTY_ROLE, EMPTY_ROLE, EMPTY_ROLE)))
    ensures Effective(Some(RolesSpec(role, EMPTY_ROLE, EMPTY_ROLE))) ==
            DEFAULTS.(localVerification := MergeRole(DEFAULTS.localVerification, role))
    ensures Effective(Some(RolesSpec(EMPTY_ROLE, role, EMPTY_ROLE))) ==
            DEFAULTS.(prePRAIReview := MergeRole(DEFAULTS.prePRAIReview, role))
    ensures Effective(Some(RolesSpec(EMPTY_ROLE, EMPTY_ROLE, role))) ==
            DEFAULTS.(prReadiness := MergeRole(DEFAULTS.prReadiness, role))
  {
    MergeNothing(role);
    MergeNothing(DEFAULTS.localVerification);
    MergeNothing(DEFAULTS.prePRAIReview);
    MergeNothing(DEFAULTS.prReadiness);
  }

  lemma MergeNothing(base: RoleSpec)
    ensures MergeRole(base, EMPTY_ROLE) == base
  {
    TrimFixpoint("");
  }
}
