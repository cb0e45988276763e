/** A passing pr-readiness gate can be attained: the gate contracts are satisfiable, and exactly when. */
module GateAttainability {
  import opened Results
  import opened Text
  import opened Roles
  import opened Gate
  import opened GateContract
  import opened GateProtocol

  // ---------------------------------------------------------------- reachability

  ghost predicate Reaches(c: Config, s: State, s': State) {
    exists states, steps :: IsRun(c, states, steps) && states[0] == s && states[|steps|] == s'
  }

  lemma ReachesItself(c: Config, s: State)
    ensures Reaches(c, s, s)
  {
    assert IsRun(c, [s], []);
  }

  lemma ReachesOn(c: Config, s: State, mid: State, s': State, step: Step)
    requires Apply(c, s, step) == Some(mid) && Reaches(c, mid, s')
    ensures Reaches(c, s, s')
  {
    var states, steps :| IsRun(c, states, steps) && states[0] == mid && states[|steps|] == s';
    RunCons(c, s, step, states, steps);
    assert IsRun(c, [s] + states, [step] + steps);
    assert ([s] + states)[|[step] + steps|] == s';
  }

  lemma ReachesOne(c: Config, s: State, s': State, step: Step)
    requires Apply(c, s, step) == Some(s')
    ensures Reaches(c, s, s')
  {
    ReachesItself(c, s');
    ReachesOn(c, s, s', s', step);
  }

  lemma {:induction false} ReachesJoined(c: Config, states: seq<State>, steps: seq<Step>, s': State)
    requires IsRun(c, states, steps) && Reaches(c, states[|steps|], s')
    ensures Reaches(c, states[0], s')
    decreases |steps|
  {
    if steps != [] {
      assert IsRun(c, states[1..], steps[1..]) by {
        forall i | 0 <= i < |steps[1..]| ensures Apply(c, states[1..][i], steps[1..][i]) == Some(states[1..][i + 1]) {
          assert Apply(c, states[i + 1], steps[i + 1]) == Some(states[i + 2]);
        }
      }
      ReachesJoined(c, states[1..], steps[1..], s');
      assert Apply(c, states[0], steps[0]) == Some(states[1]);
      ReachesOn(c, states[0], states[1], s', steps[0]);
    }
  }

  lemma ReachesThen(c: Config, s: State, mid: State, s': State)
    requires Reaches(c, s, mid) && Reaches(c, mid, s')
    ensures Reaches(c, s, s')
  {
    var states, steps :| IsRun(c, states, steps) && states[0] == s && states[|steps|] == mid;
    ReachesJoined(c, states, steps, s');
  }

  lemma ReachesKeepsInv(c: Config, s: State, s': State)
    requires Inv(c, s) && Reaches(c, s, s')
    ensures Inv(c, s')
  {
    var states, steps :| IsRun(c, states, steps) && states[0] == s && states[|steps|] == s';
    RunKeepsInv(c, states, steps, 0, |steps|);
  }

  // ---------------------------------------------------------------- a passing artifact for a role

  predicate AllTrimmed(xs: seq<string>) {
    forall i :: 0 <= i < |xs| ==> Trimmed(xs[i])
  }

  /** Procedures and checks as configuration loading leaves them. */
  predicate Tidy(roles: RolesSpec) {
    forall name :: name in {LOCAL_VERIFICATION, PRE_PR_AI_REVIEW, PR_READINESS} ==>
      RoleComplete(ByName(roles, name)) &&
      AllTrimmed(ByName(roles, name).producerProcedures) && AllTrimmed(ByName(roles, name).passCheckIDs)
  }

  function ProducerFor(role: RoleSpec): Producer {
    Producer(if role.producerProcedures == [] then "producer" else role.producerProcedures[0], "tool")
  }

  function PassChecks(ids: seq<string>): seq<CheckEntry> {
    if ids == [] then [CheckEntry("done", PASS, "done", "")]
    else [CheckEntry(ids[0], PASS, "done", "")] + PassChecks(ids[1..])
  }

  /** The artifact of role `name` that passes on `subject`. */
  function PassArtifact(roles: RolesSpec, name: string, inputs: seq<Input>, subject: Subject, now: string): Artifact {
    var role := ByName(roles, name);
    Artifact(role.gateID, PASS, now, subject, ProducerFor(role), inputs, PassChecks(role.passCheckIDs))
  }

  lemma {:induction false} PassChecksNormal(ids: seq<string>)
    requires AllTrimmed(ids) && NoBlank(ids)
    ensures NormalChecks(PassChecks(ids)) == Ok(PassChecks(ids))
  {
    var first := CheckEntry(if ids == [] then "done" else ids[0], PASS, "done", "");
    CheckNormal(first);
    if ids == [] {
      assert NormalChecks([first][1..]) == Ok([]) && [first] + [] == [first];
    } else {
      var rest := PassChecks(ids[1..]);
      PassChecksNormal(ids[1..]);
      assert ([first] + rest)[1..] == rest;
    }
  }

  /** Every check of the list has a summary and passes. */
  predicate AllPass(checks: seq<CheckEntry>) {
    forall i :: 0 <= i < |checks| ==> checks[i].id != "" && checks[i].summary != "" && checks[i].status == PASS
  }

  lemma {:induction false} PassChecksPass(ids: seq<string>)
    requires NoBlank(ids)
    ensures PassChecks(ids) != [] && AllPass(PassChecks(ids))
    ensures forall k :: 0 <= k < |ids| ==> HasPassingCheck(PassChecks(ids), ids[k])
  {
    if ids != [] {
      var rest := PassChecks(ids[1..]);
      PassChecksPass(ids[1..]);
      TrimFixpoint(ids[0]);
      forall k | 0 <= k < |ids| ensures HasPassingCheck(PassChecks(ids), ids[k]) {
        if k == 0 {
          assert PassChecks(ids)[0].id == ids[0];
        } else {
          assert ids[k] == ids[1..][k - 1];
          var i :| 0 <= i < |rest| && rest[i].id == ids[k] && rest[i].status == PASS;
          assert PassChecks(ids)[i + 1] == rest[i];
        }
      }
    }
  }

  lemma CheckNormal(check: CheckEntry)
    requires Trimmed(check.id) && check.id != "" && check.status == PASS && check.summary == "done"
             && check.evidence == ""
    ensures ValidateCheck(check).None? && NormalCheck(check) == check
  {
    assert Trimmed("done") && Trimmed(PASS);
    TrimFixpoint(check.id);
    TrimFixpoint(PASS);
    TrimFixpoint("done");
  }

  lemma {:induction false} ChecksPass(art: Artifact, ids: seq<string>)
    requires forall k :: 0 <= k < |ids| ==> HasPassingCheck(art.checks, ids[k])
    ensures CheckProblem(art, ids).None?
  {
    if ids != [] {
      assert HasPassingCheck(art.checks, ids[0]);
      forall k | 0 <= k < |ids[1..]| ensures HasPassingCheck(art.checks, ids[1..][k]) {
        assert ids[1..][k] == ids[k + 1];
      }
      ChecksPass(art, ids[1..]);
    }
  }

  lemma ProducerValid(role: RoleSpec)
    requires RoleComplete(role) && AllTrimmed(role.producerProcedures)
    ensures var p := ProducerFor(role);
            && ValidateProducer(p).None? && Producer(Trim(p.procedure), Trim(p.tool)) == p && p.procedure != ""
            && p.tool != ""
            && (role.producerProcedures == [] || p.procedure in role.producerProcedures)
  {
    NotBlank("tool");
    NotBlank("producer");
    TrimFixpoint("tool");
    TrimFixpoint(ProducerFor(role).procedure);
  }

  /** Inputs that are valid and in normal form. */
  predicate InputsInForm(inputs: seq<Input>, rfc: string -> bool) {
    forall i :: 0 <= i < |inputs| ==>
      ValidateInput(inputs[i], rfc).None? && NormalInput(inputs[i]) == inputs[i] && inputs[i].status == PASS
  }

  lemma StayCons(input: Input, rest: seq<Input>, rfc: string -> bool)
    requires ValidateInput(input, rfc).None? && NormalInput(input) == input && NormalInputs(rest, rfc) == Ok(rest)
    ensures NormalInputs([input] + rest, rfc) == Ok([input] + rest)
  {
    assert ([input] + rest)[1..] == rest;
  }

  lemma {:induction false} InputsStay(inputs: seq<Input>, rfc: string -> bool)
    requires InputsInForm(inputs, rfc)
    ensures NormalInputs(inputs, rfc) == Ok(inputs)
  {
    if inputs != [] {
      assert InputsInForm(inputs[1..], rfc) by {
        assert forall i :: 0 <= i < |inputs[1..]| ==> inputs[1..][i] == inputs[i + 1];
      }
      InputsStay(inputs[1..], rfc);
      StayCons(inputs[0], inputs[1..], rfc);
      assert inputs == [inputs[0]] + inputs[1..];
    }
  }

  lemma InputSchema(input: Input, rfc: string -> bool)
    requires ValidateInput(input, rfc).None? && NormalInput(input) == input && input.status == PASS
    ensures GateIDShape(input.gateID) && SubjectSchema(input.subject)
  {
    GateIDCharacterized(input.gateID);
    if input.subject.branch == "" {
      TrimFixpoint("");
    }
  }

  predicate GoodSubject(subject: Subject) {
    Trimmed(subject.branch) && subject.branch != "" && HeadSHAShape(subject.headSHA)
  }

  /** The passing artifact of a role meets the role's contract and the schema. */
  lemma ArtifactSound(roles: RolesSpec, name: string, inputs: seq<Input>, subject: Subject, now: string,
                      rfc: string -> bool)
    requires DistinctGates(roles) && Tidy(roles) && name in {LOCAL_VERIFICATION, PRE_PR_AI_REVIEW, PR_READINESS}
    requires GateIDShape(ByName(roles, name).gateID) && GoodSubject(subject) && InputsInForm(inputs, rfc)
    requires if name == PR_READINESS then ReadinessProblem(PassArtifact(roles, name, inputs, subject, now), roles).None?
             else inputs == []
    ensures Sound(PassArtifact(roles, name, inputs, subject, now), ByName(roles, name).gateID, roles)
  {
    var role, art := ByName(roles, name), PassArtifact(roles, name, inputs, subject, now);
    PassChecksPass(role.passCheckIDs);
    ProducerValid(role);
    forall i | 0 <= i < |inputs| ensures GateIDShape(inputs[i].gateID) && SubjectSchema(inputs[i].subject) {
      InputSchema(inputs[i], rfc);
    }
    SchemaMet(art);
    ContractMet(roles, name, art);
  }

  lemma SchemaMet(art: Artifact)
    requires GateIDShape(art.gateID) && art.status == PASS && SubjectSchema(art.subject)
    requires art.producer.procedure != "" && art.producer.tool != "" && AllPass(art.checks)
    requires forall i :: 0 <= i < |art.inputs| ==>
               GateIDShape(art.inputs[i].gateID) && art.inputs[i].status == PASS && SubjectSchema(art.inputs[i].subject)
    ensures SchemaValid(art)
  {
  }

  lemma ContractMet(roles: RolesSpec, name: string, art: Artifact)
    requires DistinctGates(roles) && name in {LOCAL_VERIFICATION, PRE_PR_AI_REVIEW, PR_READINESS}
    requires art.gateID == ByName(roles, name).gateID && art.checks != []
    requires var ps := ByName(roles, name).producerProcedures; ps == [] || art.producer.procedure in ps
    requires forall k :: 0 <= k < |ByName(roles, name).passCheckIDs| ==>
               HasPassingCheck(art.checks, ByName(roles, name).passCheckIDs[k])
    requires if name == PR_READINESS then ReadinessProblem(art, roles).None? else art.inputs == []
    ensures ContractProblem(art, roles).None?
  {
    assert RoleOf(roles, art.gateID) == Some(name);
    ChecksPass(art, ByName(roles, name).passCheckIDs);
  }

  lemma ArtifactBuilds(roles: RolesSpec, name: string, inputs: seq<Input>, subject: Subject, now: string,
                       rfc: string -> bool)
    requires Tidy(roles) && name in {LOCAL_VERIFICATION, PRE_PR_AI_REVIEW, PR_READINESS}
    requires GoodSubject(subject) && InputsInForm(inputs, rfc)
    requires Sound(PassArtifact(roles, name, inputs, subject, now), ByName(roles, name).gateID, roles)
    ensures var role := ByName(roles, name);
            Build(role.gateID, PASS, ProducerFor(role), inputs, PassChecks(role.passCheckIDs), subject, now, roles,
                  rfc) ==
            Ok(PassArtifact(roles, name, inputs, subject, now))
  {
    var role := ByName(roles, name);
    PassChecksNormal(role.passCheckIDs);
    ProducerValid(role);
    InputsStay(inputs, rfc);
    NotBlank(subject.branch);
    assert Trimmed(PASS);
    TrimFixpoint(PASS);
  }

  // ---------------------------------------------------------------- recording and resolving

  /** HEAD is attached to a named branch at a full commit id, process id `pid` is free and `now` is a time stamp. */
  predicate Ready(c: Config, s: State, pid: nat, now: string) {
    && s.branch.OnBranch? && !Blank(s.branch.raw) && HeadSHAShape(Trim(s.head))
    && pid !in s.drafts && Trimmed(now) && c.rfc(now)
  }

  function Here(s: State): GitView {
    GitView(s.branch, Some(s.head))
  }

  function SubjectHere(s: State): Subject
    requires s.branch.OnBranch?
  {
    Subject(HeadSHA(Here(s)), BranchName(Here(s)))
  }

  lemma HereGood(c: Config, s: State, pid: nat, now: string)
    requires Ready(c, s, pid, now)
    ensures GoodSubject(SubjectHere(s))
  {
    TrimFixpoint(s.branch.raw);
  }

  /** Branch, HEAD and the records in progress are as before, and no resolved input is lost. */
  predicate SamePlace(s: State, s': State) {
    s'.branch == s.branch && s'.head == s.head && s'.drafts == s.drafts && s.resolved <= s'.resolved
  }

  /** The passing artifact can be recorded: three steps of one process. */
  lemma RecordPass(c: Config, s: State, pid: nat, name: string, inputs: seq<Input>, now: string) returns (s': State)
    requires Ready(c, s, pid, now) && DistinctGates(c.roles) && Tidy(c.roles)
    requires name in {LOCAL_VERIFICATION, PRE_PR_AI_REVIEW, PR_READINESS} && GateIDShape(ByName(c.roles, name).gateID)
    requires InputsInForm(inputs, c.rfc) && forall i :: 0 <= i < |inputs| ==> inputs[i] in s.resolved
    requires var art := PassArtifact(c.roles, name, inputs, SubjectHere(s), now);
             if name == PR_READINESS then ReadinessProblem(art, c.roles).None? else inputs == []
    ensures Reaches(c, s, s') && SamePlace(s, s')
    ensures var art := PassArtifact(c.roles, name, inputs, SubjectHere(s), now);
            && s'.files == s.files[art.gateID := Document(art)] && Sound(art, art.gateID, c.roles)
  {
    var role, subject := ByName(c.roles, name), SubjectHere(s);
    var art := PassArtifact(c.roles, name, inputs, subject, now);
    HereGood(c, s, pid, now);
    ArtifactSound(c.roles, name, inputs, subject, now, c.rfc);
    ArtifactBuilds(c.roles, name, inputs, subject, now, c.rfc);
    GateIDCharacterized(role.gateID);
    var finish := Finish(pid, PASS, ProducerFor(role), inputs, PassChecks(role.passCheckIDs), now);
    assert FinishResult(c, Draft(role.gateID, s.branch, Some(s.head)), finish) == Ok(art);
    s' := s.(files := s.files[art.gateID := Document(art)], log := s.log + [art]);
    RecordRun(c, s, role.gateID, finish, art, s');
  }

  lemma ReachesInThree(c: Config, s: State, s1: State, s2: State, s': State, first: Step, second: Step, third: Step)
    requires Apply(c, s, first) == Some(s1) && Apply(c, s1, second) == Some(s2) && Apply(c, s2, third) == Some(s')
    ensures Reaches(c, s, s')
  {
    ReachesOne(c, s2, s', third);
    ReachesOn(c, s1, s2, s', second);
    ReachesOn(c, s, s1, s', first);
  }

  /** The two git reads of a record, one after the other. */
  lemma ReadsApply(c: Config, s: State, pid: nat, g: string, s1: State, s2: State)
    requires s1 == s.(drafts := s.drafts[pid := Draft(g, s.branch, None)])
    requires s2 == s.(drafts := s.drafts[pid := Draft(g, s.branch, Some(s.head))])
    ensures Apply(c, s, ReadBranch(pid, g)) == Some(s1) && Apply(c, s1, ReadHead(pid)) == Some(s2)
  {
    assert s1.drafts[pid := Draft(g, s.branch, Some(s.head))] == s2.drafts;
  }

  lemma RecordRun(c: Config, s: State, g: string, finish: Step, art: Artifact, s': State)
    requires finish.Finish? && finish.pid !in s.drafts && Trimmed(finish.now)
    requires forall i :: 0 <= i < |finish.inputs| ==> finish.inputs[i] in s.resolved
    requires FinishResult(c, Draft(g, s.branch, Some(s.head)), finish) == Ok(art)
    requires s' == s.(files := s.files[g := Document(art)], log := s.log + [art])
    ensures Reaches(c, s, s')
  {
    var s1 := s.(drafts := s.drafts[finish.pid := Draft(g, s.branch, None)]);
    var s2 := s.(drafts := s.drafts[finish.pid := Draft(g, s.branch, Some(s.head))]);
    ReadsApply(c, s, finish.pid, g, s1, s2);
    FinishApplies(c, s, g, finish, art, s2, s');
    ReachesInThree(c, s, s1, s2, s', ReadBranch(finish.pid, g), ReadHead(finish.pid), finish);
  }

  lemma FinishApplies(c: Config, s: State, g: string, finish: Step, art: Artifact, s2: State, s': State)
    requires finish.Finish? && finish.pid !in s.drafts && Trimmed(finish.now)
    requires forall i :: 0 <= i < |finish.inputs| ==> finish.inputs[i] in s.resolved
    requires FinishResult(c, Draft(g, s.branch, Some(s.head)), finish) == Ok(art)
    requires s2 == s.(drafts := s.drafts[finish.pid := Draft(g, s.branch, Some(s.head))])
    requires s' == s.(files := s.files[g := Document(art)], log := s.log + [art])
    ensures Apply(c, s2, finish) == Some(s')
  {
    assert s2.drafts - {finish.pid} == s.drafts;
  }

  /** The input that the passing artifact of a role resolves to. */
  function InputOf(roles: RolesSpec, name: string, subject: Subject, now: string): Input {
    ContentOf(PassArtifact(roles, name, [], subject, now))
  }

  lemma InputInForm(c: Config, name: string, subject: Subject, now: string)
    requires GateIDShape(ByName(c.roles, name).gateID) && GoodSubject(subject) && Trimmed(now) && c.rfc(now)
    ensures var input := InputOf(c.roles, name, subject, now);
            ValidateInput(input, c.rfc).None? && NormalInput(input) == input && input.status == PASS
  {
    GateIDCharacterized(ByName(c.roles, name).gateID);
    TrimFixpoint(subject.branch);
    TrimFixpoint(now);
    NotBlank(subject.branch);
    assert Trimmed(PASS);
    TrimFixpoint(PASS);
  }

  /** A required role can be proved here: record its gate and resolve it as an input. */
  lemma ProveRole(c: Config, s: State, pid: nat, name: string, now: string) returns (s': State)
    requires Ready(c, s, pid, now) && DistinctGates(c.roles) && Tidy(c.roles)
    requires name in VALID_REQUIRES && GateIDShape(ByName(c.roles, name).gateID)
    ensures Reaches(c, s, s') && SamePlace(s, s')
    ensures InputOf(c.roles, name, SubjectHere(s), now) in s'.resolved
  {
    var g := ByName(c.roles, name).gateID;
    var mid := RecordPass(c, s, pid, name, [], now);
    GateIDCharacterized(g);
    assert ResolveInput(mid.files, Here(mid), g, c.roles) == Ok(InputOf(c.roles, name, SubjectHere(s), now));
    var checked;
    checked, s' := ResolveOne(c, mid, Here(mid), g);
    ReachesOne(c, checked, s', TakeInput(g));
    ReachesOn(c, mid, checked, s', CheckPass(g, Here(mid)));
    ReachesThen(c, s, mid, s');
  }

  /** The inputs of the named roles, all on one subject. */
  function InputsFor(roles: RolesSpec, names: seq<string>, subject: Subject, now: string): seq<Input> {
    seq(|names|, i requires 0 <= i < |names| => InputOf(roles, names[i], subject, now))
  }

  ghost predicate AllIn(inputs: seq<Input>, known: set<Input>) {
    forall i :: 0 <= i < |inputs| ==> inputs[i] in known
  }

  predicate Provable(roles: RolesSpec, name: string) {
    name in VALID_REQUIRES && GateIDShape(ByName(roles, name).gateID)
  }

  lemma {:induction false} ProveRoles(c: Config, s: State, pid: nat, names: seq<string>, now: string)
    returns (s': State)
    requires Ready(c, s, pid, now) && DistinctGates(c.roles) && Tidy(c.roles)
    requires forall i :: 0 <= i < |names| ==> Provable(c.roles, names[i])
    ensures Reaches(c, s, s') && SamePlace(s, s')
    ensures AllIn(InputsFor(c.roles, names, SubjectHere(s), now), s'.resolved)
    decreases |names|
  {
    if names == [] {
      s' := s;
      ReachesItself(c, s);
    } else {
      assert Provable(c.roles, names[0]);
      var mid := ProveRole(c, s, pid, names[0], now);
      s' := ProveRoles(c, mid, pid, names[1..], now);
      ReachesThen(c, s, mid, s');
      InputsCons(c.roles, names, SubjectHere(s), now, s'.resolved);
    }
  }

  lemma InputsCons(roles: RolesSpec, names: seq<string>, subject: Subject, now: string, known: set<Input>)
    requires names != [] && InputOf(roles, names[0], subject, now) in known
    requires AllIn(InputsFor(roles, names[1..], subject, now), known)
    ensures AllIn(InputsFor(roles, names, subject, now), known)
  {
    var all, rest := InputsFor(roles, names, subject, now), InputsFor(roles, names[1..], subject, now);
    forall i | 0 <= i < |all| ensures all[i] in known {
      if i > 0 {
        assert all[i] == rest[i - 1];
      }
    }
  }

  // ---------------------------------------------------------------- readiness

  /** The roles whose gates pr-readiness requires. */
  function RequiredNames(roles: RolesSpec): seq<string> {
    (if roles.localVerification.gateID in RequiredGates(roles) then [LOCAL_VERIFICATION] else []) +
    (if roles.prePRAIReview.gateID in RequiredGates(roles) then [PRE_PR_AI_REVIEW] else [])
  }

  /** The readiness gate and every gate it requires have well-formed ids. */
  predicate ShapedGates(roles: RolesSpec) {
    GateIDShape(roles.prReadiness.gateID) && forall g :: g in RequiredGates(roles) ==> GateIDShape(g)
  }

  lemma RequiredNamed(roles: RolesSpec)
    requires Valid(roles)
    ensures var names := RequiredNames(roles);
            && (forall i :: 0 <= i < |names| ==>
                  names[i] in VALID_REQUIRES && ByName(roles, names[i]).gateID in RequiredGates(roles))
            && (forall g :: g in RequiredGates(roles) ==>
                  exists i :: 0 <= i < |names| && ByName(roles, names[i]).gateID == g)
  {
    RequiredGatesOfRoles(roles);
    var names := RequiredNames(roles);
    forall g | g in RequiredGates(roles) ensures exists i :: 0 <= i < |names| && ByName(roles, names[i]).gateID == g {
      if g == roles.localVerification.gateID {
        assert names[0] == LOCAL_VERIFICATION;
      } else {
        assert g == roles.prePRAIReview.gateID;
        assert names[|names| - 1] == PRE_PR_AI_REVIEW;
      }
    }
  }

  lemma InputsMeetReadiness(roles: RolesSpec, subject: Subject, now: string)
    requires Valid(roles)
    ensures var inputs := InputsFor(roles, RequiredNames(roles), subject, now);
            ReadinessProblem(PassArtifact(roles, PR_READINESS, inputs, subject, now), roles).None?
  {
    var names := RequiredNames(roles);
    var inputs := InputsFor(roles, names, subject, now);
    RequiredNamed(roles);
    ReadinessIff(PassArtifact(roles, PR_READINESS, inputs, subject, now), roles);
    forall g | g in RequiredGates(roles) ensures g in PassingInputGates(inputs) {
      var i :| 0 <= i < |names| && ByName(roles, names[i]).gateID == g;
      assert inputs[i].gateID == g && inputs[i].status == PASS;
    }
  }

  ghost predicate PassReported(c: Config, s: State, view: GitView) {
    Reports(s.files, view, c.roles.prReadiness.gateID, c.roles, PASS)
  }

  lemma InputsHere(c: Config, names: seq<string>, subject: Subject, now: string)
    requires forall i :: 0 <= i < |names| ==> Provable(c.roles, names[i])
    requires GoodSubject(subject) && Trimmed(now) && c.rfc(now)
    ensures InputsInForm(InputsFor(c.roles, names, subject, now), c.rfc)
  {
    forall i | 0 <= i < |names|
      ensures var input := InputsFor(c.roles, names, subject, now)[i];
              ValidateInput(input, c.rfc).None? && NormalInput(input) == input && input.status == PASS
    {
      assert Provable(c.roles, names[i]);
      InputInForm(c, names[i], subject, now);
    }
  }

  lemma StoredPassReported(c: Config, s: State, view: GitView, art: Artifact)
    requires art.gateID == c.roles.prReadiness.gateID && Sound(art, art.gateID, c.roles) && GateIDShape(art.gateID)
    requires art.gateID in s.files && s.files[art.gateID] == Document(art)
    requires art.status == PASS && Current(view, art.subject)
    ensures PassReported(c, s, view)
  {
    GateIDCharacterized(art.gateID);
  }

  /** From any state on a named branch, a run of resolved proofs leads to a pass of pr-readiness right there. */
  lemma Attained(c: Config, s: State, pid: nat, now: string) returns (s': State)
    requires Ready(c, s, pid, now) && Valid(c.roles) && Tidy(c.roles) && ShapedGates(c.roles)
    ensures Reaches(c, s, s') && s'.branch == s.branch && s'.head == s.head && PassReported(c, s', Here(s))
  {
    var names, subject := RequiredNames(c.roles), SubjectHere(s);
    var inputs := InputsFor(c.roles, names, subject, now);
    NamesProvable(c.roles);
    HereGood(c, s, pid, now);
    var mid := ProveRoles(c, s, pid, names, now);
    InputsHere(c, names, subject, now);
    InputsMeetReadiness(c.roles, subject, now);
    s' := RecordPass(c, mid, pid, PR_READINESS, inputs, now);
    ReachesThen(c, s, mid, s');
    StoredPassReported(c, s', Here(s), PassArtifact(c.roles, PR_READINESS, inputs, subject, now));
  }

  lemma NamesProvable(roles: RolesSpec)
    requires Valid(roles) && ShapedGates(roles)
    ensures forall i :: 0 <= i < |RequiredNames(roles)| ==> Provable(roles, RequiredNames(roles)[i])
  {
    RequiredNamed(roles);
  }

  /** A reported pass shows that the gates have well-formed ids. */
  lemma PassShaped(c: Config, s: State, view: GitView)
    requires DistinctGates(c.roles) && Inv(c, s) && PassReported(c, s, view)
    ensures ShapedGates(c.roles)
  {
    var k := ReadyState(c, s, view);
    var subject := Subject(HeadSHA(view), BranchName(view));
    GateIDCharacterized(c.roles.prReadiness.gateID);
    assert GoodRecord(c, s, s.log[k]);
    forall g | g in RequiredGates(c.roles) ensures GateIDShape(g) {
      assert HasProof(s.log[k].inputs, g, subject);
      var i :| 0 <= i < |s.log[k].inputs| && IsProof(s.log[k].inputs[i], g, subject);
    }
  }

  /** From every reachable state on a named branch a pr-readiness pass can still be reached, even with inputs from
      resolution only, if and only if the readiness gate and the gates it requires have well-formed ids. */
  lemma AttainableIff(c: Config, states: seq<State>, steps: seq<Step>, pid: nat, now: string)
    requires IsRun(c, states, steps) && Init(states[0]) && Valid(c.roles) && Tidy(c.roles)
    requires Ready(c, states[|steps|], pid, now)
    ensures (exists s', view :: Reaches(c, states[|steps|], s') && PassReported(c, s', view)) <==> ShapedGates(c.roles)
  {
    var s := states[|steps|];
    if ShapedGates(c.roles) {
      var s' := Attained(c, s, pid, now);
    }
    if exists s', view :: Reaches(c, s, s') && PassReported(c, s', view) {
      var s', view :| Reaches(c, s, s') && PassReported(c, s', view);
      ReachableInv(c, states, steps, |steps|);
      ReachesKeepsInv(c, s, s');
      PassShaped(c, s', view);
    }
  }

  // ---------------------------------------------------------------- configured roles are tidy

  lemma MergeTidy(base: RoleSpec, change: RoleSpec)
    requires AllTrimmed(base.producerProcedures) && AllTrimmed(base.passCheckIDs)
    ensures AllTrimmed(MergeRole(base, change).producerProcedures) && AllTrimmed(MergeRole(base, change).passCheckIDs)
  {
    TrimmedNonEmptyClean(change.producerProcedures);
    TrimmedNonEmptyClean(change.passCheckIDs);
  }

  lemma DefaultsTidy()
    ensures AllTrimmed(DEFAULTS.localVerification.producerProcedures)
            && AllTrimmed(DEFAULTS.localVerification.passCheckIDs)
    ensures AllTrimmed(DEFAULTS.prePRAIReview.producerProcedures) && AllTrimmed(DEFAULTS.prePRAIReview.passCheckIDs)
    ensures AllTrimmed(DEFAULTS.prReadiness.producerProcedures) && AllTrimmed(DEFAULTS.prReadiness.passCheckIDs)
  {
  }

  lemma RolesTidy(roles: RolesSpec)
    requires Valid(roles)
    requires AllTrimmed(roles.localVerification.producerProcedures) && AllTrimmed(roles.localVerification.passCheckIDs)
    requires AllTrimmed(roles.prePRAIReview.producerProcedures) && AllTrimmed(roles.prePRAIReview.passCheckIDs)
    requires AllTrimmed(roles.prReadiness.producerProcedures) && AllTrimmed(roles.prReadiness.passCheckIDs)
    ensures Tidy(roles)
  {
  }

  /** Whatever a repository configures, valid effective roles are tidy. */
  lemma EffectiveTidy(configured: Option<RolesSpec>)
    requires Valid(Effective(configured))
    ensures Tidy(Effective(configured))
  {
    DefaultsTidy();
    if configured.Some? {
      MergeTidy(DEFAULTS.localVerification, configured.value.localVerification);
      MergeTidy(DEFAULTS.prePRAIReview, configured.value.prePRAIReview);
      MergeTidy(DEFAULTS.prReadiness, configured.value.prReadiness);
    }
    RolesTidy(Effective(configured));
  }

  /** A configured gate id as the configuration schema allows it, or none. */
  predicate SchemaGate(role: RoleSpec) {
    Blank(role.gateID) || GateIDShape(role.gateID)
  }

  lemma MergeShaped(base: RoleSpec, change: RoleSpec)
    requires GateIDShape(base.gateID) && SchemaGate(change)
    ensures GateIDShape(MergeRole(base, change).gateID)
  {
    GateIDCharacterized(change.gateID);
  }

  /** Two words of identifier characters with a hyphen between them. */
  lemma Hyphenated(a: string, b: string)
    requires a != "" && b != ""
    requires (forall i :: 0 <= i < |a| ==> IdChar(a[i])) && (forall i :: 0 <= i < |b| ==> IdChar(b[i]))
    ensures GateIDShape(a + "-" + b)
  {
    var s := a + "-" + b;
    forall i | 0 <= i < |s| ensures IdChar(s[i]) <==> i != |a|
                            ensures i == |a| ==> s[i] == '-'
    {
      if i < |a| {
        assert s[i] == a[i];
      } else if i > |a| {
        assert s[i] == b[i - |a| - 1];
      }
    }
  }

  lemma VerificationShaped()
    ensures GateIDShape(DEFAULTS.localVerification.gateID)
  {
    Hyphenated("local", "verification");
    assert DEFAULTS.localVerification.gateID == "local" + "-" + "verification";
  }

  lemma ReviewShaped()
    ensures GateIDShape(DEFAULTS.prePRAIReview.gateID)
  {
    Hyphenated("local", "coderabbit");
    assert DEFAULTS.prePRAIReview.gateID == "local" + "-" + "coderabbit";
  }

  lemma ReadinessShaped()
    ensures GateIDShape(DEFAULTS.prReadiness.gateID)
  {
    Hyphenated("pr", "readiness");
    assert DEFAULTS.prReadiness.gateID == "pr" + "-" + "readiness";
  }

  lemma AllShaped(roles: RolesSpec)
    requires Valid(roles)
    requires GateIDShape(roles.localVerification.gateID) && GateIDShape(roles.prePRAIReview.gateID)
    requires GateIDShape(roles.prReadiness.gateID)
    ensures ShapedGates(roles)
  {
    RequiredGatesOfRoles(roles);
  }

  /** Whatever configuration loading accepts, schema and validation together, leaves a pass attainable. */
  lemma ConfiguredAttainable(configured: Option<RolesSpec>)
    requires Valid(Effective(configured))
    requires configured.Some? ==>
               && SchemaGate(configured.value.localVerification) && SchemaGate(configured.value.prePRAIReview)
               && SchemaGate(configured.value.prReadiness)
    ensures Tidy(Effective(configured)) && ShapedGates(Effective(configured))
  {
    EffectiveTidy(configured);
    VerificationShaped();
    ReviewShaped();
    ReadinessShaped();
    if configured.Some? {
      MergeShaped(DEFAULTS.localVerification, configured.value.localVerification);
      MergeShaped(DEFAULTS.prePRAIReview, configured.value.prePRAIReview);
      MergeShaped(DEFAULTS.prReadiness, configured.value.prReadiness);
    }
    AllShaped(Effective(configured));
  }
}
