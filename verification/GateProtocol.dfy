/** Runtime gates as a protocol: any number of `rgd` processes interleave with commits and checkouts, each
    reading branch, HEAD and artifacts at different moments. */
module GateProtocol {
  import opened Results
  import opened Text
  import opened Roles
  import opened Gate
  import opened GateContract

  // ---------------------------------------------------------------- what one successful record guarantees

  /** Branch names in recorded artifacts carry no surrounding white space. */
  predicate TrimmedBranches(art: Artifact) {
    && Trimmed(art.subject.branch)
    && forall i :: 0 <= i < |art.inputs| ==> Trimmed(art.inputs[i].subject.branch)
  }

  lemma StoredSound(branch: string, head: string, gateID: string, status: string, producer: Producer,
                    inputs: seq<Input>,
                    checks: seq<CheckEntry>, now: string, roles: RolesSpec, rfc: string -> bool)
    requires GateIDShape(gateID) && Acceptable(branch, head, status, producer, inputs, checks, rfc)
    requires Contract(Stored(branch, head, gateID, status, producer, inputs, checks, now), roles)
    ensures Sound(Stored(branch, head, gateID, status, producer, inputs, checks, now), gateID, roles)
  {
    StoredValid(branch, head, gateID, status, producer, inputs, checks, now, rfc);
    ContractExact(Stored(branch, head, gateID, status, producer, inputs, checks, now), roles);
  }

  /** A successful record is sound under its own id, meets the contract of its gate, names the state git reported, and
      carries the given data without surrounding white space: inputs and checks one by one, statuses included. */
  lemma RecordedSound(view: GitView, gateID: string, status: string, producer: Producer, inputs: seq<Input>,
                      checks: seq<CheckEntry>, now: string, roles: RolesSpec, rfc: string -> bool)
    requires Recorded(view, gateID, status, producer, inputs, checks, now, roles, rfc).Ok?
    ensures var art := Recorded(view, gateID, status, producer, inputs, checks, now, roles, rfc).value;
            && GateIDShape(gateID) && Sound(art, gateID, roles) && Contract(art, roles) && TrimmedBranches(art)
            && Current(view, art.subject) && art.recordedAt == now && art.status == Trim(status)
            && art.producer == Producer(Trim(producer.procedure), Trim(producer.tool))
            && |art.inputs| == |inputs| && |art.checks| == |checks|
            && (forall i :: 0 <= i < |inputs| ==> art.inputs[i] == NormalInput(inputs[i]) == TrimmedInput(inputs[i]))
            && (forall i :: 0 <= i < |checks| ==> art.checks[i] == TrimmedCheck(checks[i]))
  {
    GateIDCharacterized(gateID);
    RecordedIff(view, gateID, status, producer, inputs, checks, now, roles, rfc);
    StoredSound(view.branch.raw, view.head.value, gateID, status, producer, inputs, checks, now, roles, rfc);
    TrimFixpoint(view.branch.raw);
    forall i | 0 <= i < |inputs|
      ensures NormalInput(inputs[i]) == TrimmedInput(inputs[i]) && Trimmed(TrimmedInput(inputs[i]).subject.branch)
    {
      InputExact(inputs[i], rfc);
      TrimFixpoint(inputs[i].subject.branch);
    }
  }

  /** Recording and reading back: `Show` returns what `Record` wrote, and other gates read as before. */
  lemma RecordThenRead(files: Files, art: Artifact, gateID: string, other: string, roles: RolesSpec)
    requires Sound(art, gateID, roles)
    ensures Read(files[gateID := Document(art)], gateID, roles) == Ok(art)
    ensures other != gateID ==> Read(files[gateID := Document(art)], other, roles) == Read(files, other, roles)
  {
  }

  // ---------------------------------------------------------------- the readiness contract

  /** `art` carries a passing input of every required gate on exactly `subject`. */
  predicate CarriesProofs(art: Artifact, roles: RolesSpec, subject: Subject) {
    forall g :: g in RequiredGates(roles) ==> HasProof(art.inputs, g, subject)
  }

  predicate HasProof(inputs: seq<Input>, gateID: string, subject: Subject) {
    exists i :: 0 <= i < |inputs| && IsProof(inputs[i], gateID, subject)
  }

  predicate IsProof(input: Input, gateID: string, subject: Subject) {
    input.gateID == gateID && input.status == PASS && input.subject == subject
  }

  lemma ReadinessRole(art: Artifact, roles: RolesSpec)
    requires DistinctGates(roles) && art.gateID == roles.prReadiness.gateID && ContractProblem(art, roles).None?
    ensures ReadinessProblem(art, roles).None?
  {
    assert RoleOf(roles, art.gateID) == Some(PR_READINESS);
  }

  /** `input` is the stored passing record of gate `g`, on the branch and HEAD of the view. */
  predicate IsFresh(files: Files, view: GitView, g: string, input: Input, roles: RolesSpec) {
    && input.gateID == g && input.status == PASS && Current(view, input.subject)
    && Read(files, g, roles).Ok? && input == ContentOf(Read(files, g, roles).value)
  }

  predicate AllFresh(files: Files, view: GitView, ids: seq<string>, inputs: seq<Input>, roles: RolesSpec) {
    |inputs| == |ids| && forall i :: 0 <= i < |ids| ==> IsFresh(files, view, Trim(ids[i]), inputs[i], roles)
  }

  /** The gates of the inputs are pairwise distinct and new. */
  predicate Distinct(inputs: seq<Input>, seen: set<string>) {
    && (forall i :: 0 <= i < |inputs| ==> inputs[i].gateID !in seen)
    && (forall i, j :: 0 <= i < j < |inputs| ==> inputs[i].gateID != inputs[j].gateID)
  }

  lemma DistinctCons(input: Input, rest: seq<Input>, seen: set<string>)
    requires input.gateID !in seen && Distinct(rest, seen + {input.gateID})
    ensures Distinct([input] + rest, seen)
  {
  }

  lemma FreshCons(files: Files, view: GitView, ids: seq<string>, input: Input, rest: seq<Input>, roles: RolesSpec)
    requires ids != [] && IsFresh(files, view, Trim(ids[0]), input, roles)
             && AllFresh(files, view, ids[1..], rest, roles)
    ensures AllFresh(files, view, ids, [input] + rest, roles)
  {
    var all := [input] + rest;
    forall i | 0 <= i < |ids| ensures IsFresh(files, view, Trim(ids[i]), all[i], roles) {
      if i > 0 {
        assert ids[i] == ids[1..][i - 1] && all[i] == rest[i - 1];
      }
    }
  }

  lemma ResolvedInputFresh(files: Files, view: GitView, g: string, roles: RolesSpec)
    requires ResolveInput(files, view, g, roles).Ok?
    ensures IsFresh(files, view, g, ResolveInput(files, view, g, roles).value, roles)
  {
  }

  /** How a successful resolution starts and goes on. */
  lemma ResolvedFirst(files: Files, view: GitView, ids: seq<string>, seen: set<string>, roles: RolesSpec)
    requires ids != [] && ResolveInputs(files, view, ids, seen, roles).Ok?
    ensures var g := Trim(ids[0]);
            var first, rest := ResolveInput(files, view, g, roles),
              ResolveInputs(files, view, ids[1..], seen + {g}, roles);
            && g !in seen && first.Ok? && rest.Ok?
            && ResolveInputs(files, view, ids, seen, roles).value == [first.value] + rest.value
  {
  }

  /** Resolved inputs are the stored passing records of the named gates, in order and without repetition, all on
      the branch and HEAD of the view. */
  lemma {:induction false} ResolvedInputsFresh(files: Files, view: GitView, ids: seq<string>, seen: set<string>,
                                               roles: RolesSpec)
    requires ResolveInputs(files, view, ids, seen, roles).Ok?
    ensures var inputs := ResolveInputs(files, view, ids, seen, roles).value;
            AllFresh(files, view, ids, inputs, roles) && Distinct(inputs, seen)
  {
    if ids != [] {
      var g := Trim(ids[0]);
      ResolvedFirst(files, view, ids, seen, roles);
      ResolvedInputFresh(files, view, g, roles);
      ResolvedInputsFresh(files, view, ids[1..], seen + {g}, roles);
      var first, rest := ResolveInput(files, view, g, roles).value,
        ResolveInputs(files, view, ids[1..], seen + {g}, roles).value;
      FreshCons(files, view, ids, first, rest, roles);
      DistinctCons(first, rest, seen);
    }
  }

  /** Two states that differ in what input resolution knows only. */
  predicate OnlyResolution(s: State, s': State) {
    s' == s.(checked := s'.checked, resolved := s'.resolved)
  }

  lemma ResolveOne(c: Config, s: State, view: GitView, g: string) returns (mid: State, s': State)
    requires ResolveInput(s.files, view, g, c.roles).Ok?
    ensures Apply(c, s, CheckPass(g, view)) == Some(mid) && Apply(c, mid, TakeInput(g)) == Some(s')
    ensures OnlyResolution(s, s') && s'.resolved == s.resolved + {ResolveInput(s.files, view, g, c.roles).value}
  {
    mid := s.(checked := s.checked + {g});
    s' := mid.(resolved := s.resolved + {ResolveInput(s.files, view, g, c.roles).value});
  }

  lemma RunCons(c: Config, s: State, step: Step, states: seq<State>, steps: seq<Step>)
    requires IsRun(c, states, steps) && Apply(c, s, step) == Some(states[0])
    ensures IsRun(c, [s] + states, [step] + steps)
  {
    var all, todo := [s] + states, [step] + steps;
    forall i | 0 <= i < |todo| ensures Apply(c, all[i], todo[i]) == Some(all[i + 1]) {
      if i > 0 {
        assert all[i] == states[i - 1] && todo[i] == steps[i - 1] && all[i + 1] == states[i];
      }
    }
  }

  lemma RunConsTwo(c: Config, s: State, mid: State, first: Step, second: Step, states: seq<State>, steps: seq<Step>)
    requires IsRun(c, states, steps) && Apply(c, s, first) == Some(mid) && Apply(c, mid, second) == Some(states[0])
    ensures IsRun(c, [s] + ([mid] + states), [first] + ([second] + steps))
    ensures ([s] + ([mid] + states))[|steps| + 2] == states[|steps|]
  {
    RunCons(c, mid, second, states, steps);
    RunCons(c, s, first, [mid] + states, [second] + steps);
  }

  /** Resolving a list of gates is a run of the protocol: it checks and takes gate after gate, touches neither files
      nor log, and ends having handed out exactly the resolved inputs. */
  lemma {:induction false} ResolutionIsSteps(c: Config, s: State, view: GitView, ids: seq<string>, seen: set<string>)
    returns (states: seq<State>, steps: seq<Step>)
    requires ResolveInputs(s.files, view, ids, seen, c.roles).Ok?
    ensures IsRun(c, states, steps) && states[0] == s && |steps| == 2 * |ids|
    ensures OnlyResolution(s, states[|steps|])
    ensures forall x :: x in states[|steps|].resolved <==>
                        x in s.resolved || x in ResolveInputs(s.files, view, ids, seen, c.roles).value
    decreases |ids|
  {
    states, steps := [s], [];
    if ids != [] {
      var g := Trim(ids[0]);
      ResolvedFirst(s.files, view, ids, seen, c.roles);
      var mid, next := ResolveOne(c, s, view, g);
      states, steps := ResolutionIsSteps(c, next, view, ids[1..], seen + {g});
      RunConsTwo(c, s, mid, CheckPass(g, view), TakeInput(g), states, steps);
      states, steps := [s] + ([mid] + states), [CheckPass(g, view)] + ([TakeInput(g)] + steps);
    }
  }

  /** What the pr-readiness contract means for any document, even one written by hand: a passing one carries,
      for every required gate, a passing input on its own subject up to white space around the branch. */
  lemma ReadinessContract(art: Artifact, roles: RolesSpec, g: string)
    requires DistinctGates(roles) && art.gateID == roles.prReadiness.gateID
    requires ContractProblem(art, roles).None? && art.status == PASS
    requires g in RequiredGates(roles)
    ensures exists i :: 0 <= i < |art.inputs| && art.inputs[i].gateID == g && art.inputs[i].status == PASS
                        && SubjectsEqual(art.inputs[i].subject, art.subject)
    ensures TrimmedBranches(art) ==> HasProof(art.inputs, g, art.subject)
  {
    ReadinessRole(art, roles);
    NoForeignInput(art.inputs, art.subject);
    assert g in PassingInputGates(art.inputs) by {
      assert g !in RequiredGates(roles) - PassingInputGates(art.inputs);
    }
    var i :| 0 <= i < |art.inputs| && art.inputs[i].status == PASS && art.inputs[i].gateID == g;
    TrimFixpoint(art.inputs[i].subject.branch);
    TrimFixpoint(art.subject.branch);
    assert TrimmedBranches(art) ==> IsProof(art.inputs[i], g, art.subject);
  }

  /** With valid roles, the required gates are exactly those of the named roles, less an optional AI review. */
  lemma RequiredGatesOfRoles(roles: RolesSpec)
    requires Valid(roles)
    ensures RequiredGates(roles) ==
            (if LOCAL_VERIFICATION in Requires(roles) then {roles.localVerification.gateID} else {}) +
            (if PRE_PR_AI_REVIEW in Requires(roles) && roles.prePRAIReview.required != Some(false)
             then {roles.prePRAIReview.gateID} else {})
    ensures roles.prReadiness.gateID !in RequiredGates(roles)
  {
    var named := Requires(roles);
    forall name | name in named && name in VALID_REQUIRES && RequiredForReadiness(name, ByName(roles, name))
      ensures ByName(roles, name).gateID in RequiredGates(roles)
    {
      var i :| 0 <= i < |named| && named[i] == name;
      assert ByName(roles, named[i]).gateID in RequiredGates(roles);
    }
  }

  /** What the built-in roles ask for, gate by gate, and nothing more. */
  lemma DefaultContracts(art: Artifact)
    ensures art.gateID == "local-verification" ==>
              (Contract(art, DEFAULTS) <==>
                 art.checks != [] && art.inputs == [] && art.producer.procedure in {"implement", "change-inspect"})
    ensures art.gateID == "local-coderabbit" ==>
              (Contract(art, DEFAULTS) <==>
                 && art.inputs == [] && art.producer.procedure == "change-inspect"
                 && Listed(art.checks, "local-coderabbit-cli")
                 && (art.status == "pass" ==> ListedAsPassed(art.checks, "local-coderabbit-cli")))
    ensures art.gateID == "pr-readiness" ==>
              (Contract(art, DEFAULTS) <==>
                 && art.producer.procedure == "change-inspect" && Listed(art.checks, "review-closure")
                 && (art.status == "pass" ==>
                       ListedAsPassed(art.checks, "review-closure") && MeetsReadiness(art, DEFAULTS)))
  {
    assert DEFAULTS.prePRAIReview.passCheckIDs[0] == "local-coderabbit-cli";
    assert DEFAULTS.prReadiness.passCheckIDs[0] == "review-closure";
  }

  /** A passing pr-readiness document of the built-in roles rests on a passed verification and a passed AI review. */
  lemma DefaultReadiness(art: Artifact)
    requires Contract(art, DEFAULTS) && art.gateID == "pr-readiness" && art.status == "pass"
    ensures exists x :: x in art.inputs && x.gateID == "local-verification" && x.status == "pass"
    ensures exists x :: x in art.inputs && x.gateID == "local-coderabbit" && x.status == "pass"
  {
    DefaultsValid();
    RequiredGatesOfRoles(DEFAULTS);
    assert Requires(DEFAULTS)[0] == LOCAL_VERIFICATION && Requires(DEFAULTS)[1] == PRE_PR_AI_REVIEW;
    assert MeetsReadiness(art, DEFAULTS);
  }

  // ---------------------------------------------------------------- the protocol

  /** A record in progress: the branch was read, and later the HEAD. */
  datatype Draft = Draft(gateID: string, branch: BranchRead, head: Option<string>)

  datatype State = State(
    branch: BranchRead, head: string,
    files: Files,
    drafts: map<nat, Draft>,
    checked: set<string>,      // gates that some process has found to pass while resolving inputs
    resolved: set<Input>,      // inputs that input resolution has handed out
    log: seq<Artifact>,        // successful records, oldest first
    seen: set<string>)         // every commit HEAD has been at

  datatype Step =
    | Commit(sha: string)
    | Checkout(name: string, sha: string)
    | Detach(sha: string)
    | ReadBranch(pid: nat, gateID: string)
    | ReadHead(pid: nat)
    | Finish(pid: nat, status: string, producer: Producer, inputs: seq<Input>, checks: seq<CheckEntry>, now: string)
    | CheckPass(gateID: string, view: GitView)  // any view: one torn by a concurrent checkout included
    | TakeInput(gateID: string)

  /** The fixed parameters of a run. `linked` says that records take their inputs from input resolution only. */
  datatype Config = Config(roles: RolesSpec, rfc: string -> bool, linked: bool)

  ghost predicate Init(s: State) {
    s.files == map[] && s.drafts == map[] && s.checked == {} && s.resolved == {} && s.log == []
      && s.seen == {Trim(s.head)}
  }

  function MoveHead(s: State, branch: BranchRead, sha: string): State {
    s.(branch := branch, head := sha, seen := s.seen + {Trim(sha)})
  }

  /** One atomic action. Enabled steps have exactly one successor. */
  function Apply(c: Config, s: State, step: Step): Option<State> {
    match step
    case Commit(sha) => Some(MoveHead(s, s.branch, sha))
    case Checkout(name, sha) => Some(MoveHead(s, OnBranch(name), sha))
    case Detach(sha) => Some(MoveHead(s, Detached, sha))
    case ReadBranch(pid, gateID) => Some(s.(drafts := s.drafts[pid := Draft(gateID, s.branch, None)]))
    case ReadHead(pid) =>
      if pid in s.drafts then Some(s.(drafts := s.drafts[pid := s.drafts[pid].(head := Some(s.head))])) else None
    case Finish(pid, status, producer, inputs, checks, now) =>
      if pid !in s.drafts || !Trimmed(now) then None
      else if c.linked && !(forall i :: 0 <= i < |inputs| ==> inputs[i] in s.resolved) then None
      else
        var d := s.drafts[pid];
        var r := Recorded(GitView(d.branch, d.head), d.gateID, status, producer, inputs, checks, now, c.roles, c.rfc);
        var after := s.(drafts := s.drafts - {pid});
        Some(if r.Err? then after
             else after.(files := s.files[d.gateID := Document(r.value)], log := s.log + [r.value]))
    case CheckPass(gateID, view) =>
      var r := StatusOf(s.files, view, gateID, c.roles);
      if r.Ok? && r.value.status == PASS then Some(s.(checked := s.checked + {gateID})) else None
    case TakeInput(gateID) =>
      var r := Read(s.files, gateID, c.roles);
      if gateID in s.checked && r.Ok? then Some(s.(resolved := s.resolved + {ContentOf(r.value)})) else None
  }

  /** The store and what processes know of it are as before. */
  predicate SameStore(s: State, s': State) {
    s'.files == s.files && s'.log == s.log && s'.checked == s.checked && s'.resolved == s.resolved
  }

  /** What git steps and git reads do: a commit keeps the branch, a checkout attaches it, a detachment leaves none,
      and a record in progress notes branch and HEAD as they are when it reads them. */
  lemma GitSteps(c: Config, s: State, name: string, sha: string, pid: nat, g: string)
    ensures var t := Apply(c, s, Commit(sha));
            t.Some? && t.value.branch == s.branch && t.value.head == sha && t.value.drafts == s.drafts
            && SameStore(s, t.value)
    ensures var t := Apply(c, s, Checkout(name, sha));
            t.Some? && t.value.branch == OnBranch(name) && t.value.head == sha && t.value.drafts == s.drafts
            && SameStore(s, t.value)
    ensures var t := Apply(c, s, Detach(sha));
            t.Some? && t.value.branch == Detached && t.value.head == sha && t.value.drafts == s.drafts
            && SameStore(s, t.value)
    ensures var t := Apply(c, s, ReadBranch(pid, g));
            t.Some? && t.value == s.(drafts := s.drafts[pid := Draft(g, s.branch, None)])
    ensures var t := Apply(c, s, ReadHead(pid));
            && (t.Some? <==> pid in s.drafts)
            && (t.Some? ==>
                  var d := s.drafts[pid];
                  t.value == s.(drafts := s.drafts[pid := Draft(d.gateID, d.branch, Some(s.head))]))
  {
  }

  ghost predicate IsRun(c: Config, states: seq<State>, steps: seq<Step>) {
    && |states| == |steps| + 1
    && forall i :: 0 <= i < |steps| ==> Apply(c, states[i], steps[i]) == Some(states[i + 1])
  }

  // ---------------------------------------------------------------- the invariant

  /** `input` is the content of the record at some position before `k`. */
  ghost predicate LoggedBefore(log: seq<Artifact>, k: nat, input: Input) {
    exists j :: 0 <= j < k <= |log| && input == ContentOf(log[j])
  }

  ghost predicate Linked(s: State) {
    && (forall x :: x in s.resolved ==> LoggedBefore(s.log, |s.log|, x))
    && (forall k, i :: 0 <= k < |s.log| && 0 <= i < |s.log[k].inputs| ==> LoggedBefore(s.log, k, s.log[k].inputs[i]))
  }

  /** Position `j` holds the last record of gate `g`. */
  ghost predicate IsLast(log: seq<Artifact>, j: int, g: string) {
    && 0 <= j < |log| && log[j].gateID == g
    && forall k :: j < k < |log| ==> log[k].gateID != g
  }

  /** The file of gate `g` holds the last logged record of `g`. */
  ghost predicate FromLog(s: State, g: string) {
    g in s.files && exists j :: IsLast(s.log, j, g) && s.files[g] == Document(s.log[j])
  }

  ghost predicate Inv(c: Config, s: State) {
    HeadsSeen(s) && FilesFromLog(s) && RecordsGood(c, s) && (c.linked ==> Linked(s))
  }

  /** HEAD and every HEAD read by a record in progress have been seen. */
  ghost predicate HeadsSeen(s: State) {
    && Trim(s.head) in s.seen
    && forall pid :: pid in s.drafts && s.drafts[pid].head.Some? ==> Trim(s.drafts[pid].head.value) in s.seen
  }

  ghost predicate FilesFromLog(s: State) {
    forall g :: g in s.files ==> FromLog(s, g)
  }

  ghost predicate RecordsGood(c: Config, s: State) {
    forall j :: 0 <= j < |s.log| ==> GoodRecord(c, s, s.log[j]) && s.log[j].gateID in s.files
  }

  ghost predicate GoodRecord(c: Config, s: State, art: Artifact) {
    Sound(art, art.gateID, c.roles) && TrimmedBranches(art) && art.subject.headSHA in s.seen && Trimmed(art.recordedAt)
  }

  lemma ContentIsNormal(c: Config, art: Artifact)
    requires SchemaValid(art) && TrimmedBranches(art) && Trimmed(art.recordedAt)
    ensures NormalInput(ContentOf(art)) == ContentOf(art)
  {
    GateIDCharacterized(art.gateID);
    TrimFixpoint(art.subject.branch);
    TrimFixpoint(art.recordedAt);
    assert Trimmed(PASS) && Trimmed(FAIL);
    TrimFixpoint(art.status);
  }

  lemma LoggedExtends(log: seq<Artifact>, art: Artifact, k: nat, input: Input)
    requires LoggedBefore(log, k, input)
    ensures LoggedBefore(log + [art], k, input)
  {
    var j :| 0 <= j < k <= |log| && input == ContentOf(log[j]);
    assert (log + [art])[j] == log[j];
  }

  lemma AppendKeepsFiles(s: State, s': State, g0: string, art: Artifact)
    requires FilesFromLog(s)
    requires s'.log == s.log + [art] && s'.files == s.files[g0 := Document(art)] && art.gateID == g0
    ensures FilesFromLog(s')
  {
    forall g | g in s'.files ensures FromLog(s', g) {
      if g == g0 {
        assert s'.log[|s.log|] == art;
        assert IsLast(s'.log, |s.log|, g);
      } else {
        assert FromLog(s, g);
        var j :| IsLast(s.log, j, g) && s.files[g] == Document(s.log[j]);
        assert s'.log[j] == s.log[j];
        assert IsLast(s'.log, j, g);
      }
    }
  }

  lemma AppendKeepsRecords(c: Config, s: State, s': State, art: Artifact)
    requires RecordsGood(c, s)
    requires s'.log == s.log + [art] && s'.seen == s.seen && GoodRecord(c, s', art)
    requires s'.files.Keys == s.files.Keys + {art.gateID}
    ensures RecordsGood(c, s')
  {
    forall j | 0 <= j < |s'.log| ensures GoodRecord(c, s', s'.log[j]) && s'.log[j].gateID in s'.files {
      if j < |s.log| {
        assert s'.log[j] == s.log[j] && GoodRecord(c, s, s.log[j]);
      }
    }
  }

  function FinishResult(c: Config, d: Draft, step: Step): Result<Artifact, GateError>
    requires step.Finish?
  {
    Recorded(GitView(d.branch, d.head), d.gateID, step.status, step.producer, step.inputs, step.checks, step.now,
             c.roles, c.rfc)
  }

  lemma FinishShape(c: Config, s: State, step: Step, s': State)
    requires step.Finish? && Apply(c, s, step) == Some(s')
    ensures step.pid in s.drafts && Trimmed(step.now)
    ensures c.linked ==> forall i :: 0 <= i < |step.inputs| ==> step.inputs[i] in s.resolved
    ensures var d := s.drafts[step.pid];
            var r := FinishResult(c, d, step);
            s' == if r.Err? then s.(drafts := s.drafts - {step.pid})
                  else s.(drafts := s.drafts - {step.pid}, files := s.files[d.gateID := Document(r.value)],
                          log := s.log + [r.value])
  {
  }

  /** The artifact of a finished record is good, whatever moments its branch and HEAD were read at. */
  lemma FinishGood(c: Config, s: State, step: Step)
    requires step.Finish? && step.pid in s.drafts && Trimmed(step.now) && HeadsSeen(s)
    requires FinishResult(c, s.drafts[step.pid], step).Ok?
    ensures var d := s.drafts[step.pid];
            var art := FinishResult(c, d, step).value;
            && GoodRecord(c, s, art) && art.gateID == d.gateID
            && |art.inputs| == |step.inputs|
            && forall i :: 0 <= i < |step.inputs| ==> art.inputs[i] == NormalInput(step.inputs[i])
  {
    var d := s.drafts[step.pid];
    RecordedSound(GitView(d.branch, d.head), d.gateID, step.status, step.producer, step.inputs, step.checks, step.now,
                  c.roles, c.rfc);
  }

  lemma FinishKeepsInv(c: Config, s: State, step: Step, s': State)
    requires Inv(c, s) && step.Finish? && Apply(c, s, step) == Some(s')
    ensures Inv(c, s') && s.log <= s'.log && s.seen <= s'.seen
  {
    FinishShape(c, s, step, s');
    var r := FinishResult(c, s.drafts[step.pid], step);
    if r.Ok? {
      FinishGood(c, s, step);
      RecordKeepsInv(c, s, step, s', r.value);
    } else {
      FramedInv(c, s, s');
    }
  }

  lemma RecordKeepsInv(c: Config, s: State, step: Step, s': State, art: Artifact)
    requires Inv(c, s) && step.Finish? && GoodRecord(c, s, art)
    requires s' == s.(drafts := s.drafts - {step.pid}, files := s.files[art.gateID := Document(art)],
                      log := s.log + [art])
    requires |art.inputs| == |step.inputs|
             && forall i :: 0 <= i < |step.inputs| ==> art.inputs[i] == NormalInput(step.inputs[i])
    requires c.linked ==> forall i :: 0 <= i < |step.inputs| ==> step.inputs[i] in s.resolved
    ensures Inv(c, s')
  {
    AppendKeepsFiles(s, s', art.gateID, art);
    AppendKeepsRecords(c, s, s', art);
    if c.linked {
      FinishKeepsLinks(c, s, step, s', art);
    }
  }

  lemma FinishKeepsLinks(c: Config, s: State, step: Step, s': State, art: Artifact)
    requires Linked(s) && step.Finish? && s'.log == s.log + [art] && s'.resolved == s.resolved
    requires RecordsGood(c, s)
    requires |art.inputs| == |step.inputs|
             && forall i :: 0 <= i < |step.inputs| ==> art.inputs[i] == NormalInput(step.inputs[i])
    requires forall i :: 0 <= i < |step.inputs| ==> step.inputs[i] in s.resolved
    ensures Linked(s')
  {
    forall x | x in s'.resolved ensures LoggedBefore(s'.log, |s'.log|, x) {
      var j :| 0 <= j < |s.log| && x == ContentOf(s.log[j]);
      assert s'.log[j] == s.log[j];
    }
    forall k, i | 0 <= k < |s'.log| && 0 <= i < |s'.log[k].inputs|
      ensures LoggedBefore(s'.log, k, s'.log[k].inputs[i])
    {
      if k < |s.log| {
        assert s'.log[k] == s.log[k];
        LoggedExtends(s.log, art, k, s.log[k].inputs[i]);
      } else {
        assert LoggedBefore(s.log, |s.log|, step.inputs[i]);
        var j :| 0 <= j < |s.log| && step.inputs[i] == ContentOf(s.log[j]);
        assert GoodRecord(c, s, s.log[j]);
        ContentIsNormal(c, s.log[j]);
        assert s'.log[j] == s.log[j];
      }
    }
  }

  /** Steps that neither write files nor hand out inputs keep the invariant. */
  lemma FramedInv(c: Config, s: State, s': State)
    requires Inv(c, s)
    requires s'.log == s.log && s'.files == s.files && s.seen <= s'.seen && HeadsSeen(s')
    requires c.linked ==> forall x :: x in s'.resolved ==> LoggedBefore(s.log, |s.log|, x)
    ensures Inv(c, s')
  {
    forall g | g in s'.files ensures FromLog(s', g) {
      assert FromLog(s, g);
      var j :| IsLast(s.log, j, g) && s.files[g] == Document(s.log[j]);
      assert IsLast(s'.log, j, g);
    }
    forall j | 0 <= j < |s'.log| ensures GoodRecord(c, s', s'.log[j]) && s'.log[j].gateID in s'.files {
      assert GoodRecord(c, s, s.log[j]);
    }
  }

  lemma OtherSteps(c: Config, s: State, step: Step, s': State)
    requires HeadsSeen(s) && Apply(c, s, step) == Some(s') && !step.Finish?
    ensures s'.log == s.log && s'.files == s.files && s.seen <= s'.seen && HeadsSeen(s')
    ensures s'.resolved == s.resolved ||
            (step.TakeInput? && Read(s.files, step.gateID, c.roles).Ok?
             && s'.resolved == s.resolved + {ContentOf(Read(s.files, step.gateID, c.roles).value)})
  {
  }

  lemma TakenInputLogged(c: Config, s: State, g: string)
    requires FilesFromLog(s) && Read(s.files, g, c.roles).Ok?
    ensures LoggedBefore(s.log, |s.log|, ContentOf(Read(s.files, g, c.roles).value))
  {
    assert FromLog(s, g);
    var j :| IsLast(s.log, j, g) && s.files[g] == Document(s.log[j]);
    assert Read(s.files, g, c.roles).value == s.log[j];
  }

  /** Every step keeps the invariant, extends the log and only adds to the commits seen. */
  lemma StepKeepsInv(c: Config, s: State, step: Step, s': State)
    requires Inv(c, s) && Apply(c, s, step) == Some(s')
    ensures Inv(c, s') && s.log <= s'.log && s.seen <= s'.seen
  {
    if step.Finish? {
      FinishKeepsInv(c, s, step, s');
    } else {
      OtherStepKeepsInv(c, s, step, s');
    }
  }

  lemma OtherStepKeepsInv(c: Config, s: State, step: Step, s': State)
    requires Inv(c, s) && Apply(c, s, step) == Some(s') && !step.Finish?
    ensures Inv(c, s') && s.log <= s'.log && s.seen <= s'.seen
  {
    OtherSteps(c, s, step, s');
    if step.TakeInput? && Read(s.files, step.gateID, c.roles).Ok? {
      TakenInputLogged(c, s, step.gateID);
    }
    FramedInv(c, s, s');
  }

  lemma RunStep(c: Config, states: seq<State>, steps: seq<Step>, n: nat)
    requires IsRun(c, states, steps) && n < |steps| && Inv(c, states[n])
    ensures Inv(c, states[n + 1]) && states[n].log <= states[n + 1].log && states[n].seen <= states[n + 1].seen
  {
    assert Apply(c, states[n], steps[n]) == Some(states[n + 1]);
    StepKeepsInv(c, states[n], steps[n], states[n + 1]);
  }

  lemma {:induction false} RunKeepsInv(c: Config, states: seq<State>, steps: seq<Step>, m: nat, n: nat)
    requires IsRun(c, states, steps) && m <= n <= |steps| && Inv(c, states[m])
    ensures Inv(c, states[n]) && states[m].log <= states[n].log && states[m].seen <= states[n].seen
  {
    if n > m {
      RunKeepsInv(c, states, steps, m, n - 1);
      RunStep(c, states, steps, n - 1);
    }
  }

  lemma InitInv(c: Config, s: State)
    requires Init(s)
    ensures Inv(c, s)
  {
  }

  /** Every state of a run from an initial state satisfies the invariant. */
  lemma ReachableInv(c: Config, states: seq<State>, steps: seq<Step>, n: nat)
    requires IsRun(c, states, steps) && Init(states[0]) && n <= |steps|
    ensures Inv(c, states[n])
  {
    InitInv(c, states[0]);
    RunKeepsInv(c, states, steps, 0, n);
  }

  // ---------------------------------------------------------------- safety over whole runs

  ghost predicate Reports(files: Files, view: GitView, g: string, roles: RolesSpec, status: string) {
    var r := StatusOf(files, view, g, roles);
    r.Ok? && r.value.status == status
  }

  /** `Show` returns the record at `j`, which is the last one of the gate, and `Status` under `view` reports its
      recorded verdict when the view is on the recorded subject and stale otherwise. */
  ghost predicate ReadsBack(c: Config, s: State, g: string, view: GitView, j: int) {
    && IsLast(s.log, j, g) && Shown(s.files, g, c.roles) == Ok(s.log[j]) && Contract(s.log[j], c.roles)
    && s.log[j].status in {PASS, FAIL}
    && Reports(s.files, view, g, c.roles, if Current(view, s.log[j].subject) then s.log[j].status else STALE)
  }

  lemma StateSafety(c: Config, s: State, g: string, view: GitView)
    requires Inv(c, s) && g in s.files
    ensures exists j :: ReadsBack(c, s, g, view, j)
  {
    assert FromLog(s, g);
    var j :| IsLast(s.log, j, g) && s.files[g] == Document(s.log[j]);
    assert GoodRecord(c, s, s.log[j]);
    GateIDCharacterized(g);
    assert Read(s.files, g, c.roles) == Ok(s.log[j]);
    ContractExact(s.log[j], c.roles);
    assert ReadsBack(c, s, g, view, j);
  }

  /** In every reachable state each file reads back as the last record of its gate, so no status is ever
      invalid; and whatever view a status call reads, pass or fail is reported only on the recorded subject. */
  lemma StoreSafety(c: Config, states: seq<State>, steps: seq<Step>, g: string, view: GitView)
    requires IsRun(c, states, steps) && Init(states[0]) && g in states[|steps|].files
    ensures exists j :: ReadsBack(c, states[|steps|], g, view, j)
  {
    ReachableInv(c, states, steps, |steps|);
    StateSafety(c, states[|steps|], g, view);
  }

  /** In every reachable state `Show` succeeds exactly for the gates that some successful record named. */
  lemma ShownIffRecorded(c: Config, states: seq<State>, steps: seq<Step>, g: string)
    requires IsRun(c, states, steps) && Init(states[0])
    ensures var s := states[|steps|];
            && (Shown(s.files, g, c.roles).Ok? <==> exists j :: 0 <= j < |s.log| && s.log[j].gateID == g)
            && (Shown(s.files, g, c.roles).Ok? ==>
                  exists j :: IsLast(s.log, j, g) && Shown(s.files, g, c.roles) == Ok(s.log[j]))
  {
    ReachableInv(c, states, steps, |steps|);
    var s := states[|steps|];
    if g in s.files {
      StateSafety(c, s, g, GitView(NoRepository, None));
      var j :| ReadsBack(c, s, g, GitView(NoRepository, None), j);
      assert s.log[j].gateID == g;
    }
  }

  /** The pr-readiness file is the record at `k`, is on `subject`, shows every check of its role as passed and carries
      its proofs; linked proofs are the content of earlier passing records at that subject, and every record of the
      log meets the contract of its own gate. */
  ghost predicate ProvedReady(c: Config, s: State, k: nat, subject: Subject) {
    && k < |s.log| && c.roles.prReadiness.gateID in s.files
    && s.files[c.roles.prReadiness.gateID] == Document(s.log[k])
    && s.log[k].subject == subject && CarriesProofs(s.log[k], c.roles, subject)
    && (forall id :: id in c.roles.prReadiness.passCheckIDs ==> ListedAsPassed(s.log[k].checks, id))
    && (forall j :: 0 <= j < |s.log| ==> Contract(s.log[j], c.roles))
    && (c.linked ==> forall g :: g in RequiredGates(c.roles) ==> ProvedBefore(s.log, k, g, subject))
  }

  lemma LinkedProof(c: Config, s: State, k: nat, g: string)
    requires DistinctGates(c.roles) && k < |s.log| && GoodRecord(c, s, s.log[k])
    requires s.log[k].gateID == c.roles.prReadiness.gateID && s.log[k].status == PASS && g in RequiredGates(c.roles)
    ensures HasProof(s.log[k].inputs, g, s.log[k].subject)
    ensures Linked(s) ==> ProvedBefore(s.log, k, g, s.log[k].subject)
  {
    var art := s.log[k];
    ReadinessContract(art, c.roles, g);
    var i :| 0 <= i < |art.inputs| && IsProof(art.inputs[i], g, art.subject);
    if Linked(s) {
      assert LoggedBefore(s.log, k, s.log[k].inputs[i]);
      var j :| 0 <= j < k && art.inputs[i] == ContentOf(s.log[j]);
      assert ProofFrom(s.log[k].inputs[i], s.log[j], g, art.subject);
    }
  }

  lemma LogMeetsContracts(c: Config, s: State)
    requires RecordsGood(c, s)
    ensures forall j :: 0 <= j < |s.log| ==> Contract(s.log[j], c.roles)
  {
    forall j | 0 <= j < |s.log| ensures Contract(s.log[j], c.roles) {
      assert GoodRecord(c, s, s.log[j]);
      ContractExact(s.log[j], c.roles);
    }
  }

  lemma ReadyState(c: Config, s: State, view: GitView) returns (k: nat)
    requires DistinctGates(c.roles) && Inv(c, s)
    requires var r := StatusOf(s.files, view, c.roles.prReadiness.gateID, c.roles);
             r.Ok? && r.value.status == PASS
    ensures view.branch.OnBranch? && view.head.Some?
    ensures ProvedReady(c, s, k, Subject(HeadSHA(view), BranchName(view)))
  {
    var gateID := c.roles.prReadiness.gateID;
    assert gateID in s.files;
    assert FromLog(s, gateID);
    var last :| IsLast(s.log, last, gateID) && s.files[gateID] == Document(s.log[last]);
    k := last;
    assert GoodRecord(c, s, s.log[k]);
    assert Current(view, s.log[k].subject) && s.log[k].status == PASS;
    LogMeetsContracts(c, s);
    assert Contract(s.log[k], c.roles);
    forall g | g in RequiredGates(c.roles)
      ensures HasProof(s.log[k].inputs, g, s.log[k].subject)
      ensures c.linked ==> ProvedBefore(s.log, k, g, s.log[k].subject)
    {
      LinkedProof(c, s, k, g);
    }
  }

  /** A pr-readiness pass, under whatever view the status call reads, carries a passing input of every required
      gate on exactly that branch and HEAD; and when inputs come only from input resolution, each of these
      inputs is the content of an earlier successful record of that gate at that subject. */
  lemma ReadinessPassIsProved(c: Config, states: seq<State>, steps: seq<Step>, view: GitView)
    requires Valid(c.roles) && IsRun(c, states, steps) && Init(states[0])
    requires var r := StatusOf(states[|steps|].files, view, c.roles.prReadiness.gateID, c.roles);
             r.Ok? && r.value.status == PASS
    ensures view.branch.OnBranch? && view.head.Some?
    ensures exists k :: ProvedReady(c, states[|steps|], k, Subject(HeadSHA(view), BranchName(view)))
  {
    ReachableInv(c, states, steps, |steps|);
    var k := ReadyState(c, states[|steps|], view);
  }

  /** The record at `k` carries a passing input of gate `g` at `subject` that is the content of an earlier record. */
  ghost predicate ProvedBefore(log: seq<Artifact>, k: nat, g: string, subject: Subject) {
    exists i, j :: 0 <= j < k < |log| && 0 <= i < |log[k].inputs| && ProofFrom(log[k].inputs[i], log[j], g, subject)
  }

  predicate ProofFrom(input: Input, record: Artifact, g: string, subject: Subject) {
    IsProof(input, g, subject) && input == ContentOf(record)
  }

  lemma ReportsOne(files: Files, view: GitView, g: string, roles: RolesSpec)
    ensures Reports(files, view, g, roles, STALE) ==>
              !Reports(files, view, g, roles, PASS) && !Reports(files, view, g, roles, FAIL)
    ensures g !in files ==> !Reports(files, view, g, roles, PASS) && !Reports(files, view, g, roles, FAIL)
  {
  }

  /** A gate whose file stems from the log before `n` is stale for a view at a SHA not seen then. */
  lemma OldRecordStale(c: Config, was: State, s: State, g: string, view: GitView)
    requires Inv(c, was) && Inv(c, s) && was.log <= s.log && view.head.Some? && HeadSHA(view) !in was.seen
    requires g in s.files && ValidateGateID(g).None?
    ensures Reports(s.files, view, g, c.roles, STALE) || RecordedAfter(s.log, |was.log|, g, HeadSHA(view))
  {
    assert FromLog(s, g);
    var j :| IsLast(s.log, j, g) && s.files[g] == Document(s.log[j]);
    assert GoodRecord(c, s, s.log[j]);
    assert Read(s.files, g, c.roles) == Ok(s.log[j]);
    if j < |was.log| {
      assert s.log[j] == was.log[j];
      assert GoodRecord(c, was, was.log[j]);
      assert !Current(view, s.log[j].subject);
    }
  }

  /** The log holds, at position `n` or later, a record of gate `g` at commit `sha`. */
  ghost predicate RecordedAfter(log: seq<Artifact>, n: nat, g: string, sha: string) {
    exists j :: n <= j < |log| && log[j].gateID == g && log[j].subject.headSHA == sha
  }

  /** A commit to a SHA never seen before makes every stored gate stale at once, and from then on a view at
      that SHA sees pass or fail only for gates recorded at that SHA after the commit. */
  lemma FreshCommitInvalidates(c: Config, states: seq<State>, steps: seq<Step>, n: nat, g: string, view: GitView)
    requires IsRun(c, states, steps) && Init(states[0])
    requires n < |steps| && steps[n].Commit? && Trim(steps[n].sha) !in states[n].seen
    requires view.head.Some? && HeadSHA(view) == Trim(steps[n].sha) && ValidateGateID(g).None?
    ensures g in states[n + 1].files ==> Reports(states[n + 1].files, view, g, c.roles, STALE)
    ensures Reports(states[|steps|].files, view, g, c.roles, PASS)
            || Reports(states[|steps|].files, view, g, c.roles, FAIL) ==>
              RecordedAfter(states[|steps|].log, |states[n + 1].log|, g, HeadSHA(view))
  {
    ReachableInv(c, states, steps, n);
    assert Apply(c, states[n], steps[n]) == Some(states[n + 1]);
    CommitStale(c, states[n], steps[n], states[n + 1], g, view);
    RunKeepsInv(c, states, steps, n + 1, |steps|);
    if g in states[|steps|].files {
      OldRecordStale(c, states[n], states[|steps|], g, view);
    }
    ReportsOne(states[|steps|].files, view, g, c.roles);
  }

  lemma CommitStale(c: Config, s: State, step: Step, s': State, g: string, view: GitView)
    requires Inv(c, s) && step.Commit? && Apply(c, s, step) == Some(s')
    requires view.head.Some? && HeadSHA(view) !in s.seen && ValidateGateID(g).None?
    ensures Inv(c, s') && s'.log == s.log
    ensures g in s'.files ==> Reports(s'.files, view, g, c.roles, STALE)
  {
    StepKeepsInv(c, s, step, s');
    if g in s'.files {
      OldRecordStale(c, s, s', g, view);
    }
  }
}
