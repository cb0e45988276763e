/** Runtime gate artifacts: building, storing, re-reading and deriving freshness (`internal/gate/artifact.go`). */
module Gate {
  import opened Results
  import opened Json
  import opened Text
  import opened Roles

  const PASS := "pass"
  const FAIL := "fail"
  const SKIPPED := "skipped"
  const MISSING := "missing"
  const INVALID := "invalid"
  const STALE := "stale"

  datatype CheckEntry = CheckEntry(id: string, status: string, summary: string, evidence: string)
  datatype Subject = Subject(headSHA: string, branch: string)
  datatype Producer = Producer(procedure: string, tool: string)
  datatype Input = Input(gateID: string, status: string, subject: Subject, recordedAt: string)
  datatype Artifact = Artifact(
    gateID: string, status: string, recordedAt: string, subject: Subject, producer: Producer,
    inputs: seq<Input>, checks: seq<CheckEntry>)

  datatype GateError =
    | EmptyGateID | InvalidGateID | BranchUnknown | DetachedHead | HeadUnknown
    | BadStatus | BadSubject | BadProducer | BadRecordedAt | BadCheck
    | NoChecks | ProducerNotAllowed | UnexpectedInputs | MissingCheck(id: string) | CheckNotPassing(id: string)
    | InputSubjectDiffers(gateID: string) | InputsMissing(gateIDs: set<string>)
    | SchemaInvalid | NotFound | Unreadable | GateIDDiffers

  /** `None` is Go's nil error. */
  type Problem = Option<GateError>

  // ---------------------------------------------------------------- identifiers

  predicate IdChar(c: char) {
    'a' <= c <= 'z' || '0' <= c <= '9'
  }

  /** `^[a-z0-9]+(?:-[a-z0-9]+)*$`: runs of identifier characters separated by single hyphens. */
  predicate GateIDShape(s: string) {
    && s != "" && IdChar(s[0]) && IdChar(s[|s| - 1])
    && (forall i :: 0 <= i < |s| ==> IdChar(s[i]) || s[i] == '-')
    && (forall i :: 0 < i < |s| ==> IdChar(s[i - 1]) || IdChar(s[i]))
  }

  /** `^[0-9a-f]{40}$`. */
  predicate HeadSHAShape(s: string) {
    |s| == 40 && forall i :: 0 <= i < 40 ==> '0' <= s[i] <= '9' || 'a' <= s[i] <= 'f'
  }

  function ValidateGateID(gateID: string): Problem {
    var trimmed := Trim(gateID);
    if trimmed == "" then Some(EmptyGateID)
    else if gateID != trimmed || !GateIDShape(trimmed) then Some(InvalidGateID)
    else None
  }

  lemma GateIDCharacterized(gateID: string)
    ensures ValidateGateID(gateID).None? <==> GateIDShape(gateID)
    ensures GateIDShape(gateID) ==> Trim(gateID) == gateID && CleanKey(gateID)
  {
    TrimFixpoint(gateID);
  }

  // ---------------------------------------------------------------- field validation

  function ValidateStatus(status: string): Problem {
    if Trim(status) in {PASS, FAIL} then None else Some(BadStatus)
  }

  function ValidateSubject(subject: Subject): Problem {
    if Blank(subject.branch) || !HeadSHAShape(subject.headSHA) then Some(BadSubject) else None
  }

  function ValidateProducer(p: Producer): Problem {
    if Blank(p.procedure) || Blank(p.tool) then Some(BadProducer) else None
  }

  function ValidateCheck(c: CheckEntry): Problem {
    if Blank(c.id) || Blank(c.summary) || Trim(c.status) !in {PASS, FAIL, SKIPPED} then Some(BadCheck) else None
  }

  /** `rfc` stands for `time.Parse(time.RFC3339, _)` succeeding. */
  function ValidateInput(input: Input, rfc: string -> bool): Problem {
    if ValidateGateID(input.gateID).Some? then ValidateGateID(input.gateID)
    else if ValidateStatus(input.status).Some? then ValidateStatus(input.status)
    else if ValidateSubject(input.subject).Some? then ValidateSubject(input.subject)
    else if !rfc(Trim(input.recordedAt)) then Some(BadRecordedAt)
    else None
  }

  function NormalInput(i: Input): Input {
    Input(Trim(i.gateID), Trim(i.status), Subject(i.subject.headSHA, Trim(i.subject.branch)), Trim(i.recordedAt))
  }

  function NormalCheck(c: CheckEntry): CheckEntry {
    CheckEntry(Trim(c.id), Trim(c.status), Trim(c.summary), Trim(c.evidence))
  }

  function NormalInputs(inputs: seq<Input>, rfc: string -> bool): Result<seq<Input>, GateError> {
    if inputs == [] then Ok([])
    else match ValidateInput(inputs[0], rfc)
      case Some(e) => Err(e)
      case None =>
        match NormalInputs(inputs[1..], rfc)
        case Err(e) => Err(e)
        case Ok(rest) => Ok([NormalInput(inputs[0])] + rest)
  }

  function NormalChecks(checks: seq<CheckEntry>): Result<seq<CheckEntry>, GateError> {
    if checks == [] then Ok([])
    else match ValidateCheck(checks[0])
      case Some(e) => Err(e)
      case None =>
        match NormalChecks(checks[1..])
        case Err(e) => Err(e)
        case Ok(rest) => Ok([NormalCheck(checks[0])] + rest)
  }

  // ---------------------------------------------------------------- gate contracts

  predicate HasCheck(checks: seq<CheckEntry>, id: string) {
    exists i :: 0 <= i < |checks| && checks[i].id == id
  }

  predicate HasPassingCheck(checks: seq<CheckEntry>, id: string) {
    exists i :: 0 <= i < |checks| && checks[i].id == id && checks[i].status == PASS
  }

  predicate SubjectsEqual(a: Subject, b: Subject) {
    a.headSHA == b.headSHA && Trim(a.branch) == Trim(b.branch)
  }

  /** `runtimeGateRoleByGateID`: the first role bound to the gate. */
  function RoleOf(roles: RolesSpec, gateID: string): Option<string> {
    if roles.localVerification.gateID == gateID then Some(LOCAL_VERIFICATION)
    else if roles.prePRAIReview.gateID == gateID then Some(PRE_PR_AI_REVIEW)
    else if roles.prReadiness.gateID == gateID then Some(PR_READINESS)
    else None
  }

  predicate RequiredForReadiness(name: string, role: RoleSpec) {
    name != PRE_PR_AI_REVIEW || role.required != Some(false)
  }

  /** The gates whose passing proof a pr-readiness pass must carry. */
  function RequiredGates(roles: RolesSpec): set<string> {
    set i | 0 <= i < |Requires(roles)|
            && !Blank(ByName(roles, Requires(roles)[i]).gateID)
            && RequiredForReadiness(Requires(roles)[i], ByName(roles, Requires(roles)[i]))
          :: ByName(roles, Requires(roles)[i]).gateID
  }

  /** Gates of the passing inputs. */
  function PassingInputGates(inputs: seq<Input>): set<string> {
    set i | 0 <= i < |inputs| && inputs[i].status == PASS :: inputs[i].gateID
  }

  function FirstForeignInput(inputs: seq<Input>, subject: Subject): Option<string> {
    if inputs == [] then None
    else if inputs[0].status == PASS && !SubjectsEqual(inputs[0].subject, subject) then Some(inputs[0].gateID)
    else FirstForeignInput(inputs[1..], subject)
  }

  function ReadinessProblem(art: Artifact, roles: RolesSpec): Problem {
    if art.status != PASS then None
    else match FirstForeignInput(art.inputs, art.subject)
      case Some(g) => Some(InputSubjectDiffers(g))
      case None =>
        var missing := RequiredGates(roles) - PassingInputGates(art.inputs);
        if missing == {} then None else Some(InputsMissing(missing))
  }

  /** `validateConfiguredPRReadinessGate`: flips the entries of a map of required inputs. */
  method ValidateReadiness(art: Artifact, roles: RolesSpec) returns (p: Problem)
    ensures p == ReadinessProblem(art, roles)
  {
    if art.status != PASS {
      return None;
    }
    var required: map<string, bool> := map[];
    for i := 0 to |Requires(roles)|
      invariant forall g :: g in required ==> !required[g]
      invariant required.Keys ==
                set j | 0 <= j < i && !Blank(ByName(roles, Requires(roles)[j]).gateID)
                        && RequiredForReadiness(Requires(roles)[j], ByName(roles, Requires(roles)[j]))
                      :: ByName(roles, Requires(roles)[j]).gateID
    {
      var role := ByName(roles, Requires(roles)[i]);
      if Trim(role.gateID) == "" || !RequiredForReadiness(Requires(roles)[i], role) {
        continue;
      }
      required := required[role.gateID := false];
    }
    assert required.Keys == RequiredGates(roles);
    for i := 0 to |art.inputs|
      invariant required.Keys == RequiredGates(roles)
      invariant FirstForeignInput(art.inputs, art.subject) == FirstForeignInput(art.inputs[i..], art.subject)
      invariant forall g :: g in required ==>
                  (required[g] <==> exists j :: 0 <= j < i && art.inputs[j].status == PASS && art.inputs[j].gateID == g)
    {
      var input := art.inputs[i];
      assert art.inputs[i..][0] == input && art.inputs[i..][1..] == art.inputs[i + 1..];
      if input.status != PASS {
        continue;
      }
      if !SubjectsEqual(input.subject, art.subject) {
        return Some(InputSubjectDiffers(input.gateID));
      }
      if input.gateID in required {
        required := required[input.gateID := true];
      }
    }
    var missing := set g | g in required && !required[g];
    assert missing == RequiredGates(roles) - PassingInputGates(art.inputs);
    return if missing == {} then None else Some(InputsMissing(missing));
  }

  function CheckProblem(art: Artifact, ids: seq<string>): Problem {
    if ids == [] then None
    else if !HasCheck(art.checks, ids[0]) then Some(MissingCheck(ids[0]))
    else if art.status == PASS && !HasPassingCheck(art.checks, ids[0]) then Some(CheckNotPassing(ids[0]))
    else CheckProblem(art, ids[1..])
  }

  /** `validateConfiguredGateRole`. */
  function RoleProblem(name: string, role: RoleSpec, art: Artifact): Problem {
    if role.producerProcedures != [] && art.producer.procedure !in role.producerProcedures then Some(ProducerNotAllowed)
    else if name != PR_READINESS && art.inputs != [] then Some(UnexpectedInputs)
    else CheckProblem(art, role.passCheckIDs)
  }

  /** `validateGateContract`. */
  function ContractProblem(art: Artifact, roles: RolesSpec): Problem {
    if art.checks == [] then Some(NoChecks)
    else match RoleOf(roles, art.gateID)
      case None => None
      case Some(name) =>
        var p := RoleProblem(name, ByName(roles, name), art);
        if p.Some? then p
        else if name == PR_READINESS then ReadinessProblem(art, roles)
        else None
  }

  // ---------------------------------------------------------------- schema

  predicate SubjectSchema(s: Subject) {
    HeadSHAShape(s.headSHA) && s.branch != ""
  }

  /** The constraints of `pkg/schema/gate-artifact.json` on a document of artifact shape. Date-time formats
      are annotations there and constrain nothing. */
  predicate SchemaValid(art: Artifact) {
    && GateIDShape(art.gateID) && art.status in {PASS, FAIL} && SubjectSchema(art.subject)
    && art.producer.procedure != "" && art.producer.tool != ""
    && (forall i :: 0 <= i < |art.inputs| ==>
          && GateIDShape(art.inputs[i].gateID) && art.inputs[i].status in {PASS, FAIL}
          && SubjectSchema(art.inputs[i].subject))
    && (forall i :: 0 <= i < |art.checks| ==>
          && art.checks[i].id != "" && art.checks[i].summary != "" && art.checks[i].status in {PASS, FAIL, SKIPPED})
  }

  // ---------------------------------------------------------------- building

  /** `buildArtifact`; `now` is the formatted recording time. */
  function Build(gateID: string, status: string, producer: Producer, inputs: seq<Input>, checks: seq<CheckEntry>,
                 subject: Subject, now: string, roles: RolesSpec, rfc: string -> bool): Result<Artifact, GateError>
  {
    if ValidateStatus(status).Some? then Err(BadStatus)
    else if ValidateSubject(subject).Some? then Err(BadSubject)
    else if ValidateProducer(producer).Some? then Err(BadProducer)
    else match NormalInputs(inputs, rfc)
      case Err(e) => Err(e)
      case Ok(normalInputs) =>
        match NormalChecks(checks)
        case Err(e) => Err(e)
        case Ok(normalChecks) =>
          var art := Artifact(gateID, Trim(status), now, subject,
                              Producer(Trim(producer.procedure), Trim(producer.tool)), normalInputs, normalChecks);
          if ContractProblem(art, roles).Some? then Err(ContractProblem(art, roles).value)
          else if !SchemaValid(art) then Err(SchemaInvalid)
          else Ok(art)
  }

  method BuildArtifact(gateID: string, status: string, producer: Producer, inputs: seq<Input>, checks: seq<CheckEntry>,
                       subject: Subject, now: string, roles: RolesSpec, rfc: string -> bool)
    returns (r: Result<Artifact, GateError>)
    ensures r == Build(gateID, status, producer, inputs, checks, subject, now, roles, rfc)
  {
    if ValidateStatus(status).Some? {
      return Err(BadStatus);
    }
    if ValidateSubject(subject).Some? {
      return Err(BadSubject);
    }
    if ValidateProducer(producer).Some? {
      return Err(BadProducer);
    }
    var normalInputs := CollectInputs(inputs, rfc);
    if normalInputs.Err? {
      return Err(normalInputs.error);
    }
    var normalChecks := CollectChecks(checks);
    if normalChecks.Err? {
      return Err(normalChecks.error);
    }
    var art := Artifact(gateID, Trim(status), now, subject,
                        Producer(Trim(producer.procedure), Trim(producer.tool)), normalInputs.value,
                          normalChecks.value);
    if ContractProblem(art, roles).Some? {
      return Err(ContractProblem(art, roles).value);
    }
    return if SchemaValid(art) then Ok(art) else Err(SchemaInvalid);
  }

  /** The list `done` continued by a collected remainder. */
  function Resume<T>(done: seq<T>, rest: Result<seq<T>, GateError>): Result<seq<T>, GateError> {
    match rest case Err(e) => Err(e) case Ok(more) => Ok(done + more)
  }

  lemma ResumeNext<T>(done: seq<T>, x: T, rest: Result<seq<T>, GateError>)
    ensures rest.Ok? ==> Resume(done, Ok([x] + rest.value)) == Resume(done + [x], rest)
  {
    if rest.Ok? {
      assert done + ([x] + rest.value) == (done + [x]) + rest.value;
    }
  }

  lemma ResumeNothing<T>(rest: Result<seq<T>, GateError>)
    ensures Resume([], rest) == rest
  {
    if rest.Ok? {
      assert [] + rest.value == rest.value;
    }
  }

  method CollectInputs(inputs: seq<Input>, rfc: string -> bool) returns (r: Result<seq<Input>, GateError>)
    ensures r == NormalInputs(inputs, rfc)
  {
    var out: seq<Input> := [];
    ResumeNothing(NormalInputs(inputs, rfc));
    assert inputs[0..] == inputs;
    for i := 0 to |inputs|
      invariant NormalInputs(inputs, rfc) == Resume(out, NormalInputs(inputs[i..], rfc))
    {
      ghost var rest := inputs[i..];
      assert rest[0] == inputs[i] && rest[1..] == inputs[i + 1..];
      var p := ValidateInput(inputs[i], rfc);
      if p.Some? {
        return Err(p.value);
      }
      ResumeNext(out, NormalInput(inputs[i]), NormalInputs(rest[1..], rfc));
      out := out + [NormalInput(inputs[i])];
    }
    assert inputs[|inputs|..] == [] && out + [] == out;
    return Ok(out);
  }

  method CollectChecks(checks: seq<CheckEntry>) returns (r: Result<seq<CheckEntry>, GateError>)
    ensures r == NormalChecks(checks)
  {
    var out: seq<CheckEntry> := [];
    ResumeNothing(NormalChecks(checks));
    assert checks[0..] == checks;
    for i := 0 to |checks|
      invariant NormalChecks(checks) == Resume(out, NormalChecks(checks[i..]))
    {
      ghost var rest := checks[i..];
      assert rest[0] == checks[i] && rest[1..] == checks[i + 1..];
      var p := ValidateCheck(checks[i]);
      if p.Some? {
        return Err(p.value);
      }
      ResumeNext(out, NormalCheck(checks[i]), NormalChecks(rest[1..]));
      out := out + [NormalCheck(checks[i])];
    }
    assert checks[|checks|..] == [] && out + [] == out;
    return Ok(out);
  }

  // ---------------------------------------------------------------- reading and freshness

  /** What one invocation reads from git: the raw output of `symbolic-ref` and of `rev-parse HEAD`. The two
      commands run one after the other, so the parts may stem from different moments. */
  datatype BranchRead = NoRepository | Detached | OnBranch(raw: string)
  datatype GitView = GitView(branch: BranchRead, head: Option<string>)

  function BranchName(view: GitView): string
    requires view.branch.OnBranch?
  {
    Trim(view.branch.raw)
  }

  function HeadSHA(view: GitView): string
    requires view.head.Some?
  {
    Trim(view.head.value)
  }

  /** The contents of one artifact file: a decodable document or anything else. */
  datatype File = Document(art: Artifact) | Garbage

  type Files = map<string, File>

  /** `readArtifactFile`. */
  function Read(files: Files, gateID: string, roles: RolesSpec): Result<Artifact, GateError> {
    if gateID !in files then Err(NotFound)
    else match files[gateID]
      case Garbage => Err(Unreadable)
      case Document(art) =>
        if !SchemaValid(art) then Err(SchemaInvalid)
        else if art.gateID != gateID then Err(GateIDDiffers)
        else if ContractProblem(art, roles).Some? then Err(ContractProblem(art, roles).value)
        else Ok(art)
  }

  /** The document re-validates as an artifact of the gate. */
  predicate Sound(art: Artifact, gateID: string, roles: RolesSpec) {
    art.gateID == gateID && SchemaValid(art) && ContractProblem(art, roles).None?
  }

  /** `Show`. */
  function Shown(files: Files, gateID: string, roles: RolesSpec): Result<Artifact, GateError> {
    if ValidateGateID(gateID).Some? then Err(ValidateGateID(gateID).value) else Read(files, gateID, roles)
  }

  lemma {:induction false} ChecksNeverNotFound(art: Artifact, ids: seq<string>)
    ensures CheckProblem(art, ids) != Some(NotFound)
  {
    if ids != [] {
      ChecksNeverNotFound(art, ids[1..]);
    }
  }

  lemma ContractNeverNotFound(art: Artifact, roles: RolesSpec)
    ensures ContractProblem(art, roles) != Some(NotFound)
  {
    if RoleOf(roles, art.gateID).Some? {
      ChecksNeverNotFound(art, ByName(roles, RoleOf(roles, art.gateID).value).passCheckIDs);
    }
  }

  /** Showing succeeds exactly when the file of a well-formed id holds a document that re-validates for that very
      id, and then returns that document; "not found" means exactly that there is no file. */
  lemma ShownIff(files: Files, gateID: string, roles: RolesSpec)
    ensures Shown(files, gateID, roles).Ok? <==>
            GateIDShape(gateID) && gateID in files && files[gateID].Document? && Sound(files[gateID].art, gateID, roles)
    ensures Shown(files, gateID, roles).Ok? ==> files[gateID] == Document(Shown(files, gateID, roles).value)
    ensures Shown(files, gateID, roles) == Err(NotFound) <==> GateIDShape(gateID) && gateID !in files
  {
    GateIDCharacterized(gateID);
    if gateID in files && files[gateID].Document? {
      ContractNeverNotFound(files[gateID].art, roles);
    }
  }

  datatype StatusResult = StatusResult(gateID: string, status: string, headSHA: string, branch: string,
                                       recordedAt: string)

  predicate Current(view: GitView, subject: Subject) {
    && view.branch.OnBranch? && view.head.Some?
    && subject == Subject(HeadSHA(view), BranchName(view))
  }

  /** `deriveStatus`: starts from the artifact's own status and overwrites it when the subject is not current. */
  method DeriveStatus(view: GitView, art: Artifact) returns (res: StatusResult)
    ensures res == Derived(view, art)
  {
    res := StatusResult(art.gateID, art.status, art.subject.headSHA, art.subject.branch, art.recordedAt);
    if view.branch.NoRepository? {
      res := res.(status := STALE);
      return;
    }
    if view.head.None? {
      res := res.(status := STALE);
      return;
    }
    if view.branch.Detached? {
      res := res.(status := STALE);
      return;
    }
    if art.subject.branch != BranchName(view) {
      res := res.(status := STALE);
      return;
    }
    if art.subject.headSHA != HeadSHA(view) {
      res := res.(status := STALE);
      return;
    }
  }

  function Derived(view: GitView, art: Artifact): StatusResult {
    StatusResult(art.gateID, if Current(view, art.subject) then art.status else STALE,
                 art.subject.headSHA, art.subject.branch, art.recordedAt)
  }

  /** `Status`. */
  function StatusOf(files: Files, view: GitView, gateID: string, roles: RolesSpec): Result<StatusResult, GateError> {
    if ValidateGateID(gateID).Some? then Err(ValidateGateID(gateID).value)
    else match Read(files, gateID, roles)
      case Err(NotFound) => Ok(StatusResult(gateID, MISSING, "", "", ""))
      case Err(_) => Ok(StatusResult(gateID, INVALID, "", "", ""))
      case Ok(art) => Ok(Derived(view, art))
  }

  /** The status reported for a well-named gate. */
  function StatusText(files: Files, view: GitView, gateID: string, roles: RolesSpec): string
    requires ValidateGateID(gateID).None?
  {
    StatusOf(files, view, gateID, roles).value.status
  }

  /** `statusMap`, without the explanatory reason text. */
  function StatusMap(res: StatusResult): Value {
    var m := map["status" := Str(res.status)];
    var m := if res.headSHA == "" then m else m["head_sha" := Str(res.headSHA)];
    var m := if res.branch == "" then m else m["branch" := Str(res.branch)];
    Obj(if res.recordedAt == "" then m else m["recorded_at" := Str(res.recordedAt)])
  }

  function GateTree(files: Files, view: GitView, g: string, roles: RolesSpec): Value
    requires ValidateGateID(g).None?
  {
    StatusMap(StatusOf(files, view, g, roles).value)
  }

  /** The gate statuses of a checkout as one signal tree per gate. */
  function GateTrees(files: Files, view: GitView, roles: RolesSpec): map<string, Value> {
    map g | g in files && ValidateGateID(g).None? :: GateTree(files, view, g, roles)
  }

  /** `LoadSignals`: no namespace at all when there is no gate. */
  function GateSignals(files: Files, view: GitView, roles: RolesSpec): Object {
    var trees := GateTrees(files, view, roles);
    if trees == map[] then map[] else map["gates" := Obj(trees)]
  }

  /** What `Record` returns for the git view it reads. */
  function Recorded(view: GitView, gateID: string, status: string, producer: Producer, inputs: seq<Input>,
                    checks: seq<CheckEntry>, now: string, roles: RolesSpec, rfc: string -> bool)
    : Result<Artifact, GateError>
  {
    if ValidateGateID(gateID).Some? then Err(ValidateGateID(gateID).value)
    else match view.branch
      case NoRepository => Err(BranchUnknown)
      case Detached => Err(DetachedHead)
      case OnBranch(_) =>
        if view.head.None? then Err(HeadUnknown)
        else Build(gateID, status, producer, inputs, checks, Subject(HeadSHA(view), BranchName(view)), now, roles, rfc)
  }

  function After(done: seq<Input>, rest: Result<seq<Input>, InputGateError>): Result<seq<Input>, InputGateError> {
    match rest case Err(e) => Err(e) case Ok(more) => Ok(done + more)
  }

  lemma AfterNext(done: seq<Input>, x: Input, rest: Result<seq<Input>, InputGateError>)
    ensures rest.Ok? ==> After(done, Ok([x] + rest.value)) == After(done + [x], rest)
  {
    if rest.Ok? {
      assert done + ([x] + rest.value) == (done + [x]) + rest.value;
    }
  }

  datatype InputGateError =
    | BlankGate | DuplicateGate(g: string) | StatusFailed(e: GateError) | NotPassing(g: string, status: string)
    | ShowFailed(e: GateError)

  function ContentOf(art: Artifact): Input {
    Input(art.gateID, art.status, art.subject, art.recordedAt)
  }

  /** One named gate resolved to an input: its status must be a fresh pass. */
  function ResolveInput(files: Files, view: GitView, gateID: string, roles: RolesSpec): Result<Input, InputGateError> {
    match StatusOf(files, view, gateID, roles)
    case Err(e) => Err(StatusFailed(e))
    case Ok(res) =>
      if res.status != PASS then Err(NotPassing(gateID, res.status))
      else
        match Read(files, gateID, roles)
        case Err(e) => Err(ShowFailed(e))
        case Ok(art) => Ok(ContentOf(art))
  }

  /** Resolution of the remaining names, `seen` being those already resolved. */
  function ResolveInputs(files: Files, view: GitView, ids: seq<string>, seen: set<string>, roles: RolesSpec)
    : Result<seq<Input>, InputGateError>
  {
    if ids == [] then Ok([])
    else
      var g := Trim(ids[0]);
      if g == "" then Err(BlankGate)
      else if g in seen then Err(DuplicateGate(g))
      else
        match ResolveInput(files, view, g, roles)
        case Err(e) => Err(e)
        case Ok(input) =>
          match ResolveInputs(files, view, ids[1..], seen + {g}, roles)
          case Err(e) => Err(e)
          case Ok(rest) => Ok([input] + rest)
  }

  /** The gate directory of one checkout under a fixed role contract. */
  class GateStore {
    var files: Files
    const roles: RolesSpec
    const rfc: string -> bool

    constructor (roles: RolesSpec, rfc: string -> bool)
      ensures files == map[] && this.roles == roles && this.rfc == rfc
    {
      files := map[];
      this.roles := roles;
      this.rfc := rfc;
    }

    /** Replaces exactly one file, and only when the artifact passes every check. */
    method Record(view: GitView, gateID: string, status: string, producer: Producer, inputs: seq<Input>,
                  checks: seq<CheckEntry>, now: string) returns (r: Result<Artifact, GateError>)
      modifies this`files
      ensures r == Recorded(view, gateID, status, producer, inputs, checks, now, roles, rfc)
      ensures files == if r.Ok? then old(files)[gateID := Document(r.value)] else old(files)
    {
      var p := ValidateGateID(gateID);
      if p.Some? {
        return Err(p.value);
      }
      if view.branch.NoRepository? {
        return Err(BranchUnknown);
      }
      if view.branch.Detached? {
        return Err(DetachedHead);
      }
      if view.head.None? {
        return Err(HeadUnknown);
      }
      r := BuildArtifact(gateID, status, producer, inputs, checks, Subject(HeadSHA(view), BranchName(view)), now,
                         roles, rfc);
      if r.Ok? {
        files := files[gateID := Document(r.value)];
      }
    }

    method Show(gateID: string) returns (r: Result<Artifact, GateError>)
      ensures r == Shown(files, gateID, roles)
      ensures r.Ok? <==>
                GateIDShape(gateID) && gateID in files && files[gateID].Document?
                  && Sound(files[gateID].art, gateID, roles)
      ensures r.Ok? ==> files[gateID] == Document(r.value)
    {
      ShownIff(files, gateID, roles);
      var p := ValidateGateID(gateID);
      if p.Some? {
        return Err(p.value);
      }
      r := Read(files, gateID, roles);
    }

    method Status(view: GitView, gateID: string) returns (r: Result<StatusResult, GateError>)
      ensures r == StatusOf(files, view, gateID, roles)
    {
      var p := ValidateGateID(gateID);
      if p.Some? {
        return Err(p.value);
      }
      match Read(files, gateID, roles)
      case Err(NotFound) => return Ok(StatusResult(gateID, MISSING, "", "", ""));
      case Err(_) => return Ok(StatusResult(gateID, INVALID, "", "", ""));
      case Ok(art) =>
        var res := DeriveStatus(view, art);
        return Ok(res);
    }

    /** `resolveInputGates`, when nothing else writes or moves HEAD while it runs. */
    method ResolveInputGates(view: GitView, ids: seq<string>) returns (r: Result<seq<Input>, InputGateError>)
      ensures r == ResolveInputs(files, view, ids, {}, roles)
    {
      var out: seq<Input> := [];
      var seen: set<string> := {};
      ghost var all := ResolveInputs(files, view, ids, {}, roles);
      assert ids[0..] == ids;
      assert all.Ok? ==> out + all.value == all.value;
      for i := 0 to |ids|
        invariant all == After(out, ResolveInputs(files, view, ids[i..], seen, roles))
      {
        assert ids[i..][0] == ids[i] && ids[i..][1..] == ids[i + 1..];
        var g := Trim(ids[i]);
        if g == "" {
          return Err(BlankGate);
        }
        if g in seen {
          return Err(DuplicateGate(g));
        }
        var input := ResolveInput(files, view, g, roles);
        if input.Err? {
          return Err(input.error);
        }
        AfterNext(out, input.value, ResolveInputs(files, view, ids[i + 1..], seen + {g}, roles));
        seen := seen + {g};
        out := out + [input.value];
      }
      assert ids[|ids|..] == [] && out + [] == out;
      return Ok(out);
    }

    /** Walks the directory in any order and derives one status per well-named file. */
    method LoadSignals(view: GitView) returns (signals: Object)
      ensures signals == GateSignals(files, view, roles)
    {
      var gates: map<string, Value> := map[];
      ghost var all := GateTrees(files, view, roles);
      var todo := files.Keys;
      while todo != {}
        invariant todo <= files.Keys
        invariant gates.Keys == all.Keys - todo
        invariant forall g :: g in gates ==> gates[g] == all[g]
        decreases todo
      {
        var g :| g in todo;
        todo := todo - {g};
        var p := ValidateGateID(g);
        if p.None? {
          var tree := LoadTree(view, g);
          gates := gates[g := tree];
        }
      }
      assert gates == all;
      return if gates == map[] then map[] else map["gates" := Obj(gates)];
    }

    method LoadTree(view: GitView, g: string) returns (tree: Value)
      requires ValidateGateID(g).None?
      ensures tree == GateTree(files, view, g, roles)
    {
      var res := Status(view, g);
      tree := StatusMap(res.value);
    }
  }
}
