/** What it takes to record a gate, condition by condition, and what a reported status means. */
module GateContract {
  import opened Results
  import opened Json
  import opened Text
  import opened Roles
  import opened Gate

  // ---------------------------------------------------------------- the readiness contract

  lemma {:induction false} NoForeignInput(inputs: seq<Input>, subject: Subject)
    requires FirstForeignInput(inputs, subject).None?
    ensures forall i :: 0 <= i < |inputs| && inputs[i].status == PASS ==> SubjectsEqual(inputs[i].subject, subject)
  {
    if inputs != [] {
      NoForeignInput(inputs[1..], subject);
    }
  }

  /** The readiness contract in both directions: a passing document meets it exactly when all its passing inputs
      are on its subject and every required gate has one. */
  lemma ReadinessIff(art: Artifact, roles: RolesSpec)
    ensures ReadinessProblem(art, roles).None? <==>
            art.status == PASS ==>
              && (forall i :: 0 <= i < |art.inputs| && art.inputs[i].status == PASS ==>
                    SubjectsEqual(art.inputs[i].subject, art.subject))
              && (forall g :: g in RequiredGates(roles) ==> g in PassingInputGates(art.inputs))
  {
    if FirstForeignInput(art.inputs, art.subject).None? {
      NoForeignInput(art.inputs, art.subject);
      var missing := RequiredGates(roles) - PassingInputGates(art.inputs);
      assert missing == {} <==> forall g :: g in RequiredGates(roles) ==> g in PassingInputGates(art.inputs) by {
        assert forall g :: g in missing <==> g in RequiredGates(roles) && g !in PassingInputGates(art.inputs);
      }
    } else {
      SomeForeignInput(art.inputs, art.subject);
    }
  }

  lemma {:induction false} SomeForeignInput(inputs: seq<Input>, subject: Subject)
    requires FirstForeignInput(inputs, subject).Some?
    ensures exists i :: 0 <= i < |inputs| && inputs[i].status == PASS && !SubjectsEqual(inputs[i].subject, subject)
  {
    if !(inputs[0].status == PASS && !SubjectsEqual(inputs[0].subject, subject)) {
      SomeForeignInput(inputs[1..], subject);
      var i :| 0 <= i < |inputs[1..]| && inputs[1..][i].status == PASS
        && !SubjectsEqual(inputs[1..][i].subject, subject);
      assert inputs[i + 1] == inputs[1..][i];
    }
  }

  // ---------------------------------------------------------------- the contract of a gate

  predicate Listed(checks: seq<CheckEntry>, id: string) {
    exists c :: c in checks && c.id == id
  }

  predicate ListedAsPassed(checks: seq<CheckEntry>, id: string) {
    exists c :: c in checks && c.id == id && c.status == "pass"
  }

  /** The document names every check of the role, as passed if the document passes, and a producer of the role. */
  predicate MeetsRole(art: Artifact, role: RoleSpec) {
    && (forall id :: id in role.passCheckIDs ==> Listed(art.checks, id))
    && (art.status == "pass" ==> forall id :: id in role.passCheckIDs ==> ListedAsPassed(art.checks, id))
    && (role.producerProcedures == [] || art.producer.procedure in role.producerProcedures)
  }

  /** All passing inputs are on the subject of the document, and every required gate has one. */
  predicate MeetsReadiness(art: Artifact, roles: RolesSpec) {
    && (forall input :: input in art.inputs && input.status == "pass" ==>
          input.subject.headSHA == art.subject.headSHA && Trim(input.subject.branch) == Trim(art.subject.branch))
    && (forall g :: g in RequiredGates(roles) ==>
          exists input :: input in art.inputs && input.status == "pass" && input.gateID == g)
  }

  /** The whole contract. A gate that two roles claim answers to the first; a gate of no role needs a check only. */
  predicate Contract(art: Artifact, roles: RolesSpec) {
    && art.checks != []
    && if art.gateID == roles.localVerification.gateID then MeetsRole(art, roles.localVerification) && art.inputs == []
       else if art.gateID == roles.prePRAIReview.gateID then MeetsRole(art, roles.prePRAIReview) && art.inputs == []
       else if art.gateID == roles.prReadiness.gateID then
         MeetsRole(art, roles.prReadiness) && (art.status == "pass" ==> MeetsReadiness(art, roles))
       else true
  }

  lemma ListedIff(checks: seq<CheckEntry>, id: string)
    ensures HasCheck(checks, id) <==> Listed(checks, id)
    ensures HasPassingCheck(checks, id) <==> ListedAsPassed(checks, id)
  {
  }

  lemma {:induction false} ChecksExact(art: Artifact, ids: seq<string>)
    ensures CheckProblem(art, ids).None? <==>
            forall id :: id in ids ==>
              Listed(art.checks, id) && (art.status == "pass" ==> ListedAsPassed(art.checks, id))
  {
    if ids != [] {
      ListedIff(art.checks, ids[0]);
      ChecksExact(art, ids[1..]);
      assert ids == [ids[0]] + ids[1..];
    }
  }

  lemma RoleExact(name: string, role: RoleSpec, art: Artifact)
    ensures RoleProblem(name, role, art).None? <==> MeetsRole(art, role) && (name == PR_READINESS || art.inputs == [])
  {
    ChecksExact(art, role.passCheckIDs);
  }

  lemma ReadinessExact(art: Artifact, roles: RolesSpec)
    ensures ReadinessProblem(art, roles).None? <==> (art.status == "pass" ==> MeetsReadiness(art, roles))
  {
    ReadinessIff(art, roles);
    assert forall i :: 0 <= i < |art.inputs| ==> art.inputs[i] in art.inputs;
    forall g ensures g in PassingInputGates(art.inputs) <==>
                     exists input :: input in art.inputs && input.status == "pass" && input.gateID == g
    {
    }
  }

  /** The code accepts exactly the documents that meet the contract. */
  lemma ContractExact(art: Artifact, roles: RolesSpec)
    ensures ContractProblem(art, roles).None? <==> Contract(art, roles)
  {
    RoleExact(LOCAL_VERIFICATION, roles.localVerification, art);
    RoleExact(PRE_PR_AI_REVIEW, roles.prePRAIReview, art);
    RoleExact(PR_READINESS, roles.prReadiness, art);
    ReadinessExact(art, roles);
  }

  // ---------------------------------------------------------------- identifiers

  /** The characters of identifiers and of commit ids, by code. */
  lemma IdentifierCharacters(c: char)
    ensures IdChar(c) <==> 48 <= c as int <= 57 || 97 <= c as int <= 122
  {
  }

  lemma HeadSHAMeaning(s: string)
    ensures HeadSHAShape(s) <==>
            |s| == 40 && forall i :: 0 <= i < |s| ==> 48 <= s[i] as int <= 57 || 97 <= s[i] as int <= 102
  {
  }

  predicate Word(w: string) {
    w != "" && forall i :: 0 <= i < |w| ==> IdChar(w[i])
  }

  function Hyphenate(words: seq<string>): string
    requires words != []
  {
    if |words| == 1 then words[0] else words[0] + "-" + Hyphenate(words[1..])
  }

  predicate AllWords(words: seq<string>) {
    words != [] && forall i :: 0 <= i < |words| ==> Word(words[i])
  }

  lemma {:induction false} WordsShaped(words: seq<string>)
    requires AllWords(words)
    ensures GateIDShape(Hyphenate(words))
  {
    var w := words[0];
    if |words| > 1 {
      var t := Hyphenate(words[1..]);
      WordsShaped(words[1..]);
      var s := w + "-" + t;
      assert s[|w|] == '-';
      assert forall i :: 0 <= i < |w| ==> s[i] == w[i];
      assert forall i :: |w| < i < |s| ==> s[i] == t[i - |w| - 1];
    }
  }

  lemma TailShaped(s: string, k: nat)
    requires GateIDShape(s) && k < |s| - 1 && s[k + 1] == '-'
    ensures k + 2 < |s| && GateIDShape(s[k + 2..])
    ensures IdChar(s[k + 2..][0])
  {
    assert !IdChar('-');
    var t := s[k + 2..];
    assert IdChar(s[k + 2]) && t[0] == s[k + 2] && t[|t| - 1] == s[|s| - 1];
    assert forall i :: 0 <= i < |t| ==> t[i] == s[i + k + 2];
  }

  lemma {:induction false} ShapedWords(s: string, k: nat) returns (words: seq<string>)
    requires GateIDShape(s) && k < |s| && forall i :: 0 <= i <= k ==> IdChar(s[i])
    ensures AllWords(words) && Hyphenate(words) == s
    decreases |s| - k
  {
    if k == |s| - 1 {
      words := [s];
    } else if IdChar(s[k + 1]) {
      words := ShapedWords(s, k + 1);
    } else {
      var w, t := s[..k + 1], s[k + 2..];
      assert s == w + "-" + t;
      TailShaped(s, k);
      var rest := ShapedWords(t, 0);
      words := [w] + rest;
      assert words[1..] == rest;
    }
  }

  /** Gate ids are non-empty words of identifier characters joined by single hyphens. */
  lemma GateIDWords(s: string)
    ensures GateIDShape(s) <==> exists words :: AllWords(words) && Hyphenate(words) == s
  {
    if GateIDShape(s) {
      var words := ShapedWords(s, 0);
    }
    if words :| AllWords(words) && Hyphenate(words) == s {
      WordsShaped(words);
    }
  }

  // ---------------------------------------------------------------- recording

  predicate InputAcceptable(i: Input, rfc: string -> bool) {
    && GateIDShape(i.gateID) && Trim(i.status) in {"pass", "fail"}
    && Trim(i.subject.branch) != "" && HeadSHAShape(i.subject.headSHA) && rfc(Trim(i.recordedAt))
  }

  predicate CheckAcceptable(c: CheckEntry) {
    Trim(c.id) != "" && Trim(c.summary) != "" && Trim(c.status) in {"pass", "fail", "skipped"}
  }

  function TrimmedInput(i: Input): Input {
    Input(Trim(i.gateID), Trim(i.status), Subject(i.subject.headSHA, Trim(i.subject.branch)), Trim(i.recordedAt))
  }

  function TrimmedCheck(c: CheckEntry): CheckEntry {
    CheckEntry(Trim(c.id), Trim(c.status), Trim(c.summary), Trim(c.evidence))
  }

  /** What is stored: the given data without surrounding white space, on the branch and HEAD that git reported. */
  function Stored(branch: string, head: string, gateID: string, status: string, producer: Producer, inputs: seq<Input>,
                  checks: seq<CheckEntry>, now: string): Artifact
  {
    Artifact(gateID, Trim(status), now, Subject(Trim(head), Trim(branch)),
             Producer(Trim(producer.procedure), Trim(producer.tool)),
             seq(|inputs|, i requires 0 <= i < |inputs| => TrimmedInput(inputs[i])),
             TrimmedChecks(checks))
  }

  /** The data given to a record is acceptable. */
  predicate Acceptable(branch: string, head: string, status: string, producer: Producer, inputs: seq<Input>,
                       checks: seq<CheckEntry>, rfc: string -> bool)
  {
    && Trim(status) in {"pass", "fail"} && Trim(branch) != "" && HeadSHAShape(Trim(head))
    && Trim(producer.procedure) != "" && Trim(producer.tool) != ""
    && AllAcceptable(inputs, rfc)
    && ChecksAcceptable(checks)
  }

  lemma {:induction false} NormalInputsEach(inputs: seq<Input>, rfc: string -> bool)
    requires NormalInputs(inputs, rfc).Ok?
    ensures var normal := NormalInputs(inputs, rfc).value;
            && |normal| == |inputs|
            && forall i :: 0 <= i < |inputs| ==> normal[i] == NormalInput(inputs[i])
  {
    if inputs != [] {
      NormalInputsEach(inputs[1..], rfc);
    }
  }

  lemma InputExact(i: Input, rfc: string -> bool)
    ensures ValidateInput(i, rfc).None? <==> InputAcceptable(i, rfc)
    ensures NormalInput(i) == TrimmedInput(i)
  {
    GateIDCharacterized(i.gateID);
  }

  predicate AllAcceptable(inputs: seq<Input>, rfc: string -> bool) {
    forall i :: 0 <= i < |inputs| ==> InputAcceptable(inputs[i], rfc)
  }

  lemma AcceptableFirst(inputs: seq<Input>, rfc: string -> bool)
    requires inputs != []
    ensures AllAcceptable(inputs, rfc) <==> InputAcceptable(inputs[0], rfc) && AllAcceptable(inputs[1..], rfc)
  {
    assert forall i :: 1 <= i < |inputs| ==> inputs[i] == inputs[1..][i - 1];
    assert forall i :: 0 <= i < |inputs[1..]| ==> inputs[1..][i] == inputs[i + 1];
  }

  lemma {:induction false} InputsAcceptable(inputs: seq<Input>, rfc: string -> bool)
    ensures NormalInputs(inputs, rfc).Ok? <==> AllAcceptable(inputs, rfc)
  {
    if inputs != [] {
      InputExact(inputs[0], rfc);
      InputsAcceptable(inputs[1..], rfc);
      AcceptableFirst(inputs, rfc);
    }
  }

  lemma InputsExact(inputs: seq<Input>, rfc: string -> bool)
    ensures NormalInputs(inputs, rfc).Ok? <==> AllAcceptable(inputs, rfc)
    ensures NormalInputs(inputs, rfc).Ok? ==>
              NormalInputs(inputs, rfc).value == seq(|inputs|, i requires 0 <= i < |inputs| => TrimmedInput(inputs[i]))
  {
    InputsAcceptable(inputs, rfc);
    if NormalInputs(inputs, rfc).Ok? {
      NormalInputsEach(inputs, rfc);
      forall i | 0 <= i < |inputs| ensures NormalInput(inputs[i]) == TrimmedInput(inputs[i]) {
        InputExact(inputs[i], rfc);
      }
    }
  }

  predicate ChecksAcceptable(checks: seq<CheckEntry>) {
    forall i :: 0 <= i < |checks| ==> CheckAcceptable(checks[i])
  }

  lemma ChecksFirst(checks: seq<CheckEntry>)
    requires checks != []
    ensures ChecksAcceptable(checks) <==> CheckAcceptable(checks[0]) && ChecksAcceptable(checks[1..])
  {
    assert forall i :: 1 <= i < |checks| ==> checks[i] == checks[1..][i - 1];
    assert forall i :: 0 <= i < |checks[1..]| ==> checks[1..][i] == checks[i + 1];
  }

  lemma CheckExact(c: CheckEntry)
    ensures ValidateCheck(c).None? <==> CheckAcceptable(c)
    ensures NormalCheck(c) == TrimmedCheck(c)
  {
  }

  function TrimmedChecks(checks: seq<CheckEntry>): seq<CheckEntry> {
    seq(|checks|, i requires 0 <= i < |checks| => TrimmedCheck(checks[i]))
  }

  lemma TrimmedFirst(checks: seq<CheckEntry>)
    requires checks != []
    ensures TrimmedChecks(checks) == [TrimmedCheck(checks[0])] + TrimmedChecks(checks[1..])
  {
    var all, rest := TrimmedChecks(checks), TrimmedChecks(checks[1..]);
    forall i | 0 < i < |all| ensures all[i] == rest[i - 1] {
      assert checks[i] == checks[1..][i - 1];
    }
  }

  lemma {:induction false} GivenChecksExact(checks: seq<CheckEntry>)
    ensures NormalChecks(checks).Ok? <==> ChecksAcceptable(checks)
    ensures NormalChecks(checks).Ok? ==> NormalChecks(checks).value == TrimmedChecks(checks)
  {
    if checks != [] {
      CheckExact(checks[0]);
      ChecksFirst(checks);
      GivenChecksExact(checks[1..]);
      TrimmedFirst(checks);
    }
  }

  /** Acceptable data always satisfies the schema once stored. */
  lemma StoredValid(branch: string, head: string, gateID: string, status: string, producer: Producer,
                    inputs: seq<Input>, checks: seq<CheckEntry>, now: string, rfc: string -> bool)
    requires GateIDShape(gateID) && Acceptable(branch, head, status, producer, inputs, checks, rfc)
    ensures SchemaValid(Stored(branch, head, gateID, status, producer, inputs, checks, now))
  {
    forall i | 0 <= i < |inputs| ensures Trim(inputs[i].gateID) == inputs[i].gateID && InputAcceptable(inputs[i], rfc) {
      GateIDCharacterized(inputs[i].gateID);
    }
  }

  lemma BuildRefuses(branch: string, head: string, gateID: string, status: string, producer: Producer,
                     inputs: seq<Input>, checks: seq<CheckEntry>, now: string, roles: RolesSpec, rfc: string -> bool)
    requires !Acceptable(branch, head, status, producer, inputs, checks, rfc)
    ensures Build(gateID, status, producer, inputs, checks, Subject(Trim(head), Trim(branch)), now, roles, rfc).Err?
  {
    InputsExact(inputs, rfc);
    GivenChecksExact(checks);
    TrimFixpoint(branch);
  }

  lemma HeaderValid(branch: string, head: string, status: string, producer: Producer)
    requires Trim(status) in {"pass", "fail"} && Trim(branch) != "" && HeadSHAShape(Trim(head))
    requires Trim(producer.procedure) != "" && Trim(producer.tool) != ""
    ensures ValidateStatus(status).None? && ValidateSubject(Subject(Trim(head), Trim(branch))).None?
    ensures ValidateProducer(producer).None?
  {
    TrimFixpoint(branch);
  }

  lemma BuildStores(branch: string, head: string, gateID: string, status: string, producer: Producer,
                    inputs: seq<Input>, checks: seq<CheckEntry>, now: string, roles: RolesSpec, rfc: string -> bool)
    requires Acceptable(branch, head, status, producer, inputs, checks, rfc)
    requires var art := Stored(branch, head, gateID, status, producer, inputs, checks, now);
             NormalInputs(inputs, rfc) == Ok(art.inputs) && NormalChecks(checks) == Ok(art.checks) && SchemaValid(art)
    ensures var art := Stored(branch, head, gateID, status, producer, inputs, checks, now);
            Build(gateID, status, producer, inputs, checks, Subject(Trim(head), Trim(branch)), now, roles, rfc) ==
            if ContractProblem(art, roles).None? then Ok(art) else Err(ContractProblem(art, roles).value)
  {
    HeaderValid(branch, head, status, producer);
    var art := Stored(branch, head, gateID, status, producer, inputs, checks, now);
    assert art == Artifact(gateID, Trim(status), now, Subject(Trim(head), Trim(branch)),
                           Producer(Trim(producer.procedure), Trim(producer.tool)), art.inputs, art.checks);
  }

  lemma BuildExact(branch: string, head: string, gateID: string, status: string, producer: Producer,
                   inputs: seq<Input>, checks: seq<CheckEntry>, now: string, roles: RolesSpec, rfc: string -> bool)
    requires GateIDShape(gateID)
    ensures var art := Stored(branch, head, gateID, status, producer, inputs, checks, now);
            var r := Build(gateID, status, producer, inputs, checks, Subject(Trim(head), Trim(branch)), now, roles,
                           rfc);
            && (r.Ok? <==> Acceptable(branch, head, status, producer, inputs, checks, rfc) && Contract(art, roles))
            && (r.Ok? ==> r.value == art)
  {
    if Acceptable(branch, head, status, producer, inputs, checks, rfc) {
      InputsExact(inputs, rfc);
      GivenChecksExact(checks);
      StoredValid(branch, head, gateID, status, producer, inputs, checks, now, rfc);
      BuildStores(branch, head, gateID, status, producer, inputs, checks, now, roles, rfc);
      ContractExact(Stored(branch, head, gateID, status, producer, inputs, checks, now), roles);
    } else {
      BuildRefuses(branch, head, gateID, status, producer, inputs, checks, now, roles, rfc);
    }
  }

  /** A record succeeds exactly on an attached branch, for a well-formed id, with acceptable data that meets the
      contract of its gate; and then it returns the trimmed data on the branch and HEAD that git reported. */
  lemma RecordedIff(view: GitView, gateID: string, status: string, producer: Producer, inputs: seq<Input>,
                    checks: seq<CheckEntry>, now: string, roles: RolesSpec, rfc: string -> bool)
    ensures var r := Recorded(view, gateID, status, producer, inputs, checks, now, roles, rfc);
            var attached := GateIDShape(gateID) && view.branch.OnBranch? && view.head.Some?;
            && (r.Ok? ==> attached)
            && (attached ==>
                  var branch, head := view.branch.raw, view.head.value;
                  var art := Stored(branch, head, gateID, status, producer, inputs, checks, now);
                  && (r.Ok? <==>
                        Acceptable(branch, head, status, producer, inputs, checks, rfc) && Contract(art, roles))
                  && (r.Ok? ==> r.value == art))
  {
    GateIDCharacterized(gateID);
    if GateIDShape(gateID) && view.branch.OnBranch? && view.head.Some? {
      BuildExact(view.branch.raw, view.head.value, gateID, status, producer, inputs, checks, now, roles, rfc);
    }
  }

  // ---------------------------------------------------------------- sound documents and statuses

  /** A document as the artifact schema and the contract of the gate want it. */
  predicate ProperDocument(art: Artifact, g: string, roles: RolesSpec) {
    && art.gateID == g && GateIDShape(g) && art.status in {"pass", "fail"} && Contract(art, roles)
    && art.subject.branch != "" && HeadSHAShape(art.subject.headSHA)
    && art.producer.procedure != "" && art.producer.tool != ""
    && (forall x :: x in art.inputs ==>
          && GateIDShape(x.gateID) && x.status in {"pass", "fail"}
          && x.subject.branch != "" && HeadSHAShape(x.subject.headSHA))
    && (forall x :: x in art.checks ==> x.id != "" && x.summary != "" && x.status in {"pass", "fail", "skipped"})
  }

  lemma SoundExact(art: Artifact, g: string, roles: RolesSpec)
    ensures Sound(art, g, roles) <==> ProperDocument(art, g, roles)
  {
    ContractExact(art, roles);
    assert forall i :: 0 <= i < |art.inputs| ==> art.inputs[i] in art.inputs;
    assert forall i :: 0 <= i < |art.checks| ==> art.checks[i] in art.checks;
  }

  /** The view is attached to the branch and HEAD of the subject. */
  predicate IsAt(view: GitView, subject: Subject) {
    && view.branch.OnBranch? && Trim(view.branch.raw) == subject.branch
    && view.head.Some? && Trim(view.head.value) == subject.headSHA
  }

  /** What each of the five statuses means, and the data that comes with it. */
  lemma StatusMeaning(files: Files, view: GitView, g: string, roles: RolesSpec)
    requires GateIDShape(g)
    ensures StatusOf(files, view, g, roles).Ok?
    ensures var r := StatusOf(files, view, g, roles).value;
            && r.gateID == g
            && (r.status == "missing" <==> g !in files)
            && (r.status == "invalid" <==>
                g in files && !(files[g].Document? && ProperDocument(files[g].art, g, roles)))
            && (r.status in {"missing", "invalid"} ==> r.headSHA == r.branch == r.recordedAt == "")
            && (r.status !in {"missing", "invalid"} ==>
                  var art := files[g].art;
                  && r.status == (if IsAt(view, art.subject) then art.status else "stale")
                  && r.headSHA == art.subject.headSHA && r.branch == art.subject.branch
                  && r.recordedAt == art.recordedAt)
  {
    GateIDCharacterized(g);
    ShownIff(files, g, roles);
    if g in files && files[g].Document? {
      SoundExact(files[g].art, g, roles);
    }
  }

  /** The signals of one gate: its status, and the recorded data where there is any. */
  lemma StatusSignals(res: StatusResult)
    ensures StatusMap(res).Obj?
    ensures var m := StatusMap(res).fields;
            && m.Keys <= {"status", "head_sha", "branch", "recorded_at"}
            && "status" in m && m["status"] == Str(res.status)
            && ("head_sha" in m <==> res.headSHA != "") && ("head_sha" in m ==> m["head_sha"] == Str(res.headSHA))
            && ("branch" in m <==> res.branch != "") && ("branch" in m ==> m["branch"] == Str(res.branch))
            && ("recorded_at" in m <==> res.recordedAt != "")
            && ("recorded_at" in m ==> m["recorded_at"] == Str(res.recordedAt))
  {
  }

  /** Which gates have signals. */
  lemma GatesShown(files: Files, view: GitView, roles: RolesSpec)
    ensures var signals := GateSignals(files, view, roles);
            if exists g :: g in files && GateIDShape(g) then
              && signals.Keys == {"gates"} && signals["gates"].Obj?
              && forall g :: g in signals["gates"].fields <==> g in files && GateIDShape(g)
            else signals == map[]
  {
    forall g ensures ValidateGateID(g).None? <==> GateIDShape(g) {
      GateIDCharacterized(g);
    }
    var trees := GateTrees(files, view, roles);
    forall g ensures g in trees <==> g in files && GateIDShape(g) {
    }
    if g :| g in files && GateIDShape(g) {
      assert g in trees;
    }
  }

  // ---------------------------------------------------------------- resolving inputs

  /** Resolution succeeds exactly for names, trimmed, that are not blank, new, distinct and of a passing status. */
  predicate Resolvable(files: Files, view: GitView, ids: seq<string>, seen: set<string>, roles: RolesSpec) {
    && (forall i :: 0 <= i < |ids| ==> CanResolve(files, view, Trim(ids[i]), roles) && Trim(ids[i]) !in seen)
    && (forall i, j :: 0 <= i < j < |ids| ==> Trim(ids[i]) != Trim(ids[j]))
  }

  predicate CanResolve(files: Files, view: GitView, g: string, roles: RolesSpec) {
    && GateIDShape(g) && g in files && files[g].Document? && ProperDocument(files[g].art, g, roles)
    && files[g].art.status == "pass" && IsAt(view, files[g].art.subject)
  }

  lemma ResolveOneIff(files: Files, view: GitView, g: string, roles: RolesSpec)
    ensures ResolveInput(files, view, g, roles).Ok? <==> CanResolve(files, view, g, roles)
    ensures CanResolve(files, view, g, roles) ==>
              var art := files[g].art;
              ResolveInput(files, view, g, roles).value == Input(g, "pass", art.subject, art.recordedAt)
  {
    GateIDCharacterized(g);
    if GateIDShape(g) {
      StatusMeaning(files, view, g, roles);
      ShownIff(files, g, roles);
      if g in files && files[g].Document? {
        SoundExact(files[g].art, g, roles);
      }
    }
  }

  lemma {:induction false} ResolutionIff(files: Files, view: GitView, ids: seq<string>, seen: set<string>,
                                         roles: RolesSpec)
    ensures ResolveInputs(files, view, ids, seen, roles).Ok? <==> Resolvable(files, view, ids, seen, roles)
  {
    if ids != [] {
      var g, rest := Trim(ids[0]), ids[1..];
      ResolveOneIff(files, view, g, roles);
      ResolutionIff(files, view, rest, seen + {g}, roles);
      assert forall i :: 0 <= i < |rest| ==> rest[i] == ids[i + 1];
      assert forall i :: 1 <= i < |ids| ==> ids[i] == rest[i - 1];
      if g == "" {
        assert !GateIDShape(g);
      }
      ResolvableFirst(files, view, ids, seen, roles);
    }
  }

  lemma ResolvableFirst(files: Files, view: GitView, ids: seq<string>, seen: set<string>, roles: RolesSpec)
    requires ids != []
    ensures var g := Trim(ids[0]);
            Resolvable(files, view, ids, seen, roles) <==>
            CanResolve(files, view, g, roles) && g !in seen && Resolvable(files, view, ids[1..], seen + {g}, roles)
  {
    var rest := ids[1..];
    assert forall i :: 0 <= i < |rest| ==> rest[i] == ids[i + 1];
    assert forall i :: 1 <= i < |ids| ==> ids[i] == rest[i - 1];
  }
}
