/** Observation documents: degraded sources, the saved document and its parser
    (`internal/observation/doc.go`, `internal/observe/pipeline.go`). */
module Observation {
  import opened Results
  import opened Json
  import opened Observe

  const SCHEMA_VERSION := "0.8.0"

  // ---------------------------------------------------------------- degraded sources

  /** The diagnostic marks its provider as failed or degraded. */
  predicate Marks(d: Diagnostic) {
    d.provider != "" && (d.code == PROVIDER_FAILED || d.code == PROVIDER_DEGRADED)
  }

  predicate Blames(d: Diagnostic) {
    d.provider != "" && d.severity == "error"
  }

  /** A named provider that failed or returned partial data. */
  predicate IsImpaired(d: Diagnostic) {
    d.provider != "" && d.code in {"provider_failed", "provider_degraded"}
  }

  ghost predicate IsSource(diags: seq<Diagnostic>, degraded: bool, s: string) {
    exists d :: d in diags && d.provider == s && s != "" &&
                (IsImpaired(d) || (degraded && d.severity == "error" && forall e :: e in diags ==> !IsImpaired(e)))
  }

  predicate NoDuplicates(xs: seq<string>) {
    forall i, j :: 0 <= i < j < |xs| ==> xs[i] != xs[j]
  }

  /** One pass of `degradedSources`: the distinct providers of the diagnostics kept, in order of appearance. */
  function Sources(diags: seq<Diagnostic>, keep: Diagnostic -> bool): seq<string> {
    if diags == [] then []
    else
      var before := Sources(diags[..|diags| - 1], keep);
      var last := diags[|diags| - 1];
      if keep(last) && last.provider !in before then before + [last.provider] else before
  }

  lemma {:induction false} SourcesMeaning(diags: seq<Diagnostic>, keep: Diagnostic -> bool)
    ensures NoDuplicates(Sources(diags, keep))
    ensures forall s :: s in Sources(diags, keep) <==>
              exists i :: 0 <= i < |diags| && keep(diags[i]) && diags[i].provider == s
  {
    if diags != [] {
      var n := |diags| - 1;
      SourcesMeaning(diags[..n], keep);
      assert forall i :: 0 <= i < n ==> diags[..n][i] == diags[i];
    }
  }

  method CollectSources(diags: seq<Diagnostic>, keep: Diagnostic -> bool) returns (out: seq<string>)
    ensures out == Sources(diags, keep)
  {
    var seen: set<string> := {};
    out := [];
    for i := 0 to |diags|
      invariant out == Sources(diags[..i], keep)
      invariant forall s :: s in seen <==> s in out
    {
      var d := diags[i];
      assert diags[..i + 1][..i] == diags[..i];
      if !keep(d) {
        continue;
      }
      if d.provider !in seen {
        seen := seen + {d.provider};
        out := out + [d.provider];
      }
    }
    assert diags[..|diags|] == diags;
  }

  function DegradedSources(diags: seq<Diagnostic>, degraded: bool): seq<string> {
    var marked := Sources(diags, Marks);
    if degraded && marked == [] then Sources(diags, Blames) else marked
  }

  /** `degradedSources`. */
  method RunDegradedSources(diags: seq<Diagnostic>, degraded: bool) returns (out: seq<string>)
    ensures out == DegradedSources(diags, degraded)
  {
    out := CollectSources(diags, Marks);
    if degraded && |out| == 0 {
      out := CollectSources(diags, Blames);
    }
  }

  function DegradedSet(diags: seq<Diagnostic>, degraded: bool): set<string> {
    set s | s in DegradedSources(diags, degraded)
  }

  lemma MarksIff(d: Diagnostic)
    ensures Marks(d) <==> IsImpaired(d)
    ensures Blames(d) <==> d.provider != "" && d.severity == "error"
  {
  }

  lemma NoneMarked(diags: seq<Diagnostic>)
    ensures Sources(diags, Marks) == [] <==> forall d :: d in diags ==> !IsImpaired(d)
  {
    SourcesMeaning(diags, Marks);
    var marked := Sources(diags, Marks);
    if marked != [] {
      assert marked[0] in marked;
      var i :| 0 <= i < |diags| && Marks(diags[i]) && diags[i].provider == marked[0];
      assert diags[i] in diags && IsImpaired(diags[i]);
    }
    if exists d :: d in diags && IsImpaired(d) {
      var d :| d in diags && IsImpaired(d);
      var i :| 0 <= i < |diags| && diags[i] == d;
      assert Marks(diags[i]) && d.provider in marked;
    }
  }

  /** Exactly which providers are degraded. */
  lemma DegradedSetMeaning(diags: seq<Diagnostic>, degraded: bool)
    ensures NoDuplicates(DegradedSources(diags, degraded))
    ensures forall s :: s in DegradedSet(diags, degraded) <==> IsSource(diags, degraded, s)
  {
    SourcesMeaning(diags, Marks);
    SourcesMeaning(diags, Blames);
    NoneMarked(diags);
    assert forall i :: 0 <= i < |diags| ==> diags[i] in diags;
  }

  /** Every failed or degraded provider with a non-empty id is in the degraded set of its run. */
  lemma FailureIsDegraded(job: Job, i: nat)
    requires WellFormed(job) && i < |job.enabled|
    requires Impaired(SlotOf(job, i)) && job.enabled[i] != ""
    ensures Collect(job).degraded
    ensures job.enabled[i] in DegradedSet(Collect(job).diags, Collect(job).degraded)
  {
    var slots := Slots(job);
    var d := SlotDiagnostics(slots[i])[0];
    assert d in SlotDiagnostics(slots[i]);
    DiagnosticsMeaning(slots, d);
    var k :| 0 <= k < |AllDiagnostics(slots)| && AllDiagnostics(slots)[k] == d;
    assert Marks(d);
    DegradedSetMeaning(Collect(job).diags, Collect(job).degraded);
    assert Impaired(slots[i]);
  }

  // ---------------------------------------------------------------- documents

  function DiagnosticValue(d: Diagnostic): Value {
    Obj(map["severity" := Str(d.severity), "message" := Str(d.message), "provider" := Str(d.provider),
            "code" := Str(d.code)])
  }

  function DiagnosticValues(diags: seq<Diagnostic>): (vs: seq<Value>)
    ensures |vs| == |diags| && forall i :: 0 <= i < |diags| ==> vs[i] == DiagnosticValue(diags[i])
  {
    if diags == [] then [] else [DiagnosticValue(diags[0])] + DiagnosticValues(diags[1..])
  }

  function StrValues(xs: seq<string>): (vs: seq<Value>)
    ensures |vs| == |xs| && forall i :: 0 <= i < |xs| ==> vs[i] == Str(xs[i])
  {
    if xs == [] then [] else [Str(xs[0])] + StrValues(xs[1..])
  }

  function MergedMeta(diags: seq<Diagnostic>, degraded: bool, meta: Object): Object {
    var srcs := DegradedSources(diags, degraded);
    var kept := meta - {"degraded_sources"};
    if srcs == [] then kept else kept["degraded_sources" := Arr(StrValues(srcs))]
  }

  function DocumentOf(signals: Object, diags: seq<Diagnostic>, degraded: bool, meta: Object): Object {
    var base := map["schema_version" := Str(SCHEMA_VERSION), "signals" := Obj(signals), "degraded" := Bool(degraded)];
    var withDiags := if diags == [] then base else base["diagnostics" := Arr(DiagnosticValues(diags))];
    var merged := MergedMeta(diags, degraded, meta);
    if merged == map[] then withDiags else withDiags["meta" := Obj(merged)]
  }

  /** The metadata of the document: the caller's, except that the reserved key always lists the degraded sources, and
      is absent when there is none. */
  lemma MetaMeaning(diags: seq<Diagnostic>, degraded: bool, meta: Object)
    ensures var merged, srcs := MergedMeta(diags, degraded, meta), DegradedSources(diags, degraded);
            && (forall k :: k != "degraded_sources" ==>
                  (k in merged <==> k in meta) && (k in meta ==> merged[k] == meta[k]))
            && ("degraded_sources" in merged <==> srcs != [])
            && (srcs != [] ==>
                  && merged["degraded_sources"].Arr? && |merged["degraded_sources"].elts| == |srcs|
                  && forall i :: 0 <= i < |srcs| ==> merged["degraded_sources"].elts[i] == Str(srcs[i]))
  {
  }

  /** The other keys of the document. */
  lemma DocumentKeys(signals: Object, diags: seq<Diagnostic>, degraded: bool, meta: Object)
    ensures var doc := DocumentOf(signals, diags, degraded, meta);
            && doc.Keys <= {"schema_version", "signals", "degraded", "diagnostics", "meta"}
            && "schema_version" in doc && doc["schema_version"] == Str("0.8.0")
            && "signals" in doc && doc["signals"] == Obj(signals)
            && "degraded" in doc && doc["degraded"] == Bool(degraded)
            && ("diagnostics" in doc <==> diags != [])
            && ("meta" in doc <==> MergedMeta(diags, degraded, meta) != map[])
  {
  }

  /** The entries of one diagnostic in the document. */
  lemma DiagnosticKeys(d: Diagnostic)
    ensures DiagnosticValue(d).Obj?
    ensures var m := DiagnosticValue(d).fields;
            && m.Keys == {"severity", "message", "provider", "code"}
            && m["severity"] == Str(d.severity) && m["message"] == Str(d.message)
            && m["provider"] == Str(d.provider) && m["code"] == Str(d.code)
  {
  }

  /** Reading one diagnostic: an entry that is missing or no string reads as empty. */
  lemma DiagnosticRead(m: Object)
    ensures var d := DiagnosticOf(m);
            && (if HasText(m, "severity") then m["severity"] == Str(d.severity) else d.severity == "")
            && (if HasText(m, "message") then m["message"] == Str(d.message) else d.message == "")
            && (if HasText(m, "provider") then m["provider"] == Str(d.provider) else d.provider == "")
            && (if HasText(m, "code") then m["code"] == Str(d.code) else d.code == "")
  {
  }

  predicate HasText(m: Object, k: string) {
    k in m && m[k].Str?
  }

  /** `Document`: copies the caller's metadata, recomputes the reserved key, and adds optional fields. */
  method Document(signals: Object, diags: seq<Diagnostic>, degraded: bool, meta: Object) returns (doc: Object)
    ensures doc == DocumentOf(signals, diags, degraded, meta)
  {
    var srcs := RunDegradedSources(diags, degraded);
    var mergedMeta: Object := map[];
    var todo := meta.Keys;
    while todo != {}
      invariant todo <= meta.Keys
      invariant mergedMeta == map k | k in meta && k !in todo :: meta[k]
      decreases todo
    {
      var k :| k in todo;
      mergedMeta := mergedMeta[k := meta[k]];
      todo := todo - {k};
    }
    assert mergedMeta == meta;
    mergedMeta := mergedMeta - {"degraded_sources"};
    if |srcs| > 0 {
      mergedMeta := mergedMeta["degraded_sources" := Arr(StrValues(srcs))];
    }
    doc := map["schema_version" := Str(SCHEMA_VERSION), "signals" := Obj(signals), "degraded" := Bool(degraded)];
    if |diags| > 0 {
      doc := doc["diagnostics" := Arr(DiagnosticValues(diags))];
    }
    if mergedMeta != map[] {
      doc := doc["meta" := Obj(mergedMeta)];
    }
  }

  datatype ParseError = NoSignals | SignalsNotObject

  datatype Parsed = Parsed(signals: Object, meta: Object, diags: seq<Diagnostic>, degraded: bool)

  function StringField(m: Object, k: string): string {
    if k in m && m[k].Str? then m[k].s else ""
  }

  function DiagnosticOf(m: Object): Diagnostic {
    Diagnostic(StringField(m, "severity"), StringField(m, "message"), StringField(m, "provider"),
               StringField(m, "code"))
  }

  /** Array entries that are not objects are skipped. */
  function ParsedDiagnostics(vs: seq<Value>): seq<Diagnostic> {
    if vs == [] then []
    else (if vs[0].Obj? then [DiagnosticOf(vs[0].fields)] else []) + ParsedDiagnostics(vs[1..])
  }

  function Parse(doc: Object): Result<Parsed, ParseError> {
    if "signals" !in doc then Err(NoSignals)
    else if !doc["signals"].Obj? then Err(SignalsNotObject)
    else Ok(Parsed(
      doc["signals"].fields,
      if "meta" in doc && doc["meta"].Obj? then doc["meta"].fields else map[],
      if "diagnostics" in doc && doc["diagnostics"].Arr? then ParsedDiagnostics(doc["diagnostics"].elts) else [],
      "degraded" in doc && doc["degraded"] == Bool(true)))
  }

  /** `ParseObservationDocument` on a decoded document. */
  method ParseObservationDocument(doc: Object) returns (r: Result<Parsed, ParseError>)
    ensures r == Parse(doc)
  {
    if "signals" !in doc {
      return Err(NoSignals);
    }
    if !doc["signals"].Obj? {
      return Err(SignalsNotObject);
    }
    var out := Parsed(doc["signals"].fields, map[], [], false);
    if "degraded" in doc && doc["degraded"].Bool? {
      out := out.(degraded := doc["degraded"].b);
    }
    if "meta" in doc && doc["meta"].Obj? {
      out := out.(meta := doc["meta"].fields);
    }
    if "diagnostics" in doc && doc["diagnostics"].Arr? {
      var diags := CollectDiagnostics(doc["diagnostics"].elts);
      out := out.(diags := diags);
    }
    return Ok(out);
  }

  method CollectDiagnostics(raw: seq<Value>) returns (diags: seq<Diagnostic>)
    ensures diags == ParsedDiagnostics(raw)
  {
    diags := [];
    for i := 0 to |raw|
      invariant ParsedDiagnostics(raw) == diags + ParsedDiagnostics(raw[i..])
    {
      ghost var rest := raw[i..];
      assert rest[0] == raw[i] && rest[1..] == raw[i + 1..];
      if raw[i].Obj? {
        diags := diags + [DiagnosticOf(raw[i].fields)];
      }
    }
  }

  // ---------------------------------------------------------------- round trip

  lemma RecodeDiagnostic(d: Diagnostic)
    ensures Recode(DiagnosticValue(d)) == DiagnosticValue(d)
  {
    var m := DiagnosticValue(d).fields;
    assert forall k :: k in m ==> Recode(m[k]) == m[k];
    assert (map k | k in m :: Recode(m[k])) == m;
  }

  lemma RecodeCons(v: Value, rest: seq<Value>)
    ensures RecodeSeq([v] + rest) == [Recode(v)] + RecodeSeq(rest)
  {
    assert ([v] + rest)[1..] == rest;
  }

  lemma ParsedCons(d: Diagnostic, rest: seq<Value>)
    ensures ParsedDiagnostics([DiagnosticValue(d)] + rest) == [d] + ParsedDiagnostics(rest)
  {
    assert ([DiagnosticValue(d)] + rest)[1..] == rest;
    assert DiagnosticOf(DiagnosticValue(d).fields) == d;
  }

  lemma {:induction false} DiagnosticsRoundTrip(diags: seq<Diagnostic>)
    ensures ParsedDiagnostics(RecodeSeq(DiagnosticValues(diags))) == diags
  {
    if diags != [] {
      var d, rest := diags[0], DiagnosticValues(diags[1..]);
      DiagnosticsRoundTrip(diags[1..]);
      RecodeDiagnostic(d);
      RecodeCons(DiagnosticValue(d), rest);
      ParsedCons(d, RecodeSeq(rest));
      assert diags == [d] + diags[1..];
    }
  }

  lemma DocumentFields(signals: Object, diags: seq<Diagnostic>, degraded: bool, meta: Object)
    ensures var doc := DocumentOf(signals, diags, degraded, meta);
            var merged := MergedMeta(diags, degraded, meta);
            && "signals" in doc && doc["signals"] == Obj(signals)
            && "degraded" in doc && doc["degraded"] == Bool(degraded)
            && (if diags == [] then "diagnostics" !in doc
                else "diagnostics" in doc && doc["diagnostics"] == Arr(DiagnosticValues(diags)))
            && (if merged == map[] then "meta" !in doc else "meta" in doc && doc["meta"] == Obj(merged))
  {
  }

  /** Parsing an encoded document returns the same diagnostics, degraded flag and degraded set, and the signals
      as JSON represents them. */
  lemma DocumentRoundTrip(signals: Object, diags: seq<Diagnostic>, degraded: bool, meta: Object)
    ensures Parse(RecodeObject(DocumentOf(signals, diags, degraded, meta))) ==
            Ok(Parsed(RecodeObject(signals), RecodeObject(MergedMeta(diags, degraded, meta)), diags, degraded))
  {
    var doc := DocumentOf(signals, diags, degraded, meta);
    var merged := MergedMeta(diags, degraded, meta);
    DocumentFields(signals, diags, degraded, meta);
    ParseFields(doc, signals, diags, degraded, merged);
  }

  lemma ParseFields(doc: Object, signals: Object, diags: seq<Diagnostic>, degraded: bool, merged: Object)
    requires "signals" in doc && doc["signals"] == Obj(signals)
    requires "degraded" in doc && doc["degraded"] == Bool(degraded)
    requires if diags == [] then "diagnostics" !in doc
             else "diagnostics" in doc && doc["diagnostics"] == Arr(DiagnosticValues(diags))
    requires if merged == map[] then "meta" !in doc else "meta" in doc && doc["meta"] == Obj(merged)
    ensures Parse(RecodeObject(doc)) == Ok(Parsed(RecodeObject(signals), RecodeObject(merged), diags, degraded))
  {
    var encoded := RecodeObject(doc);
    assert encoded["signals"] == Recode(Obj(signals)) == Obj(RecodeObject(signals));
    if diags != [] {
      assert encoded["diagnostics"] == Recode(doc["diagnostics"]) == Arr(RecodeSeq(DiagnosticValues(diags)));
      DiagnosticsRoundTrip(diags);
    }
    if merged != map[] {
      assert encoded["meta"] == Recode(Obj(merged)) == Obj(RecodeObject(merged));
    } else {
      assert RecodeObject(merged) == map[];
    }
  }
}
