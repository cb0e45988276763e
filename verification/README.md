# reinguard decision pipeline: a model and its proofs

reinguard turns observations of a repository into a decision: provider signals go in, and a workflow state, a
route, a merge-guard verdict and runtime gate statuses come out. This project models that pipeline in Dafny and
proves what it promises, from the when-clause language up to the statement that an OK merge verdict means the
pull request was really reviewed.

The modules follow the program's packages.

- `Signals`, `SignalsIndex` (`internal/signals`): path lookup, the dotted-key index as a mutable map filled by a
  recursive walk in any key order, overlays, and the agreement of index and lookup.
- `Match`, `ValidateWhen`, `WhenGrammar`, `ClauseLaws`, `MatchTheorems`, `MatchLaws` (`internal/match`,
  `internal/evaluator`): the interpreter for when-clauses and what each operator answers, the load-time checker and
  the grammar it decides, type soundness, a denotational semantics without evaluation order, and the laws that
  follow from it.
- `Resolve`, `ResolveTheorems`, `PriorityLint` (`internal/resolve`): rule evaluation, suppression, selection,
  trace; the outcome as a verdict on the active rules; the priority lint against run-time ambiguity.
- `Roles`, `Gate`, `GateContract`, `GateProtocol`, `GateAttainability` (`internal/config/runtime_gates.go`, `internal/gate`): gate contracts, the
  artifact store as a class, and a state machine in which any number of processes interleave with commits,
  checkouts and detachments, each reading branch, HEAD and artifacts at different moments.
- `Observe`, `Observation` (`internal/observe`, `internal/observation`): provider goroutines as interleaved steps
  on disjoint slots, the merge, degraded sources, and the saved document with its parser.
- `Pagination`, `Selection`, `Diagnostics`, `BotFindings` (`internal/observe/github/prquery`): bounded paging against a server,
  the choice of the comment and the review that speak for a bot, and the fold over bot statuses.
- `Guard`, `Pipeline`, `ContextBuild` (`internal/guard`, `internal/rgdcli`): the merge guard, declarative guard
  rules, the decisions of one context build, and the theorems that run through all of the above.
- `Results`, `Text`, `Json`, `Filters`: shared vocabulary.

Reading order for the main results: `MatchTheorems.ValueFaithful`, `ResolveTheorems.OutcomeCharacterized`,
`GateProtocol.ReadinessPassIsProved`, `Observe.ConcurrentEqualsSerial`, `Pipeline.SavedObservationReplays`,
`Pipeline.OkIffReviewed`, `ContextBuild.ContextDeterministic`.

Conventions. One JSON datatype stands for signals, clauses and documents; `Typed` is a Go slice whose element type
is not `any`. Numbers are exact: Go's `int` is an integer and `float64` a real. A Go loop that
updates variables appears as a method with that loop, proved equal to a specification function about which the
lemmas speak; loops that only select or copy (`filterType`, `scopeGuardRules`, `traceFromEvals`) are the functions
`Filter` and `Map`. Where Go leaves
an order open (map iteration, ties in `sort.Slice`) the specification is a relation, such as `IsFlat` or
`IsOutcome`, and the theorems hold of every result it admits. `ParseFloat`, `ToLower`, login normalization, comment
tiers and RFC 3339 validation are parameters of which nothing is assumed, except where a contract says so.
Time stamps are ordered as strings, as the source orders them; for uniform UTC stamps that is time order by
section 5.1 of RFC 3339.

## What the code does not promise

Some statements one would expect are false of the code. The members named here say when they fail and exactly when
they hold.

- A path that resolves need not be an index key: lookup skips empty segments, so `a..b` resolves and is no key
  (`SignalsIndex.EmptySegmentNoKey`). With clean keys the index holds exactly the canonical paths that resolve
  (`SignalsIndex.IndexAgreement`).
- The index may depend on map order (`SignalsIndex.DottedKeysCollide`); it does not exactly when no two key chains
  spell one dotted key with different values (`SignalsIndex.FlattenDeterministic`).
- Rules and guards read through path lookup, so dotted keys alone never show. But an entry below an empty top-level
  key can clash with one at the top, and then a verdict can depend on map order (`Pipeline.AmbiguousVerdict`).
  Lookups do not depend on it exactly when no segment is ambiguous (`SignalsIndex.LookupsDeterministic`); then no
  decision does (`ContextBuild.ContextDeterministic`). Provider ids that are not empty leave nothing ambiguous
  (`ContextBuild.NamedProvidersPlain`).
- Lookup on the index differs from lookup on the tree when entries below an empty top-level key spill over
  (`SignalsIndex.EmptyKeySpills`), and only then (`SignalsIndex.FlatLookupExact`).
- An overlay does not delete: dotted keys that the overlaid namespace had before survive it
  (`SignalsIndex.StaleKeySurvives`). The result is again an index of the merged tree if and only if every survivor is
  stored by the rest of the tree as well (`SignalsIndex.OverlayStaleKeys`).
- A rule that asks for a passing gate does not prove a recorded pass: without any gate file nothing is laid over the
  index, and a `gates` namespace in the observation document is believed (`Pipeline.ObservedGatePasses`). The exact
  condition is in `Pipeline.GatePassClause`.
- A silent priority lint does not rule ambiguity out: the lint compares priorities exactly, selection within 1e-9
  (`PriorityLint.SilentLintAmbiguous`). The exact condition on priorities is `PriorityLint.Separated`
  (`PriorityLint.NeverAmbiguousIffSeparated`).
- `ne` is not the negation of `eq` (`MatchLaws.NeOnMissingPath`): it is so exactly where the path resolves
  (or is empty, and both fail) (`MatchLaws.NeIsNotEqIff`).
- The operand checks that make evaluation total are exact for operator clauses and chains of array operators
  (`MatchLaws.OperandChecksExact`), but in logical clauses short-circuiting can hide a bad operand for ever
  (`MatchLaws.HiddenBadOperand`).
- Reordering the children of an accepted clause can turn a verdict into an error, when it brings a bad operand to
  light (`MatchLaws.SwappedBadOperand`). Two verdicts that both exist are equal (`MatchLaws.ClauseOrderIrrelevant`),
  and the order of a child list is irrelevant exactly unless one child decides it and another fails
  (`MatchLaws.ChildOrderExact`).
- An `in` clause without path fails even on an empty list, where the disjunction of no `eq` clauses is false
  (`MatchLaws.InIsOrOfEq`).
- The load-time checker accepts an absent clause, which evaluation refuses; `MatchTheorems.Accepted` therefore asks
  for a clause that is present.

## Model

| member | source | states |
|---|---|---|
| `Signals.GetPath` | internal/signals/access.go:8-26 | The loop over the split path finds exactly the value along the non-empty segments, and nothing when a segment is missing or meets a non-object. |
| `Json.TruncateMeaning` | internal/signals/access.go:51-66 | An integer read off a float drops the fraction toward zero. |
| `Signals.FlatIndex.Walk` | internal/signals/flatten.go:8-27 | The recursive closure, visiting keys in any order, overwrites the shared map with exactly the keys of the walked tree: every such key is present with a value the walk stores there, every other key is untouched. |
| `Signals.Flatten` | internal/signals/flatten.go:6-33 | The index is one of the results the tree admits. |
| `Signals.FlatIndex.Overlay` | internal/rgdcli/rgdcli.go:602-616 | Every entry of the flattened extra map overwrites the index in place; all other entries stay. |
| `Signals.WalkAll` | internal/signals/flatten.go:9-31 | Storing at the prefix and walking all entries amounts to the walk of the whole value. |
| `SignalsIndex.IndexAgreement` | internal/signals/flatten.go:6-33 | With clean keys (non-empty, dot-free) the index has a key if and only if the key is a canonical path that resolves, and holds the value it resolves to. |
| `SignalsIndex.FlattenDeterministic` | internal/signals/flatten.go:6-33 | The index is the same for every order of map iteration if and only if no two key chains of the tree spell one dotted key with different values. |
| `SignalsIndex.CleanUnambiguous` | internal/signals/flatten.go:14-31 | Clean keys suffice for that. |
| `SignalsIndex.SomeFlat` | internal/signals/flatten.go:6-33 | Every tree has an index. |
| `SignalsIndex.DottedKeysCollide` | internal/signals/flatten.go:14-31 | A dotted key and a nested one that spell the same path: two different indexes of one tree exist. |
| `SignalsIndex.FlatLookup` | internal/signals/access.go:8-26 | Path lookup on the flattened map equals lookup on the original tree, dotted keys or not, for every path that has a segment, unless entries below an empty top-level key spill over. |
| `SignalsIndex.FlatLookupExact` | internal/signals/access.go:8-26 | The equality holds on every index of the tree if and only if whatever stands below empty top-level keys stands at the top too. |
| `SignalsIndex.EmptyKeySpills` | internal/signals/flatten.go:14-31 | An entry below an empty top-level key resolves on the index and not on the tree. |
| `SignalsIndex.EmptySegmentNoKey` | internal/signals/access.go:8-26 | The path a..b resolves and is a key of no index. |
| `SignalsIndex.OverlayLookup` | internal/rgdcli/rgdcli.go:590-617 | Overlaying one namespace with any tree changes exactly the paths whose first segment names it. |
| `SignalsIndex.OverlayStaleKeys` | internal/rgdcli/rgdcli.go:377-385 | The overlaid index is an index of the merged tree if and only if every entry that survives from the namespace is stored by the rest of the tree as well. |
| `SignalsIndex.OverlayStaleKeysClean` | internal/rgdcli/rgdcli.go:377-385 | With clean keys in the observed tree: if and only if no old key of the namespace is missing from the new one. |
| `SignalsIndex.LookupsDeterministic` | internal/signals/flatten.go:6-33 | Path lookups on the index do not depend on map order if and only if no two key chains of the tree spell one segment with different values. |
| `SignalsIndex.PlainTopUnambiguous` | internal/signals/flatten.go:28-31 | Without spilled entries that the top does not have, no segment is ambiguous. |
| `SignalsIndex.StaleKeySurvives` | internal/rgdcli/rgdcli.go:377-385 | A key that the overlaid namespace no longer has survives, and the result is no index of the merged tree. |
| `Match.RunAnd` | internal/match/match.go:140-151 | The conjunction loop with its short circuit and error exit computes the recursive semantics. |
| `Match.RunOr` | internal/match/match.go:153-164 | The disjunction loop computes the recursive semantics. |
| `Match.RunIn` | internal/match/match.go:248-253 | The search finds an equal element if and only if there is one. |
| `Match.RunCount` | internal/match/match.go:315-325 | The counting loop computes the number of elements the sub-clause holds of, or the first error. |
| `Match.RunQuant` | internal/match/match.go:364-384 | The quantifier loop, with its early exit on the empty array, computes short-circuit evaluation. |
| `ValidateWhen.RejectMultipleLogicalRoots` | internal/evaluator/validate.go:225-236 | The counter loop refuses exactly the objects with more than one of and, or, not. |
| `ValidateWhen.RunWalkAll` | internal/evaluator/validate.go:35-41 | Checking a clause list yields the first error of its children. |
| `WhenGrammar.ValidatorExact` | internal/evaluator/validate.go:18-188 | The checker accepts an absent clause and exactly the well-formed ones, by a grammar given shape by shape. |
| `WhenGrammar.PathForm` | internal/evaluator/validate.go:190-221 | A path is accepted if and only if it is $ or starts, without surrounding white space, with one of the five namespaces and a dot. |
| `MatchTheorems.KnownOpsAgree` | internal/evaluator/validate.go:8-16 | The checker and the interpreter know the same operators. |
| `MatchTheorems.ValueFaithful` | internal/match/match.go:48-189 | On accepted clauses evaluation yields the order-free meaning of the clause; the only errors are operand errors, and those only when the static operand checks fail. |
| `MatchTheorems.ValidatorSound` | internal/evaluator/validate.go:18-188 | An accepted clause never fails on shape, operator, path, missing operand, sub-clause or evaluator, for any signals. |
| `MatchTheorems.DenotationalAgreement` | internal/match/match.go:33-189 | With operand checks added, evaluation is total: and, or, any, all and count are conjunction, disjunction, exists, forall and cardinality. |
| `MatchLaws.ClauseOrderIrrelevant` | internal/match/match.go:140-164 | Reordering or repeating children of and, or and arrays at any depth, also under not and when, keeps a clause accepted and keeps its verdict if and only if the reordered clause has one. |
| `MatchLaws.CheckedOrderIrrelevant` | internal/match/match.go:140-164 | With the operand checks, such a reordering changes no verdict. |
| `MatchLaws.ChildOrderExact` | internal/match/match.go:140-164 | The order of a child list never matters, up to which error is reported, if and only if not both a deciding and a failing child occur. |
| `MatchLaws.SwappedBadOperand` | internal/match/match.go:153-164 | An accepted or clause that is true, and fails with its two children swapped. |
| `MatchLaws.PermutedChildren` | internal/match/match.go:140-164 | Permuting a child list is an instance of the reordering relation. |
| `MatchLaws.NeIsExistsAndNotEq` | internal/match/match.go:191-205 | A ne clause evaluates like exists and not eq, errors included. |
| `MatchLaws.NeIsNotEqIff` | internal/match/match.go:191-205 | A ne clause is the negation of the eq clause if and only if the path resolves, or is empty and both fail. |
| `MatchLaws.NeOnMissingPath` | internal/match/match.go:200-203 | On a missing path ne is false and not eq is true. |
| `MatchLaws.InIsOrOfEq` | internal/match/match.go:231-254 | An in clause evaluates like the or of one eq clause per listed value, errors included, if and only if there is a path or a value. |
| `MatchLaws.OperandChecksExact` | internal/match/match.go:207-385 | For accepted operator clauses, down through any chain of array operators whose sub-clause reads the element, the operand checks hold if and only if evaluation succeeds on all signals. |
| `MatchLaws.HiddenBadOperand` | internal/match/match.go:153-164 | A clause with a bad operand that short-circuiting never reaches: accepted, not well-operanded, and always true. |
| `MatchLaws.EvalRecode` | internal/match/match.go:405-493 | Replacing integers by floats and typed slices by arrays in the signals changes no evaluation result, errors included. |
| `Json.RecodeIsJson` | internal/observe/pipeline.go:76-80 | Coding yields a tree without Go integers and typed slices, and leaves such a tree as it is. |
| `ClauseLaws.Numbers` | internal/match/match.go:480-493 | Integers, floats and parsable strings are numbers, and nothing else is. |
| `ClauseLaws.ComparesEqual` | internal/match/match.go:427-478 | Two values compare equal if and only if they are equal as numbers, when both are numbers, and else are the same boolean or string. |
| `ClauseLaws.EqBool` | internal/match/match.go:191-205 | An eq clause with a boolean holds exactly of that boolean. |
| `ClauseLaws.EqNumber` | internal/match/match.go:191-205 | An eq clause with a number holds exactly of what reads as that number. |
| `ClauseLaws.EqText` | internal/match/match.go:191-205 | An eq clause with a text that is no number holds exactly of that text. |
| `ClauseLaws.GtClause` | internal/match/match.go:207-229 | A gt clause holds exactly of what reads as a larger number. |
| `ClauseLaws.LtClause` | internal/match/match.go:207-229 | A lt clause holds exactly of what reads as a smaller number. |
| `ClauseLaws.GteClause` | internal/match/match.go:207-229 | A gte clause holds exactly of what reads as a number at least as large. |
| `ClauseLaws.LteClause` | internal/match/match.go:207-229 | A lte clause holds exactly of what reads as a number at most as large. |
| `ClauseLaws.ContainsClause` | internal/match/match.go:256-278 | A contains clause holds exactly of strings in which the text occurs at some position. |
| `ClauseLaws.NotExistsClause` | internal/match/match.go:280-290 | A not_exists clause holds exactly where the path does not resolve. |
| `ClauseLaws.AnyClause` | internal/match/match.go:347-385 | An any clause holds if and only if its sub-clause is true of some element, read as $, of a slice of any type. |
| `ClauseLaws.AllClause` | internal/match/match.go:347-385 | An all clause holds if and only if its sub-clause is true of every element. |
| `ClauseLaws.CountOperand` | internal/match/match.go:333-345 | The operand of a count is a natural number or an error. |
| `ClauseLaws.CountClause` | internal/match/match.go:292-314 | A count clause compares the number of elements. |
| `ClauseLaws.CountWhenClause` | internal/match/match.go:292-331 | With a sub-clause it compares the number of elements the sub-clause is true of. |
| `Resolve.RunEvaluateRules` | internal/resolve/resolve.go:415-433 | The evaluation loop records one entry per rule up to the first clause that fails. |
| `Resolve.SplitMatchedRules` | internal/resolve/resolve.go:437-448 | The matched rules and the matched unsuppressed rules, in order. |
| `Resolve.RunMinPriority` | internal/resolve/resolve.go:358-366 | The running minimum is a lower bound that occurs. |
| `Resolve.OrderRulesForResolve` | internal/resolve/resolve.go:277-300 | Routes are a sorted permutation of the active rules with candidates collected from it; other kinds keep their order. |
| `Resolve.SortRulesSorts` | internal/resolve/resolve.go:283-288 | Sorting by priority and then id yields a sorted permutation. |
| `Resolve.SelectFromActive` | internal/resolve/resolve.go:255-274 | Selection equals the specification on some admissible order of the active rules. |
| `Resolve.ResolveCore` | internal/resolve/resolve.go:226-253 | The whole resolution yields an admissible outcome for the rules, signals and degraded set. |
| `ResolveTheorems.EvaluationShape` | internal/resolve/resolve.go:415-433 | Evaluation records every rule, or exactly the prefix before the first rule that fails, whose error it reports. |
| `ResolveTheorems.FailureIff` | internal/resolve/resolve.go:415-433 | Evaluation fails if and only if some rule of the type has a failing clause. |
| `ResolveTheorems.SplitIsFilter` | internal/resolve/resolve.go:437-448 | Candidates are the rules of the type that fire; active ones are those with no degraded dependency. |
| `ResolveTheorems.OutcomeCharacterized` | internal/resolve/resolve.go:226-366 | Unsupported if a typed clause fails; otherwise degraded if and only if nothing is active, ambiguous (with exactly these candidates) if and only if two or more active rules lie within 1e-9 of the lowest priority, and else decided by the single contender, resolved if and only if it has a target. |
| `ResolveTheorems.RouteCandidatesMeaning` | internal/resolve/resolve.go:277-300 | Route resolution offers every active rule that has a route, by priority and then id; other kinds offer none. |
| `ResolveTheorems.OutcomeShaped` | internal/resolve/resolve.go:157-200 | Every outcome leaves blank what its kind does not decide, and states the reason that belongs to it. |
| `ResolveTheorems.KindsResolved` | internal/resolve/resolve.go:126-164 | A rule kind is refused if and only if it is none of state, route and guard. |
| `ResolveTheorems.TieMeaning` | internal/resolve/resolve.go:494-496 | Priorities tie if and only if they are at most 1e-9 apart. |
| `ResolveTheorems.OrderIndependent` | internal/resolve/resolve.go:226-366 | Permuting the rules, with any resolution of sort ties, changes no field of the decision: kind, winner, targets, priority, reason and the multisets of candidates and route candidates; only which of several failing rules is reported may differ. |
| `ResolveTheorems.TraceErasure` | internal/resolve/resolve.go:222-253 | Erasing the trace of a traced resolution leaves exactly an untraced one, and every untraced one arises so. |
| `ResolveTheorems.TraceShape` | internal/resolve/resolve.go:452-472 | One faithful entry per typed rule in order, or exactly the prefix before the first failing rule. |
| `ResolveTheorems.TraceTells` | internal/resolve/resolve.go:452-487 | What each trace entry says of its rule: identity, target by kind, priority, match and the degraded dependencies that suppress it. |
| `ResolveTheorems.CandidateTells` | internal/resolve/resolve.go:289-300 | What candidates tell of a rule: its id, and for routes its route and priority. |
| `ResolveTheorems.TraceReplay` | internal/resolve/resolve.go:452-487 | Without an error, kind and target can be recomputed from the trace entries alone. |
| `ResolveTheorems.DegradationMonotone` | internal/resolve/resolve.go:415-448 | Degrading more providers only removes active rules, keeps degraded outcomes degraded and failures unsupported, and leaves a winner in place if it depends on no newly degraded provider. |
| `ResolveTheorems.ScopeMeaning` | internal/resolve/resolve.go:402-410 | Scoping keeps exactly the guard rules of the id, each as often as declared. |
| `PriorityLint.DuplicatePriorityWarnings` | internal/resolve/resolve.go:500-545 | The lint warns of exactly the groups of two or more rules of one type at one priority and the groups at one priority that span types. |
| `PriorityLint.LintComplete` | internal/resolve/resolve.go:500-545 | The lint is silent if and only if all priorities of all rule kinds are pairwise distinct. |
| `PriorityLint.SeparatedNeverAmbiguous` | internal/resolve/resolve.go:255-274 | Rules of one type more than 1e-9 apart are never ambiguous, for any signals and degraded set. |
| `PriorityLint.SilentLintOnIntegers` | internal/resolve/resolve.go:494-545 | With whole-number priorities a silent lint does rule ambiguity out. |
| `PriorityLint.NeverAmbiguousIffSeparated` | internal/resolve/resolve.go:255-274 | Priorities rule ambiguity out for all clauses, signals and degraded sets if and only if rules of the type are more than 1e-9 apart. |
| `PriorityLint.SilentLintAmbiguous` | internal/resolve/resolve.go:494-545 | Priorities 10 and 10.0000000005: a silent lint and an ambiguous outcome. |
| `Roles.CloneTrimmedNonEmpty` | internal/config/runtime_gates.go:95-103 | Blank entries are dropped and the others trimmed, in order. |
| `Roles.OverrideWins` | internal/config/runtime_gates.go:58-76 | Field by field, a configured value wins, trimmed, and a blank one leaves the default. |
| `Roles.RequiresMeaning` | internal/config/runtime_gates.go:154-158 | Only local_verification and pre_pr_ai_review may be required, and each name stands for its own role. |
| `Roles.BlankOverride` | internal/config/runtime_gates.go:47-56 | A blank override changes nothing, and each role starts from its own default. |
| `Roles.ValidateRoles` | internal/config/runtime_gates.go:119-160 | Configuration is accepted if and only if the effective roles are complete, use three distinct gates and require known roles only. |
| `Roles.ValidateEffective` | internal/config/runtime_gates.go:126-159 | The loop with its map of seen gate ids accepts exactly the valid contracts, and a reported fault is there. |
| `Roles.DefaultsValid` | internal/config/runtime_gates.go:24-44 | The built-in roles are valid. |
| `Roles.EffectiveComplete` | internal/config/runtime_gates.go:47-76 | Merged roles are complete whatever is configured, so they are valid if and only if gates are distinct and requirements known. |
| `Gate.GateIDCharacterized` | internal/gate/artifact.go:106-115 | The id check accepts exactly the hyphenated lower-case ids; these are trimmed and can stand as one path segment. |
| `Gate.ValidateReadiness` | internal/gate/artifact.go:376-413 | The map of required inputs, flipped entry by entry, yields the declarative readiness problem. |
| `Gate.BuildArtifact` | internal/gate/artifact.go:229-288 | Building validates and normalizes in the order of the specification and stops at its first error. |
| `Gate.DeriveStatus` | internal/gate/artifact.go:583-619 | The recorded status if branch and HEAD are exactly the recorded subject, else stale. |
| `Gate.GateStore.Record` | internal/gate/artifact.go:126-160 | A successful record replaces exactly the file of its gate by the artifact it returns; a failed one changes nothing. |
| `Gate.ShownIff` | internal/gate/artifact.go:163-173 | Showing succeeds if and only if the file of a well-formed id holds a document that re-validates for that very id, and then returns it; not found means exactly that there is no file. |
| `GateProtocol.ShownIffRecorded` | internal/gate/artifact.go:126-173 | In every reachable state, showing succeeds if and only if some successful record named the gate, and returns the last such record. |
| `Gate.GateStore.Status` | internal/gate/artifact.go:176-196 | Missing without a file, invalid if it does not re-validate, else the derived status. |
| `Gate.GateStore.LoadSignals` | internal/gate/artifact.go:199-227 | One status tree for every well-named file whatever the directory order; no namespace at all without one. |
| `Gate.GateStore.ResolveInputGates` | internal/rgdcli/rgdcli.go:701-735 | Named gates become inputs in order; a blank, repeated, non-passing or unreadable one stops it. |
| `GateProtocol.RecordedSound` | internal/gate/artifact.go:126-160 | A successful record re-validates under its own id, meets the contract of its gate, is on the branch and HEAD that git reported, and carries the given inputs and checks one by one, trimmed, statuses included. |
| `GateProtocol.RecordThenRead` | internal/gate/artifact.go:514-543 | Reading back returns what was recorded; other gates read as before. |
| `GateContract.ReadinessIff` | internal/gate/artifact.go:376-413 | A passing document meets the readiness contract if and only if all its passing inputs are on its subject and every required gate has one. |
| `GateContract.ContractExact` | internal/gate/artifact.go:341-413 | The code accepts a document if and only if it has a check and, for the role that claims its gate: every required check is listed, as passed if the document passes; the producer is one of the role; inputs are empty except for pr-readiness, which carries the required passing inputs on its subject. |
| `GateContract.RecordedIff` | internal/gate/artifact.go:126-160 | A record succeeds if and only if the id is well-formed, HEAD is attached and known, the given data is acceptable item by item and the contract is met; it then stores exactly the trimmed data on the branch and HEAD read. |
| `GateContract.SoundExact` | internal/gate/artifact.go:514-566 | A stored document re-validates if and only if it is proper for its gate, stated field by field. |
| `GateContract.StatusMeaning` | internal/gate/artifact.go:176-196 | Each of the five statuses by its exact condition, and the data that comes with it. |
| `GateContract.StatusSignals` | internal/gate/artifact.go:635-650 | The signals of a gate: its status, and head, branch and time exactly where they are recorded. |
| `GateContract.GatesShown` | internal/gate/artifact.go:199-227 | Exactly the well-named gate files have signals. |
| `GateContract.ResolutionIff` | internal/rgdcli/rgdcli.go:701-735 | Input resolution succeeds if and only if the trimmed names are distinct and each gate has a proper passing record on the branch and HEAD read. |
| `GateContract.ResolveOneIff` | internal/rgdcli/rgdcli.go:716-733 | A gate resolves if and only if its record passes here, and then to its id, pass, subject and time. |
| `GateContract.GateIDWords` | internal/gate/artifact.go:106-115 | Gate ids are exactly non-empty words of lower-case letters and digits joined by single hyphens. |
| `GateProtocol.DefaultContracts` | internal/config/runtime_gates.go:24-44 | What the built-in roles demand of each gate and nothing more: producers, checks, and no inputs before pr-readiness. |
| `GateProtocol.DefaultReadiness` | internal/config/runtime_gates.go:24-44 | Under the built-in roles a passing pr-readiness rests on a passing local verification and a passing AI review. |
| `GateProtocol.ReadinessContract` | internal/gate/artifact.go:341-413 | Any readiness document that validates and passes carries, for each required gate, a passing input on its own subject. |
| `GateProtocol.RequiredGatesOfRoles` | internal/gate/artifact.go:415-450 | With valid roles the required gates are those of the named roles, less an optional AI review, and never the readiness gate itself. |
| `GateProtocol.ResolvedInputsFresh` | internal/rgdcli/rgdcli.go:701-735 | Resolved inputs are the stored passing records of the named gates, in order, distinct, all on the branch and HEAD read. |
| `GateProtocol.ResolutionIsSteps` | internal/rgdcli/rgdcli.go:701-735 | Resolving a list of gates is a run of the protocol that checks and takes gate after gate, leaves files and log alone, and hands out exactly the resolved inputs. |
| `GateProtocol.StepKeepsInv` | internal/gate/artifact.go:126-196 | Every protocol step (commit, checkout, detach, the two git reads and the write of a record, the check and the take of an input) keeps the invariant and only extends the log. |
| `GateProtocol.GitSteps` | internal/gate/artifact.go:130-140 | What commits, checkouts and detachments change, and what a record in progress notes of branch and HEAD when it reads them. |
| `GateProtocol.RunKeepsInv` | internal/gate/artifact.go:126-196 | The invariant holds along every run, and log and seen commits only grow. |
| `GateProtocol.StoreSafety` | internal/gate/artifact.go:163-196 | In every reachable state each file reads back as the last record of its gate and meets the contract of the gate, no status is invalid, and pass or fail is reported only on exactly the recorded subject. |
| `GateProtocol.ReadinessPassIsProved` | internal/gate/artifact.go:341-413 | Over every run, a pr-readiness pass shows every check of its role as passed and carries a passing input of each required gate on exactly the branch and HEAD read; with inputs from resolution only, one that is the content of an earlier successful record, which met the contract of its own gate, at that subject, even if HEAD moves in between. |
| `GateAttainability.AttainableIff` | internal/gate/artifact.go:126-196 | From every reachable state on a named branch, a run leads to a pr-readiness pass if and only if the readiness gate and the gates it requires have well-formed ids. |
| `GateAttainability.Attained` | internal/rgdcli/rgdcli.go:701-735 | Such a run exists with inputs from resolution only, and its pass is on the branch and HEAD it started from. |
| `GateAttainability.ConfiguredAttainable` | internal/config/runtime_gates.go:47-76 | Whatever configuration loading accepts, with gate ids as the configuration schema allows them, meets the condition, so the contracts never lock a pass out. |
| `GateAttainability.EffectiveTidy` | internal/config/runtime_gates.go:47-76 | Valid effective roles list trimmed procedures and checks, whatever is configured. |
| `GateProtocol.FreshCommitInvalidates` | internal/gate/artifact.go:583-619 | A commit to a SHA never seen makes every stored gate stale at once, and later pass or fail at that SHA needs a record made at that SHA after the commit. |
| `Observe.CollectSerial` | internal/observe/engine.go:64-74 | The serial loop fills slot after slot. |
| `Observe.ScheduleIndependent` | internal/observe/engine.go:75-92 | Every complete interleaving of the goroutines leaves exactly the serial slots. |
| `Observe.NeverStuck` | internal/observe/engine.go:75-92 | Until the wait returns, the spawning loop or some goroutine can move. |
| `Observe.ScheduleBounded` | internal/observe/engine.go:75-92 | No schedule has more than two steps per provider. |
| `Observe.StoresOnce` | internal/observe/engine.go:75-92 | A slot that has been stored is never written again. |
| `Observe.RunCollect` | internal/observe/engine.go:41-125 | Serial collection and merge yield the signals, diagnostics and degraded flag of the specification; nothing enabled yields nothing. |
| `Observe.Merge` | internal/observe/engine.go:94-122 | The merge loop yields the merged signals, diagnostics and degraded flag of the specification. |
| `Observe.SignalsMeaning` | internal/observe/engine.go:94-122 | Merged signals: for each provider the last slot with signals decides, and nothing else appears. |
| `Observe.DiagnosticsMeaning` | internal/observe/engine.go:94-122 | A diagnostic is in the merge if and only if some slot contributes it. |
| `Observe.ConcurrentEqualsSerial` | internal/observe/engine.go:41-125 | Concurrent collection returns the same signals, diagnostics and degraded flag as serial collection, under every schedule. |
| `Observation.RunDegradedSources` | internal/observation/doc.go:52-78 | The two passes with their set of seen providers. |
| `Observation.DegradedSetMeaning` | internal/observation/doc.go:52-87 | Exactly the providers with a failure or degradation mark or, if the run is degraded and there is none, those of error diagnostics; without repetition. |
| `Observation.FailureIsDegraded` | internal/observation/doc.go:52-87 | Every failed or partial provider with a non-empty id is in the degraded set of its run. |
| `Observation.Document` | internal/observation/doc.go:13-50 | The document with its optional fields, the reserved metadata key always recomputed. |
| `Observation.MetaMeaning` | internal/observation/doc.go:13-50 | The metadata is the caller's, except that the reserved key lists the degraded sources in order, or is absent when there is none. |
| `Observation.DocumentKeys` | internal/observation/doc.go:13-50 | The keys of the document and when the optional ones are present. |
| `Observation.DiagnosticKeys` | internal/observation/doc.go:18-33 | The four entries of a diagnostic in the document. |
| `Observation.DiagnosticRead` | internal/observe/pipeline.go:94-125 | A diagnostic entry that is missing or no string reads as empty. |
| `Observation.ParseObservationDocument` | internal/observe/pipeline.go:76-109 | The parser on a decoded document, skipping entries of the wrong shape. |
| `Observation.DocumentRoundTrip` | internal/observe/pipeline.go:76-109 | Parsing an encoded document returns the same diagnostics, degraded flag and metadata, and the signals as JSON represents them. |
| `Pagination.PaginatePRContext` | internal/observe/github/prquery/prquery.go:412-466 | The page loop against any server computes the specified report within 500 requests. |
| `Pagination.EntriesMeaning` | internal/observe/github/prquery/prquery.go:670-677 | The inbox lists exactly the unresolved threads with an id, in order, outdated ones included and marked; the unresolved count is that of all unresolved threads. |
| `Pagination.ThreadPaginationRefines` | internal/observe/github/prquery/prquery.go:412-466 | Against a server that holds a list of pages the loop always reports on a prefix of them; it says complete if and only if that prefix is the whole list, and then counts and inbox are those of all threads. It stops early only at the budget or at a blank cursor. |
| `Pagination.MergeCommentNodes` | internal/observe/github/prquery/prquery.go:746-794 | The back-pagination loop computes its specification with at most 30 extra requests. |
| `Pagination.CommentMergeRefines` | internal/observe/github/prquery/prquery.go:746-794 | Seeded with the newest page, the merge is a contiguous suffix of the timeline in order; it stops at the oldest page, after thirty more pages or at a cursor that is blank or gone; it says incomplete if and only if older pages remain, else it is the entire timeline. |
| `Selection.LatestComment` | internal/observe/github/prquery/prquery.go:1106-1123 | The last newest comment of the login, or nothing if there is none. |
| `Selection.LatestIsNewest` | internal/observe/github/prquery/prquery.go:1106-1123 | The latest comment is the one of the login than which none before is newer and every one after is older, older meaning a proper prefix or a smaller character at the first difference. |
| `Selection.NewerDigitWins` | internal/observe/github/prquery/prquery.go:1106-1123 | Of two stamps of one width the larger digit at the first difference is the newer. |
| `Selection.SelectStatusComment` | internal/observe/github/prquery/prquery.go:956-994 | The last lexicographic maximum of tier and time among the login's marked comments; without one, the last newest comment. |
| `Selection.ChoiceIsNewest` | internal/observe/github/prquery/prquery.go:956-994 | The choice has the highest tier, and within it is the last newest in the same sense. |
| `Selection.ChoiceUnique` | internal/observe/github/prquery/prquery.go:956-994 | The choice among marked comments is unique. |
| `Selection.UnmarkedCommentIrrelevant` | internal/observe/github/prquery/prquery.go:956-994 | Inserting an unmarked comment anywhere never changes a marker-based choice. |
| `Selection.ReviewsByLogin` | internal/observe/github/prquery/prquery.go:1011-1040 | For each login the last maximum by submission time, a missing time first; no entry for a login without reviews. |
| `Selection.ReviewIsNewest` | internal/observe/github/prquery/prquery.go:1011-1040 | The kept review is the last newest of its login in the same sense. |
| `Text.AtMostMeaning` | internal/observe/github/prquery/prquery.go:1116-1116 | The order of stamps: a prefix comes first, and else the first difference decides. |
| `Diagnostics.BotReviewAggregate.Accumulate` | internal/observe/github/prquery/diagnostics.go:180-203 | Absorbing one status updates the aggregate exactly as specified and leaves it alone for bots that are not required. |
| `Diagnostics.ComputeBotReviewDiagnostics` | internal/observe/github/prquery/diagnostics.go:254-269 | The loop over the mutable aggregate yields the specified flags. |
| `Diagnostics.FoldMeaning` | internal/observe/github/prquery/diagnostics.go:180-203 | The fold equals order-free questions about which required bots occur; the block reason is the common blocked tier, mixed if two occur. |
| `Diagnostics.OrderFree` | internal/observe/github/prquery/diagnostics.go:254-269 | All ten flags depend only on which statuses occur, so permuting or repeating them changes nothing. |
| `Diagnostics.FlagsMeaning` | internal/observe/github/prquery/diagnostics.go:205-237 | Each flag by what it says about the required bots; pending if and only if neither terminal nor blocked; a block reason if and only if some required bot is blocked. |
| `BotFindings.FindingsMeaning` | internal/observe/github/prquery/diagnostics.go:102-122 | A status has findings outside threads if and only if it is not marked clean and has a positive actionable, outside-diff or conversation count, under the key or its alias; a duplicate count alone is none. |
| `BotFindings.CountRead` | internal/observe/github/prquery/diagnostics.go:272-288 | A count is read under its key, or under its alias when the key holds no number. |
| `BotFindings.ProgressFlags` | internal/observe/github/prquery/diagnostics.go:180-237 | Completed, failed, blocked, terminal and pending, read off the status texts of the required bots. |
| `BotFindings.ReasonFlag` | internal/observe/github/prquery/diagnostics.go:44-59 | The block reason names the one blocked tier that occurs, or says that both do. |
| `Diagnostics.CombineMeaning` | internal/observe/github/prquery/diagnostics.go:51-59 | Combining keeps a reason that is repeated or followed by none, and mixes different ones. |
| `BotFindings.OutstandingFlags` | internal/observe/github/prquery/diagnostics.go:138-174 | Stale, awaiting, duplicate and non-thread findings, read off the entries of the required bots. |
| `Guard.FailsClosed` | internal/guard/merge.go:69-230 | OK if and only if every signal is present with its passing value. |
| `Guard.RefusalsExplained` | internal/guard/merge.go:69-230 | Whatever the guard refuses for is what the signals show. |
| `Guard.DiagnosticsReadyIff` | internal/guard/merge.go:147-182 | On computed diagnostics the bot checks pass if and only if every required bot has reviewed the known head, with no trigger or finding outstanding and comments seen in full. |
| `Guard.BlockReasonPresent` | internal/guard/merge.go:184-211 | On computed diagnostics the refusal for a missing block reason cannot occur. |
| `Guard.EvalWithRules` | internal/guard/eval.go:12-30 | Unknown guards are refused; declared rules gate the built-in guard; otherwise the built-in decides. |
| `Guard.UnknownGuardIff` | internal/guard/eval.go:12-20 | A guard is unknown if and only if it is not merge-readiness. |
| `Guard.RunHasGuardRules` | internal/guard/eval.go:32-39 | The search finds a guard rule for the id if and only if there is one. |
| `Pipeline.ClauseSameLookups` | internal/match/match.go:48-105 | Accepted clauses cannot tell apart maps that resolve every path alike, so rules mean the same on the index as on the tree. |
| `Pipeline.GuardSameLookups` | internal/guard/merge.go:69-85 | Nor can the guard. |
| `Pipeline.GuardRecode` | internal/guard/merge.go:69-230 | Numbers as floats change no verdict of the guard. |
| `Pipeline.SavedObservationReplays` | internal/observe/pipeline.go:76-109 | Provided no segment is ambiguous beyond what JSON keeps: saving an observation, reading it back and flattening it gives the same degraded set and, whatever gate and state signals are laid over the index, the same resolution outcomes and the same guard verdict as the live one. |
| `Pipeline.AmbiguousVerdict` | internal/signals/flatten.go:28-31 | A tree with an ambiguous segment, two indexes of it, and two different guard verdicts. |
| `Pipeline.ImpairedProviderNeverWins` | internal/resolve/resolve.go:415-448 | No rule that depends on a failed or partial provider is the resolved winner of a run. |
| `Pipeline.GateOverlay` | internal/rgdcli/rgdcli.go:608-617 | With some gate file, the status path of a gate resolves after the overlay if and only if the gate has a file, to the status derived for the branch and HEAD read; without any, the index is unchanged. Other namespaces resolve as before. |
| `Pipeline.GatePassClause` | internal/rgdcli/rgdcli.go:608-617 | A rule asking for a passing gate fires exactly when a pass is recorded, if and only if some gate has a file or the observation does not itself show the gate as passing; in the other case it fires. |
| `Pipeline.ObservedGatePasses` | internal/rgdcli/rgdcli.go:608-617 | Without any gate file, a gate status written into the observation satisfies such a rule. |
| `Pipeline.GuardOkIff` | internal/guard/eval.go:12-30 | OK if and only if the built-in guard is OK and, if rules are declared for it, none fails and exactly one active rule contends. |
| `Pipeline.IndexAgreesBelow` | internal/rgdcli/rgdcli.go:368-385 | Unless entries below an empty top-level key spill over, the index agrees after gate and state overlays, of any trees, with the collected tree below every other namespace. |
| `Pipeline.OkIffReviewed` | internal/guard/merge.go:69-230 | End to end, on an index that agrees with the collected tree: the guard is OK if and only if its checks outside review data pass, every thread page was fetched and every thread on the server is resolved, and every required bot is satisfied. |
| `Pipeline.SatisfiedIff` | internal/guard/merge.go:147-182 | A required bot is satisfied if and only if it has a completed review of the known head, awaits nothing, has nothing outstanding and all comments were seen. |
| `Pipeline.GuardReadsReviews` | internal/guard/merge.go:120-182 | On collected review data the verdict is read off the thread report and the bot statuses, in both directions. |
| `Pipeline.OkMeansReallyReviewed` | internal/observe/github/prquery/prquery.go:335-379 | If the guard is OK on an index that agrees with the collected tree, every review thread on the server is resolved, and every required bot is in the reviewed tier on the known head, awaits nothing, has no positive actionable, outside-diff or conversation count unless it is marked clean, and the whole comment timeline was seen. |
| `ContextBuild.Build` | internal/rgdcli/rgdcli.go:368-391 | The decision part of a context build on one index overwritten in place: the state decision on the gate overlay, then route decision and guard verdict on the state overlay as well. |
| `ContextBuild.StateShown` | internal/rgdcli/rgdcli.go:377-385 | On the finished index state.state_id, state.rule_id and state.kind resolve to the state decision. |
| `ContextBuild.StateClause` | internal/rgdcli/rgdcli.go:377-390 | A rule that asks for a state fires on the finished index if and only if that state was decided. |
| `ContextBuild.DecisionMeaning` | internal/rgdcli/rgdcli.go:368-391 | The state decision is the verdict of the state rules on the gate overlay, the route decision that of the route rules on the state overlay. |
| `ContextBuild.ContextDeterministic` | internal/rgdcli/rgdcli.go:350-391 | With fixed provider results in which no segment is ambiguous beyond what JSON keeps, any two schedules, rule orders, orders of map iteration and resolutions of sort ties lead to the same state decision and state signals, route decision and guard verdict. |
| `ContextBuild.NamedProvidersPlain` | internal/observe/engine.go:117-122 | Unless a provider id is empty, no segment of the collected signals is ambiguous. |
| `ContextBuild.SavedBuildReplays` | internal/rgdcli/rgdcli.go:428-450 | Provided no segment is ambiguous beyond what JSON keeps, a build on a saved observation decides like a build on the live one. |
| `ContextBuild.SavedOkMeansReviewed` | internal/rgdcli/rgdcli.go:453-484 | A guard evaluation on a saved observation: an OK verdict means that every thread on the server is resolved and every required bot has really reviewed the head. |
| `ContextBuild.VerdictIffReviewed` | internal/guard/eval.go:12-30 | With declared guard rules, on an index that agrees with the collected tree: OK if and only if the rules allow it and the checks outside review data, the fetched and resolved threads and the required bots are all in order. |
| `ContextBuild.BuildOkMeansReviewed` | internal/rgdcli/rgdcli.go:350-391 | An OK guard verdict of a whole build means that every thread on the server is resolved and every required bot has really reviewed the head. |

## Left out

- HTTP, GraphQL, retries, and the `git` and `gh` subprocesses: what they return is a parameter (`GitView`, the
  page servers, the results of provider calls).
- YAML and JSON parsing and the JSON Schema library: documents are decoded values, and the constraints of
  `pkg/schema/gate-artifact.json` are stated as the predicate `Gate.SchemaValid`.
- IEEE-754 rounding, NaN, infinities, negative zero and integers beyond 2^53: numbers are exact.
- Signal values other than null, booleans, integers, floats, strings, slices and string-keyed maps of `any`; the
  difference between nil and empty slices or maps.
- Custom evaluator and guard registries: only the default ones, with `constant` and `merge-readiness`.
- How a bot's status is classified from its comments (`ClassifyBotStatus`, enrichment text, rate limits): status
  maps are arbitrary in `Diagnostics`, and the tier of a comment is a parameter in `Selection`.
- Counting of review decisions, pull-request details, and inbox fields other than thread id and outdatedness.
- File-system failures and the write-then-rename of an artifact file: a record replaces its file in one step. The
  role contract is fixed during a run of the gate protocol.
- Human-readable reason texts; errors are kept apart by constructor only. `Gate.StatusMap` therefore has no
  `reason` entry.
- Command-line handling, the knowledge filter, compaction and the output document of a context build.
- Nil engines and nil configuration in `Collect`.
- A later page without `reviewThreads`, which ends the report as if complete, and a first page without comments,
  which reads as a complete empty timeline: the page-list servers always send both, and their cursors that are
  not blank identify one page.
- Goroutines and concurrent processes run as interleaved atomic steps, not on Go's memory model.
- Gate.GateStore.ResolveInputGates: reads one unchanging directory, branch and HEAD; its interleaving with other
  processes is covered step by step in `GateProtocol`.
- MatchTheorems.DenotationalAgreement: for logical clauses the operand checks are sufficient and not necessary,
  as `MatchLaws.HiddenBadOperand` shows; the exact condition would quantify over the signals that reach an operand.
- Pipeline.OkMeansReallyReviewed: speaks of the status list collected; that a status list tells the truth about
  its bot rests on text classification.
- PriorityLint.DuplicatePriorityWarnings: returns the warnings as a set; the message texts and their final sort by
  text are not modelled.
- Gate.GateStore.LoadSignals: one view of branch and HEAD serves all gates, while the program reads git again for each
  gate file; and the status trees lack the `reason` text, which is prose from the git or validation
  error.
- Pagination.PaginatePRContext: reports on the threads only; the pull-request node of the first page, from which
  head, comments and reviews are read, and the inbox fields other than thread id and outdatedness are not part of
  its result.
