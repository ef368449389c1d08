# Zedflow: a verified model

Zedflow compiles, prepares and runs agent flows. This project models four of its parts in Dafny and
proves what they are relied on for.

**The context language.** A small typed functional language over JSON with named types, structural records,
collection operations, templates, library functions and blocks. `Types` and `TypeWalk` treat validity of types
and subtyping. `Typing` gives the rules, `Checker` the traversal with its limits and memo sets as a
specification, `CheckerObject` the object that performs it; `CheckerSound`, `Completeness` and `ExactAcceptance`
prove that acceptance means being well typed and within the limits of a syntactic tour (`Tours`), and
`Tightness` that the rules refuse only what some value would not fit. `Evaluation` and `Blocks` specify the
budgeted evaluator, `EvaluatorObject` is the object whose methods update its fields, `Meaning` is the
budget-free meaning over plain JSON, with its laws in `MeaningLaws` and `Utf8`. `Soundness` and `Showing`
connect them: a complete evaluation shows exactly its meaning. The evaluator ignores `AccessError::Invalid`
silently, so this is where type soundness is needed. `Budgets` and `BlockBudgets` prove the other direction,
that within limits of the size of its meaning an evaluation is complete. `Provenance`, `SourcesSuffice`
and `FragmentSources` bound the recorded sources from both sides, `Tracing` and `TracePaths` say what needs and trace tell, `Window`
and `Capturing` what is captured.

**Compositions and graphs** (`Composition`, `Dependencies`, `Depths`, `Aliases`, `Resolution`, `Legality`,
`LongChains`, `Linking`, `FlowGraph`, `FlowValidation`, `FlowRules`, `Projection`, `Lowering`, `ModelPairs`, `ParallelWaits`). Activation of
bridges, canonical instances, the resolution of connections and data bindings, re-resolution, validation of
flows, entry projection, lowering, and the two validators that reason about paths.

**Runs** (`RunDocument`, `RunProtocol`, `CommandEffects`, `OpenWaits`, `OwnerProtocol`, `OwnerProgress`, `HandOvers`).
One run document written by commands and by a stale executor, and the hand-over between launch tasks, both as
transition systems over every interleaving. `CommandEffects` also writes out, without the operations, when each command
is accepted and what it and a flush leave in every field (`AnswerIsAccepted`, `SelectionIsBound`, `MessageIsQueued`,
`AbortIsRecorded`, `ResumeContinues`, `WakeContinues`, `FlushFields`).

**Codecs and edits** (`SourceTerms`, `SourceParser`, `LiteralRoundTrip`, `RoundTrip`, `StrategyRoundTrip`,
`Constructors`, `WindowEdits`, `WindowEffects`, `WindowPatches`, `Selection`, `Encoding`). Printing and parsing of
strategies over constructor trees and what these construct, patches on window trees, and the memoised selection of
definitions. `Encoding` shows that the serialisation which evaluation and selection take as a parameter can be what
they require.

Where the source updates an object or a variable in place, the model has a class or a method with a loop
(`Walk`, `Checker`, `Evaluator`, `Walker`, `InstanceResolver`, `Reporter`, `Linker`, `RunStore`, `Draft`); each
method is proved equal to a specification function, and the theorems are about that function. Names ending in
an underscore avoid a clash with a keyword or another member.

`dafny verify dfyconfig.toml` verifies the whole project.

## Results that differ from what one might expect

- Re-resolution is not always a fixed point. The depth limit of `dependencies` counts only the ancestors of
  the current visit, so a chain longer than 128 may be accepted when its end was activated first and refused
  when all bridges are requested at once (`LongChainsCanFail`). `FixedPointExactly` states when it is.
- A flush can hide a wait that nobody has answered, if a stopped run is resumed while the launch of an earlier
  answer is still under way and its graph asks again at the checkpoint it began from (`EarlyResumeHidesAWait`).
  The exact condition is the guard of the merge, `Superseded`: over every interleaving a flush hides an
  unanswered wait if and only if the document carries another claim made for the view's checkpoint
  (`HiddenIffSuperseded`). A caller who resumes only at rest, which is what `wait_idle` gives as long as nothing
  new is launched, never meets it (`OpenWaitsAreShown`). Asking again without committing a checkpoint in between
  is a freedom of the abstract engine; whether the graph library does so is not part of this model.
- The parser's nesting measure is not the depth of the expression: named arguments count twice and an empty
  block list counts as a level, so the exact condition of `StrategyReturns` is stated on that measure.
- Numbers are compared exactly, but a float that equals an integer is another JSON value:
  `EquivalentIsEquality` is equality of JSON, not of numbers.

## Model

| member | source | states |
|---|---|---|
| `Types.CompatibleIsSubtyping` | rust/crates/zf-core/src/types.rs:38-54 | On valid types `compatible` is reflexive, transitive and antisymmetric, and every value of the source type is a value of the target type |
| `Types.AcceptsAntisymmetric` | rust/crates/zf-core/src/types.rs:42-53 | Two types that accept each other are identical |
| `Tightness.CompatibleIsInclusion` | rust/crates/zf-core/src/types.rs:38-54 | On valid types `compatible` is exactly inclusion of values under every reading of the nominal types (named types and media types), of which the registry gives one |
| `Types.UnfoldsResolves` | rust/crates/zf-core/src/types.rs:74-184 | A type with a finite expansion resolves every reference within as many steps as it has levels |
| `Types.FitsIgnoresBound` | rust/crates/zf-core/src/types.rs:186-249 | Checking a value follows a Named step without shrinking the value; on a resolvable type the verdict does not depend on how many such steps are allowed, so the recursion is well defined |
| `Types.ResolvedMeans` | rust/crates/zf-context/src/context.rs:706-716 | On a resolvable type the 65-step resolution always reaches a constructor, and that constructor has the same values |
| `TypeWalk.FiniteIsAcyclic` | rust/crates/zf-core/src/types.rs:106-134 | A named type with a finite expansion never meets its own name again |
| `TypeWalk.Walk.Check` | rust/crates/zf-core/src/types.rs:74-169 | The walk with its visiting set, node counter and error list reports nothing exactly on finite expansions within the remaining levels and nodes, whatever is being visited, and counts exactly the nodes of the expansion |
| `TypeWalk.Walk.CheckFields` | rust/crates/zf-core/src/types.rs:135-150 | The same for the fields of a record, in any order |
| `TypeWalk.ValidateType` | rust/crates/zf-core/src/types.rs:56-72 | `validate_type` succeeds if and only if the expansion is finite, has at most 64 levels and 4096 nodes, and every name resolves |
| `EvaluatorObject.ValidateValue` | rust/crates/zf-core/src/types.rs:171-249 | `validate_value` succeeds exactly on a valid type and a value of it |
| `Pointers.EscapeRoundTrip` | rust/crates/zf-context/src/context.rs:1302-1314 | Unescaping an escaped field name gives the name back, and an escaped name has no slash (sections 3 and 4 of RFC 6901) |
| `Pointers.IndexRoundTrip` | rust/crates/zf-context/src/context.rs:1351-1363 | The decimal text of an index parses back to that index |
| `Pointers.PointerField` | rust/crates/zf-context/src/context.rs:1302-1314 | Appending an escaped field name to a pointer selects exactly that field, for every name |
| `Pointers.PointerIndex` | rust/crates/zf-context/src/context.rs:1351-1363 | Appending an index to a pointer selects exactly that element |
| `Views.Field` | rust/crates/zf-context/src/context.rs:1302-1314 | A field view exists exactly when the denoted object has the field, and denotes it |
| `Views.Index` | rust/crates/zf-context/src/context.rs:1351-1363 | An element view exists exactly within the denoted array, and denotes that element |
| `Views.EquivalentIsEquality` | rust/crates/zf-context/src/context.rs:1315-1344 | The structural comparison of shared, record and list views is equality of the denoted JSON |
| `CheckerSound.ExpressionSound` | rust/crates/zf-context/src/context.rs:815-1124 | If checking an expression reports nothing, the type it returns is the one the typing rules infer, its calls are all checked before it, and diagnostics, nodes and checked functions only grow |
| `CheckerSound.PredicateSound` | rust/crates/zf-context/src/context.rs:1125-1195 | The same for conditions |
| `Acceptance.AcceptedIsWellTyped` | rust/crates/zf-context/src/context.rs:561-640 | An accepted strategy is typed by the rules, has distinct block identifiers, and its library can be listed so that each function calls only earlier ones |
| `Acceptance.AcceptedCallDepth` | rust/crates/zf-context/src/context.rs:717-785 | In an accepted library no chain of calls is longer than the library |
| `ExactAcceptance.AcceptedExactly` | rust/crates/zf-context/src/context.rs:466-641 | A strategy is accepted if and only if its types merge with the external ones, its header is in order, program and library are typed by the rules, block identifiers are distinct, the library has no recursion, and a tour of the syntax stays within 64 levels and 4096 nodes |
| `Tightness.OperationsAreTight` | rust/crates/zf-context/src/context.rs:903-1121 | `take`, `truncate`, selection and projection are typed exactly where every value of the operand has the shape they need (media objects, whose fields are not offered, apart); `to_json` always is |
| `Tightness.MeasuresAreTight` | rust/crates/zf-context/src/context.rs:984-1006 | Items are measured exactly of types whose values are all lists, media exactly of types whose values are all media objects of one type or lists of them, bytes of everything |
| `Tightness.SortKeysAreTight` | rust/crates/zf-context/src/context.rs:854-903 | A sort is typed exactly where any two keys can be compared; map, group and dedup always are |
| `Tightness.FormatsAreTight` | rust/crates/zf-context/src/context.rs:1228-1264 | A value may be emitted as text or media exactly where every value of its type has that shape, as messages exactly where it is always a list of objects that need not be media, as JSON unless it is media |
| `CheckerObject.Checker.Depth` | rust/crates/zf-context/src/context.rs:683-695 | Counts a node and refuses beyond the depth or node limit |
| `CheckerObject.Checker.CheckType` | rust/crates/zf-context/src/context.rs:696-705 | Reports exactly the invalid types |
| `CheckerObject.Checker.RestoreVariable` | rust/crates/zf-context/src/context.rs:808-814 | Leaving the scope of a collection variable gives back the outer scope, whatever the variable had hidden |
| `CheckerObject.Checker.Function_` | rust/crates/zf-context/src/context.rs:717-785 | The memoised function check with its active set refines the specification and restores scope and mode |
| `CheckerObject.Checker.CollectionItem` | rust/crates/zf-context/src/context.rs:786-807 | The item type of a list operand, or a report |
| `CheckerObject.Checker.Projected` | rust/crates/zf-context/src/context.rs:1091-1121 | The projected record type, reporting exactly undeclared and repeated fields |
| `CheckerObject.Checker.Operate` | rust/crates/zf-context/src/context.rs:820-1122 | Operations on one operand return and report what the specification says |
| `CheckerObject.Checker.Arguments` | rust/crates/zf-context/src/context.rs:918-983 | The types of all arguments in order |
| `CheckerObject.Checker.Assemble` | rust/crates/zf-context/src/context.rs:918-978 | Record, list and template construction |
| `CheckerObject.Checker.Apply` | rust/crates/zf-context/src/context.rs:1007-1045 | A call is reported exactly when names or types of its arguments do not match |
| `CheckerObject.Checker.Expression` | rust/crates/zf-context/src/context.rs:815-1124 | The mutable traversal refines the state-passing specification and leaves the scope as it was on every path |
| `CheckerObject.Checker.Predicate` | rust/crates/zf-context/src/context.rs:1125-1195 | The same for conditions |
| `CheckerObject.Checker.Blocks` | rust/crates/zf-context/src/context.rs:1196-1277 | The same for blocks, with the set of block identifiers |
| `CheckerObject.Checker.Header` | rust/crates/zf-context/src/context.rs:580-625 | Version, id, name, named types, requirements and capabilities |
| `CheckerObject.Check` | rust/crates/zf-context/src/context.rs:466-475 | The whole linked check accepts exactly what the specification accepts, which `AcceptedExactly` characterises without the traversal |
| `Ordering.CompareNumExact` | rust/crates/zf-context/src/context.rs:2259-2301 | Comparing mixed integers and finite floats is exact comparison of their values |
| `Ordering.SortIsStable` | rust/crates/zf-context/src/context.rs:1658-1666 | Sort returns a permutation in which keys ascend, or descend when asked to: numbers by their exact values, texts by the first scalar value that differs or the shorter first; equal keys keep their order |
| `Ordering.SortTranslates` | rust/crates/zf-context/src/context.rs:1658-1666 | Sorting views and sorting the values they denote give the same order |
| `Grouping.GroupPartitions` | rust/crates/zf-context/src/context.rs:1679-1702 | Groups have distinct keys, hold exactly the items of their key in order, and together hold every item |
| `Grouping.DedupIsFirstOfGroups` | rust/crates/zf-context/src/context.rs:1667-1702 | Dedup is the first item of each group, in order of groups |
| `MeaningLaws.ComparisonsAreExact` | rust/crates/zf-context/src/context.rs:1969-1993 | Conditions on numbers compare their exact values, however each is represented; equality and inequality are those of JSON |
| `MeaningLaws.ContainsIsMembership` | rust/crates/zf-context/src/context.rs:1994-2012 | A text contains exactly its substrings, a list exactly its elements |
| `MeaningLaws.JunctionsDecide` | rust/crates/zf-context/src/context.rs:2021-2036 | `all` holds if every condition does and fails at the first that fails, `any` holds at the first that holds; later conditions do not matter |
| `MeaningLaws.MapIsPointwise` | rust/crates/zf-context/src/context.rs:1623-1657 | `map` gives the value of its body for each element in order, and nothing else |
| `MeaningLaws.FilterKeepsChosen` | rust/crates/zf-context/src/context.rs:1756-1785 | `filter` keeps exactly the elements that meet the condition, in order and as often as they occur |
| `MeaningLaws.TemplatePartsExactly` | rust/crates/zf-context/src/context.rs:2206-2226 | A text is a template with given parts if and only if the parts alternate, are canonical and spell the text when put together, so the parts are unique and malformed texts are exactly those without any |
| `MeaningLaws.TemplatesFillHoles` | rust/crates/zf-context/src/context.rs:2206-2226 | A template means its text with every hole replaced by the text bound to its name |
| `Utf8.Utf8LenCounts` | rust/crates/zf-context/src/context.rs:2228-2258 | The bytes counted of a text are those of UTF-8 (section 3 of RFC 3629): an encoding of exactly that length is given, and texts with the same encoding are the same |
| `Soundness.ExpressionMeans` | rust/crates/zf-context/src/context.rs:1720-1968 | In any environment that matches its scope and for any resources and budgets, a well-typed expression yields a value of its type equal to its pure meaning, or misses a declared resource that is absent, or leaves a diagnostic |
| `Soundness.PredicateMeans` | rust/crates/zf-context/src/context.rs:1969-2037 | The same for conditions: the decision is the meaning, or an absent resource, or a diagnostic |
| `Showing.FormatSound` | rust/crates/zf-context/src/context.rs:1228-1264 | A value of the emitted type is represented as its format promises |
| `Showing.ProgramMeans` | rust/crates/zf-context/src/context.rs:2074-2203 | A well-typed program asks only for declared absent resources, and if its run is complete its items are those of its meaning |
| `Showing.CompleteShowsMeaning` | rust/crates/zf-context/src/context.rs:1489-1563 | The main theorem: whenever `complete` is true, the items of the budgeted evaluator equal, up to occurrence ids, the budget-free meaning over plain JSON, so that no live block was dropped and no undiagnosed `Invalid` exit was taken |
| `Budgets.ExpressionAffords` | rust/crates/zf-context/src/context.rs:1598-1968 | Evaluating an expression that means something, or misses a resource, reports nothing and uses no more than its effort, which is computed from the meaning alone, if every budget has that much left |
| `Budgets.PredicateAffords` | rust/crates/zf-context/src/context.rs:1969-2037 | The same for conditions |
| `BlockBudgets.EnoughIsComplete` | rust/crates/zf-context/src/context.rs:1489-1563 | An accepted strategy, under limits of at least the size that its meaning needs, is evaluated completely if and only if it has a meaning |
| `Encoding.CodeIsInjective` | rust/crates/zf-context/src/context.rs:1667-1690 | The serialisation by which Dedup and GroupBy tell keys apart can be injective: an encoder of all JSON documents is given and no code begins another |
| `EvaluatorObject.Evaluator.Tick` | rust/crates/zf-context/src/context.rs:1598-1604 | One step of the budget |
| `EvaluatorObject.Evaluator.Charge` | rust/crates/zf-context/src/context.rs:1616-1622 | The derived-byte budget |
| `EvaluatorObject.Evaluator.Restore` | rust/crates/zf-context/src/context.rs:1706-1719 | Variables and their sources are put back as they were |
| `EvaluatorObject.Evaluator.Read` | rust/crates/zf-context/src/context.rs:1904-1936 | A resource is recorded as read, validated at most once, and missing or invalid as the source says |
| `EvaluatorObject.Evaluator.KeyedLoop` | rust/crates/zf-context/src/context.rs:1623-1705 | The loop of Map, Sort, GroupBy and Dedup over items |
| `EvaluatorObject.Evaluator.Expression` | rust/crates/zf-context/src/context.rs:1720-1968 | The mutable evaluator refines the specification and restores every scope, on success and on error |
| `EvaluatorObject.Evaluator.Predicate` | rust/crates/zf-context/src/context.rs:1969-2037 | The same for conditions |
| `EvaluatorObject.Evaluator.Demand` | rust/crates/zf-context/src/context.rs:2038-2052 | Missing resources become needs, errors are already diagnosed, and `Invalid` is ignored |
| `EvaluatorObject.Evaluator.NewId` | rust/crates/zf-context/src/context.rs:2053-2064 | A fresh occurrence id outside the ids in use |
| `EvaluatorObject.Evaluator.CountOutput` | rust/crates/zf-context/src/context.rs:2065-2073 | The output-item budget |
| `EvaluatorObject.Evaluator.Blocks_` | rust/crates/zf-context/src/context.rs:2074-2203 | The loops over blocks and iterations refine the specification and restore scopes and iterations |
| `EvaluatorObject.EvaluateProgram` | rust/crates/zf-context/src/context.rs:1556-1561 | A run of the object is the specified evaluation |
| `ReadDeterminism.EvaluationDependsOnReads` | rust/crates/zf-context/src/context.rs:1489-1563 | If two resource maps agree, in presence and value, on everything one evaluation read, the other evaluation is identical in items, needs, diagnostics, reads and trace |
| `Outputs.OutputIsAccounted` | rust/crates/zf-context/src/context.rs:2053-2203 | Every run stays within all budgets; output items are the nodes of the result and output bytes the sum over its fragments; all ids of the result are distinct |
| `Provenance.SourcesAreCovered` | rust/crates/zf-context/src/context.rs:1720-2203 | Every fragment names only sources that the evaluation read |
| `FragmentSources.SourcesDetermineFragments` | rust/crates/zf-context/src/context.rs:1489-2203 | Every fragment of a result was emitted at some path and nothing else was; in another world, with whatever other resources and budgets, what is emitted at the same path is the same value with the same sources, role and format, if the two worlds agree on the sources of the fragment |
| `SourcesSuffice.FragmentDependsOnSources` | rust/crates/zf-context/src/context.rs:1720-2203 | The sources of a fragment determine it: in two worlds that agree on them, and with variables that their own sources determine, the same block gives the same value, role, format and sources, whatever the budgets and the rest of the resources |
| `SourcesSuffice.TurnsStayKin` | rust/crates/zf-context/src/context.rs:2157-2190 | Every turn of a loop binds its variable together with sources that determine it |
| `Tracing.NeedsAreTraced` | rust/crates/zf-context/src/context.rs:2038-2203 | Unless something was reported, every need names at least one block, each once and only blocks that were evaluated, consulted the missing resource and showed nothing |
| `Tracing.LastEntryTells` | rust/crates/zf-context/src/context.rs:2074-2203 | After a block the trace ends with its entry: its place, the identifiers of what it shows, the sources of its fragment, and which way its condition went; earlier entries stay |
| `TracePaths.PathsIdentifyOccurrences` | rust/crates/zf-context/src/context.rs:2074-2203 | In no evaluation do two trace entries have the same path |
| `Window.CheckItems` | rust/crates/zf-context/src/window.rs:255-345 | The recursive check with its growing id set accepts exactly the lists in order and within limits; a list in order fails only on a limit |
| `Window.Validate` | rust/crates/zf-context/src/window.rs:235-365 | Validation succeeds exactly on windows in order and within depth, item and byte limits |
| `Window.Capture` | rust/crates/zf-context/src/window.rs:193-233 | Capture returns exactly the window of a complete evaluation with all revisions, if valid |
| `Window.CompleteIsCapturable` | rust/crates/zf-context/src/window.rs:193-365 | A complete evaluation of any strategy with nonempty revisions is in order: ids unique, sources covered, values matching formats; so capture can fail only on a limit |
| `Capturing.CaptureDisplaysMeaning` | rust/crates/zf-context/src/window.rs:193-233 | The captured window displays exactly the meaning of the strategy, with identifiers and sources of the evaluation in order, and names the strategy, its revision and its capabilities |
| `WindowEdits.SearchesAgree` | rust/crates/zf-context/src/window.rs:463-488 | Depth-first and level-first searches find the same item under distinct ids |
| `WindowEdits.FindMut` | rust/crates/zf-context/src/window.rs:463-475 | The search order of `find_mut` |
| `WindowEdits.RemoveItem` | rust/crates/zf-context/src/window.rs:476-488 | The search order of `remove`, and the tree it takes out |
| `WindowEdits.RemoveTakesOneTree` | rust/crates/zf-context/src/window.rs:386-389 | Remove succeeds exactly for present ids and takes one whole subtree; inserting it again restores the window |
| `WindowEdits.MoveConserves` | rust/crates/zf-context/src/window.rs:419-445 | Move keeps every item and subtree: without the moved tree, before and after are the same, and it stands at the requested index of the requested parent |
| `WindowEdits.NoMoveBelowItself` | rust/crates/zf-context/src/window.rs:422-432 | A destination inside the moved tree is refused |
| `WindowEdits.MoveBackRestores` | rust/crates/zf-context/src/window.rs:419-445 | Moving back to the old parent and index restores the window |
| `WindowEdits.RemoveAndMoveKeepOrder` | rust/crates/zf-context/src/window.rs:386-445 | Remove and Move keep a window in order |
| `WindowEdits.ReplaceKeepsOrder` | rust/crates/zf-context/src/window.rs:390-401 | Replace keeps a window in order when the new content is |
| `WindowEdits.RepresentKeepsOrder` | rust/crates/zf-context/src/window.rs:402-418 | A change of representation keeps a window in order when the value matches |
| `WindowEffects.ReplaceTakesEffect` | rust/crates/zf-context/src/window.rs:390-401 | Replace succeeds exactly for a present item and content of the same identifier; the content then stands in its place and nothing else changes |
| `WindowEffects.RepresentTakesEffect` | rust/crates/zf-context/src/window.rs:402-418 | A representation is changed exactly for a present fragment; only its format and value change |
| `WindowEffects.MoveSucceedsExactly` | rust/crates/zf-context/src/window.rs:419-445 | A move of a present item succeeds if and only if, apart from the moved tree, the destination names a list and the index lies in it; the tree then stands there |
| `WindowPatches.Draft.Edit` | rust/crates/zf-context/src/window.rs:385-446 | One patch on the draft window, with its errors |
| `WindowPatches.Draft.MoveOne` | rust/crates/zf-context/src/window.rs:419-445 | The move patch step by step: take out, look up the parent, check the index, insert |
| `WindowPatches.Draft.ApplyPatches` | rust/crates/zf-context/src/window.rs:375-450 | The loop over patches, each followed by validation |
| `WindowPatches.Patched` | rust/crates/zf-context/src/window.rs:368-373 | Patches apply only to a valid window, and to a copy of it |
| `WindowPatches.PatchesKeepWindows` | rust/crates/zf-context/src/window.rs:368-450 | Every successful patch sequence leaves a valid window with distinct ids, the same strategy and the same revisions |
| `WindowPatches.OnlyLimitsRefuse` | rust/crates/zf-context/src/window.rs:375-450 | A possible Remove or Move of a valid window is refused by validation exactly when a limit is exceeded |
| `LiteralRoundTrip.JsonRoundTrip` | rust/crates/zf-context/src/context_source.rs:414-445 | A printed JSON literal parses back exactly when it nests at most 64 levels |
| `LiteralRoundTrip.TypeRoundTrip` | rust/crates/zf-context/src/context_source.rs:391-413 | A printed type parses back exactly when it nests at most 64 levels |
| `LiteralRoundTrip.ValidTypesFit` | rust/crates/zf-context/src/context_source.rs:853-925 | Every valid type fits the parser |
| `RoundTrip.ExprReturns` | rust/crates/zf-context/src/context_source.rs:929-1152 | An expression printed and parsed at any depth comes back exactly when the parser's own measure (two levels per record, template or call argument) and its literals fit |
| `RoundTrip.PredReturns_` | rust/crates/zf-context/src/context_source.rs:1153-1210 | The same for conditions |
| `StrategyRoundTrip.BlocksReturn_` | rust/crates/zf-context/src/context_source.rs:1211-1271 | The same for block lists, which count as a level even when empty |
| `StrategyRoundTrip.StrategyReturns` | rust/crates/zf-context/src/context_source.rs:152-233 | Parsing a generated strategy gives the same strategy if and only if its nesting measure is at most 64, its types and literals fit, and its builder chain has at most 4096 methods |
| `SourceParser.ParseStrategy` | rust/crates/zf-context/src/context_source.rs:770-842 | The loop over the builder chain computes the specified result |
| `Constructors.ParsedIsBuilt` | rust/crates/zf-context/src/context_source.rs:770-1271 | Whatever strategy the parser reads from a builder chain, running the constructors and builder methods of the chain gives the same |
| `Constructors.GeneratedSourceBuilds` | rust/crates/zf-context/src/context_source.rs:152-200 | A generated source that the parser accepts is a program that builds the strategy it was generated from |
| `Dependencies.Walker.Dependencies` | rust/crates/zf-compiler/src/resolve.rs:219-260 | The depth-first walk with visiting and active sets refines the specification and restores its visiting set |
| `Dependencies.Activate` | rust/crates/zf-compiler/src/resolve.rs:430-439 | The walk from every requested bridge |
| `Dependencies.ActiveIsClosure` | rust/crates/zf-compiler/src/resolve.rs:219-260 | Without reports the active set is exactly the transitive closure of the request, all known, and has no cycle |
| `Dependencies.ShortChainsActivate` | rust/crates/zf-compiler/src/resolve.rs:219-260 | If no chain is longer than 128, activation reports nothing |
| `LongChains.LongChainsCanFail` | rust/crates/zf-compiler/src/resolve.rs:219-260 | Re-resolution is not always a fixed point: a concrete line of 200 bridges under ascending names resolves when its middle and its start are requested, and the resulting graph does not resolve again |
| `Depths.ReportedMeansDeep` | rust/crates/zf-compiler/src/resolve.rs:219-260 | On closed, acyclic, well-named bridges the walk reports something exactly when a tour without limits enters a bridge below 128 ancestors or more |
| `Dependencies.ReuseAllowed` | rust/crates/zf-compiler/src/resolve.rs:262-282 | The worklist decides exactly whether the owner of the reuse target is required, directly or not |
| `Aliases.InstanceResolver.ResolveOne` | rust/crates/zf-compiler/src/resolve.rs:293-375 | One alias resolved by the recursive method with its visiting set, which is restored |
| `Aliases.InstanceResolver.Run` | rust/crates/zf-compiler/src/resolve.rs:490-492 | All imports in order |
| `Aliases.AliasesAreCanonical` | rust/crates/zf-compiler/src/resolve.rs:284-375 | Without reports the alias map is total on imports and root, idempotent, agrees with each import's flow, which exists, and reuses only what may be reused; the instances are exactly the root and the imports that reuse nothing |
| `Aliases.ReuseCyclesAreReported` | rust/crates/zf-compiler/src/resolve.rs:293-375 | Without reports, following reuse from any import ends: every cycle was reported |
| `Aliases.LegalImportsResolve` | rust/crates/zf-compiler/src/resolve.rs:293-375 | Where no chain of reuses is longer than the depth limit, something is reported if and only if an import has no flow, reuses what it may not, or reuses what does not exist or has another flow |
| `Linking.Reporter.ValidateFlow` | rust/crates/zf-compiler/src/resolve.rs:114-217 | A flow is reported exactly when it breaks a rule on entries, branches, data, requirements or inference nodes |
| `Linking.Reporter.ValidateFlows` | rust/crates/zf-compiler/src/resolve.rs:494-504 | Validating each flow once is the same as validating every instance |
| `Linking.Linker.Endpoint` | rust/crates/zf-compiler/src/resolve.rs:377-413 | An endpoint is located in the alias map or reported |
| `Linking.Linker.Connect` | rust/crates/zf-compiler/src/resolve.rs:525-664 | A connection is reported exactly when an end, invocation, type, tool name or condition is wrong or the tool name is taken; otherwise its route is added, and `ResolvedIsAuthored` says what that route holds |
| `Linking.Linker.Bind` | rust/crates/zf-compiler/src/resolve.rs:665-752 | A binding is reported exactly when an end, permission or type is wrong or its target is already bound; otherwise it is added |
| `Linking.Linker.LinkAll` | rust/crates/zf-compiler/src/resolve.rs:521-753 | After the nested loops the routes, bindings, tools and bound sites are exactly those of all connections and bindings, if none was reported |
| `Linking.Linker.Finish` | rust/crates/zf-compiler/src/resolve.rs:754-775 | The last loop reports exactly the unbound required datasets and collects every inference node |
| `Linking.Resolve` | rust/crates/zf-compiler/src/resolve.rs:417-781 | `resolve` returns exactly the specified graph or nothing, and indexes no missing instance even after errors |
| `Legality.ResolvesExactly` | rust/crates/zf-compiler/src/resolve.rs:417-781 | `resolve` returns a graph if and only if the graph represents the request and is legal, both stated on the graph alone |
| `Legality.ResolvedIsAuthored` | rust/crates/zf-compiler/src/resolve.rs:525-752 | Every route has the authored mode, invocation, tool name and condition between the sites its endpoints name, a tool name exactly on tool routes and a condition exactly on conditional ones; no two routes of an instance share a tool name; every data binding is the authored one likewise |
| `Resolution.ReadWriteJoinsIdenticalTypes` | rust/crates/zf-compiler/src/resolve.rs:728-741 | An accepted read-write binding joins two identical types |
| `Resolution.SuppliedOnce` | rust/crates/zf-compiler/src/resolve.rs:712-741 | Bindings supply a site at most once |
| `Resolution.RequiredDataBoundOnce` | rust/crates/zf-compiler/src/resolve.rs:712-764 | In an accepted graph each required dataset has exactly one binding unless it is optional, and then at most one |
| `Resolution.RoutesCarryValues` | rust/crates/zf-compiler/src/resolve.rs:525-664 | Every route of a resolved graph joins an exposed branch to an exposed entry; each request value is an input of that entry, and each awaited result is one the branch expects |
| `Resolution.BindingsCarryValues` | rust/crates/zf-compiler/src/resolve.rs:665-752 | Every data binding of a resolved graph delivers values of the required type, writes back values of the exposed type, and grants no more than is exposed |
| `Resolution.FixedPointExactly` | rust/crates/zf-compiler/src/prepared_model.rs:298-334 | Resolving the own types, flows and bridges of a graph again gives exactly the graph if and only if touring its bridges in order of names never enters one below 128 ancestors or more, and nothing otherwise |
| `Resolution.ResolutionIsFixedPoint` | rust/crates/zf-compiler/src/prepared_model.rs:298-334 | In particular it gives exactly the graph whenever no chain of requirements is longer than 128 |
| `FlowGraph.ReachableFrom` | rust/crates/zf-flows/src/flow_contract.rs:302-313 | The growing set is exactly what the entry node reaches |
| `Projection.AtEntry` | rust/crates/zf-flows/src/flow_contract.rs:279-328 | The projection keeps exactly what the entry node reaches, with the start moved to it |
| `Projection.ProjectionKeepsWalks` | rust/crates/zf-flows/src/flow_contract.rs:279-328 | Walks from a public entry's node are the same in the flow and in its projection, with the same outgoing arrows and nodes along them |
| `Lowering.Lower` | rust/crates/zf-compiler/src/plan.rs:85-174 | The nested loops compute the specified plan, whose steps and joins the next two rows fix |
| `Lowering.LoweringKeepsArcs` | rust/crates/zf-compiler/src/plan.rs:106-165 | Every arrow is lowered exactly once: the plan lists each step as often as arrows stand for it, as an alternative arrival exactly if it leaves neither the start nor a condition and the node it names takes any arrival, and as a joining one otherwise |
| `Lowering.LoweringKeepsSuccessors` | rust/crates/zf-compiler/src/plan.rs:106-165 | Each node keeps its successors for both outcomes of its condition and for both ways of arriving, with ends collapsed to END |
| `Lowering.NodesAreFaithful` | rust/crates/zf-compiler/src/plan.rs:86-105 | A plan has one node for each node but start and ends, in order, with nested flows lowered |
| `Lowering.LoweringSucceeds` | rust/crates/zf-compiler/src/plan.rs:85-174 | A flow that is valid at every level always lowers |
| `FlowValidation.ValidateDepth` | rust/crates/zf-compiler/src/graph_compiler.rs:51-208 | The recursive validator accepts exactly the flows that are well shaped, fully reachable, paired and serial at every level, with at most eight levels and 250 nodes each |
| `FlowValidation.CheckReached` | rust/crates/zf-compiler/src/graph_compiler.rs:165-191 | Every node is reached from the start |
| `FlowValidation.ValidIsShaped` | rust/crates/zf-compiler/src/graph_compiler.rs:51-208 | A validated flow has, at every level, the shape that projection and lowering rely on |
| `FlowValidation.ValidFlowsCompile` | rust/crates/zf-compiler/src/graph_compiler.rs:48-208 | A validated flow lowers, its plan lists every step as often as it is drawn, and nesting stays within eight levels |
| `ModelPairs.ValidatePairs` | rust/crates/zf-compiler/src/graph_compiler.rs:211-266 | The validator accepts exactly the flows whose models and contexts are paired |
| `ModelPairs.StepsArePaired` | rust/crates/zf-compiler/src/graph_compiler.rs:211-266 | Every arrow into a model comes from its own context |
| `ModelPairs.WalksPassContexts` | rust/crates/zf-compiler/src/graph_compiler.rs:211-266 | In format 3 and later every walk enters a model only directly from its paired context, and leaves a context only into its model |
| `ParallelWaits.BranchRegion` | rust/crates/zf-compiler/src/graph_compiler.rs:383-403 | The region is exactly reachability from the root avoiding fork and barriers, and re-entry holds exactly when the fork is so reachable |
| `ParallelWaits.RequiredBranches` | rust/crates/zf-compiler/src/graph_compiler.rs:330-359 | The branches that a join waits for, computed from the regions |
| `ParallelWaits.FindBarriers` | rust/crates/zf-compiler/src/graph_compiler.rs:324-363 | The joins that wait for every branch |
| `ParallelWaits.ValidateParallelWaits` | rust/crates/zf-compiler/src/graph_compiler.rs:289-381 | The validator accepts exactly the flows whose forks are serial |
| `ParallelWaits.AcceptedWaitsAreSerial` | rust/crates/zf-compiler/src/graph_compiler.rs:289-381 | At an accepted fork that is not a condition at most one successor has a barrier-free path to a waiting node, and none has if any successor can return to the fork |
| `FlowRules.ValidExactly` | rust/crates/zf-compiler/src/graph_compiler.rs:51-266 | A flow is valid exactly if the rules written out over its nodes and arrows hold of it and of every nested flow: distinct identities, one start from which all is reached, the arrows of ends, conditions, models and contexts, and serial waits |
| `FlowRules.PausesExactly` | rust/crates/zf-compiler/src/graph_compiler.rs:268-284 | A node can wait exactly if it, or a node nested in it at any depth, is a question, an inbox, or a model or agent whose model the run chooses |
| `FlowRules.OneBranchAsks` | rust/crates/zf-compiler/src/graph_compiler.rs:289-381 | At an accepted fork that is not a condition, two branches that both reach nodes in which something asks before a join are one branch, and no branch returns to the fork |
| `RunDocument.RunStore.PersistEvent` | rust/crates/zf-execution/src/sessions.rs:7-123 | The merge of a stale executor document into the latest one, for the fields of this model |
| `RunDocument.RunStore.Settle` | rust/crates/zf-execution/src/sessions.rs:15-67 | Status, wait and claim after the merge |
| `RunDocument.RunStore.DeliverQueue` | rust/crates/zf-execution/src/sessions.rs:81-112 | The loop over queued messages: pending messages that were consumed become so and enter the transcript |
| `RunDocument.FlushIsIdempotent` | rust/crates/zf-execution/src/sessions.rs:15-113 | Flushing the same view again changes nothing: no message is delivered or shown twice, and no race between answer, abort and wait is decided anew |
| `RunDocument.FlushExtendsTranscript` | rust/crates/zf-execution/src/sessions.rs:100-113 | A flush only extends the transcript, and every consumed message is in it |
| `CommandEffects.FlushTranscript` | rust/crates/zf-execution/src/sessions.rs:81-123 | After a flush the transcript is the old one, followed by exactly the entries of the executor that it did not have, followed by exactly the delivered messages that it did not have, in order |
| `RunDocument.RunStore.ClaimResume` | rust/crates/zf-execution/src/commands.rs:383-425 | A claim needs a settled document with a checkpoint and replaces it whole |
| `RunDocument.RunStore.Queue` | rust/crates/zf-execution/src/commands.rs:557-615 | Queueing is idempotent by id and may claim an inbox wait |
| `RunDocument.RunStore.RemoveMessage` | rust/crates/zf-execution/src/commands.rs:625-668 | Only pending messages can be withdrawn |
| `RunDocument.RunStore.Cancel` | rust/crates/zf-execution/src/commands.rs:670-696 | An abort marks a running run and stops a waiting one |
| `RunDocument.RunStore.WakeQueuedInput` | rust/crates/zf-execution/src/service.rs:969-987 | An executor that leaves claims an inbox wait with unseen messages |
| `RunProtocol.NextKeeps` | rust/crates/zf-execution/src/sessions.rs:7-123 | Every command, event and flush keeps the invariant |
| `RunProtocol.AlwaysInv` | rust/crates/zf-execution/src/commands.rs:285-733 | The invariant holds after every interleaving |
| `RunProtocol.ClaimedAtMostOnce` | rust/crates/zf-execution/src/commands.rs:285-425 | Over every interleaving no wait is claimed twice |
| `RunProtocol.QueueOnlyProgresses` | rust/crates/zf-execution/src/commands.rs:557-668 | Over every interleaving no queued message is lost, altered or brought back |
| `RunProtocol.SelectionsFollowRevision` | rust/crates/zf-execution/src/sessions.rs:30-51 | Over every interleaving no model selection is lost to a flush: the revision only grows, and the same revision means the same selections |
| `RunProtocol.ExecutorSelectsNothing` | rust/crates/zf-execution/src/sessions.rs:30-51 | Without commands, no sequence of events, flushes and wake-ups changes the selections |
| `RunProtocol.PayloadSurvives` | rust/crates/zf-execution/src/sessions.rs:59-67 | The payload of a claim stays until the checkpoint has moved on, through any number of flushes, failures, aborts and resumes: only the claim of a new wait replaces it |
| `CommandEffects.AnswerIsDelivered` | rust/crates/zf-execution/src/commands.rs:285-357 | An accepted answer to a question leaves for the graph exactly one value, under the question's path and with the wait's identity: the boolean itself, or the expansion of the text; the transcript gains exactly the text as it was given |
| `CommandEffects.AnswerIsHeld` | rust/crates/zf-execution/src/sessions.rs:59-67 | Until the checkpoint has moved on, through any number of flushes, failures, aborts and resumes, what is held for the graph is that answer |
| `CommandEffects.ModelAnswerSelects` | rust/crates/zf-execution/src/commands.rs:285-357 | Answering a wait for a model is the same as selecting it |
| `CommandEffects.MessageIsQueuedOnce` | rust/crates/zf-execution/src/commands.rs:557-615 | A message under a known identity is accepted if and only if it is the same one, and changes nothing |
| `CommandEffects.MessageIsWithdrawn` | rust/crates/zf-execution/src/commands.rs:625-668 | Withdrawal succeeds if and only if the message is pending; it becomes cancelled and nothing else changes |
| `OpenWaits.HiddenIffSuperseded` | rust/crates/zf-execution/src/sessions.rs:15-58 | Over every interleaving a flush hides the wait of the executor if and only if the document carries another claim made for the checkpoint of the view; that is so for every claimed wait, and any other wait is shown, or stopped by an abort |
| `OpenWaits.OpenWaitsAreShown` | rust/crates/zf-execution/src/sessions.rs:15-58 | Over every interleaving in which a stopped run is resumed only at rest: a wait that nobody has claimed is shown by every flush unless the run was aborted, and a claimed one never is |
| `OpenWaits.ShownMeansAtRest` | rust/crates/zf-execution/src/commands.rs:383-425 | Over the same interleavings: while a wait is shown no launch of the run is under way and its executor is not going on |
| `OpenWaits.EarlyResumeHidesAWait` | rust/crates/zf-execution/src/sessions.rs:16-29 | Without that condition a wait can be hidden: a concrete run in which the launch of an earlier answer begins after a later resume and asks at the same checkpoint |
| `RunProtocol.AbortBeatsWaits` | rust/crates/zf-execution/src/sessions.rs:52-58 | After an accepted abort the run is never shown as waiting until it is claimed again |
| `RunProtocol.NoLostWakeUp` | rust/crates/zf-execution/src/service.rs:969-987 | When no executor owes its check, an inbox wait has no unseen message |
| `OwnerProtocol.OneOwner` | rust/crates/zf-execution/src/service.rs:474-556 | At most one task executes the run, and only as the registered owner |
| `OwnerProtocol.SuccessorAfterPredecessor` | rust/crates/zf-execution/src/service.rs:474-556 | A successor starts only after its predecessor's execution and final persistence |
| `OwnerProtocol.EveryLaunchCounts` | rust/crates/zf-execution/src/service.rs:474-556 | Every finished launch was accepted by one other owner or executed the run itself, never both and never neither |
| `OwnerProtocol.HandOverIsFinal` | rust/crates/zf-execution/src/service.rs:738-757 | A hand-over happens only while the accepting owner executes, and is never changed |
| `OwnerProtocol.IdleMeansNoTask` | rust/crates/zf-execution/src/service.rs:413-430 | What `wait_idle` waits for is exactly that no launch task of the run is alive |
| `OwnerProgress.EveryStepSpends` | rust/crates/zf-execution/src/service.rs:474-556 | Every step but a launch lowers a potential: a retry needs another owner that finishes |
| `OwnerProgress.InterleavingsEnd` | rust/crates/zf-execution/src/service.rs:474-556 | Without new launches no interleaving is longer than the potential of the present tasks |
| `OwnerProgress.EveryLaunchEnds` | rust/crates/zf-execution/src/service.rs:413-430 | Once nothing launches the run any more every interleaving ends within a bound; where it can go no further all tasks have exited, each was accepted or executed, and `wait_idle` returns |
| `HandOvers.HandOverHappens` | rust/crates/zf-execution/src/service.rs:474-556 | From every reachable state in which an owner executes and listens, a launch that looks can be handed over in four steps of its own, without another execution |
| `HandOvers.FreeRunIsExecuted` | rust/crates/zf-execution/src/service.rs:474-556 | From every reachable state without an owner, a launch that looks executes the run and leaves the table free in six steps of its own |
| `HandOvers.RefusedLooksAgain` | rust/crates/zf-execution/src/service.rs:474-556 | A refused launch looks again exactly once the owner that refused it has finished |
| `Selection.SelectFlowDefinitions` | rust/crates/zf-execution/src/live_files.rs:119-149 | The memoised selection returns the same list in the same order, or the same first error, as interpreting every row |
| `Selection.SelectionIsExact` | rust/crates/zf-execution/src/live_files.rs:119-149 | The selection is the definitions of all rows, in order, that belong to the flow, each as often as it occurs; it fails exactly with the error of the first row that cannot be interpreted |
| `Selection.SameKeySameMeaning` | rust/crates/zf-execution/src/live_files.rs:151-181 | Rows with equal snapshot keys mean the same up to the run id they carry |

## Left out

- The checker without linked types (`validate_structure`), which tolerates unknown names; only the linked mode is modelled.
- Texts, codes, paths and order of diagnostics; only whether something was reported counts. `Checker` types all arguments of a call before it compares them, which changes nothing but that order.
- Acceptance.AcceptedIsWellTyped: goes one way; `AcceptedExactly` is the exact statement.
- BlockBudgets.EnoughIsComplete: one number bounds every budget from above; it is not the least limits under which the evaluation is complete.
- Showing.CompleteShowsMeaning: the meaning takes a bound on nested calls and the theorem holds for every bound of at least the size of the library, which `AcceptedCallDepth` shows to be enough.
- Sharing: that views keep the original allocation is not modelled, only what each view denotes.
- Floats are dyadic rationals; rounding, negative zero and NaN are not modelled.
- Serialisation of JSON is an injective function given as a parameter that never fails; `CodeIsInjective` gives one. SHA-256 and revisions are opaque texts.
- Pointer tokens are parsed as unbounded numbers; an index beyond the machine word cannot occur in an array.
- Ordered maps of arguments are lists in key order; the sources of a fragment are sets; import aliases are pairs instead of texts joined by a slash, which valid names make equivalent.
- WindowEdits.FindMut: returns the path to the item instead of a mutable reference; edits are made on tree values held by `Draft`.
- WindowEdits.RemoveItem: returns the remaining trees as a value instead of editing a vector in place.
- RunProtocol.AlwaysInv: assumes of the graph engine that it has a checkpoint when it pauses, commits none while paused, reports an event when begun or resumed before its executor flushes, and ends with a pause, a result or a failure. Recovery after a restart of the process is not modelled.
- RunDocument.RunStore.PersistEvent: leaves out activities, the timeline, loaded skills, usage and other display fields of the run document.
- OwnerProgress.EveryLaunchEnds: panics inside launch tasks are not modelled; that every interleaving ends assumes that the graph of an owner ends, which is one step here.
- Lowering.LoweringKeepsArcs: conditions of condition nodes are modelled by their two outcomes; their field, operator and expected value are not part of the model.
- FlowValidation.ValidateDepth: settings of flows and nodes, field analysis and public contracts are one parameter of the validator.
- Selection.SelectFlowDefinitions: takes the interpretation of a row as a parameter that depends on the outer run id only by copying it.
- Lexing of Rust source, token and byte limits of source files, and library and type-registry sources; printers and parsers work on trees of calls, literals and lists.
- Programs captured with a window, its wire format and its tool declarations.
- Storage, content interning, locks and recovery; each locked persist is one atomic step.
- Route runtime, model and tool calls, graph execution, HTTP, CLI and web files.
