# Verified model of the jarvis orchestration core and its ledger tools

A Dafny 4.11 model of five parts of the repository and machine-checked proofs of what they
promise. `dafny verify dfyconfig.toml` checks the whole project.

1. **The plan-then-execute controller** (`PlanGraph`, `PlanController`, `PlanRun`,
   `PlanDispatch`). An untrusted task graph is checked (range, cycles, worker table, contracts,
   capability limits), shown once to an approver, and dispatched in topological order while
   earlier outputs flow into later prompts. Proved: a request reaches the approver exactly when
   the plan is acceptable, spelled out condition by condition; a topological order is produced
   exactly when the graph has no cycle; the depth-first search finds exactly the nodes with a
   dependency path; every subtask is fed exactly the declared inputs, every prompt is known to
   the letter, and nothing that redaction takes out of an output influences any later call;
   nothing is dispatched without approval, or twice; a run is COMPLETED exactly when everything
   was dispatched, applied and non-blank.
2. **The hash-chained ledger and its rewrite defences** (`Json`, `HashChain`, `ChainTamper`,
   `Anchor`, `ChainReport`, `RewriteDefense`, `RewriteReport`, `Projection`, `Roundtrip`). Each
   checker reports exactly the violations that are there, each once, or raises exactly when an
   entry makes it raise; with a hash that does not collide on the texts actually hashed, the last hash
   determines the whole chain, an anchor accepts exactly the clean extensions of the ledger it
   was taken from, and each kind of tampering is located. The line check accepts Python-equal
   rewrites (`True` to `1`); it is the prefix test for every head exactly when the base ledger
   holds no boolean, no 0 and no 1, at any depth.
3. **The indentation parser** `parse_yaml_v2` (`YamlParser`, `YamlProps`, `YamlPrinter`,
   `YamlRoundTrip`, `YamlNoise`): termination and progress, independence of everything but the
   order of indents, a printer that it inverts on whole texts in every way to write a scalar,
   and what it passes over.
4. **The event-sourced task board and the plan board** (`Ledger*`, `TaskBoard*`, `PlanBoard*`)
   as state machines whose steps are the source's locked sections and signals, interleaved
   freely: a restart rebuilds the live board from the log, dismissed tasks never return,
   nothing is shown as applied without an acceptance, an ended task shows exactly the last thing
   that decided its end, a plan is completed exactly when every subtask went well, a set cancel
   signal is respected. Two
   expected properties are false of the source and are proved false, each with its exact
   condition: a cancel is final exactly when the task's thread is past its approval request,
   and a run keeps to the cap on running tasks exactly when no approver shows a cancelled task
   on a board that is at its cap. A card so put back can stay awaiting for good. An approver
   that first looks at the cancel signal is proved to repair both.
5. **The measurement store** (`Measurement*`): nested documents to three tables and back, over
   all histories; which documents can be stored, what each reads back as, and that it comes
   back unchanged exactly when it is whole. And **the indentation stack** of the workflow
   scanner (`WorkflowSecrets`, `WorkflowReport`): the stack is the true chain of enclosing keys,
   and the report holds exactly one finding for each reference, under the nearest context; the
   single
   flag for shell text says whether shell text encloses a line exactly when no opener inside
   shell text ends before the text around it.

`PyText` holds the few Python text operations these files use, `Basics` what several modules
share.

## Conventions

- Code that works step by step (loops, objects) is a method or a class proved against a
  specification function; the lemmas are about those functions, over all inputs or all runs.
- Library calls are function-valued parameters: SHA-256, RFC 8785 canonicalisation, ISO 8601
  parsing and f-string formatting (`HashChain.Env`), redaction, number conversion of YAML
  scalars, SQLite's column conversions, regular expressions, the worker, the approver and the
  planner. What is assumed of one is a named predicate in the lemma that needs it: `Faithful`
  (canonical text is injective and starts with a brace: sections 3.2.1 to 3.2.3 of RFC 8785),
  `Inverts` (canonical text is one line that parses back), `CollisionFree` (no two different
  texts *among those hashed* collide); a digest is never the empty text.
- Python exceptions that the source lets escape (KeyError, AttributeError, TypeError, or an
  exception of the JSON library that is not the module's own) are results, not preconditions.
- JSON has one number type, as section 3.2.2.3 of RFC 8785 prints 1 and 1.0 alike; Python's
  equality, under which `True == 1`, is modelled apart from structural equality.
- `graphlib.TopologicalSorter` is Kahn's algorithm with graphlib's insertion order and its
  first-in first-out queue.
- On the boards each update-and-record pair and each cancelled-check-and-final-write is one
  step, log writes succeed, and `uuid4` gives ids not used before. A timeout is a step that may
  happen at any time. Several processes in a row are `TaskBoardSafety.Lives`.

## Where code and documentation differ

- The line-regression check is documented as detecting any rewritten line; the code compares
  parsed objects with Python equality (`RewriteDefense.TrueRewrittenToOnePasses`), which is
  equality on every head exactly for the bases of `RewriteDefense.LineReportExactIffPlain`.
- `cancel` is documented as winning over the worker's result; the approver can put the card
  back to "awaiting" (`TaskBoardCancel.CancelFinalIff`), and any concurrency cap can then be
  exceeded (`TaskBoardCancel.CapIsExceeded`), but in no other way (`TaskBoardCancel.CapHoldsIff`).
- The plan board's table of status labels has "running"; no step of the board ever writes it,
  so a plan stays "awaiting" while its subtasks run.
- The scanner keeps one flag for "inside `run:` text", so a line of shell text that looks like
  `run: |` replaces the real opener and its end is taken for the end of the text
  (`WorkflowSecrets.NestedRunIsForgotten`).

## Model

| member | source | states |
|---|---|---|
| `PlanGraph.DependentIffDirect` | src/jarvis/plan_controller.py:287-293 | a subtask has a transitive dependent exactly when it is some subtask's direct dependency, which is why the candidates are collected from the direct lists |
| `PlanGraph.DependencyTransitive` | src/jarvis/plan_controller.py:425-446 | depending is transitive |
| `PlanGraph.Reaches` | src/jarvis/plan_controller.py:425-446 | the stack-and-seen-set search terminates on any in-range graph, cyclic ones included, and answers whether a non-empty dependency path exists |
| `PlanGraph.TransitiveDependents` | src/jarvis/plan_controller.py:425-446 | the returned set is exactly the nodes that depend on the producer |
| `PlanGraph.StaticOrder` | src/jarvis/plan_controller.py:219-232 | an order is produced exactly when the graph has no cycle, and then it lists every subtask once, dependencies first |
| `PlanGraph.DependenciesComeFirst` | src/jarvis/plan_controller.py:219-232 | in a topological order every transitive dependency stands earlier |
| `PlanGraph.TopologicalImpliesAcyclic` | src/jarvis/plan_controller.py:229-232 | a graph that has a topological order has no cycle |
| `PlanGraph.StuckSetHasCycle` | src/jarvis/plan_controller.py:229-232 | a set of nodes each keeping a dependency inside it contains a cycle |
| `PlanController.FaultIsDefect` | src/jarvis/plan_controller.py:195-306 | every kind of rejection names a real defect: a plan with it is not well-formed |
| `PlanController.WellFormedIff` | src/jarvis/plan_controller.py:195-314 | a plan passes every check exactly if each condition a reader can look up holds: counts, descriptions, kinds, aliases, dependencies, contract names, who may be fed |
| `PlanController.ExactDataFlow` | src/jarvis/plan_controller.py:252-303 | a subtask is fed exactly the explicit contract names of each ancestor that has any and `subtask_p` of each ancestor that has none, nothing from others, and its names are distinct |
| `PlanController.ExplicitInputsAre` | src/jarvis/plan_controller.py:257-281 | the inputs collected from explicit contracts are exactly the contracts of ancestors |
| `PlanController.ImplicitInputsAre` | src/jarvis/plan_controller.py:283-306 | the synthesised inputs are exactly the ancestors without an explicit contract |
| `PlanController.ImplicitNameInjective` | src/jarvis/plan_controller.py:290 | synthesised names of different producers differ |
| `PlanController.SubIdInjective` | src/jarvis/plan_controller.py:330 | subtask ids of one plan differ |
| `PlanController.ExtractedAre` | src/jarvis/plan_controller.py:376-387 | after any prefix of the order exactly the producers among its subtasks have a kept artifact, made from their own report |
| `PlanController.InputsReady` | src/jarvis/plan_controller.py:333-336 | every `extracted[pidx]` the next prompt reads is present: validation alone makes the unguarded look-up safe |
| `PlanRun.CheckSchema` | src/jarvis/plan_controller.py:195-208 | passes exactly on non-empty plans of non-blank descriptions and known kinds within the step limit |
| `PlanRun.CheckGraph` | src/jarvis/plan_controller.py:210-232 | passes exactly on in-range, irreflexive, acyclic graphs, with a topological order |
| `PlanRun.MapWorkers` | src/jarvis/plan_controller.py:234-263 | passes exactly when every alias is registered and an executing kind exists if needed; the warnings are exactly the capability gaps |
| `PlanRun.CheckContract` | src/jarvis/plan_controller.py:265-276 | the checks of one explicit contract |
| `PlanRun.TakeContract` | src/jarvis/plan_controller.py:277-287 | one contract's name is handed to exactly its producer's dependents, or a consumer may not consume |
| `PlanRun.AssignExplicit` | src/jarvis/plan_controller.py:264-287 | the loop over contracts ends with exactly the declared explicit flow, or a real defect |
| `PlanRun.AssignImplicit` | src/jarvis/plan_controller.py:289-314 | the synthesis ends with exactly the declared whole flow, or a real defect, whatever order sets are iterated in |
| `PlanDispatch.PromptIsExact` | src/jarvis/plan_controller.py:332-344 | a prompt is the description, then for every declared input and no other, by name, its labelled section with the output of an earlier applied subtask, redacted first and then cut and marked, then the execution rule |
| `PlanDispatch.InputsDelivered` | src/jarvis/plan_controller.py:325-345 | every due input is in the prompt: the redacted output, cut and marked if too long and not blank, of an earlier applied subtask |
| `PlanDispatch.RedactedStaysOut` | src/jarvis/plan_controller.py:448-460 | two runs whose reports agree in being applied and in what redaction leaves of their outputs make the same calls and end alike |
| `PlanDispatch.DispatchedOnce` | src/jarvis/plan_controller.py:329-345 | no subtask is dispatched twice and the ids follow the order |
| `PlanDispatch.CompletedIff` | src/jarvis/plan_controller.py:345-403 | COMPLETED exactly when all subtasks were dispatched and applied and every output that is passed on is too long or redacts to more than blanks |
| `PlanDispatch.FlaggedAre` | src/jarvis/plan_controller.py:359-373 | the effect warnings name exactly the executing subtasks whose worker did not act, or acted without the marker in its output, each once |
| `PlanDispatch.RequestShows` | src/jarvis/plan_controller.py:234-314 | the approver is warned of exactly the executing subtasks of another kind than code or shell, and shown exactly one synthesised contract for each producer without one |
| `PlanDispatch.HistoryDetermined` | src/jarvis/plan_controller.py:325-403 | plan, order and worker answers determine the run |
| `PlanDispatch.Controller.Approve` | src/jarvis/plan_controller.py:406-413 | default-deny without an approver, fail-closed when it raises |
| `PlanDispatch.Controller.Validate` | src/jarvis/plan_controller.py:192-318 | succeeds exactly on well-formed plans, with the request and data flow the approver is shown |
| `PlanDispatch.Controller.DispatchNext` | src/jarvis/plan_controller.py:329-346 | one dispatch continues the history: right prompt, id and alias |
| `PlanDispatch.Controller.Execute` | src/jarvis/plan_controller.py:322-403 | the dispatch loop produces a history of the approved order and ends as it must |
| `PlanDispatch.Controller.Run` | src/jarvis/plan_controller.py:192-403 | the approver is asked exactly when the plan is well-formed; nothing is dispatched unless it accepts; the calls are a history of one topological order, the outcome follows from it, and a completed run carries exactly the effect warnings of its reports |
| `PlanDispatch.Controller.RunFromPlanner` | src/jarvis/plan_controller.py:176-189 | without a plan nothing is asked or sent; with one, all that holds of a run |
| `PlanDispatch.BuildPrompt` | src/jarvis/plan_controller.py:332-344 | the prompt holds the sections in the order of sorted names |
| `PlanDispatch.Settle` | src/jarvis/plan_controller.py:346-390 | what one report means for the run |
| `PlanDispatch.Observe` | src/jarvis/plan_controller.py:359-373 | the effect warnings are exactly the idle and the silent executing subtasks |
| `PyText.SortedIgnoresOrder` | src/jarvis/plan_controller.py:335 | the sorted inputs do not depend on the order in which sets were iterated |
| `Json.PyEqIsEquality` | tools/rewrite_defense_check.py:222-230 | Python equality of values without booleans is equality |
| `Json.PlainEqualsItself` | tools/rewrite_defense_check.py:222-230 | a value that holds no boolean, no 0 and no 1 equals in Python only itself, whatever it is compared with |
| `Json.LookAlike` | tools/rewrite_defense_check.py:222-230 | and every other value equals in Python a different one |
| `HashChain.ValidateChain` | tools/jsonl_hash_chain.py:170-244 | the loop reports, in order, what the fold over the entries reports, or the same exception escapes |
| `ChainReport.ReportExact` | tools/jsonl_hash_chain.py:170-244 | the report holds exactly the violations that are there, each once and in order: an entry's hash against its text, the first link against the hash of "genesis:", scope, ":", version, the others against the last hash field seen, times against the last that parsed |
| `ChainReport.RaisedIff` | tools/jsonl_hash_chain.py:170-244 | an exception escapes exactly if the JSON library fails unexpectedly, a field read by subscript is missing or of the wrong type, or two times do not compare |
| `HashChain.CleanIffNoViolation` | tools/jsonl_hash_chain.py:170-244 | no violation is reported exactly when the chain is clean in a declarative sense: every hash is recomputed, every link holds, time does not go back |
| `HashChain.CleanParts` | tools/jsonl_hash_chain.py:170-244 | what cleanness gives at each entry |
| `HashChain.PrefixClean` | tools/jsonl_hash_chain.py:170-244 | every prefix of a clean chain is clean |
| `HashChain.ChainBinding` | tools/jsonl_hash_chain.py:90-105 | two clean non-empty chains of any lengths with the same last hash are the same chain |
| `HashChain.HashesDistinct` | tools/jsonl_hash_chain.py:98-105 | all hashes of a clean chain differ |
| `ChainTamper.ReplaceIsLocal` | tools/jsonl_hash_chain.py:179-244 | replacing one entry is reported only at it and at the next one |
| `ChainTamper.ReplaceIsDetected` | tools/jsonl_hash_chain.py:179-244 | replacing an entry that is not the last by a different one is always reported |
| `ChainTamper.DeleteIsOneViolation` | tools/jsonl_hash_chain.py:179-244 | deleting an entry that is not the last is reported by exactly one violation at the gap, of the right kind |
| `ChainTamper.AppendBuiltIff` | tools/jsonl_hash_chain.py:247-299 | appending a built entry with a time that does not go back to any ledger, broken or not, leaves the report as it was exactly when the ledger is empty or the link written equals the hash the check carries there, and otherwise adds one link mismatch |
| `ChainTamper.AppendBuiltAddsNothing` | tools/jsonl_hash_chain.py:247-299 | it is left as it was on every empty ledger and on every ledger whose last entry has canonical text and carries a hash |
| `ChainTamper.AppendAfterHashlessIsReported` | tools/jsonl_hash_chain.py:255-262 | after a last entry without a hash field the built entry is reported: it links to a default that the validator does not use |
| `ChainReport.BuiltEntryIs` | tools/jsonl_hash_chain.py:267-299 | the eleven fields of a built entry, its link and its hash |
| `Anchor.VerifyAnchor` | tools/history_anchor_verifier.py:207-283 | the steps report what the declarative verdict lists |
| `ChainReport.VerdictExact` | tools/history_anchor_verifier.py:207-283 | exactly the differences that are there are found, the genesis field against the hash of the first entry's scope and version |
| `Anchor.SelfInconsistentImpliesTail` | tools/history_anchor_verifier.py:229-281 | a self-inconsistent anchor is never reported without a tail-hash mismatch |
| `Anchor.AnchorExact` | tools/history_anchor_verifier.py:207-283 | for an anchor taken from a clean non-empty ledger, nothing is reported exactly when the ledger at hand is clean and extends that ledger |
| `Anchor.SealedIsClean` | tools/jsonl_hash_chain.py:90-105 | recomputing links and hashes over any drafts in time order gives a clean chain: the chain check alone cannot tell a full rewrite |
| `Anchor.AnchorCatchesRewrite` | tools/history_anchor_verifier.py:207-283 | such a rewrite, if it does not extend the anchored ledger, passes the chain check and fails the anchor check |
| `RewriteDefense.ScanLineRegression` | tools/rewrite_defense_check.py:220-255 | the index loop reports exactly the differing shared positions and a shorter head |
| `RewriteDefense.LineReportExact` | tools/rewrite_defense_check.py:220-255 | nothing is reported exactly when base is, up to Python equality, a prefix of head; one finding per differing position, plus one if head is shorter |
| `RewriteReport.LineReportIs` | tools/rewrite_defense_check.py:213-255 | the report holds exactly the findings that are there, by line: a shorter head, and each differing line as moved or rewritten |
| `RewriteDefense.TrueRewrittenToOnePasses` | tools/rewrite_defense_check.py:222-230 | a rewrite of `true` to `1` is not reported |
| `RewriteDefense.LineReportExactIffPlain` | tools/rewrite_defense_check.py:220-255 | that nothing is reported exactly when base is a prefix of head holds for every head if and only if base holds no boolean, no 0 and no 1, at any depth |
| `RewriteDefense.LineReportExactIffBoolFree` | tools/rewrite_defense_check.py:220-255 | among heads without booleans it holds for every head if and only if base holds no boolean either |
| `RewriteDefense.AnchorImpliesLines` | tools/rewrite_defense_check.py:220-255 | a passing anchor check implies a passing line check against the anchored ledger |
| `RewriteDefense.ScanAppendOnly` | tools/rewrite_defense_check.py:125-154 | the loop with its reorder flag reports what its specification lists |
| `RewriteDefense.CommitReportExact` | tools/rewrite_defense_check.py:125-154 | nothing is reported exactly when the earlier commits are a prefix of the later ones |
| `RewriteReport.CommitReportIs` | tools/rewrite_defense_check.py:125-154 | the report holds exactly the findings that are there, by line: a shorter history, each replaced commit, and of the moved ones the first |
| `Projection.DiffLostFields` | tools/jsonl_roundtrip.py:76-96 | exactly the differences in keys, types and values are listed, each once, entry by entry; of ledgers of different lengths only that |
| `Projection.NothingListedIff` | tools/jsonl_roundtrip.py:76-96 | there is no difference to list exactly when the ledgers agree entry by entry in keys, types and values |
| `Projection.HermesToCanonical` | tools/memory_skill_roundtrip.py:68-76 | the entry without its vendor fields, and those fields in alphabetical order |
| `Projection.Feasibility` | tools/memory_skill_roundtrip.py:141-181 | never FAIL; PASS exactly if no entry has a vendor field; exactly the dropped fields, in order |
| `Projection.ProjectionReport` | tools/memory_skill_roundtrip.py:68-76 | re-checking a clean chain after projection reports a hash mismatch at exactly the entries that lost a field, and nothing else |
| `Roundtrip.Serialize` | tools/jsonl_roundtrip.py:64-73 | the canonical lines joined by newlines, or the failure of the first entry without canonical text |
| `Roundtrip.ExportSplits` | tools/jsonl_roundtrip.py:127-129 | splitting an export gives its lines and one blank |
| `Roundtrip.Reparse` | tools/jsonl_roundtrip.py:126-151 | parsing the lines of an export gives the exported entries back |
| `Roundtrip.RoundTrip` | tools/jsonl_roundtrip.py:99-184 | PASS exactly when every entry has canonical text; never LOSSY; otherwise FAIL or the escaped exception, by the first failing entry |
| `YamlParser.ParseBlockAt` | tools/schema_validator.py:372-464 | `parse_block` terminates, never moves backwards, and computes the parse of the remaining lines |
| `YamlParser.ParseListAt` | tools/schema_validator.py:383-431 | the list loop, with nested blocks and sibling keys |
| `YamlParser.ParseSiblingsAt` | tools/schema_validator.py:408-426 | the loop that collects further keys of a list item |
| `YamlParser.ParseDictAt` | tools/schema_validator.py:432-464 | the dictionary loop |
| `YamlParser.ReadLines` | tools/schema_validator.py:364-370 | the significant lines with their indents |
| `YamlParser.ParseYamlV2` | tools/schema_validator.py:358-470 | the whole parser |
| `YamlProps.BlockProgress` | tools/schema_validator.py:372-464 | started at a line's own indent the block consumes that line and then only lines at its indent or deeper |
| `YamlProps.BlockRelabel` | tools/schema_validator.py:372-464 | renaming indents by any strictly monotone function changes neither the value nor how far the block reaches |
| `YamlPrinter.EntriesParse` | tools/schema_validator.py:432-464 | the dictionary loop reads printed entries back, whatever follows |
| `YamlPrinter.ItemsParse` | tools/schema_validator.py:383-431 | the list loop reads printed items back |
| `YamlPrinter.SiblingsParse` | tools/schema_validator.py:408-426 | the sibling loop reads printed keys back |
| `YamlRoundTrip.HeadParts` | tools/schema_validator.py:442-450 | splitting a printed entry at its first colon gives the key and the value's text |
| `YamlRoundTrip.ScalarIff` | tools/schema_validator.py:258-279 | a non-empty text is read as a value exactly if it is a way to write it: a string in quotes of either kind, true, yes, false, no or null in any case, or a bare word as a number or itself |
| `YamlRoundTrip.TextRead` | tools/schema_validator.py:364-370 | the lines of a rendered text are the lines rendered |
| `YamlRoundTrip.ParserUndoesPrinter` | tools/schema_validator.py:358-470 | parsing the printed text of a document gives the document back, keys in order, for any strictly growing indents and any way of writing its scalars |
| `YamlRoundTrip.PrinterInjective` | tools/schema_validator.py:358-470 | no two documents print alike |
| `YamlNoise.NoiseIsIgnored` | tools/schema_validator.py:364-370 | a blank line or a comment anywhere in a text makes no difference |
| `YamlNoise.DictPassesOver` | tools/schema_validator.py:432-443 | a dictionary passes over lines that are too deep or neither entry nor item |
| `YamlNoise.ListPassesOver` | tools/schema_validator.py:384-391 | a list passes over lines that are too deep |
| `YamlNoise.SiblingsPassOver` | tools/schema_validator.py:408-426 | the further keys of a list item, over lines that are no entries |
| `YamlNoise.RepeatedKey` | tools/schema_validator.py:450-463 | a repeated key keeps the place of the first and takes the last value |
| `YamlNoise.TopListIsDropped` | tools/schema_validator.py:466-470 | a text whose top block is a list reads as the empty dictionary |
| `Ledger.LedgerLog.Append` | src/jarvis/ledger.py:60-79 | one event is appended and nothing else changes |
| `Ledger.LedgerLog.FoldCards` | src/jarvis/ledger.py:99-131 | the three loops compute the fold: the merged fields of every task that was not dismissed, unfinished ones interrupted |
| `Ledger.LedgerLog.Replay` | src/jarvis/ledger.py:107-122 | the first loop collects exactly the merged fields of the tasks seen, and the dismissed ids |
| `Ledger.Absorb` | src/jarvis/ledger.py:109-122 | one event more: a dismissal is noted, any other event is merged into its task's card |
| `Ledger.MergeFields` | src/jarvis/ledger.py:119-122 | every field that is not reserved overwrites the card's |
| `Ledger.MarkOrphans` | src/jarvis/ledger.py:127-130 | exactly the cards without a final status become interrupted |
| `Ledger.FoldIsLocal` | src/jarvis/ledger.py:99-131 | what the fold says of a task depends on that task's own events only |
| `LedgerMeaning.FoldedCard` | src/jarvis/ledger.py:99-131 | a folded card exists exactly if some event tells of the task and none dismisses it; it shows the last value set of every field, and the last status if that is a finished one, else interrupted |
| `TaskBoardInv.StepKeeps` | jarvis_hud/jarvis_tasks.py:180-354 | every step of every thread and request keeps the invariant that ties cards, log, signals, decisions and threads |
| `TaskBoardInv.RunSound` | jarvis_hud/jarvis_tasks.py:119-354 | it holds in every state of every run from any ledger |
| `TaskBoardInv.AgreesAfterUpdate` | jarvis_hud/jarvis_tasks.py:205-213 | a status write keeps the live card and the card rebuilt from the log in agreement |
| `TaskBoardSafety.RestartRefines` | jarvis_hud/jarvis_tasks.py:159-171 | stop anywhere and restart from the log: the same tasks, each with the same card, unfinished ones interrupted |
| `TaskBoardSafety.DismissedNeverReturns` | jarvis_hud/jarvis_tasks.py:332-348 | a dismissed task is never on the board again, in this process whatever its thread still records, nor in any later one |
| `TaskBoardSafety.LiveIsNeverRemoved` | jarvis_hud/jarvis_tasks.py:338-347 | a card leaves the board only by being dismissed after it ended |
| `TaskBoardSafety.AppliedNeedsAcceptance` | jarvis_hud/jarvis_tasks.py:220-254 | a task of this process is shown as applied only after an accepting decision that returned true |
| `TaskBoardSafety.AppliedIsUnsignalled` | jarvis_hud/jarvis_tasks.py:286-325 | the step that shows it is its own thread's last, with the cancel signal unset |
| `TaskBoardSafety.SignalIsRespected` | jarvis_hud/jarvis_tasks.py:256-330 | once a cancel signal is set no continuation writes applied, denied or failed on that card |
| `TaskBoardSafety.EndedTaskIsResolved` | jarvis_hud/jarvis_tasks.py:286-330 | a task whose thread ended uncancelled shows how it ended |
| `TaskBoardOutcome.ResolvedShowsWhy` | jarvis_hud/jarvis_tasks.py:220-330 | a task that shows applied, denied or failed shows, with label, decision and error, exactly the last of its steps that decided anything: its approver returning true or false, its worker failing, or an exception |
| `TaskBoardOutcome.EndedShowsWhy` | jarvis_hud/jarvis_tasks.py:286-330 | conversely a task whose thread has ended uncancelled shows it |
| `TaskBoardOutcome.DecidedShows` | jarvis_hud/jarvis_tasks.py:180-325 | a task created, shown, decided and finished ends on the board showing the decision, whichever it was |
| `TaskBoardContent.LabelsFollow` | jarvis_hud/jarvis_tasks.py:159-213 | in every state of every run a card carries the label of its status |
| `TaskBoardContent.PromptShown` | jarvis_hud/jarvis_tasks.py:180-199 | the card of a task shows the first 200 characters of its prompt, always |
| `TaskBoardContent.StepRecords` | jarvis_hud/jarvis_tasks.py:196-354 | a step appends nothing to the ledger or exactly its own record, field by field, and whatever changes a card is recorded |
| `TaskBoardContent.PromptsScrubbed` | jarvis_hud/jarvis_tasks.py:196-198 | every prompt that a run writes to the ledger is the scrubbed front of a task's prompt |
| `TaskBoardCancel.CancelFinalIff` | jarvis_hud/jarvis_tasks.py:220-284 | a cancelled card stays cancelled in every continuation exactly when its thread is past its approval request |
| `TaskBoardCancel.CancelUndone` | jarvis_hud/jarvis_tasks.py:225-235 | otherwise the approver's next steps show it as awaiting again |
| `TaskBoardCancel.PutBackIsStuck` | jarvis_hud/jarvis_tasks.py:220-306 | a task so put back whose thread then ends stays awaiting for good: no decision ends it and it cannot be dismissed, until it is cancelled again |
| `TaskBoardCancel.LiveGrowth` | jarvis_hud/jarvis_tasks.py:177-199 | only a new task below the cap, or a cancelled task's approver, adds to the running tasks |
| `TaskBoardCancel.CapStepIff` | jarvis_hud/jarvis_tasks.py:177-235 | from a board within its cap a step leads over it exactly if it is the approver showing a cancelled task while the cap is reached |
| `TaskBoardCancel.CapHoldsIff` | jarvis_hud/jarvis_tasks.py:177-235 | every state of a run is within the cap exactly when the run has no such step |
| `TaskBoardCancel.CapHoldsForUncancelled` | jarvis_hud/jarvis_tasks.py:177-199 | in every run the running tasks whose cancel signal is unset fit under the cap |
| `TaskBoardCancel.CapIsExceeded` | jarvis_hud/jarvis_tasks.py:186-235 | under every positive cap there is a run that ends with one task more than the cap running |
| `TaskBoardCancel.GuardedCapHolds` | jarvis_hud/jarvis_tasks.py:220-235 | if the approver first looks at the cancel signal the cap holds for all running tasks |
| `TaskBoardCancel.GuardedCancelIsFinal` | jarvis_hud/jarvis_tasks.py:220-235 | and a cancelled card stays cancelled until it is dismissed |
| `TaskBoardObject.JarvisTaskBoard.constructor` | jarvis_hud/jarvis_tasks.py:119-171 | a new board shows what the ledger's fold gives |
| `TaskBoardObject.JarvisTaskBoard.RunningCount` | jarvis_hud/jarvis_tasks.py:177-178 | counts the running and awaiting cards |
| `TaskBoardObject.JarvisTaskBoard.Create` | jarvis_hud/jarvis_tasks.py:180-199 | takes the create step, or reports which check failed |
| `TaskBoardObject.JarvisTaskBoard.UpdateAndRecord` | jarvis_hud/jarvis_tasks.py:205-213 | the card changes only if it is there, the log always |
| `TaskBoardObject.JarvisTaskBoard.Decide` | jarvis_hud/jarvis_tasks.py:245-253 | run alone, takes the two steps of a decision |
| `TaskBoardObject.JarvisTaskBoard.Cancel` | jarvis_hud/jarvis_tasks.py:256-283 | run alone, takes the four steps of a cancel, or refuses an ended task |
| `TaskBoardObject.JarvisTaskBoard.Dismiss` | jarvis_hud/jarvis_tasks.py:332-348 | takes the dismiss step, or refuses a live task |
| `TaskBoardObject.JarvisTaskBoard.DismissCompleted` | jarvis_hud/jarvis_tasks.py:350-354 | removes exactly the ended cards, counts them, and records each |
| `TaskBoardObject.JarvisTaskBoard.ShowForApproval` | jarvis_hud/jarvis_tasks.py:221-238 | the approver up to its wait |
| `TaskBoardObject.JarvisTaskBoard.AnswerRequest` | jarvis_hud/jarvis_tasks.py:239-242 | the approver's answer: default-deny on a timeout |
| `TaskBoardObject.JarvisTaskBoard.Finish` | jarvis_hud/jarvis_tasks.py:305-323 | the final write, unless the task is cancelled |
| `TaskBoardObject.JarvisTaskBoard.FinishCrash` | jarvis_hud/jarvis_tasks.py:324-330 | the exception handler's write, unless the task is cancelled |
| `PlanBoard.SubIdsDiffer` | src/jarvis/plan_controller.py:330 | plans whose ids have no dot never share a subtask id |
| `PlanBoardSafety.StepKeeps` | jarvis_hud/jarvis_plan.py:148-278 | every step of every thread and decision keeps the invariant over plans, subtask cards and threads |
| `PlanBoardSafety.SubtaskNeedsAcceptance` | jarvis_hud/jarvis_plan.py:165-240 | a subtask card exists only for a plan accepted while it awaited approval |
| `PlanBoardSafety.DeniedHasNoSubtasks` | jarvis_hud/jarvis_plan.py:242-278 | a denied plan has sent nothing out |
| `PlanBoardSafety.DeniedOnlyByApprover` | jarvis_hud/jarvis_plan.py:165-207 | a step ends a plan's run as denied exactly if it is its approver returning false: woken without an accepting decision, timed out, or raising |
| `PlanBoardSafety.RefusedEndsDenied` | jarvis_hud/jarvis_plan.py:165-278 | after any such step, a decision of false included, the plan owns no subtask and can only end denied, whatever is decided later |
| `PlanBoardSafety.CompletedIsApplied` | jarvis_hud/jarvis_plan.py:222-278 | a completed plan lists one card for each subtask, all different, each its own and applied |
| `PlanBoardOutcome.CompletedIffAllWentWell` | jarvis_hud/jarvis_plan.py:242-278 | in every run, a plan whose thread has ended is completed exactly if an order was proposed and each of its subtasks was reported applied and not blank |
| `PlanBoardOutcome.FailedOnlyByDefect` | jarvis_hud/jarvis_plan.py:222-278 | a step ends a plan as failed exactly if it is a rejection, an exception, or a report that is not applied or is blank |
| `PlanBoardOutcome.CompletedOnlyByLast` | jarvis_hud/jarvis_plan.py:222-278 | a step ends a plan as completed exactly if it reports that the last subtask went well |
| `PlanBoardOutcome.GoodRunCompletes` | jarvis_hud/jarvis_plan.py:148-278 | every plan can be completed: proposed in any order, accepted, each subtask going well |
| `PlanBoardOutcome.ReportShows` | jarvis_hud/jarvis_plan.py:232-240 | a report sets the card of the subtask just run, and only that one |
| `PlanBoardOutcome.DispatchShows` | jarvis_hud/jarvis_plan.py:222-231 | sending out a subtask puts a new running card on the board and lists it last |
| `PlanBoardSafety.CapHolds` | jarvis_hud/jarvis_plan.py:145-163 | the cap on open plans always holds |
| `PlanBoardObject.JarvisPlanBoard.CreatePlan` | jarvis_hud/jarvis_plan.py:148-163 | takes the create step, or reports which check failed |
| `PlanBoardObject.JarvisPlanBoard.DecidePlan` | jarvis_hud/jarvis_plan.py:209-220 | only an awaiting plan can be decided; run alone, takes both steps |
| `PlanBoardObject.JarvisPlanBoard.ShowPlan` | jarvis_hud/jarvis_plan.py:195-201 | the approver up to its wait |
| `PlanBoardObject.JarvisPlanBoard.AnswerPlan` | jarvis_hud/jarvis_plan.py:201-205 | the approver's answer: default-deny on a timeout |
| `PlanBoardObject.JarvisPlanBoard.StartSubtask` | jarvis_hud/jarvis_plan.py:222-231 | the subtask's card and its place in the plan's list |
| `PlanBoardObject.JarvisPlanBoard.EndSubtask` | jarvis_hud/jarvis_plan.py:232-240 | the report reaches the subtask's card |
| `PlanBoardObject.JarvisPlanBoard.FinishPlan` | jarvis_hud/jarvis_plan.py:265-278 | the outcome becomes the plan's status |
| `MeasurementExact.RunIff` | src/jarvis/model_measurement_repo.py:177-188 | a run is read back unchanged exactly when it has its nine fields, or a non-null error alone, and no cell was converted |
| `MeasurementExact.StatsIff` | src/jarvis/model_measurement_repo.py:136-152 | the statistics are read back unchanged exactly when all fifteen fields are there and nothing else |
| `MeasurementExact.ModelIff` | src/jarvis/model_measurement_repo.py:154-297 | a model, measured or skipped, is read back unchanged exactly when it is whole |
| `MeasurementExact.SessionIff` | src/jarvis/model_measurement_repo.py:191-297 | a stored document is read back unchanged exactly when it is whole |
| `MeasurementReads.StorableIff` | src/jarvis/model_measurement_repo.py:136-236 | a document can be stored exactly if every field bound to a column is no list or object, every part has the right shape, every model a name, and no two the same |
| `MeasurementReads.StoredReads` | src/jarvis/model_measurement_repo.py:239-297 | every stored document reads back field by field, with what it lacks left empty and what is no column left out |
| `MeasurementTables.SessionAdded` | src/jarvis/model_measurement_repo.py:206-236 | an inserted session reads back what was inserted, and every older one as before |
| `MeasurementStore.TablesStaySound` | src/jarvis/model_measurement_repo.py:154-236 | after any history no row dangles, ids are in order, and runs are numbered in the order they are read |
| `MeasurementStore.StoredForever` | src/jarvis/model_measurement_repo.py:191-276 | after any further history an appended session still reads as its document, unchanged exactly when that was whole |
| `MeasurementStore.SourceOnce` | src/jarvis/model_measurement_repo.py:206-215 | a second call with a source id returns the first one's session and changes nothing |
| `MeasurementStore.AppendStores` | src/jarvis/model_measurement_repo.py:191-236 | a successful call adds one session row, with the time measured or else the clock's, that reads back as the document does |
| `MeasurementStore.LatestIsLast` | src/jarvis/model_measurement_repo.py:239-248 | the latest session is the last of its kind by time, then by id |
| `MeasurementStore.LatestAfterAppend` | src/jarvis/model_measurement_repo.py:239-276 | a whole document appended at the latest time is what the reader returns next |
| `MeasurementStore.MigrationBootstraps` | src/jarvis/model_measurement_repo.py:369-402 | the import adds at most one session of each kind, and none to a kind that has one |
| `MeasurementStore.SnapshotStored` | src/jarvis/model_measurement_repo.py:383-397 | a snapshot is imported into a kind without sessions under a source naming kind and digest, at the file's time, unless that source is there or the document cannot be stored |
| `MeasurementStore.InsertRuns` | src/jarvis/model_measurement_repo.py:177-188 | the loop over runs, failing as soon as one raises |
| `MeasurementStore.InsertModel` | src/jarvis/model_measurement_repo.py:154-188 | one model's rows, unless a cell cannot be stored or its name is taken |
| `MeasurementStore.InsertModels` | src/jarvis/model_measurement_repo.py:234-236 | the loop over models succeeds exactly when all can be stored and their names differ |
| `MeasurementStore.InsertSession` | src/jarvis/model_measurement_repo.py:216-236 | the transaction adds all rows of the session, or nothing |
| `MeasurementStore.ModelMeasurementRepo.AppendSession` | src/jarvis/model_measurement_repo.py:191-236 | returns the new or the existing id, or leaves the tables as they were |
| `MeasurementStore.ModelMeasurementRepo.LatestSession` | src/jarvis/model_measurement_repo.py:239-276 | the document of the latest session |
| `MeasurementStore.ModelMeasurementRepo.ImportSnapshot` | src/jarvis/model_measurement_repo.py:383-401 | one snapshot: imported, skipped or reported, never raised |
| `MeasurementStore.ModelMeasurementRepo.MigrateLegacy` | src/jarvis/model_measurement_repo.py:369-402 | both snapshots |
| `WorkflowSecrets.ScanFile` | tools/workflow_secrets_reference_check.py:104-201 | the report gives every reference the context that the true chain of enclosing keys gives it |
| `WorkflowReport.ReportExact` | tools/workflow_secrets_reference_check.py:126-201 | the report consists, line by line, of one finding for a `secrets:` line, one for each bare name of an `if` line that is no interpolation, and one for each interpolation, under "if", "run" or the nearest enclosing context key |
| `WorkflowReport.LinesAre` | tools/workflow_secrets_reference_check.py:115-120 | the lines scanned are those not skipped, in order, numbered from 1 |
| `WorkflowReport.ReadLineIs` | tools/workflow_secrets_reference_check.py:115-156 | a line is skipped exactly if blank or a comment; otherwise its indent, header and references |
| `WorkflowSecrets.ChainStep` | tools/workflow_secrets_reference_check.py:126-156 | popping and pushing turns the chain of one line into the chain of the next |
| `WorkflowSecrets.ChainIsExact` | tools/workflow_secrets_reference_check.py:126-156 | a key is in the chain exactly when its line encloses the current one: everything since is strictly deeper |
| `WorkflowSecrets.ChainIncreases` | tools/workflow_secrets_reference_check.py:126-128 | the chain is strictly increasing in indent |
| `WorkflowSecrets.TopIsNearest` | tools/workflow_secrets_reference_check.py:186-191 | the reversed search of the stack finds the nearest enclosing context key |
| `WorkflowSecrets.NearestIsNearest` | tools/workflow_secrets_reference_check.py:186-191 | which encloses the line with no other enclosing context key after it, or there is none |
| `WorkflowSecrets.FlagStep` | tools/workflow_secrets_reference_check.py:130-155 | the run flag is up exactly inside the last block of shell text opened |
| `WorkflowSecrets.FlagIsShellTextIff` | tools/workflow_secrets_reference_check.py:130-155 | the flag agrees on every line with "some opener of shell text encloses the line" exactly when no opener inside shell text is ended by a later line that the outer text still encloses |
| `WorkflowSecrets.NestedRunIsForgotten` | tools/workflow_secrets_reference_check.py:130-191 | on four concrete lines it does not: a reference inside shell text is reported under "env" |
| `WorkflowSecrets.Advance` | tools/workflow_secrets_reference_check.py:126-156 | one line keeps stack and flag what they should be |
| `WorkflowSecrets.ReportLine` | tools/workflow_secrets_reference_check.py:158-200 | the findings of one line |

## Left out

- PlanDispatch.Controller.Run: does not model the ledger records the controller writes, nor the texts of its reasons; faults are structured values, and where several defects exist the one reported first is not fixed for sets whose order Python leaves open.
- PlanDispatch.Controller.Run: dispatcher, approver and planner are arbitrary oracles that do not change the controller; an exception of the dispatcher escapes, as in the source.
- HashChain.ValidateChain: violation details and entry ids are not modelled, only the index and the kind.
- Anchor.VerifyAnchor: takes a schema-checked anchor and a parsed ledger; `parse_jsonl`, its parse violations (which the source discards here) and file errors are not part of this model.
- RewriteDefense.ScanLineRegression: the early returns on missing files or parse errors and the texts of the findings are not part of this model.
- RewriteDefense.ScanAppendOnly: takes two lists of commits; the early returns on unreadable histories and the texts of the findings are not part of this model.
- TaskBoardCancel.CapHoldsForUncancelled: says nothing of cancelled tasks that run; the cap itself is decided by `CapHoldsIff`.
- ChainTamper.AppendBuiltAddsNothing: leaves out last entries without canonical text or hash field; all ledgers are decided by `AppendBuiltIff`.
- Projection.DiffLostFields: the sorted field names of a finding are a set, and the shared fields of one entry come in any order, as a Python set gives them.
- ChainTamper.ReplaceIsLocal: `validate_schema` is not modelled; the lemmas need of an entry only what `Checkable` says (fields present, canonical text, one kind of timestamp).
- Roundtrip.RoundTrip: with one JSON number type a change of 1 to 1.0 is not seen as a type change; NaN and infinities are not modelled.
- YamlRoundTrip.ParserUndoesPrinter: covers printable documents only (unique plain keys; scalars on one line, in a list none with a colon unless in double quotes; nested dictionaries and lists, no empty block as a value inside a list item); `int()` and `float()` of bare words are a parameter, and `str.lower` is that of ASCII.
- Ledger.LedgerLog.Append: the `ts` field and write failures, which the source swallows, are not part of this model.
- Ledger.LedgerLog.FoldCards: cards are maps, so the order of first appearance is not modelled; lines that are not JSON objects and the `ts` field are left out, and so is the exception for a status that is a list or an object.
- TaskBoardSafety.RestartRefines: does not compare the prompt, which the log keeps scrubbed, nor `updated_at` and `_opts`, which are not part of this model.
- TaskBoardObject.JarvisTaskBoard.Cancel: the tmux session kill and the session table are not part of this model; a board without a ledger is not modelled.
- TaskBoardObject.JarvisTaskBoard.Finish: `Orchestrator.dispatch` and `WorkerRegistry` appear only as the steps a background thread may take (worker failure, approval request, exception); the registry's look-up is the controller's alias check.
- PlanBoardSafety.SubtaskNeedsAcceptance: the plan view shown to the user, its scrubbing and the ledger records are not part of this model; the controller appears through the steps it may take.
- PlanBoardObject.JarvisPlanBoard.CreatePlan: the ledger record is not part of this model.
- PlanBoardObject.JarvisPlanBoard.ShowPlan: the content of the plan view and the ledger record are not part of this model.
- PlanBoardObject.JarvisPlanBoard.FinishPlan: the ledger record and the result texts are not part of this model.
- MeasurementStore.ModelMeasurementRepo.AppendSession: SQL, WAL, file modes and integers beyond 64 bits are not modelled; a transaction is one step; `top_models`, `model_history` and `list_sessions` are plain queries and left out.
- WorkflowSecrets.ScanFile: the regular expressions are parameters, `splitlines` has been done, and `_classify_context`, which nothing calls, is left out.
- HTTP routes, origin checks, command lines, reports and the scanners that only match patterns are left out.
