# Verified models of the module loader and its neighbours

This Dafny project models the hardest logic of the repository and proves what it is meant to do.
`dafny verify dfyconfig.toml` checks everything.

## What is modelled

**The AMD module manager** (`src/vs/loader.js`). `define` calls and load failures arrive in any
order. Each module counts its unresolved dependencies, waiters sit on inverse dependency lists, a
completing module cascades to its waiters, cycles are found by a search over the `dependencies`
arrays and broken on the spot, load failures spread backwards, and plugin resources wait for their
plugin.

- `LoaderState.dfy` gives the state as a value and every operation as a function on it.
- `ModuleManager.dfy` is the imperative manager: `Module` and `ModuleManager` objects whose fields
  are updated in place, with the original's loops and queues. Every method is proved to do to the
  object's view exactly what its function does to the state (`LoaderTurns.dfy` holds the loop steps).
- `Loader.dfy` joins the manager with the id provider. A `Loader` takes names, hands out the ids, and
  keeps as its invariant that the manager's state is the end of the run of all calls so far, so every
  theorem about runs is a theorem about the object.
- `LoaderInvariant.dfy` states what every operation keeps. Inside a running operation the facts
  carry what is still owed: notifications in flight and dependencies not looked at yet.
  `LoaderSteps.dfy`, `LoaderCascade.dfy`, `LoaderResolve.dfy`, `LoadErrors.dfy` and `LoaderRuns.dfy`
  prove it for the small steps, the cascade, resolving, load failures, and whole runs;
  `LoaderGrowth.dfy` states what no operation takes back, `LoaderRecord.dfy` that modules hold and the
  log records what the calls asked for.
- `LoaderProgress.dfy`, `LoaderStranding.dfy`, `LoaderPlugins.dfy`, `LoaderHistory.dfy`,
  `LoaderOutcomes.dfy`, `LoaderCycles.dfy`, `LoaderFlag.dfy`, `LoaderOrder.dfy` and `CyclePaths.dfy` hold the theorems about
  all runs, `LoaderWitnesses.dfy` the runs that show where their conditions are needed.

A run is any sequence of `define` calls and load failures from the empty manager, with ids handed out
in between. Two parts of the state are history only: what every accepted `define` asked for, and a log
of what can be seen from outside (completions with the values handed to the factory, requests, cycle
warnings, failures). The steps of a run mention the invariant because a step is only a function of such
states; `LoaderRuns.StepKeeps` shows that this excludes no call.

**Names and paths.** `Segments.dfy` and `Pieces.dfy` treat paths as segments and as pieces with
their slash, each with a one-pass stack normaliser. `ModuleIdResolver.dfy` proves the leftmost
rewriting of `_normalizeModuleId` equal to the segment normaliser; `CssUrls.dfy` does the same for
`joinPaths` and pieces, connects the two, and proves that rewriting a url keeps what it points at.
`ModuleIds.dfy` is the id provider. `Uris.dfy` and `FileUris.dfy` model `encodeURI`, `decodeURI`
(section 19.2.6 of ECMA-262), the file-URI printer of `src/bootstrap.js` and the parser of the
loader.

**Emmet.** `TextPositions.dfy` defines lines, positions, offsets and simultaneous edits;
`WrapPreview.dfy` is the preview of "wrap with abbreviation" over it, `Words.dfy` the two word
scanners.

**The throttle decorator.** `Throttle.dfy` is a state machine over the two keys of the object and
the job queue of promises, with calls, settlings (fulfilled or rejected) and jobs in any order, and
the decorated object as a class proved equal to it.

## Findings

- `_resolve` fails a new module because of a failed dependency without a word to those that already
  wait for it. With all requests answered, this is exactly what keeps a module from completing, unless
  a later load failure gets to it (`LoaderStranding.StrandingIsExact`), and it never completes normally
  (`BlockedByFailureForever`). `LoaderWitnesses.FactoryErrorsCanStrand` is such a run, with a factory
  that throws.
- The cycle flag can miss a cycle, but only if the `define` call of a module on it finds a failed
  dependency before it gets to the one on the cycle (`LoaderFlag.UnflaggedCyclesWereStopped`);
  `LoaderWitnesses.FailuresCanHideCycles` is such a run. `LoaderFlag.CycleFlagIsExact` says of every run
  which calls raise the flag.
- A load that is reported as failed of a module that had already completed does not stop the factories
  of modules that need it indirectly (`LoaderWitnesses.LateFailuresDoNotStopFactories`). These are
  exactly the failures that come before a factory (`LoaderHistory.FailuresBeforeFactories`).
- A plugin that depends on a resource it serves itself waits, without ever asking for it, until
  somebody else defines that resource (`LoaderWitnesses.SelfServingPluginWaits`). In every run a module
  that is stuck for no outside reason is stuck because of such a circle
  (`LoaderPlugins.BlockedOrCircular`).
- A rewritten url loses its target exactly if the target has an empty segment right behind the folder
  of the new file, or looks remote while the new file is not at the root
  (`CssUrls.RewritingKeepsTheTarget`). `CssUrls.SlashTooMany` is such a url.
- The file-URI round trip fails for any path that spells out `%23`, and on Windows for the empty
  path and for paths with one or more than two leading slashes. `FileUris.RoundTrip` is exact,
  `FileUris.SomeDoNotComeBack` gives one path of each kind.
- `findPrevWord` reports an empty word at the start of a value that begins with a space before it
  reports nothing, and of the empty value every time (`Words.FindPrevWord`, `Words.EmptyValueRepeats`).
- A throttled call that waits behind a failed execution blocks the method for ever:
  `Throttles.EveryCallIsCovered`, `Throttles.BlockedIsReached` and `Throttles.BlockedForever`.
- After an expansion that fails behind one that succeeded, the ranges of a wrap preview are out of
  place exactly if the last text put in ends elsewhere than the one it replaced
  (`WrapPreviews.StillExactMeansSamePlaces`). The revert then puts the original contents wherever the
  ranges lie, or nowhere if they overlap (`WrapPreviews.WrapPreview.RevertPreview`,
  `WrapPreviews.FailureCanMisplace`).

## Model

| member | source | states |
|---|---|---|
| LoaderProgress.BlockedFromOutside | src/vs/loader.js:1716-1844 | deadlock freedom in every run: a module that is not complete is joined, by a chain of waits, to an id that was asked for and is not defined, or to a failed module |
| LoaderProgress.AllDefinedAllComplete | src/vs/loader.js:1716-1844 | in every run, once every id somebody waits for is defined, everything is complete if and only if nobody waits for a failed module |
| LoaderProgress.AllRequestsAnswered | src/vs/loader.js:1647-1778 | the same from the side of requests: all requested ids defined and no resource queued |
| LoaderStranding.NeverBeforeItsWait | src/vs/loader.js:1819-1833 | whatever calls follow, no module completes before a module it transitively waits for |
| LoaderStranding.BlockedByFailureForever | src/vs/loader.js:1736-1740 | a module that transitively waits for a failed module never completes, whatever follows |
| LoaderStranding.FailsIfOneHasFailed | src/vs/loader.js:1736-1740 | a `define` call fails its module if and only if one of its dependencies was failed before the call |
| LoaderStranding.WaitsForFailedWereStranded | src/vs/loader.js:1736-1740 | in every run, whoever waits for a failed module was stranded by the `define` call of that module, which failed it while it was waited for |
| LoaderStranding.StrandingIsExact | src/vs/loader.js:1518-1844 | in every run with all requests answered, everything is complete if and only if every module that a call stranded was reached by a later load failure |
| LoaderStranding.DefinesCompleteUnlessStranded | src/vs/loader.js:1716-1844 | so in a run of `define` calls alone, everything is complete if and only if no call stranded anybody, which can be seen before the call |
| LoaderStranding.UnstrandedCompletes | src/vs/loader.js:1716-1844 | in any run with all requests answered and nobody stranded, everything is complete, load failures included |
| LoaderPlugins.BlockedOrCircular | src/vs/loader.js:1758-1774 | in every run, what a module waits for leads to a real request, to a failed module, or into a circle through a resource queued for its plugin |
| LoaderPlugins.CirclesHaveQueues | src/vs/loader.js:1758-1774 | every circle of waits and queues goes through such a resource |
| LoaderPlugins.RunQueuesDeclared | src/vs/loader.js:1764-1770 | every queued resource is a declared plugin dependency of some module, queued under its own plugin |
| LoaderPlugins.BlockedFromOutsideWithPlugins | src/vs/loader.js:1758-1774 | if no plugin needs, directly or not, a resource that it is declared to provide, every wait leads to a real request or a failed module; other declared cycles block nobody |
| LoaderPlugins.CompleteUnlessCircular | src/vs/loader.js:1716-1844 | with everything requested defined and nobody waiting or queued for a failed module, everything is complete if and only if there is no circle of waits and queues |
| LoaderWitnesses.SelfServingPluginWaits | src/vs/loader.js:1758-1774 | one `define` call after which a plugin waits for its own, never requested resource, until somebody else defines it |
| LoaderWitnesses.FactoryErrorsCanStrand | src/vs/loader.js:1736-1740 | a run in which every request is answered and no load fails, yet one module waits, in every continuation |
| LoaderProgress.WaitsAreAcyclic | src/vs/loader.js:1744-1757 | in every reachable state the waits-for graph of incomplete modules has no cycle |
| LoaderProgress.CountersAreExact | src/vs/loader.js:1720-1779 | an incomplete module counts exactly its places on all inverse dependency lists, and has at least one |
| LoaderProgress.DoneLeavesNothing | src/vs/loader.js:1819-1843 | a module that completed normally has no waiter list and no queued resources left, ever after |
| LoaderCascade.CompleteKeeps | src/vs/loader.js:1781-1844 | the cascade of a completion keeps the invariant, with the notifications in flight owed and then paid |
| LoaderResolve.ResolveKeeps | src/vs/loader.js:1716-1780 | resolving keeps the invariant, with the dependencies not yet looked at owed and then paid |
| LoadErrors.LoadFailedKeeps | src/vs/loader.js:1518-1552 | a load failure keeps the invariant |
| LoaderRuns.StepKeeps | src/vs/loader.js:1402-1422 | every call from outside leaves the manager at rest: counters exact, nothing ready left lying, every wait justified |
| LoaderRuns.RunsAtRest | src/vs/loader.js:1402-1552 | so does every run |
| LoaderCycles.FlagMeansCycle | src/vs/loader.js:1744-1754 | a raised cycle flag means that the declared dependencies have a cycle, in every run |
| LoaderCycles.NoFlagMeansLayered | src/vs/loader.js:1744-1754 | in every run with the flag down, the declared dependencies of the modules that did not fail before completing can be ranked |
| LoaderFlag.CycleFlagIsExact | src/vs/loader.js:1716-1757 | in every run, the flag is raised if and only if some `define` call closed a cycle of declared dependencies, self-dependency included, at a dependency with no failed one at or before it |
| LoaderFlag.UnflaggedCyclesWereStopped | src/vs/loader.js:1736-1754 | in every run with the flag down, each declared cycle goes through a module whose `define` call found a failed dependency before it got to the one on the cycle |
| LoaderFlag.UnstoppedFlagIsExact | src/vs/loader.js:1736-1754 | if no `define` call finds a failed dependency, the flag is raised if and only if the declared dependencies have a cycle; factories may throw and loads may fail |
| LoaderWitnesses.FailuresCanHideCycles | src/vs/loader.js:1736-1754 | a run with a module that depends on itself and the flag down: it failed before the search was made |
| LoaderHistory.CompletesOnce | src/vs/loader.js:1784-1787 | a factory runs at most once |
| LoaderHistory.DependenciesComeFirst | src/vs/loader.js:1788-1818 | each dependency that was not cut completed earlier, and the factory got the exports it completed with |
| LoaderHistory.ExportsAreFinal | src/vs/loader.js:1186-1214 | what a module completed with stays its exports |
| LoaderHistory.DependenciesAreDefined | src/vs/loader.js:1810-1815 | the `null` fallback is never handed to a factory, cycles or not |
| LoaderHistory.FailedStaysFailed | src/vs/loader.js:1218-1226 | a failed module never completes afterwards |
| LoaderHistory.TransitiveDependenciesComeFirst | src/vs/loader.js:1788-1833 | when a factory runs, all its transitive dependencies, cut edges excepted, have completed |
| LoaderHistory.FailuresComeTooLate | src/vs/loader.js:1529-1548 | in every run, a failed transitive dependency of a module whose factory ran had completed before it failed |
| LoaderHistory.FailuresBeforeFactories | src/vs/loader.js:1518-1548 | in every run, a transitive dependency of a module, cut edges excepted, was reported as failed before the factory of the module ran if and only if a load of it was reported as failed after it had completed, and before the factory ran |
| LoaderHistory.FailuresDoNotReachFactories | src/vs/loader.js:1518-1548 | so a transitive dependency of which no such report is made never fails, neither before the factory runs nor after |
| LoaderWitnesses.LateFailuresDoNotStopFactories | src/vs/loader.js:1518-1548 | a run in which a factory runs after the load of a transitive dependency failed: that module was complete already |
| LoaderHistory.RequestedOnce | src/vs/loader.js:1647-1653 | an id is requested at most once, by script or from a plugin |
| LoaderHistory.PluginIsThereFirst | src/vs/loader.js:1697-1712 | a plugin is asked for a resource only after it completed, through its final exports, or after it failed |
| LoaderOutcomes.CallbackDecidesExports | src/vs/loader.js:1186-1203 | in every run, a module exports its literal, what its factory returned, or its own exports object: the last if the factory returned nothing, threw, or filled an exports object it had asked for |
| LoaderOutcomes.ThrownErrorsAreReported | src/vs/loader.js:1193-1210 | what a factory throws is reported right behind its completion and is the error of its module until a load of it is reported as failed; otherwise there is none |
| LoaderOutcomes.ErrorbackIsTheGiven | src/vs/loader.js:1402-1422 | until it completes, a module holds the errorback it was first defined with; afterwards, and in a placeholder, none |
| LoaderOutcomes.FailuresAreHandledByTheGiven | src/vs/loader.js:1218-1226 | a failed module is told if and only if it was first defined with an errorback and has not completed before |
| LoaderOutcomes.GlobalHandlerIsTheLast | src/vs/loader.js:1506-1552 | a load failure reaches the global handler if and only if nobody it reaches was defined with an errorback and is still to complete; then with the id, the cause and those that were waiting |
| LoaderOutcomes.FirstErrorIsHandedOn | src/vs/loader.js:1734-1740 | a `define` call that finds failed dependencies fails its module with the error of the first, and tells the errorback of that call |
| LoaderOutcomes.ScriptsAreNamed | src/vs/loader.js:1647-1653 | scripts are requested only for ids that are declared as modules or as plugins |
| LoaderOutcomes.ResourcesAreNamed | src/vs/loader.js:1697-1711 | resources are requested only as they are declared, with plugin and parameter, and through what the plugin exports for good |
| LoaderOutcomes.ResourceIsAskedOfItsPlugin | src/vs/loader.js:1758-1774 | once the plugin is complete, a resource that is waited for, and declared as nothing else, was asked of it, unless the plugin failed while the resource was queued |
| LoaderOrder.AnyOrderCompletes | src/vs/loader.js:1402-1422 | for a dependency-closed set whose factories do not throw, every arrival order of the `define` calls completes all modules |
| LoaderOrder.OrderDoesNotMatter | src/vs/loader.js:1402-1422 | if the set has no cycle, any two arrival orders, under any renumbering of the ids, complete every module with the same exports and raise no flag |
| LoadErrors.OrderIsClosure | src/vs/loader.js:1523-1548 | the queue of `_onLoadError` visits the failed id and everything that transitively waits for it, nothing else, each once |
| LoadErrors.LoadErrorClosure | src/vs/loader.js:1506-1552 | exactly these are marked and told, once each, the failed id first; the error holds id, cause and who was waiting; the global handler is called if and only if none of them has its own; nothing else changes |
| CyclePaths.CyclePathIsExact | src/vs/loader.js:1602-1622 | when there is a way, the printed path exists, is a chain of real dependencies, and ends at the target or has exactly 51 ids |
| LoaderHistory.PrintedCyclesAreReal | src/vs/loader.js:1744-1752 | in every run, what is printed with a cycle warning is a closed chain of declared dependencies, unless it was cut behind 51 ids |
| ModuleManagers.Module.Complete | src/vs/loader.js:1186-1214 | the exports and the error for each kind of callback and each outcome of a factory, and exactly the stated fields |
| ModuleManagers.Module.OnDependencyError | src/vs/loader.js:1218-1226 | marks the module complete with the error and says whether it has an errorback |
| ModuleManagers.ModuleManager.HasDependencyPath | src/vs/loader.js:1559-1595 | the breadth-first search returns true if and only if a non-empty chain of current dependencies joins the two ids |
| ModuleManagers.ModuleManager.FindCyclePath | src/vs/loader.js:1602-1622 | the recursive search returns the path of the specification |
| ModuleManagers.ModuleManager.BreakTheCycle | src/vs/loader.js:1744-1754 | raises the flag, prints the warning and the path, and counts one dependency less |
| ModuleManagers.ModuleManager.DependenciesValues | src/vs/loader.js:1788-1817 | the values handed to the factory |
| ModuleManagers.ModuleManager.OnModuleComplete | src/vs/loader.js:1781-1844 | the completion with its loops equals the specified cascade, and it terminates |
| ModuleManagers.ModuleManager.NotifyWaiters | src/vs/loader.js:1822-1833 | the loop over the inverse dependencies |
| ModuleManagers.ModuleManager.HandOverQueue | src/vs/loader.js:1834-1843 | the whole pending list of a plugin is handed over, in order, and dropped |
| ModuleManagers.ModuleManager.Resolve | src/vs/loader.js:1716-1780 | the loop over the dependencies, with its early return |
| ModuleManagers.ModuleManager.LoadModuleById | src/vs/loader.js:1647-1653 | requests an unknown id once |
| ModuleManagers.ModuleManager.LoadPlugin | src/vs/loader.js:1697-1711 | asks the plugin for an unknown resource once |
| ModuleManagers.ModuleManager.DefineModule | src/vs/loader.js:1402-1422 | a duplicate is ignored, a new module is stored and resolved |
| ModuleManagers.ModuleManager.NotifyNeeding | src/vs/loader.js:1523-1548 | the queue with its marks visits and fails modules in the specified order |
| ModuleManagers.ModuleManager.OnLoadError | src/vs/loader.js:1518-1552 | placeholder, local handlers, global handler: the specified load failure |
| Loaders.Loader.DefineModule | src/vs/loader.js:1402-1450 | from names: ids are handed out, the dependencies mean what their strings say, the call extends the run, and the manager is where the run leads |
| Loaders.Loader.OnLoadError | src/vs/loader.js:1518-1552 | a load failure extends the run, too |
| ModuleIdResolvers.NormalizeModuleId | src/vs/loader.js:1107-1124 | the four rewriting stages terminate and compute the one-pass stack normal form of the segments |
| ModuleIdResolvers.NormalIdIsIdempotent | src/vs/loader.js:1104-1124 | normalising twice is normalising once |
| ModuleIdResolvers.NormalIdIsStable | src/vs/loader.js:1107-1124 | in the normal form no "." is left and no ".." stands behind a segment it could take away; the last segment is never touched |
| ModuleIdResolvers.ResolveModule | src/vs/loader.js:1128-1136 | an id that is not relative is kept; a relative one becomes the direct way to the same place as the folder of the referring module followed by it |
| ModuleIdResolvers.OneDirectId | src/vs/loader.js:1107-1124 | there is only one direct id for a place, so this determines the result |
| ModuleIds.ModuleIdProvider.constructor | src/vs/loader.js:1237-1245 | the reserved names get the ids below 3 |
| ModuleIds.ModuleIdProvider.GetModuleId | src/vs/loader.js:1249-1257 | a known name keeps its number, a new one gets the next; the two tables stay inverse |
| ModuleIds.ModuleIdProvider.NormalizeDependency | src/vs/loader.js:1423-1443 | the dependency object names the special module, the resolved module, or the plugin, its parameter and the resource |
| ModuleIds.ModuleIdProvider.NormalizeDependencies | src/vs/loader.js:1444-1450 | one object for each string, all still meaningful after the later ids were handed out |
| ModuleIds.NumbersAreNames | src/vs/loader.js:1249-1260 | equal numbers are equal names |
| CssUrls.JoinPaths | src/vs/css.build.js:200-246 | the piece machine computes the specified path behind the protocol |
| CssUrls.CommonPrefix | src/vs/css.build.js:247-255 | the longest common prefix: a prefix of both that cannot be longer |
| CssUrls.RelativePath | src/vs/css.build.js:264-278 | absolute targets are kept; otherwise one step up for each folder of the file that the target does not share, then the target from its first own folder on |
| CssUrls.RelativeIsShort | src/vs/css.build.js:247-278 | the shared folders are left out, all of them: the first folder left and the first folder entered differ |
| CssUrls.JoinIsNormalise | src/vs/css.build.js:200-246 | for a folder and without empty segments, joining is `_normalizeModuleId` of the concatenation: two machines, one normal form |
| CssUrls.ServerIsKept | src/vs/css.build.js:200-246 | joining onto a path behind a protocol and a host happens behind the host; an absolute path goes right behind it |
| CssUrls.RewriteUrl | src/vs/css.build.js:305-310 | the url written into the new file reaches the old target from there, exactly if the target can be kept |
| CssUrls.RewritingKeepsTheTarget | src/vs/css.build.js:264-310 | for a new file below its root, the rewritten url resolves to the same path as before if and only if that path is absolute, or remote with the new file at the root, or has no slash right behind the folder of the new file |
| CssUrls.RelativeLeadsBack | src/vs/css.build.js:200-278 | the relative path of a target leads back to it: up through the names, then down |
| CssUrls.SlashLosesTarget | src/vs/css.build.js:264-278 | a slash right behind the folder of the new file makes the rewritten url absolute, and it leads elsewhere |
| CssUrls.SlashTooMany | src/vs/css.build.js:264-310 | `.//b`, moved from `a/x` to `a/y`, no longer means `a//b` |
| CssUrls.CleanTargetsAreKept | src/vs/css.build.js:264-310 | a target without empty segments is kept |
| CssUrls.RemoteIsAppended | src/vs/css.build.js:200-278 | a remote target is left as it is and, when joined again, taken for a path below the folder |
| WrapPreviews.MergeRanges | extensions/emmet/src/abbreviationActions.ts:95-103 | merged ranges cover exactly the positions the given ones covered, in whatever order these come; sorted by start, they end up in order and apart |
| WrapPreviews.WrapPreview.constructor | extensions/emmet/src/abbreviationActions.ts:113-137 | each range starts with its own text as content and itself as preview; any sorted ranges of the document are accepted |
| WrapPreviews.WrapPreview.NewPreviewRange | extensions/emmet/src/abbreviationActions.ts:170-197 | the arithmetic of all four cases gives the exact place of the new text behind the new place of the one before |
| WrapPreviews.NewRangeIsPlace | extensions/emmet/src/abbreviationActions.ts:170-197 | where a text comes to lie when the text before it moved by lines and characters |
| WrapPreviews.WrapPreview.CollectEdits | extensions/emmet/src/abbreviationActions.ts:154-203 | the edits are those of the old exact places, and every replaced preview range becomes the exact place of its new text |
| WrapPreviews.WrapPreview.ApplyPreview | extensions/emmet/src/abbreviationActions.ts:149-204 | the document is the gaps with the new texts in place of the current ones, up to the first failed expansion; all preview ranges are exact again if and only if nothing behind those texts moved |
| WrapPreviews.StillExactMeansSamePlaces | extensions/emmet/src/abbreviationActions.ts:157-161 | the ranges behind a failed expansion keep their places exactly if the last new text ends where the old one did, or on its line with a line break behind |
| WrapPreviews.WrapPreview.RangesDelimit | extensions/emmet/src/abbreviationActions.ts:194-201 | the text of the document in each preview range is the text inserted for it |
| WrapPreviews.WrapPreview.RevertPreview | extensions/emmet/src/abbreviationActions.ts:140-147 | wherever the preview ranges lie, the original contents are put into them by one edit, and they become the original ranges; these are exact if and only if the document is the original one, which it is if the preview ranges were exact |
| WrapPreviews.WrapPreview.MakeChanges | extensions/emmet/src/abbreviationActions.ts:206-247 | a preview shows the expansions and nothing else, and can be followed by another exactly if its ranges are still exact; anything else reverts, from any ranges, and gives the original document if they were exact |
| WrapPreviews.WrapPreview.Prompt | extensions/emmet/src/abbreviationActions.ts:249-263 | after any number of previews of which at most the last leaves ranges out of place, every range is reset, and all is as before if and only if the document is; it is if the last one left them exact, too |
| WrapPreviews.FailureCanMisplace | extensions/emmet/src/abbreviationActions.ts:140-161 | a first text with a line break and a second that fails: the ranges overlap, and the revert leaves the expansion in the document |
| TextPositions.SpliceReplaces | extensions/emmet/src/abbreviationActions.ts:154-168 | replacing several ranges at once, all given in positions of the old text, replaces exactly their contents |
| TextPositions.EditReplaces | src/vs/workbench/api/common/extHostTextEditor.ts:555-607 | so does an edit with its ranges sorted and checked for overlaps: places of contents never overlap |
| TextPositions.SortEditsSorts | src/vs/workbench/api/common/extHostTextEditor.ts:563-578 | sorting keeps the edits and puts their ends in order |
| TextPositions.RejectedIfAnyOverlap | src/vs/workbench/api/common/extHostTextEditor.ts:580-591 | an edit is rejected, and the text stays, if and only if one of its ranges begins before another one has ended |
| TextPositions.OffsetIsLast | src/vs/editor/common/model/textModel.ts:1014-1046 | a position outside of the text stands for the last one of the text before it |
| TextPositions.OutsideIsKept | src/vs/workbench/api/common/extHostTextEditor.ts:555-607 | whatever separate ranges of a text are replaced, the text outside of them stays as it is |
| TextPositions.PlaceDelimits | extensions/emmet/src/abbreviationActions.ts:113-115 | the text in the place of a content is that content |
| TextPositions.AdvanceByLines | extensions/emmet/src/abbreviationActions.ts:173-180 | a text moves a position down by its line breaks and to the length of its last line |
| Uris.DecodeUndoesEncode | src/vs/loader.js:156 | `decodeURI` undoes `encodeURI` on every text |
| Uris.Utf8RoundTrip | src/bootstrap.js:135-140 | the octets of a character decode to it |
| Uris.OnlyUtf8 | src/vs/loader.js:156 | no other octets decode to a character |
| Uris.EncodingEncodes | src/bootstrap.js:135-140 | nothing but URI characters and escapes with two upper-case digits comes out of encoding |
| Uris.LiteralsStay | src/bootstrap.js:135-140 | URI characters are encoded as themselves |
| Uris.SomeEscapes | src/bootstrap.js:135-140 | a space is `%20`, the escape sign `%25`, and `U+00E9` `%C3%A9` |
| Uris.LongEscapes | src/bootstrap.js:135-140 | `U+20AC` is `%E2%82%AC` and `U+1F600` `%F0%9F%98%80` |
| Uris.EscapesDecode | src/vs/loader.js:156 | `decodeURI` decodes an escaped character unless it is reserved or the number sign |
| FileUris.PrintedUriIsEncoded | src/bootstrap.js:119-144 | the printed URI consists of URI characters and escapes, and has no fragment |
| FileUris.PlainPartsStay | src/bootstrap.js:119-144 | parts that need no escapes are printed as they are: scheme, authority, and the path behind a slash |
| FileUris.PartsAreEncoded | src/bootstrap.js:119-144 | any parts are printed one after the other, each by itself, slashes for backslashes |
| FileUris.SpaceIsEscaped | src/bootstrap.js:119-144 | `/a b` is `file:///a%20b` |
| FileUris.PrintedUriIsDecodable | src/bootstrap.js:119-144 | the printed URI says which scheme, authority and path name it was made of |
| FileUris.SameUri | src/bootstrap.js:119-144 | two paths share a URI exactly if their path names agree or, on Windows, one spells out the authority the other is given |
| FileUris.ParsePrinted | src/vs/loader.js:155-173 | what the parser makes of a printed URI, for every path, scheme, authority and platform |
| FileUris.ParserCutsTheScheme | src/vs/loader.js:155-173 | for any URI, the parser decodes, puts number signs for their escapes, and cuts off `file:` with the slashes of the platform, and nothing else |
| FileUris.RoundTrip | src/vs/loader.js:155-173 | the path comes back, with slashes, if and only if it holds no `%23` and starts as the platform asks |
| FileUris.SomeDoNotComeBack | src/vs/loader.js:155-173 | `/a%23` does not come back, nor do, on Windows, the empty path, `/a` and `///a` |
| FileUris.UnescapeChangesEscapes | src/vs/loader.js:156 | replacing `%23` changes exactly the texts that hold it |
| Throttles.NeverTwoAtOnce | extensions/git-base/src/decorators.ts:21-48 | in every run each execution ended before the next one started, and at most one more is promised |
| Throttles.EveryCallIsCovered | extensions/git-base/src/decorators.ts:21-48 | when all is quiet, every call got an execution that started when it was made or later, if and only if no call was put behind an execution that failed |
| Throttles.AllFulfilledAllCovered | extensions/git-base/src/decorators.ts:21-48 | with fulfilled executions only, every call is covered |
| Throttles.BlockedIsReached | extensions/git-base/src/decorators.ts:21-48 | two calls, a failure and three jobs reach a quiet state in which the second call is uncovered, and no execution ever follows |
| Throttles.FailureBlocks | extensions/git-base/src/decorators.ts:26-43 | the same from every quiet state that is not blocked |
| Throttles.BlockedForever | extensions/git-base/src/decorators.ts:26-38 | behind a failed execution nothing is ever executed again |
| Throttles.NoneWithoutACall | extensions/git-base/src/decorators.ts:25-45 | every execution follows from a call, with its arguments |
| Throttles.SettlesDown | extensions/git-base/src/decorators.ts:30-43 | without new calls every run is short |
| Throttles.ComesToRest | extensions/git-base/src/decorators.ts:30-43 | every state of the protocol comes to rest without calls, whether the executions under way fulfil or fail |
| Throttles.StepKeeps | extensions/git-base/src/decorators.ts:25-45 | calls, settlings and jobs keep the protocol's invariant |
| Throttles.Throttle.Trigger | extensions/git-base/src/decorators.ts:25-45 | the decorated function returns the promised, a new promised, or a new execution |
| Throttles.Throttle.Invoke | extensions/git-base/src/decorators.ts:25-45 | a call from outside, in every state the protocol reaches |
| Throttles.Throttle.RunJob | extensions/git-base/src/decorators.ts:31-43 | one job of the queue: clearing, or running again |
| Words.FindNextWord | extensions/emmet/src/util.ts:480-516 | the first of all maximal space-free runs behind a space behind the position, or nothing if there is none |
| Words.FindPrevWord | extensions/emmet/src/util.ts:518-554 | the last of the runs before a space before the position; without one, the empty span if a space was passed, else nothing |
| Words.AllNextWords | extensions/emmet/src/util.ts:480-516 | going on from the last character of each word lists exactly the maximal space-free runs, left to right |
| Words.AllPrevWords | extensions/emmet/src/util.ts:518-554 | going back from the start of each word lists the same runs, and an empty span more if the value begins with a space |
| Words.EmptyValueRepeats | extensions/emmet/src/util.ts:518-554 | of the empty value, the empty span is found from its end, which is its start again |
| Words.OneListOfWords | extensions/emmet/src/util.ts:480-554 | there is only one such list, so both scanners find the same words |

## Left out

- Script loading itself: script tags, `fetch`, `vm.Script`, cached data, and the list of paths that `_loadModule` tries. A request is a log entry; its outcome is a later `define` call or load failure.
- `_onLoad` and `_currentAnonymousDefineCall`: an anonymous `define` is modelled as the named one it becomes.
- Script loaders or plugins that call back before the call that asked them returns, and factories or errorbacks that call the manager: events do not nest.
- Factories are total functions from their arguments to a result and to the final value of their own exports object; a module that is changed after it was handed out (aliasing of `exports`, also along a cycle) is not modelled.
- `catchError` off, build mode, user modules named "exports", "module" or "require", the event recorder and the configuration.
- Plugins whose exports have no `load` method, and their `load.error` callback.
- The `Loader` keeps the id provider beside the manager, which gets numbers; in the original it is a field of the manager. The name of a placeholder for a failed load is not kept, as nothing looks at it.
- ModuleManagers.ModuleManager.BreakTheCycle: the text of the warning; the path is printed as ids.
- LoaderHistory.FailuresDoNotReachFactories: a module that already waits still runs after the factory of a dependency threw, as in the original; a failure is a failed load or a failed resolution.
- LoaderHistory.PluginIsThereFirst: a failed plugin counts as complete for `_resolve`, so its resources are requested through empty exports.
- LoaderOrder.OrderDoesNotMatter: exports only; the order of completions may differ.
- Errorbacks: nothing is claimed about being told once over several failures; a module with two failing dependencies is told twice.
- CssUrls.RewriteUrl: quotes, white space and the `data:` and `http` guards of `_replaceURL`, and the inlining of resources.
- CssUrls.RewritingKeepsTheTarget: original files that are themselves behind a protocol, and new files outside their root.
- WrapPreviews.WrapPreview.Prompt: once a preview has left ranges out of place, a further preview is not modelled, nor is the error with which a rejected edit ends the command.
- The mapping of selections to ranges, sorting them, tab stops and placeholders in the expanded text, indentation, and the final expansion as a snippet.
- `inputChanged` does not wait for the edit it starts; here a preview is over before the next value is typed.
- Documents with `\r\n` line ends, and edits by others while the prompt is open.
- `vscode.Range.intersection` and `union` follow their documented meaning: touching ranges have an empty intersection.
- Lone surrogates, for which `encodeURI` throws; characters are Unicode scalar values.
- Words.AllPrevWords: the empty value, on which going back never ends; `EmptyValueRepeats` says what each step finds.
- Throttles.Throttle.Trigger: wrapped functions that throw instead of returning a promise, or that call the decorated method themselves.
- Everything else in the repository, such as other Emmet commands, build scripts and user interface code.
