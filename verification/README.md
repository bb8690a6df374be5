# Verification

Dafny models of the parts of this repository that have the most state and branching, with proofs of what they
keep to. `dafny verify dfyconfig.toml` checks all of it.

| files | what they model |
|---|---|
| `PromiseWorld`, `PromiseStructure`, `PromiseProgress`, `PromiseFates`, `PromiseAdoption`, `PromiseTheorems`, `PromiseCallbacks`, `PromiseExamples`, `PromiseAll`, `PromiseEngine` | the promise scheduler in `fontawesome.js` |
| `Html` | its HTML printer |
| `IconIndex` | its icon and shim stores and the lookup tables built from them |
| `TableSort` | the table sort of the administration pages |
| `ClusterManager` | cluster configuration, token map and cache file |
| `ClusterRunner` | the run loop that starts and stops sensors |
| `Socket` | the reconnecting JSON-RPC socket of the administration pages |
| `BehaviorStore`, `IdGen`, `Cookies` | the behavior files, the request ids, the cookies |

**Promises.** `PromiseWorld` is a transition system. Its state is what the source keeps in promise objects, the
global queue and the timer, plus where the flush loop is; its steps are what user code can do whenever the engine
hands control over (make promises, resolve, reject, `then`, `P.all`, use a thenable's two functions, return, throw)
and what the engine does in between. The theorems are about all runs, so user code is never restricted: it may call
back in any order, any number of times. `PromiseEngine` is the code as the source has it, objects updated in place
and loops, and each of its methods is proved to do what the transition system says. `History` fields are
bookkeeping for the statements: what a step does never depends on them. Only whether user code may call a promise's
resolvers does, because it holds those of the promises it constructed itself.

Three things the code does that Promises/A+ does not ask for, or forbids, are kept: `resolve(p, p)` fulfils `p` with
itself; resolver functions have no lock, so a second call can settle a promise that waits for another
(`SecondCallOvertakes`); and where a subscriber has no callback, an outcome that is itself a promise is followed
again (`PassThrough`, `PassThroughIff`), rejection reasons included, so a rejection can end in fulfilment
(`RejectionBecomesFulfilment`). A promise that adopts another takes its outcome over (`Adoption`, `AdoptionChain`),
also when the other one was fulfilled with a promise, unless it was fulfilled with a foreign thenable: then, and
only then, user code can make the outcomes differ (`AdoptionExact`), because the thenable is asked again
(`ForeignAnswersTwice`).

**Other findings.** `restore` assigns the cached configuration before it validates it, so a token can lead to a
cluster and be unknown (`StartAgreesIff`, `RestartDisagrees`). A token is validated by the last cluster that has it
but found in the first: these are the same iff no two clusters share it (`SameClusterIff`). The ids `""` and
`".json"` share a key in the behavior map (`RefinesIff`). The web socket is given up for good iff its first
constructor call throws (`AliveIff`, `DeadForGood`). A reading sensor is told to stop iff it has not left the
running group (`Bracketing`, `LeftUntold`). `getCookie` is right about a name on all cookie strings iff the name
does not itself read as the beginning of a pair (`StandardRightIff`, `RightIff`, `MisleadsOn`). `Library.add` takes
the styles in the order they are first named, so the last definition need not win for the alias `fa`
(`AliasLastWinsIff`, `AliasOrderMatters`), and `addPack` on one of the two aliases parts them (`PackPartsAliasIff`).

Methods state the new state as a function of the old one; the lemmas about those functions are what the source
promises.

## Model

| member | source | states |
|---|---|---|
| PromiseTheorems.OnePlace | web-admin/fontawesome/js/fontawesome.js:306-368 | In every reachable state each subscriber is in exactly one place, counted with multiplicity: its owner's `_then`, the queue, the running task, or the log of invocations |
| PromiseTheorems.OnePublish | web-admin/fontawesome/js/fontawesome.js:419-451 | A promise is SETTLED iff exactly one publish task for it is queued, and its `_then` is still a list when that task runs |
| PromiseTheorems.QuiescentInvoked | web-admin/fontawesome/js/fontawesome.js:306-368 | With nothing queued or running, a subscriber has been invoked exactly once if its owner settled, and never if not |
| PromiseTheorems.FlushDue | web-admin/fontawesome/js/fontawesome.js:306-324 | Work in the queue has exactly one flush scheduled or running; entries started plus entries queued are the entries enqueued, in order |
| PromiseTheorems.CallbackOrder | web-admin/fontawesome/js/fontawesome.js:435-451 | When a subscriber is invoked, every earlier one of the same promise has been invoked before it, also if they were added after settlement |
| PromiseTheorems.ThenIsAsynchronous | web-admin/fontawesome/js/fontawesome.js:480-505 | No user step, `then` and `P.all` included, invokes a subscriber; invocations start only with no user code on the stack |
| PromiseTheorems.NeverStuck | web-admin/fontawesome/js/fontawesome.js:306-368 | In every reachable state that is not quiescent one of the engine's own steps is possible |
| PromiseTheorems.SettleOnce | web-admin/fontawesome/js/fontawesome.js:413-451 | Over every run `_data` and the outcome decided stay as they are once a promise has left PENDING, and a final state stays final |
| PromiseTheorems.LatchOnce | web-admin/fontawesome/js/fontawesome.js:370-411 | After a thenable has used either function it was given, using them again, or throwing, is the identity in every later state |
| PromiseTheorems.FirstSettles | web-admin/fontawesome/js/fontawesome.js:326-433 | A promise that a run settles leaves PENDING at exactly one event of the run, whatever calls and adoptions come before and after; that event calls its own resolvers or uses a latch open for it, and the outcome it gets there is the one it ends with |
| PromiseTheorems.ResolverTakesEffect | web-admin/fontawesome/js/fontawesome.js:326-433 | What one resolver call of any kind does: a value that is not followed, and any rejection, settle the promise iff it is still pending; a thenable leaves it as it was and adds one latch for it |
| PromiseTheorems.FirstClosure | web-admin/fontawesome/js/fontawesome.js:383-392 | What the first function handed to a thenable does on its first use: it fulfils the promise, if that is pending, with the thenable itself, the promise itself or a plain value, and follows any other value through a new latch |
| PromiseTheorems.SecondClosure | web-admin/fontawesome/js/fontawesome.js:393-408 | What the second function and a throw do: either rejects the promise if it is pending; only the function uses the latch up |
| PromiseTheorems.Adoption | web-admin/fontawesome/js/fontawesome.js:370-417 | A promise resolved once with another one is pending until that one is final; if that one is not fulfilled with a foreign thenable, it has that one's outcome once it is settled, and at quiescence that one's state and data |
| PromiseTheorems.AdoptionChain | web-admin/fontawesome/js/fontawesome.js:370-417 | All promises of a chain of any length, each resolved once with the next, end as the last one did, under the same condition on the last one alone |
| PromiseTheorems.AdoptionStep | web-admin/fontawesome/js/fontawesome.js:342-411 | The invocation that carries an outcome over settles the waiting promise with it at once iff the outcome leaves nothing more to follow: any rejection, a plain value, or one of the two promises themselves |
| PromiseTheorems.AdoptionExact | web-admin/fontawesome/js/fontawesome.js:342-411 | From that invocation on, the waiting promise is never settled otherwise, in any run in which its own resolvers are not called again, iff the outcome is not fulfilment with a foreign thenable |
| PromiseTheorems.ThenOutcome | web-admin/fontawesome/js/fontawesome.js:342-368 | Section 2.2.7 of Promises/A+: what a callback returns or throws is, over every later run, what the derived promise becomes, adopts or is rejected with. After a foreign thenable it is pending with that thenable's latch as the only one open for it, and stays so until the thenable uses it or throws |
| PromiseTheorems.PassThrough | web-admin/fontawesome/js/fontawesome.js:342-368 | A subscriber given no function for its owner's outcome passes a plain value or reason on to the derived promise, for good; a promise or foreign thenable is followed, also when it is the reason of a rejection, and the derived promise itself is a TypeError |
| PromiseTheorems.PassThroughIff | web-admin/fontawesome/js/fontawesome.js:342-368 | At that moment the derived promise gets the owner's outcome iff that is not a thenable, although sections 2.2.7.3 and 2.2.7.4 of Promises/A+ ask for it always |
| PromiseAdoption.EventEffect | web-admin/fontawesome/js/fontawesome.js:306-545 | Every event settles at most one promise, and that one only through a call of its own resolvers or a latch open for it |
| PromiseAdoption.SelfStep | web-admin/fontawesome/js/fontawesome.js:370-417 | A promise fulfilled with a promise is fulfilled with one that is fulfilled with itself; every event keeps this |
| PromiseAdoption.HandedStep | web-admin/fontawesome/js/fontawesome.js:370-417 | A promise that was handed another promise instead of an outcome waits for that one in turn, or has its outcome; every event keeps this |
| PromiseAdoption.ForeignOnward | web-admin/fontawesome/js/fontawesome.js:370-411 | Over every run in which its resolvers are not called again, a promise resolved with a foreign thenable is pending until the thenable uses one of its functions, or rejected because it threw |
| PromiseAdoption.ExecKeepsAdoption | web-admin/fontawesome/js/fontawesome.js:306-545 | All of this over every run |
| PromiseExamples.SecondCallOvertakes | web-admin/fontawesome/js/fontawesome.js:326-340 | A reachable state in which a promise waiting for another was settled by a second resolver call: there is no lock |
| PromiseExamples.ForeignAnswersTwice | web-admin/fontawesome/js/fontawesome.js:370-411 | A reachable quiescent state in which a promise resolved once with another one has a different outcome: that one was fulfilled with a foreign thenable, which was asked again |
| PromiseExamples.RejectionBecomesFulfilment | web-admin/fontawesome/js/fontawesome.js:342-368 | A reachable quiescent state in which a promise is rejected with a fulfilled promise as its reason, and what `then` without callbacks returned for it is fulfilled |
| PromiseCallbacks.CallbackCalled | web-admin/fontawesome/js/fontawesome.js:342-368 | Sections 2.2.2 to 2.2.4 of Promises/A+, over every run from a call `then(f, r)`: once its subscriber is invoked the promise is final, and f was called exactly once with its value if it was fulfilled, r exactly once with its reason if it was rejected, provided that one is a function; nothing else given to this call was ever called, and nothing before. At quiescence it has been invoked if the promise has settled |
| PromiseCallbacks.InvocationEnters | web-admin/fontawesome/js/fontawesome.js:342-350 | One invocation calls the user callback for its owner's outcome with the owner's data, or none if that slot holds no user function, and no other subscriber's |
| PromiseCallbacks.FunctionRuns | web-admin/fontawesome/js/fontawesome.js:349-353 | A function given for the outcome is then on the stack and nothing else has changed; it can do what user code can, and return or throw anything |
| PromiseCallbacks.ForeignRuns | web-admin/fontawesome/js/fontawesome.js:352-368 | The `then` of a foreign thenable returned by a callback runs next, and may use either of its functions or throw |
| PromiseCallbacks.OtherStepEnters | web-admin/fontawesome/js/fontawesome.js:306-545 | No other step calls a callback |
| PromiseStructure.PlacesPublish | web-admin/fontawesome/js/fontawesome.js:435-442 | Publishing moves a promise's waiting subscribers between what was invoked before and what is queued, keeping every promise's own order |
| PromiseStructure.SettleKeeps | web-admin/fontawesome/js/fontawesome.js:419-433 | Settling keeps places, phases, queue order and schedule |
| PromiseStructure.SubscribeKeeps | web-admin/fontawesome/js/fontawesome.js:480-505 | So does `then`, on a pending, settled or final promise |
| PromiseStructure.ExecKeeps | web-admin/fontawesome/js/fontawesome.js:306-505 | So does every run |
| PromiseFates.AdopterBegins | web-admin/fontawesome/js/fontawesome.js:370-417 | Invoking a closure of handleThenable closes its latch and leaves the adopting promise with the fate its one resolver call calls for |
| PromiseFates.FirstResolve | web-admin/fontawesome/js/fontawesome.js:326-340 | The first call of a promise's resolvers, if it is a resolution, decides its fate: at once, or through the subscriber made for it, which it waits for |
| PromiseFates.ThenableCannotOvertake | web-admin/fontawesome/js/fontawesome.js:370-411 | A foreign thenable holds an open latch only of promises that do not wait for another one any more: while the promise followed has not been carried over, it cannot settle the follower |
| PromiseFates.ThrowKeepsFates | web-admin/fontawesome/js/fontawesome.js:342-368 | After a throw the fates of all promises, the derived one's rejection included, hold although the pass over the owner's data that follows can add a latch and a subscriber |
| PromiseFates.ExecKeepsFates | web-admin/fontawesome/js/fontawesome.js:306-505 | Every promise whose resolvers were called once has the fate of that call, over every run |
| PromiseProgress.RunsAdvance | web-admin/fontawesome/js/fontawesome.js:306-505 | Over every run outcomes, calls, invocations, subscribers and used latches are only added to |
| PromiseAll.AllCounts | web-admin/fontawesome/js/fontawesome.js:511-545 | At all times `remaining` is the number of promise entries not delivered, and each index holds its plain entry or its promise's value once delivered |
| PromiseAll.QuietEntry | web-admin/fontawesome/js/fontawesome.js:511-545 | At quiescence an entry is delivered iff its promise is fulfilled, and a rejected one was processed |
| PromiseAll.AllOutcome | web-admin/fontawesome/js/fontawesome.js:511-545 | At all times the combined promise is fulfilled with every value at its index iff no entry is outstanding, rejected with the data of the first rejection processed iff there is one, and else pending |
| PromiseAll.AllSettles | web-admin/fontawesome/js/fontawesome.js:511-545 | At quiescence the combined promise is fulfilled with every value at its index iff all entries are, rejected iff some entry is, and then there is a first rejection processed, whose data it has |
| PromiseEngine.FlushIsRun | web-admin/fontawesome/js/fontawesome.js:306-315 | Every flush that ends is a run of the transition system, so all theorems hold of the state it leaves |
| PromiseEngine.TaskShape | web-admin/fontawesome/js/fontawesome.js:306-315 | A task invokes exactly the subscribers it started with |
| PromiseEngine.UserKeepsControl | web-admin/fontawesome/js/fontawesome.js:342-368 | User code cannot change what the flush loop is in the middle of |
| PromiseEngine.Engine.AsyncCall | web-admin/fontawesome/js/fontawesome.js:317-324 | Appends to the queue and schedules one flush if none is due; nothing else changes |
| PromiseEngine.Engine.Fulfill | web-admin/fontawesome/js/fontawesome.js:419-425 | Settles a pending promise with the value and queues its publication; otherwise no change |
| PromiseEngine.Engine.Reject | web-admin/fontawesome/js/fontawesome.js:427-433 | The same for a rejection |
| PromiseEngine.Engine.Construct | web-admin/fontawesome/js/fontawesome.js:461-472 | A new pending promise with an empty `_then` |
| PromiseEngine.Engine.Then | web-admin/fontawesome/js/fontawesome.js:480-505 | A fresh derived promise and a subscriber that waits or is queued, by the owner's state |
| PromiseEngine.Engine.HandleThenableValue | web-admin/fontawesome/js/fontawesome.js:370-411 | True iff the value is a thenable, which then is followed through a fresh latch, or rejected if it is the promise itself |
| PromiseEngine.Engine.ResolvePromise | web-admin/fontawesome/js/fontawesome.js:413-417 | Fulfils with a plain value or with itself, else follows the thenable |
| PromiseEngine.Engine.UseResolve | web-admin/fontawesome/js/fontawesome.js:383-392 | First closure: at most once, fulfilling with the thenable itself or resolving |
| PromiseEngine.Engine.UseReject | web-admin/fontawesome/js/fontawesome.js:393-398 | Second closure: at most once, rejecting |
| PromiseEngine.Engine.CatchThrow | web-admin/fontawesome/js/fontawesome.js:402-408 | The throw of a foreign `then` rejects iff neither closure was used |
| PromiseEngine.Engine.ResolverResolve | web-admin/fontawesome/js/fontawesome.js:327-329 | resolvePromise on the promise it was made for, without a lock |
| PromiseEngine.Engine.ResolverReject | web-admin/fontawesome/js/fontawesome.js:331-339 | rejectPromise likewise |
| PromiseEngine.Engine.Entry | web-admin/fontawesome/js/fontawesome.js:531-539 | Watches a promise entry and counts it, or copies a plain one to its index |
| PromiseEngine.Engine.AllOf | web-admin/fontawesome/js/fontawesome.js:511-545 | The whole call, empty input included |
| PromiseEngine.Engine.StoreValue | web-admin/fontawesome/js/fontawesome.js:520-529 | Stores at the entry's index, counts down, and resolves at zero |
| PromiseEngine.Engine.Begins | web-admin/fontawesome/js/fontawesome.js:342-353 | Picks the callback by the owner's state and calls it with the owner's data, or settles the derived promise if nothing was given for that state; true iff something was |
| PromiseEngine.Engine.Ends | web-admin/fontawesome/js/fontawesome.js:352-367 | What follows a return or a throw |
| PromiseEngine.Engine.InvokeCallback | web-admin/fontawesome/js/fontawesome.js:342-368 | One invocation with user code of any behaviour inside, as a run of events |
| PromiseEngine.Engine.InvokeEach | web-admin/fontawesome/js/fontawesome.js:435-437 | Invokes the listed subscribers in order |
| PromiseEngine.Engine.RunTask | web-admin/fontawesome/js/fontawesome.js:306-309 | One queue entry from start to end |
| PromiseEngine.Engine.AsyncFlush | web-admin/fontawesome/js/fontawesome.js:306-315 | Runs every entry, those pushed meanwhile included, then empties the queue and clears the timer |
| TableSort.StableSortIff | web-admin/table-support.js:25-71 | A sequence is the stable sort of another iff it is sorted and keeps, for every key, the rows with that key in their order |
| TableSort.StableSortUnique | web-admin/table-support.js:25-71 | Two sorted stable permutations of the same rows are equal |
| TableSort.SwapRemovesOne | web-admin/table-support.js:38-59 | Exchanging two neighbours found out of order removes exactly one inversion |
| TableSort.SwapIsStable | web-admin/table-support.js:54-59 | ... and keeps the order of rows with equal keys |
| TableSort.SortedIffNoInversion | web-admin/table-support.js:38-52 | Sorted iff there is no inversion |
| TableSort.InversionsBound | web-admin/table-support.js:30-71 | There are at most n(n-1)/2 inversions, hence swaps |
| TableSort.ClickToggles | web-admin/table-support.js:61-69 | A second click on a column reverses the direction, unless all keys are equal, when nothing moves |
| TableSort.ThreeClicks | web-admin/table-support.js:25-83 | Three clicks on a column leave what one leaves |
| TableSort.Table.FindSwitch | web-admin/table-support.js:38-52 | Finds a pair of neighbours out of order, skipping the header, or none iff the data rows are sorted |
| TableSort.Table.SortTable | web-admin/table-support.js:19-85 | Terminates; header in place; only the clicked column shows an arrow. Up: the lower-cased cells of that column rise, by the first differing character; down: they fall; up iff they were not rising before. The data rows are the unique stable sort in that direction; count is the initial number of inversions |
| TableSort.LessIff | web-admin/table-support.js:43-52 | The comparison is that of the first differing character, or of the lengths if there is none |
| TableSort.DirectionsMean | web-admin/table-support.js:38-52 | Sorted ascending iff the cells rise, sorted descending iff they fall, in that order |
| Html.EscapeIsPerCharacter | web-admin/fontawesome/js/fontawesome.js:669-671 | The five sequential replaces equal one per-character substitution |
| Html.HtmlEscapeInverts | web-admin/fontawesome/js/fontawesome.js:669-671 | Escaping has a left inverse, and its result has none of the characters that end text or attribute values |
| Html.JoinIsSpaced | web-admin/fontawesome/js/fontawesome.js:672-676 | For well-formed names the trim removes the final blank only: attributes one blank apart |
| Html.Reads | web-admin/fontawesome/js/fontawesome.js:1263-1275 | A parser reads printed well-formed trees back up to the cutting of texts, in any context where a node list can end |
| Html.NormalPrints | web-admin/fontawesome/js/fontawesome.js:1263-1275 | Merging adjacent texts and dropping empty ones does not change the output |
| Html.NormalFixes | web-admin/fontawesome/js/fontawesome.js:1263-1275 | Normalizing gives trees without empty or adjacent texts and leaves those alone |
| Html.PrintsAlike | web-admin/fontawesome/js/fontawesome.js:1263-1275 | Two lists of well-formed trees print alike iff they have the same normal form |
| Html.ToHtmlInjective | web-admin/fontawesome/js/fontawesome.js:1263-1275 | toHtml is injective on well-formed trees in normal form |
| Html.NamesAreNotEscaped | web-admin/fontawesome/js/fontawesome.js:672-676 | Two different trees, one with a malformed attribute name, that print alike |
| IconIndex.SpreadAt | web-admin/fontawesome/js/fontawesome.js:55-72 | In an object spread the second object's entries win and the others stay |
| IconIndex.SpreadKeys | web-admin/fontawesome/js/fontawesome.js:55-72 | ... and the keys of the first keep their places, followed by the new ones of the second in their order |
| IconIndex.UnicodeScan | web-admin/fontawesome/js/fontawesome.js:1180-1186 | The unicode scan finds exactly the last icon with a non-empty unicode |
| IconIndex.LigatureScan | web-admin/fontawesome/js/fontawesome.js:1187-1194 | The ligature scan finds exactly the last icon that has the text as its name or a ligature |
| IconIndex.OldNameMeans | web-admin/fontawesome/js/fontawesome.js:1195-1210 | A shim lookup gives the icon name of the last shim with the old name, in its style, or in the solid one if that is regular and not loaded |
| IconIndex.NoDanglingRegular | web-admin/fontawesome/js/fontawesome.js:1195-1210 | A shim lookup never leads into the regular style while that is not loaded, and is empty iff no shim has the name |
| IconIndex.AliasKeptIff | web-admin/fontawesome/js/fontawesome.js:1132-1165 | Defining icons keeps `fa` a copy of `fas` iff it brings nothing new for `fa` itself |
| IconIndex.PackPartsAliasIff | web-admin/fontawesome/js/fontawesome.js:2366-2370 | addPack on `fas` or `fa` alone keeps the copy iff it brings nothing new |
| IconIndex.AliasKeptByAll | web-admin/fontawesome/js/fontawesome.js:2018-2032 | ... over a whole Library.add without definitions for `fa` itself |
| IconIndex.NormalizedLast | web-admin/fontawesome/js/fontawesome.js:1136-1147 | The last entry that names an icon, by its key or by its own iconName, is the one stored |
| IconIndex.NormalizedNone | web-admin/fontawesome/js/fontawesome.js:1136-1147 | ... and a name that no entry has is not stored |
| IconIndex.DefinedAt | web-admin/fontawesome/js/fontawesome.js:1132-1165 | Defining icons replaces those of the same name, keeps the rest, and touches no other style but the alias |
| IconIndex.PulledLast | web-admin/fontawesome/js/fontawesome.js:2039-2052 | The last definition of a name in the arguments wins |
| IconIndex.AddedAt | web-admin/fontawesome/js/fontawesome.js:2018-2052 | After Library.add every icon of every style but the alias is as last defined in its arguments, or as it was if they do not mention it |
| IconIndex.RememberedAt | web-admin/fontawesome/js/fontawesome.js:2018-2052 | The library's own definitions are then, for every style, the last ones given, or as they were |
| IconIndex.AddedAliasAt | web-admin/fontawesome/js/fontawesome.js:2018-2052 | An icon of the alias `fa` is then the one that the later of `fas` and `fa`, in the order they were first named, brings for its name, or as it was |
| IconIndex.AliasLastWinsIff | web-admin/fontawesome/js/fontawesome.js:2018-2052 | The last of the arguments to define a name for `fa` or `fas` is what `fa` has, unless its style is named first in the arguments and the other style's last icon of that name differs: exactly then it is not |
| IconIndex.KeysInOrder | web-admin/fontawesome/js/fontawesome.js:2026-2052 | Library.add takes the styles in the order in which its arguments first name them |
| IconIndex.AliasOrderMatters | web-admin/fontawesome/js/fontawesome.js:2018-2052 | Three definitions after which `fa` does not have the one defined last |
| IconIndex.Icons.Build | web-admin/fontawesome/js/fontawesome.js:1172-1212 | Afterwards all three tables equal last-match-wins scans of the stores |
| IconIndex.Icons.AddPack | web-admin/fontawesome/js/fontawesome.js:2366-2370 | Merges the pack into its style and rebuilds: coherent |
| IconIndex.Icons.AddShims | web-admin/fontawesome/js/fontawesome.js:2371-2378 | Appends the shims and rebuilds: coherent |
| IconIndex.Icons.DefineIcons | web-admin/fontawesome/js/fontawesome.js:1132-1165 | Normalizes, stores, stores solid icons as `fa` too; coherent with hooks, tables untouched without |
| IconIndex.Icons.Add | web-admin/fontawesome/js/fontawesome.js:2018-2032 | Styles and the library's own definitions get all additions; coherent unless nothing was added to an incoherent state |
| IconIndex.Icons.ByUnicode | web-admin/fontawesome/js/fontawesome.js:1213-1215 | The scan's answer, or a TypeError for an unknown prefix |
| IconIndex.Icons.ByLigature | web-admin/fontawesome/js/fontawesome.js:1216-1218 | The scan's answer, or a TypeError for an unknown prefix |
| IconIndex.Icons.ByOldName | web-admin/fontawesome/js/fontawesome.js:1219-1224 | The answer of the last shim for the name, or nulls if there is none |
| ClusterManager.LastWins | src/main/java/com/intel/rfid/cluster/ClusterManager.java:392-400 | The token map holds, for exactly the token strings that occur, their last entries |
| ClusterManager.KnownIffFound | src/main/java/com/intel/rfid/cluster/ClusterManager.java:177-190 | A token is in the map iff findClusterByToken finds a cluster |
| ClusterManager.ValidatedByLast | src/main/java/com/intel/rfid/cluster/ClusterManager.java:392-400 | The entry that validates a token is the last one in the last cluster that has it |
| ClusterManager.SameClusterIff | src/main/java/com/intel/rfid/cluster/ClusterManager.java:242-256 | A token is validated by an entry of the cluster it is found in iff no two clusters have that token |
| ClusterManager.SharedTokenSplits | src/main/java/com/intel/rfid/cluster/ClusterManager.java:242-256 | A configuration where one token is validated by one cluster's entry and found in another |
| ClusterManager.AcceptedIff | src/main/java/com/intel/rfid/cluster/ClusterManager.java:431-452 | Accepted iff there are clusters and every behavior is known |
| ClusterManager.UnknownPicks | src/main/java/com/intel/rfid/cluster/ClusterManager.java:431-452 | The behaviors reported are those of exactly the clusters whose behavior is unknown, in the order of the configuration |
| ClusterManager.RunAgrees | src/main/java/com/intel/rfid/cluster/ClusterManager.java:59-99 | Over every run of load, delete, stop, start and restart with unchanged behaviors the map indexes the configuration and the cache file holds it |
| ClusterManager.DoAgrees | src/main/java/com/intel/rfid/cluster/ClusterManager.java:59-99 | One step of that; stop, start and restart change nothing then |
| ClusterManager.RunKnowsTokens | src/main/java/com/intel/rfid/cluster/ClusterManager.java:177-190 | In every such run a token is known iff it leads to a cluster |
| ClusterManager.StartAgreesIff | src/main/java/com/intel/rfid/cluster/ClusterManager.java:379-390 | start keeps map and configuration in step iff the cached configuration validates or has for every token the same last entry as the old one: it is assigned before it is validated |
| ClusterManager.RestartDisagrees | src/main/java/com/intel/rfid/cluster/ClusterManager.java:379-390 | A run of load and restart after which a token leads to a cluster and is unknown |
| ClusterManager.CacheRestores | src/main/java/com/intel/rfid/cluster/ClusterManager.java:379-420 | What stop writes a new process reads back, with the same token map, as long as the behaviors are known |
| ClusterManager.FreshStartAgreesIff | src/main/java/com/intel/rfid/cluster/ClusterManager.java:379-390 | In a new process: iff it validates or has no tokens |
| ClusterManager.AlignOnce | src/main/java/com/intel/rfid/cluster/ClusterManager.java:203-226 | Aligning a sensor twice is aligning it once |
| ClusterManager.AlignedTakes | src/main/java/com/intel/rfid/cluster/ClusterManager.java:211-226 | Facility (if the cluster has one), personality and every port's alias are the cluster's, id, token and number of ports the sensor's own |
| ClusterManager.NamedIff | src/main/java/com/intel/rfid/cluster/ClusterManager.java:258-276 | A sensor is among the listed ids, up to case, iff findClusterByDeviceId finds a cluster for it |
| ClusterManager.TokenFirst | src/main/java/com/intel/rfid/cluster/ClusterManager.java:203-209 | A sensor belongs to the first cluster that has its token; only if none has it to the first that lists its id, up to case |
| ClusterManager.AlignedToListed | src/main/java/com/intel/rfid/cluster/ClusterManager.java:115-137 | Aligning to every listed id leaves each listed sensor with its first cluster's attributes and every other sensor alone |
| ClusterManager.Manager.Validate | src/main/java/com/intel/rfid/cluster/ClusterManager.java:431-452 | A null configuration, one without clusters, or all unknown behaviors, in this order of checking |
| ClusterManager.Manager.UpdateTokenMap | src/main/java/com/intel/rfid/cluster/ClusterManager.java:392-400 | The map becomes the last-wins index |
| ClusterManager.Manager.LoadConfig | src/main/java/com/intel/rfid/cluster/ClusterManager.java:77-87 | A rejected configuration changes nothing; an accepted one is stored, cached, indexed and, without tokens, aligned to |
| ClusterManager.Manager.DeleteConfig | src/main/java/com/intel/rfid/cluster/ClusterManager.java:89-99 | Returns the old configuration and leaves none, no tokens and no cache file; no sensor is touched |
| ClusterManager.Manager.Startup | src/main/java/com/intel/rfid/cluster/ClusterManager.java:59-66 | What restore makes of each kind of cache file, exceptions swallowed |
| ClusterManager.Manager.Shutdown | src/main/java/com/intel/rfid/cluster/ClusterManager.java:68-70 | Writes the cache file |
| ClusterManager.Manager.ValidateToken | src/main/java/com/intel/rfid/cluster/ClusterManager.java:177-195 | With map and configuration in step: no token given is its own error; unknown iff findClusterByToken finds no cluster; accepted iff the last entry with that token in the configuration has expiration -1 or one not before now |
| ClusterManager.AcceptedUntil | src/main/java/com/intel/rfid/cluster/ClusterManager.java:177-195 | An accepted token was accepted at every earlier time; one with expiration -1 is accepted at all times, any other is refused at every time after its expiration |
| ClusterManager.Manager.FindClusterByToken | src/main/java/com/intel/rfid/cluster/ClusterManager.java:242-256 | The first cluster with the token |
| ClusterManager.Manager.FindClusterByDeviceId | src/main/java/com/intel/rfid/cluster/ClusterManager.java:258-276 | The first cluster listing the device, up to case |
| ClusterManager.Manager.LookUp | src/main/java/com/intel/rfid/cluster/ClusterManager.java:203-209 | By token, else by device id: the cluster `TokenFirst` is about |
| ClusterManager.Manager.AlignSensor | src/main/java/com/intel/rfid/cluster/ClusterManager.java:211-226 | Facility if the cluster has one, personality, and every port's alias; no cluster, no change |
| ClusterManager.Manager.Align | src/main/java/com/intel/rfid/cluster/ClusterManager.java:101-137 | With tokens one disconnect of all sensors; without, exactly the listed sensors exist besides the old ones, new ones under their converted ids, and the listed ones carry their first cluster's attributes |
| ClusterManager.NeverReplaced | src/main/java/com/intel/rfid/sensor/SensorManager.java:290-300 | Aligning replaces no sensor, in whatever case its id is listed: the map compares ids without case |
| ClusterManager.Manager.Establish | src/main/java/com/intel/rfid/sensor/SensorManager.java:290-300 | The sensor registered under the id up to case, or a new one with the converted id |
| ClusterManager.ConvertedIsSame | src/main/java/com/intel/rfid/helpers/StringHelper.java:12-19 | The conversion changes an id in case only |
| ClusterManager.ConvertedFrom | src/main/java/com/intel/rfid/helpers/StringHelper.java:12-19 | What follows the first RSP- of an id is put in lower case, nothing before it |
| ClusterManager.ConvertedNone | src/main/java/com/intel/rfid/helpers/StringHelper.java:12-19 | An id without it stays as it is |
| ClusterManager.Manager.SetAliases | src/main/java/com/intel/rfid/sensor/SensorPlatform.java:235-332 | Every port gets its interpreted alias; an empty list means the device's default for all ports, a short one leaves the other ports alone |
| ClusterRunner.NoLostUpdate | src/main/java/com/intel/rfid/cluster/ClusterRunner.java:103-178 | On every interleaving, every batch is started on groups read at a change not older than the latest one notified when the runner tested for an update; those groups are the data as of that change, and the batch is exactly the connected sensors of one of them, but for sensors removed since the read |
| ClusterRunner.HeedsNotice | src/main/java/com/intel/rfid/cluster/ClusterRunner.java:103-155 | From a notification on, no batch is started on groups older than its change, except one the runner had tested for already |
| ClusterRunner.DecidesIff | src/main/java/com/intel/rfid/cluster/ClusterRunner.java:147-155 | The runner updates iff it has no groups or was notified since it last began to read them |
| ClusterRunner.StartsOrRests | src/main/java/com/intel/rfid/cluster/ClusterRunner.java:157-178 | The next group in turn is taken; a batch is started iff somebody in it is connected; otherwise, from the second round on, the runner rests iff the round ends and nobody was connected in it |
| ClusterRunner.Progresses | src/main/java/com/intel/rfid/cluster/ClusterRunner.java:134-204 | Every step leads on: at most ten steps after one test the loop tests again or is done |
| ClusterRunner.Bracketing | src/main/java/com/intel/rfid/cluster/ClusterRunner.java:134-204 | Each started batch is stopped, as the same group, before anything else starts and before the latch opens, also while one runs; that happens once, at the end; a started sensor still reading is told to stop iff it has not left that group |
| ClusterRunner.OnlyInterruptEnds | src/main/java/com/intel/rfid/cluster/ClusterRunner.java:134-204 | The loop ends only if it was interrupted |
| ClusterRunner.LeftUntold | src/main/java/com/intel/rfid/cluster/ClusterRunner.java:91-101 | A reachable state in which a sensor that reads was not told to stop: `remove`, which nothing in the repository calls, took it out of the running group |
| ClusterRunner.InterruptHeeded | src/main/java/com/intel/rfid/cluster/ClusterRunner.java:125-204 | An interrupt is never swallowed: until the loop ends it is pending, or remembered by the wait that it ended; at most one more batch is started after it, and the next test ends the loop |
| ClusterRunner.TakesTurns | src/main/java/com/intel/rfid/cluster/ClusterRunner.java:134-175 | Since the groups were last read, the i-th batch chosen was group i modulo their number; the runner rests only after a whole round in which nobody could be started |
| ClusterRunner.ExecKeeps | src/main/java/com/intel/rfid/cluster/ClusterRunner.java:134-204 | The invariants behind these, over every interleaving of the runner with changes, notifications, removals and interrupts |
| ClusterRunner.Runner.RemoveSensor | src/main/java/com/intel/rfid/cluster/ClusterRunner.java:91-101 | The first occurrence in the first group that has it; true iff some group has it |
| ClusterRunner.FirstRemoved | src/main/java/com/intel/rfid/cluster/ClusterRunner.java:91-101 | Removing takes out the first occurrence and nothing else |
| ClusterRunner.Runner.Update | src/main/java/com/intel/rfid/cluster/ClusterRunner.java:147-155 | Pause, clear the flag and the groups, read them anew, with others running in between |
| ClusterRunner.Runner.StartNext | src/main/java/com/intel/rfid/cluster/ClusterRunner.java:157-178 | Starts the connected sensors of the next group in turn; rests only at the end of a round in which nothing was started |
| ClusterRunner.Runner.WaitForComplete | src/main/java/com/intel/rfid/cluster/ClusterRunner.java:222-245 | Every ending of the wait is survived; one by an interrupt takes the thread's flag down and is remembered |
| ClusterRunner.Runner.StopLaggards | src/main/java/com/intel/rfid/cluster/ClusterRunner.java:215-219 | Tells exactly the sensors of the batch's group that may be reading to stop |
| ClusterRunner.Runner.Run | src/main/java/com/intel/rfid/cluster/ClusterRunner.java:134-204 | The loop does the machine's steps, whatever happens in between |
| Socket.Reconnects | web-admin/socket-support.js:74-140 | Over every event order from a fresh object: at most one connection and one timer live; open implies a connection and no timer; listeners are told closed first and then strictly alternating states. By the messages sent on it, every connection that opened with topics set was sent a subscription to them, exactly one and no other if the page's own code subscribes to nothing; one that opened without, none in that case; one that never opened, none at all |
| Socket.OpenKeeps | web-admin/socket-support.js:90-101 | Opening tells the listeners, issues and sends what they ask for, and then, iff topics is set, one more request on this connection, `subscribe` with the topics; the timer is stopped |
| Socket.CloseKeeps | web-admin/socket-support.js:123-134 | Every close leaves no connection and a running timer, tells the listeners iff they thought it open, and sends nothing |
| Socket.TickRetries | web-admin/socket-support.js:74-82 | A tick makes a new connection iff there is none and the constructor does not throw |
| Socket.RunsAlive | web-admin/socket-support.js:74-82 | Once there is a connection or a timer there is one for ever |
| Socket.AliveIff | web-admin/socket-support.js:74-82 | After every run that begins with init there is a connection or a timer iff the first constructor call did not throw |
| Socket.AliveStep | web-admin/socket-support.js:74-82 | init starts this iff the first constructor call does not throw |
| Socket.DeadForGood | web-admin/socket-support.js:74-82 | Without either, nothing brings the connection back |
| Socket.RequestsMatched | web-admin/socket-support.js:103-121 | Section 5 of JSON-RPC 2.0, across reconnects: pending are exactly the ids issued and not answered, all below `reqId`; each handler call gets its own request, and none follows a completed one |
| Socket.AskedFrame | web-admin/socket-support.js:172-196 | Every request asked for is issued, in order and with the next ids, and is sent iff the socket is open |
| Socket.ResponseMatches | web-admin/socket-support.js:103-121 | A response to a pending id is delivered once, and its entry goes unless the handler throws; any other id changes nothing |
| Socket.ControllerWebSocket.CheckOpen | web-admin/socket-support.js:74-82 | A connection is made iff there is none and the constructor does not throw |
| Socket.ControllerWebSocket.SendJsonRequest | web-admin/socket-support.js:184-196 | The next id is used up and pending even if the message is lost or the send throws |
| Socket.ControllerWebSocket.Send | web-admin/socket-support.js:172-178 | False iff there is no connection; throws iff connecting; hands the message to that connection iff it is open |
| Socket.ControllerWebSocket.OnOpen | web-admin/socket-support.js:90-101 | Timer stopped, listeners told, subscription requested: the state that `OpenKeeps` is about |
| Socket.ControllerWebSocket.OnClose | web-admin/socket-support.js:123-134 | Listeners told iff it was open, connection forgotten, timer started |
| Socket.ControllerWebSocket.OnResponseMessage | web-admin/socket-support.js:103-121 | TypeError for an unknown id, the handler's exception, or success |
| BehaviorStore.RefinesIff | src/main/java/com/intel/rfid/behavior/BehaviorConfig.java:28-91 | For files written by put, in every listing order: lookups behave like the map from id to behavior with the default as fallback iff not both of the two ids whose files share a key are on disk |
| BehaviorStore.FindsStored | src/main/java/com/intel/rfid/behavior/BehaviorConfig.java:83-91 | The positive half for one id and behavior |
| BehaviorStore.DefaultAlwaysFound | src/main/java/com/intel/rfid/behavior/BehaviorConfig.java:28-58 | A lookup of `Default` always succeeds, with the built-in behavior while none is stored under that id |
| BehaviorStore.ClashHides | src/main/java/com/intel/rfid/behavior/BehaviorConfig.java:38-56 | With both files on disk one of the two behaviors cannot be found |
| BehaviorStore.KeyOfFileName | src/main/java/com/intel/rfid/behavior/BehaviorConfig.java:40-45 | The key of an id's file is the id, except for the empty id |
| BehaviorStore.Store.AvailableBehaviors | src/main/java/com/intel/rfid/behavior/BehaviorConfig.java:28-58 | The default and every readable file in listing order |
| BehaviorStore.Store.Put | src/main/java/com/intel/rfid/behavior/BehaviorConfig.java:60-71 | Stores the behavior under its id and changes no other |
| BehaviorStore.Store.GetBehavior | src/main/java/com/intel/rfid/behavior/BehaviorConfig.java:83-91 | Finds a behavior with the id or fails iff there is none; for a store without clash, the stored one |
| BehaviorStore.Store.DeleteBehavior | src/main/java/com/intel/rfid/behavior/BehaviorConfig.java:73-81 | A failure changes nothing, a success removes that id's file only; in a store without the clashing pair it fails iff no file has the id, and else returns what that file held |
| IdGen.IdIs | src/main/java/com/intel/rfid/api/JsonRequest.java:31-42 | Call n returns n below 2^31 and max(1, n mod 2^31) after: never negative |
| IdGen.EqualIds | src/main/java/com/intel/rfid/api/JsonRequest.java:31-42 | Ids fewer than 2^31 - 1 calls apart are equal iff they are the consecutive pair at a wrap |
| IdGen.RepeatsAtWraps | src/main/java/com/intel/rfid/api/JsonRequest.java:31-42 | At every wrap an id does come back 2^31 - 1 calls later: the distance cannot be larger |
| IdGen.Generator.NextId | src/main/java/com/intel/rfid/api/JsonRequest.java:34-41 | Each call returns the next id of that sequence |
| Cookies.GetsFirst | web-admin/common.js:54-67 | On a cookie-string, those of section 4.2.1 of RFC 6265 included, the search returns the first pair's value, or the empty string, for every name that does not itself read as a pair |
| Cookies.RightIff | web-admin/common.js:54-67 | It does so on all cookie-strings a browser may hold, a wider class than that section's, iff the name does not read as a pair: a name without blanks, an equals sign and a value without blanks |
| Cookies.StandardRightIff | web-admin/common.js:54-67 | On all cookie-strings of exactly that section's grammar: iff the name does not read as the beginning of a pair of that grammar, a token, an equals sign and what can begin a value |
| Cookies.MisleadingNeedsEqualsSign | web-admin/common.js:54-67 | Every name without an equals sign, and every one that begins with it, is safe for both |
| Cookies.MisleadsOn | web-admin/common.js:54-67 | For every name that does, a cookie-string on which the search is wrong |
| Cookies.SetThenGet | web-admin/common.js:50-67 | What setCookie stores getCookie gives back, and other names, unless they read as pairs, keep their values |
| Cookies.GetCookie | web-admin/common.js:54-67 | The loops compute that search |
| Cookies.Document.SetCookie | web-admin/common.js:50-52 | A well-formed pair replaces the one of its name, or is added |

## Left out

- Node: `isNode` is taken as false, so `_handled` and the rejection events are not modelled.
- `P.race`, `P.resolve`, `P.reject` and the checks of argument types in `P` and `P.all`: they would add only easy members.
- User code is not executed: a callback, resolver body or foreign `then` is the sequence of steps it takes. A getter that throws when `then` is read is not modelled.
- Entries of `P.all` are promises of this implementation or plain values, not foreign thenables; the results array is a record, not an object that user code could change.
- PromiseEngine.Engine.AsyncFlush: covers flushes that come to an end; for one that never does, the theorems hold of every state it passes through.
- DOM work, style sheets, observers and the rest of rendering in `fontawesome.js`.
- `_objectSpread`'s symbols, integer-like keys (which scripts list first) and keys found on prototypes: dictionaries list keys in the order of first assignment.
- IconIndex.AddedAt: not for the alias style `fa`, for which it is false (`AliasOrderMatters`); `AddedAliasAt` says what holds there.
- Library.add with definitions that lack a prefix or name, which the source stores under the text "undefined".
- `getCanonicalIcon`, `iconFromMapping` and what else uses the lookups.
- Html.ToHtmlInjective: for tag and attribute names without blanks, quotes, angle brackets, slashes and equals signs, because names are printed as they are (`NamesAreNotEscaped`).
- `toLowerCase` is a parameter of the table sort: every function of that type is allowed. In `ClusterManager` it works character by character, and lowering a character leaves the key by which `equalsIgnoreCase` compares it as it is (`LettersOk`); no table of characters is modelled.
- TableSort.Table.SortTable: a data row without a cell in the clicked column, for which the source throws, is excluded; two tables that share indicator ids are not modelled.
- Lists and strings that are null inside a cluster; a configuration that is null, or whose cluster list is null, is modelled.
- ClusterManager.Manager.FindClusterByToken: excludes a configuration whose cluster list is null, which only a failed restore can leave and for which the source throws; so do the other lookups.
- The lock of ClusterManager: its methods are taken as atomic. The pause of the scheduler in `align`, and notifications about aligned sensors.
- `persist`: writes of the cache file succeed, and reading gives back what was written.
- `generateFromConfig`, `getSensorGroups`, `getTemplate`, `getCluster` and the output for the console: they would add only easy members.
- ClusterRunner.Runner.Run: an account of any number of its steps; that sensors answer and waits end is up to the environment. A list changed while `startSensors` streams over it is not modelled.
- ClusterRunner.Runner.Read: the sensor groups are read in one step, where the source makes several calls while it builds them; what the runner knows is that the flag was cleared before.
- That `isPotentiallyReading` holds for every started sensor that still reads is an assumption about `SensorPlatform`.
- `awaitFinish`, `knowsOf` and the wait times of `BehaviorConfig.getWaitTimeout`.
- Socket: `isOpen`, `sendPassword` and binary output; responses whose id is not a number; `init` called more than once.
- BehaviorStore: ids with a path separator, and file systems that do not tell upper from lower case; writes succeed and reading gives back what was written. The order of keys in the tree map is left open, so `getBehavior` is proved for every order.
- Cookies: the browser's jar keeps cookies of one path, and attributes other than the pair are ignored.
- `JsonRpcController`, `ConfigManager`, `Env`, `Main`, the MQTT and SSH parts and the console commands: input, output and wiring.
