# A verified model of Mypintool

The repository holds a Pin tool that records indirect calls, a Python module that asks a language model for
more tests and compares the recorded calls, and the generated documentation with the scripts it ships. This
project models the parts of it that compute something and proves what they are for.

**jQuery's callback lists, deferreds and queues** (`Mypintool/doc/html/jquery.js`, line 2)

- `CallbackList` is `k.Callbacks` as a state machine: one move for each API call and for each turn of the
  firing loop, with a log of additions, fires and calls. `CallbackRuns` proves what every run keeps, and
  `CallbackLate` what becomes of functions that are added after a fire. `CallbackObject` is the list in the source's form, an object whose methods call one another while it fires;
  its callbacks are finite scripts of calls to the list's API that return normally, and every method is proved
  to make exactly the machine's moves.
- `Deferreds` is a world of any number of `k.Deferred` objects, six lists each, and one `k.when`, with
  JavaScript's call stack: any user callback may make any API call at any depth. `DeferredRuns` and
  `DeferredWorld` prove the invariant of every run, `DeferredLaws` what section 2.1 (Promise States) of
  Promises/A+ asks, and `DeferredCalls` that what user code adds is called. `WhenRuns`, `WhenSteps` and `WhenLaws` do the same for `k.when`; `WhenOrder` says which
  rejection it passes on, `WhenInside` what happens when a fail callback of an input calls it, and `WhenLoop` that
  its loop runs to its end before user code does. `WorldRest` proves that code comes to rest when callbacks just
  return, and `WhenFirst` builds runs from that and gives the exact conditions under which a rejection decides.
- `FxQueue` is the "fx" queue; `UniqueSort` is the loop of `se.uniqueSort` that removes duplicates.

**The search page** (`Mypintool/doc/html/search/search.js`): `SearchCode` is the escape code and `Search`,
`ResultTree` the walk over parent and sibling pointers.

**The launcher** (`Mypintool/source/launcher`): `CStrings` and `PathSearch` are `utils.c` over NUL-terminated
buffers, with a count of live blocks; `PinEnvironment` is `update_environment` and `build_child_argv` over a
heap in which reading or freeing a block that is not live is ruled out.

**The Python module** (`llm_test_generation`): `ProjectPaths`, `RoundRobin` and `FileSelection` are the file
selector; `SuiteFormat`, `GeneratedPaths` and `SuiteWriter` check and write a suite over a file system;
`Addresses` and `IcallPairs` read addresses and compare runs.

`Optional`, `Values`, `Text`, `Splitting`, `Orders` and `JsonValues` are shared. `dafny verify dfyconfig.toml`
checks everything.

## Where the code does less than one might expect

Each of these has a lemma with an input that shows it, or an exact condition for all inputs.

- `empty()` called by a running callback makes the pass skip functions added after it. `PassCoversList` says
  that a pass covers its list exactly when no position was vacated behind the firing index.
- `k.when` need not reject with the rejection that came first. It goes through its arguments from the last to the
  first, so among those rejected before the call the last argument wins (`LaterRejectionWins`,
  `LastRejectedArgumentDecides`). Of those rejected later the first wins whatever happens next if and only if no
  user callback was added to it before `k.when` added its own, or no other input is pending
  (`FirstRejectionLoses`, `FirstRejectionExactly`). An input whose fail callbacks are still running decides
  whatever happens next if and only if no other input is pending (`RunningRejectionExactly`).
- `get_strlen` counts at most 4096 bytes while `strcpy` and `strcat` copy the whole string: the block of
  `appendPath` has room if and only if no argument is longer (`BlockSize`).
- Calling `next` twice, or replacing the "fx" queue while an item runs, lets two items run at once
  (`SecondNextOverlaps`, `StaleNext`, `ReplaceOnlyAtRest`).
- A result row whose id ends in a number can be shown for a query that its name does not begin with
  (`NumberedIdMisleads`, `ShownExactlyWhen`).
- `check_file_in_dir` never frees the block it builds the name in: `search_in_path` leaves one block behind for
  each directory it looks at.
- The checks of `materialize_suite` do not look for one path below another, so a suite that passes them can
  stop half-way (`CheckedSuiteMayStop`); `Materialized` says exactly when it does and what has then been
  written. The names of the two metadata files are accepted as directories (`ReservedAsDirectory`), and then
  the metadata is not written, while the generated files stay (`MetadataLaws`).
- A negative address is printed as `0x-5`, which the parser refuses (`ShowParses`).

## Model

| member | source | states |
|---|---|---|
| CallbackList.StepOk | Mypintool/doc/html/jquery.js:2 | every API call and every turn of the firing loop keeps the fields consistent: nothing queued or remembered when idle or disabled, a fired "once" list locked |
| CallbackRuns.StepKeeps | Mypintool/doc/html/jquery.js:2 | one step of the list keeps the invariant that places every entry and every logged call relative to the current pass |
| CallbackRuns.RunInv | Mypintool/doc/html/jquery.js:2 | so every run of every list satisfies it, whatever the options |
| CallbackRuns.CallsFollowFires | Mypintool/doc/html/jquery.js:2 | passes never interleave and follow the order of the fires; in one pass no entry is called twice and calls follow the order of addition; each call gets the arguments of its own fire |
| CallbackRuns.PassCoversList | Mypintool/doc/html/jquery.js:2 | when a pass runs to its end every entry still in the list has been called in it, if and only if no entry sits in a position vacated by `empty()` behind the firing index |
| CallbackRuns.NoEmptyNoBlind | Mypintool/doc/html/jquery.js:2 | without `empty()` no such position exists, so removing and adding during a pass never skips an entry |
| CallbackRuns.EmptyMakesPassSkip | Mypintool/doc/html/jquery.js:2 | with `empty()` inside a callback one does: a run in which a function still in the list is not called |
| CallbackRuns.FiresRunInOrder | Mypintool/doc/html/jquery.js:2 | on any list neither locked nor disabled the passes run and queued follow the fires in order, also fires made during a pass: one pass for each fire, and with memory perhaps repetitions of the pass before; a "once" list takes the first fire only |
| CallbackRuns.ShutDropsFires | Mypintool/doc/html/jquery.js:2 | `lock` and `disable` drop what is queued and all later fires: after the first of them only the last pass is ever repeated |
| CallbackRuns.DisabledForGood | Mypintool/doc/html/jquery.js:2 | a disabled list calls nothing and accepts nothing ever after |
| CallbackRuns.OnceMemoryStep | Mypintool/doc/html/jquery.js:2 | each step keeps the law of "once memory" lists, and only the first fire counts |
| CallbackRuns.OnceMemoryCallsEachOnce | Mypintool/doc/html/jquery.js:2 | on a "once memory" list never locked, disabled, emptied or removed from, every function added before, during or after the fire is called once, in order of addition, with the first fire's arguments; all of them once no pass is running |
| CallbackRuns.RemoveSplitsAtIndex | Mypintool/doc/html/jquery.js:2 | `remove` takes out every copy of the function and nothing else, and the adjusted firing index separates the same survivors as before |
| CallbackRuns.StepGrows | Mypintool/doc/html/jquery.js:2 | no step undoes a fire, an addition or a call |
| CallbackLate.LateAddIsCalled | Mypintool/doc/html/jquery.js:2 | on any list with a memory, "once" or not, enabled and at rest after a fire, whose callbacks do not use it: `add` and the turns up to rest call exactly the functions taken, in order, with the arguments of the last fire, and nothing older again |
| CallbackLate.AddedAtRestIsCalled | Mypintool/doc/html/jquery.js:2 | with callbacks that add, fire and lock as they like: what is added to such a list at rest has been called with the last fire's arguments when the list is at rest again |
| CallbackLate.FiredIsCalled | Mypintool/doc/html/jquery.js:2 | and a fire that a list at rest accepts has called every function in it with its arguments when the list is at rest again |
| CallbackLate.FalseStops | Mypintool/doc/html/jquery.js:2 | after a callback of a "stopOnFalse" list has returned false, with no fire queued, nothing is called before the next fire, whatever is added |
| CallbackObject.Callbacks.Add | Mypintool/doc/html/jquery.js:2 | `add`, also from inside a callback, makes the machine's move; on a list with memory that is at rest and whose callbacks do nothing further it calls exactly the functions it takes, in order, with the last fire's arguments |
| CallbackObject.Callbacks.Remove | Mypintool/doc/html/jquery.js:2 | `remove`, with its loop over all copies and its adjustment of the index, makes the machine's move |
| CallbackObject.Callbacks.Clear | Mypintool/doc/html/jquery.js:2 | `empty` makes the machine's move |
| CallbackObject.Callbacks.Disable | Mypintool/doc/html/jquery.js:2 | `disable` makes the machine's move and leaves the list disabled and locked |
| CallbackObject.Callbacks.Lock | Mypintool/doc/html/jquery.js:2 | `lock` makes the machine's move; the list stays enabled exactly if it was and it has a memory or is firing |
| CallbackObject.Callbacks.FireWith | Mypintool/doc/html/jquery.js:2 | `fireWith` makes the machine's move and, if it starts firing, all the moves of the passes it runs |
| CallbackObject.Callbacks.RunPasses | Mypintool/doc/html/jquery.js:2 | the private `c()` is only ever called when the list is not firing, at any depth of callbacks calling the API, so passes never nest; it ends with the list not firing and makes only moves of the machine |
| CallbackObject.Callbacks.RunPass | Mypintool/doc/html/jquery.js:2 | one pass of the inner loop, whose callbacks may add, remove, empty, lock, disable and fire, is a sequence of the machine's moves |
| DeferredRuns.HeadStep | Mypintool/doc/html/jquery.js:2 | while a deferred settles, the next call is one of the six handlers at the head of the list, and its effect keeps the wiring of the six lists |
| DeferredRuns.TurnStep | Mypintool/doc/html/jquery.js:2 | any other turn of any of its lists keeps the wiring too |
| DeferredRuns.WiredHead | Mypintool/doc/html/jquery.js:2 | each of those handlers shuts the list of the other side or of progress that the wiring says it should, for both sides |
| DeferredWorld.EventKeeps | Mypintool/doc/html/jquery.js:2 | every event in a world of deferreds, at any depth of the call stack, keeps the invariant of all of them |
| DeferredWorld.RunKeeps | Mypintool/doc/html/jquery.js:2 | so it holds in every state of every run |
| DeferredWorld.RunGoesOn | Mypintool/doc/html/jquery.js:2 | any event can follow any run: the runs spoken of exist |
| DeferredWorld.RunGrows | Mypintool/doc/html/jquery.js:2 | no run undoes a settlement, an addition or a call |
| DeferredLaws.SettlesAtMostOnce | Mypintool/doc/html/jquery.js:2 | the state of a deferred leaves "pending" at most once and never changes again |
| DeferredLaws.NeverBoth | Mypintool/doc/html/jquery.js:2 | done-callbacks and fail-callbacks of one deferred are never both called |
| DeferredLaws.AtRestPendingOrSettled | Mypintool/doc/html/jquery.js:2 | when no code is running a deferred is pending and open, or settled through: every callback of its side called once in order with the settling arguments, the other side shut and never called, progress locked |
| DeferredLaws.SettledSpelledOut | Mypintool/doc/html/jquery.js:2 | settled through as resolved: the lists of `done` and of the first argument of `then` called, those of `fail` and of its second shut; as rejected the other way round |
| DeferredLaws.FirstSettlementDecides | Mypintool/doc/html/jquery.js:2 | the first `resolve` or `reject` on a pending deferred decides how and with which arguments it is settled at any later time of rest |
| DeferredLaws.PassesNeverNest | Mypintool/doc/html/jquery.js:2 | no list is in two passes at once, however deep the callbacks nest |
| DeferredCalls.ListsAreRuns | Mypintool/doc/html/jquery.js:2 | each of the six lists of each deferred goes through a run of a callback list, so the laws of those apply to it |
| DeferredCalls.AddedIsCalled | Mypintool/doc/html/jquery.js:2 | in every run, what user code adds with `done` or `fail` to a deferred that is settled that way is called by the next time of rest, in the order given and with the settling arguments, whether it was added before, during or after the settlement |
| DeferredCalls.NotifyIsCalled | Mypintool/doc/html/jquery.js:2 | in every run, `notify` on a pending deferred whose progress lists are not firing calls every progress callback it has with the arguments given, by the next time of rest, also if it is settled meanwhile |
| DeferredCalls.ProgressIsCalled | Mypintool/doc/html/jquery.js:2 | so what user code adds for the progress of a pending deferred is called by any such `notify` later |
| DeferredCalls.LateProgressIsCalled | Mypintool/doc/html/jquery.js:2 | and what is added to an open progress list at rest after a notification is called with the arguments of the last one |
| WhenLaws.RunKeepsWhen | Mypintool/doc/html/jquery.js:2 | the countdown, the handlers in the inputs' lists and the promise of `k.when` agree in every state of every run |
| WhenLaws.WhenResolves | Mypintool/doc/html/jquery.js:2 | at rest the promise of `k.when` is resolved if and only if every input is, with contexts and values in argument position whatever the order of completion; an input resolved without a value stands as undefined, with one as that value, with more as the array of all |
| WhenLaws.WhenRejects | Mypintool/doc/html/jquery.js:2 | at rest it is rejected if and only if some input is, with the arguments of the first call of its own `reject`; the next rows say which input's that is |
| WhenOrder.WhenTakesInputs | Mypintool/doc/html/jquery.js:2 | in every run, any two or more values and deferreds can be passed to `k.when`, by code at rest or in a callback, and from then on its promise is about these |
| WhenOrder.LastRejectedArgumentDecides | Mypintool/doc/html/jquery.js:2 | if the fail list of some input has been fired and run to its end when `k.when` is called, it is rejected with the arguments of the last such input in argument order |
| WhenOrder.RejectedAtRest | Mypintool/doc/html/jquery.js:2 | called at rest, that is the last argument in the state "rejected" |
| WhenOrder.FirstRejectionDecides | Mypintool/doc/html/jquery.js:2 | if none is, the input that user code rejects first decides, also when rejected inside a callback, provided that nothing was put into its fail lists before the handler of `k.when` |
| WhenOrder.OnlyRejectionDecides | Mypintool/doc/html/jquery.js:2 | if at rest exactly one input deferred is rejected, its arguments are those of the promise then and at every later time of rest |
| WhenInside.RunningRejectionDecides | Mypintool/doc/html/jquery.js:2 | `k.when` called by a fail callback of one of its inputs: if nothing added to that input is left to call and the callback returns when `k.when` has, that input decides, unless another was rejected before |
| WhenLoop.UserRunsAfterLoop | Mypintool/doc/html/jquery.js:2 | whenever user code runs after the call of `k.when`, its loop is over and the handlers have been offered to every input |
| WhenFirst.FirstRejectionExactly | Mypintool/doc/html/jquery.js:2 | with user code running, at rest or inside any callback, and no input rejected: rejecting a pending input now decides in every continuation if and only if nothing stands in its fail lists before the handler, or no other input is pending |
| WhenFirst.RunningRejectionExactly | Mypintool/doc/html/jquery.js:2 | inside a callback, with one input rejected or being rejected and its handler not reached: that input decides in every continuation if and only if no other input is pending |
| WhenFirst.RivalWins | Mypintool/doc/html/jquery.js:2 | otherwise a run goes on in which a callback of that input rejects another one, and the other one's arguments are passed on |
| WhenFirst.FirstRejectionLoses | Mypintool/doc/html/jquery.js:2 | such a run from the start: `.fail` on the first of two deferreds before `k.when`; it is rejected first and the second wins |
| WhenFirst.LaterRejectionWins | Mypintool/doc/html/jquery.js:2 | a run without any user callback: two deferreds rejected one after the other and then passed to `k.when`, which rejects with the later one |
| WorldRest.ComesToRest | Mypintool/doc/html/jquery.js:2 | code ends: when callbacks just return, every run goes on to a state in which nothing is running, and settles nothing but the promise of `k.when` |
| FxQueue.EnqueueKeepsSerial | Mypintool/doc/html/jquery.js:2 | enqueuing keeps items apart, and starts the new one exactly if none is running |
| FxQueue.NextKeepsSerial | Mypintool/doc/html/jquery.js:2 | the running item's `next` finishes it and starts the following one, if there is one |
| FxQueue.StaleNext | Mypintool/doc/html/jquery.js:2 | any other `next` keeps items apart if and only if none is running |
| FxQueue.ReplaceOnlyAtRest | Mypintool/doc/html/jquery.js:2 | replacing the queue keeps items apart if and only if none is running |
| FxQueue.ItemsRunOneByOne | Mypintool/doc/html/jquery.js:2 | in every run in which each item calls `next` at most once, items start in enqueue order, each once, none before the previous one has called `next`; when none is running all have started and nothing is left in the element's data |
| FxQueue.SentinelAtHead | Mypintool/doc/html/jquery.js:2 | in such runs "inprogress" stands only at the head of the queue, and only while an item runs |
| FxQueue.SecondNextOverlaps | Mypintool/doc/html/jquery.js:2 | a run in which a second call of `next` starts an item beside a running one |
| FxQueue.Queue.DequeueItem | Mypintool/doc/html/jquery.js:2 | `dequeue`, shifting and unshifting the stored array, makes the model's step and calls the item that starts |
| FxQueue.Queue.Add | Mypintool/doc/html/jquery.js:2 | `queue` with a function makes the model's step |
| FxQueue.Queue.CallNext | Mypintool/doc/html/jquery.js:2 | `next` makes the model's step |
| UniqueSort.DedupSorted | Mypintool/doc/html/jquery.js:2 | dropping what equals its predecessor leaves a sorted array strictly increasing with the same elements |
| UniqueSort.IncreasingIsUnique | Mypintool/doc/html/jquery.js:2 | which leaves only one possible result |
| UniqueSort.SplicedIsDedup | Mypintool/doc/html/jquery.js:2 | splicing the recorded indices from the last to the first removes exactly those elements: each index is still right when its turn comes |
| UniqueSort.NodeList.Collect | Mypintool/doc/html/jquery.js:2 | the first loop records exactly the indices of elements equal to their predecessor, in increasing order |
| UniqueSort.NodeList.SpliceAll | Mypintool/doc/html/jquery.js:2 | the second loop splices all recorded indices, from the last |
| UniqueSort.NodeList.RemoveDuplicates | Mypintool/doc/html/jquery.js:2 | together, on a sorted array, they leave a strictly increasing array with the same elements |
| ResultTree.FindIsFirst | Mypintool/doc/html/search/search.js:437-471 | the recursive search finds the first `SRChildren` div in document order among the nodes reached through divs, or nothing if there is none |
| ResultTree.TargetSpelledOut | Mypintool/doc/html/search/search.js:444 | what is looked for is a node named "div", in any letter case, of the class "SRChildren" |
| ResultTree.FoundAlike | Mypintool/doc/html/search/search.js:437-471 | in two trees that differ in the letter case of node names alone, the nodes found are at the same place in the order of the search |
| ResultTree.FindChildElement | Mypintool/doc/html/search/search.js:437-471 | the pointer-climbing loop ends on every finite tree and returns what the recursive search finds |
| SearchCode.ConvertToId | Mypintool/doc/html/search/search.js:25-46 | the loop computes the code, character by character |
| SearchCode.CodeSpelledOut | Mypintool/doc/html/search/search.js:32-43 | a-z, 0-9 and everything from 128 on stand for themselves; any other unit is 95 and its two hexadecimal digits |
| SearchCode.PlainCode | Mypintool/doc/html/search/search.js:25-46 | so words of such units are their own codes |
| SearchCode.CodeKeepsPrefixes | Mypintool/doc/html/search/search.js:25-46 | the code of q is a prefix of the code of n if and only if q is a prefix of n |
| SearchCode.DecodeInverts | Mypintool/doc/html/search/search.js:25-46 | a decoder gets every string back from its code |
| SearchCode.PrefixOfBoth | Mypintool/doc/html/search/search.js:25-46 | when a code is followed by other text, the exact condition for the code of q to be a prefix of both together |
| SearchCode.SearchResults.Search | Mypintool/doc/html/search/search.js:494-544 | every result row is shown or hidden as its id and the query demand, other rows are left alone, the number of matches is counted and the "no matches" text shown exactly when it is zero |
| SearchCode.NoneShown | Mypintool/doc/html/search/search.js:510-540 | the count is zero if and only if no result row begins with the coded query |
| SearchCode.ShownCountIsNumber | Mypintool/doc/html/search/search.js:512-532 | the count is the number of places with a row that is shown |
| SearchCode.SpacesDoNotMatter | Mypintool/doc/html/search/search.js:503-504 | spaces around the query do not change the key, and nothing else is stripped |
| SearchCode.StripSrTakes | Mypintool/doc/html/search/search.js:518 | a leading "sr", digits and an underscore are taken off the id |
| SearchCode.StripSrTakesNoMore | Mypintool/doc/html/search/search.js:518 | and nothing else |
| SearchCode.ShownExactlyWhen | Mypintool/doc/html/search/search.js:503-531 | a row is shown if and only if its name begins with the query or the query goes on past the name as the id's suffix does |
| SearchCode.MatchingRowsAreShown | Mypintool/doc/html/search/search.js:503-531 | every row whose name begins with the query is shown |
| SearchCode.NumberedIdMisleads | Mypintool/doc/html/search/search.js:503-531 | the row with id "SR_a_28", of the name "a", is shown for the query "a(" |
| CStrings.GetStrlen | Mypintool/source/launcher/utils.c:17-27 | the length of a string, cut at 4096, never zero |
| CStrings.AppendPath | Mypintool/source/launcher/utils.c:29-42 | the block is exactly s1+s2+s3 and its terminator, with no byte unused and none written outside |
| CStrings.BlockSize | Mypintool/source/launcher/utils.c:29-36 | for any arguments that are null or not empty, the size asked for is that of the joined string and its terminator if and only if none is longer than 4096, and smaller otherwise |
| PathSearch.FirstDirIsFirst | Mypintool/source/launcher/utils.c:115-157 | the specification of the search: the directory found holds the program and none before it in the list does; none is found exactly if none holds it |
| PathSearch.FirstDirHolds | Mypintool/source/launcher/utils.c:103-157 | the same for the whole list: the directory found is the first whose name, a slash and the program's name make up a program |
| PathSearch.CheckFileInDir | Mypintool/source/launcher/utils.c:103-107 | asks about dir + "/" + name, and leaves a block behind |
| PathSearch.Cut | Mypintool/source/launcher/utils.c:139 | writing NUL at the separator makes the current directory a string and changes no other byte |
| PathSearch.SearchInPath | Mypintool/source/launcher/utils.c:115-157 | returns the first directory of PATH, split at colons, that holds the program, in a new block, or null; leaves one block behind for each directory looked at and no other |
| PathSearch.FindBasePath | Mypintool/source/launcher/utils.c:164-183 | the name up to its last slash, or where PATH finds the name, or the name itself; with the number of blocks left |
| PathSearch.BasePathSpelledOut | Mypintool/source/launcher/utils.c:164-183 | the base path, a slash and a name without slashes make up a name that has a slash; any other name stands for the first directory of PATH that holds it, or for itself |
| PinEnvironment.PathsCount | Mypintool/source/launcher/os_specific_l.c:92-155 | if the finished parts fit `get_strlen`, so does every intermediate string |
| PinEnvironment.Process.AppendPath | Mypintool/source/launcher/utils.c:29-42 | a new block with the three strings, none of them freed before |
| PinEnvironment.Process.Free | Mypintool/source/launcher/os_specific_l.c:97-155 | a block is freed only while it is live |
| PinEnvironment.Process.UpdateEnvironment | Mypintool/source/launcher/os_specific_l.c:39-213 | for both architectures and every set or unset variable: every block allocated is freed once and not read after, the heap is as before, and every variable has its final value, also as spelled out in `EnvironmentReady` |
| PinEnvironment.EnvironmentIsFinal | Mypintool/source/launcher/os_specific_l.c:131-212 | the sequence of `setenv` and `unsetenv` calls amounts to one value per name: library paths are fixed prefixes before the old value, three variables move to their `PIN_APP_` names, all other names keep their values |
| PinEnvironment.EnvironmentIsReady | Mypintool/source/launcher/os_specific_l.c:39-213 | the same with every name and directory spelled out: which directories of which architecture stand in each of the five library paths before the old value, `LD_LIBRARY_PATH` being the injector's of the host; what is copied, what is gone, and nothing else changed |
| PinEnvironment.Process.MoveVariable | Mypintool/source/launcher/os_specific_l.c:190-212 | a variable that is set moves with its value to the other name and is unset; one that is not set changes nothing |
| PinEnvironment.Process.BuildChildArgv | Mypintool/source/launcher/os_specific_l.c:245-307 | `intel64/bin/pinbin` under the base path on a 64-bit host and `ia32/bin/pinbin` on others, the switch and the name of the other one, the user's arguments, the launcher's own from the second on and a null, within the block; the two blocks built for checking and the block of the user's arguments are freed |
| PinEnvironment.Process.FillArgv | Mypintool/source/launcher/os_specific_l.c:272-298 | the advancing index writes each slot once and stays inside the array |
| ProjectPaths.PosixInjective | llm_test_generation/generate_tests.py:241-247 | a relative path can be read off its posix spelling |
| ProjectPaths.PathLessIsTotal | llm_test_generation/generate_tests.py:156-181 | the key (-priority, posix path) is a strict total order on distinct paths |
| ProjectPaths.CategorySpelledOut | llm_test_generation/generate_tests.py:173-181 | which file is of which category, by its name, its suffix and the directories it is in |
| ProjectPaths.SuffixSpelledOut | llm_test_generation/generate_tests.py:163-168 | the suffix runs from the last dot, unless that begins or ends the name |
| ProjectPaths.PriorityAtRoot | llm_test_generation/generate_tests.py:156-170 | the priority of a file at the root, by its name and suffix |
| ProjectPaths.EnclosingDirectory | llm_test_generation/generate_tests.py:156-181 | what each enclosing directory adds to that priority, and when it changes the category |
| ProjectPaths.OneDirectory | llm_test_generation/generate_tests.py:156-170 | within one directory: project metadata first, then headers, then other sources |
| RoundRobin.Deal | llm_test_generation/generate_tests.py:249-254 | the loop that empties the buckets ends and gives the rounds one after the other |
| RoundRobin.MergeIsByPosition | llm_test_generation/generate_tests.py:249-254 | closed form: the j-th file of category c lands at the sum of min(len, j+1) over earlier categories, plus j, plus the sum of min(len, j) over later ones |
| RoundRobin.MergeKeepsContents | llm_test_generation/generate_tests.py:249-254 | nothing is lost or invented |
| RoundRobin.TurnsAreFair | llm_test_generation/generate_tests.py:249-254 | the order is by rank within the category and then by category: the j-th test file comes before the j-th source file and before every later file of any category |
| RoundRobin.FirstItemsLead | llm_test_generation/generate_tests.py:249-254 | the best file of every category is among the first files, one place for each category |
| FileSelection.FillBuckets | llm_test_generation/generate_tests.py:233-240 | each candidate goes to the bucket of its category, in order |
| FileSelection.SortBuckets | llm_test_generation/generate_tests.py:241-247 | each bucket is sorted by the key, the others unchanged meanwhile |
| FileSelection.Choose | llm_test_generation/generate_tests.py:256-277 | the loop with its `break` and two `continue`s makes the greedy choice |
| FileSelection.SelectProjectFiles | llm_test_generation/generate_tests.py:225-277 | the three loops together compute the selection that the following lemmas are about |
| FileSelection.RankedIsPermutation | llm_test_generation/generate_tests.py:233-254 | every candidate is ranked, exactly once |
| FileSelection.RankedByTurns | llm_test_generation/generate_tests.py:233-254 | of two candidates the one with fewer better ones of its own category (higher priority, or equal and earlier in spelling) is ranked first; with as many, project metadata come before tests, tests before sources, sources before headers |
| FileSelection.ReadableExactly | llm_test_generation/generate_tests.py:208-222 | a file can be read if and only if it is not empty, not over the limit, UTF-8 and without NUL bytes |
| FileSelection.ChosenWithinBudget | llm_test_generation/generate_tests.py:256-277 | both budgets are kept |
| FileSelection.ChosenInOrder | llm_test_generation/generate_tests.py:256-277 | the choice is a subsequence of the ranking, each file as it is on disk |
| FileSelection.ChosenIsMaximal | llm_test_generation/generate_tests.py:256-277 | while files may be added, a readable file is left out only if it would exceed the characters even at the end |
| FileSelection.MoreFilesExtend | llm_test_generation/generate_tests.py:258-260 | allowing more files only extends the choice |
| FileSelection.SelectionIgnoresOrder | llm_test_generation/generate_tests.py:239-277 | any two enumeration orders of the same candidates give the same selection |
| FileSelection.SelectionLaws | llm_test_generation/generate_tests.py:225-277 | of the whole selection: candidates only, each as it is on disk, none twice, within budget and maximal; nothing empty, over the limit, with a NUL byte or not UTF-8 |
| Orders.StrLessExact | llm_test_generation/generate_tests.py:241-247 | strings are compared at their first difference: there the smaller one ends or has the smaller code point |
| Orders.AscendingIsUnique | llm_test_generation/generate_tests.py:241-247 | there is one way to put given elements in a strict total order |
| Orders.SortByKeeps | llm_test_generation/generate_tests.py:241-247 | sorting gives an ascending permutation |
| GeneratedPaths.PartsOfPosix | llm_test_generation/generate_tests.py:402-413 | printing components and parsing the result gives them back |
| GeneratedPaths.PartsOfJoined | llm_test_generation/generate_tests.py:405 | a slash joins the components of its two sides, whatever they are |
| GeneratedPaths.SpellingsOfOnePath | llm_test_generation/generate_tests.py:405 | doubled slashes, dots and a trailing slash do not change the components |
| GeneratedPaths.SafePathExact | llm_test_generation/generate_tests.py:402-413 | the components that are accepted are exactly the acceptable ones, and their printed form is accepted as itself |
| GeneratedPaths.AcceptedExactly | llm_test_generation/generate_tests.py:402-413 | a name is accepted if and only if it does not begin with a slash and its components are acceptable; which names are refused for a backslash or as reserved |
| GeneratedPaths.NeverReserved | llm_test_generation/generate_tests.py:408-409 | an accepted path is none of the metadata files, not even up to letter case |
| GeneratedPaths.ReservedAsDirectory | llm_test_generation/generate_tests.py:408-409 | a path below the name of a metadata file is accepted |
| SuiteFormat.SuiteErrorExact | llm_test_generation/generate_tests.py:444-472 | no error is found exactly for suites with the required fields and at most 100 files, with paths of at most 240, contents of at most 200000 and in all at most 5000000 characters |
| SuiteFormat.GoodSuiteMeans | llm_test_generation/generate_tests.py:444-472 | what a suite needs to be accepted, field by field and limit by limit |
| SuiteFormat.FirstHeaderFault | llm_test_generation/generate_tests.py:447-456 | which missing text is reported first, and that the notes come after them |
| SuiteFormat.EntryFault | llm_test_generation/generate_tests.py:462-469 | which fault of an entry is reported |
| SuiteFormat.FirstFault | llm_test_generation/generate_tests.py:461-469 | the first entry that is not allowed decides |
| SuiteFormat.CheckFiles | llm_test_generation/generate_tests.py:457-472 | the loop with its running total reports the first entry that is wrong, or the total |
| SuiteFormat.ValidateGeneratedSuite | llm_test_generation/generate_tests.py:444-472 | reports the first thing wrong, in the order of the checks |
| SuiteWriter.Disk.PrepareOutputDirectory | llm_test_generation/generate_tests.py:416-423 | refuses a file, a path below a file and, unless forced, a directory that is not empty, and changes nothing then; otherwise makes the missing directories and nothing else |
| SuiteWriter.OutputProblemExact | llm_test_generation/generate_tests.py:416-423 | the output directory is refused if and only if a file stands there or above, or something stands below it and nothing is to be forced |
| SuiteWriter.ProblemExact | llm_test_generation/generate_tests.py:427-434 | something is reported exactly when one of the checks fails |
| SuiteWriter.Disk.CheckSuite | llm_test_generation/generate_tests.py:427-434 | reports the first failing check and leaves every file as it was |
| SuiteWriter.Disk.WriteAll | llm_test_generation/generate_tests.py:436-440 | writes the items in order and stops at the first that cannot be written |
| SuiteWriter.Disk.MaterializeSuite | llm_test_generation/generate_tests.py:426-441 | a failed check leaves every file unchanged; otherwise all items are written if and only if no target lies below another or below a file and none is a directory; if that fails, writing stops at the first item whose target clashes, and exactly the items before it have been written |
| SuiteWriter.StoreExact | llm_test_generation/generate_tests.py:436-441 | after the writing every target holds exactly its item's content and no other file has changed |
| SuiteWriter.JsonToDisk | llm_test_generation/generate_tests.py:426-441 | from the JSON to the disk: after the writing, entry by entry, the text under "content" is the whole content of the file that the text under "path" names below the output directory, and no other file has changed |
| SuiteWriter.CanWriteNext | llm_test_generation/generate_tests.py:437-439 | after some targets have been written the next can be written if and only if it clashes with none of them |
| SuiteWriter.TwoSpellingsRefused | llm_test_generation/generate_tests.py:429-431 | two spellings of one path are refused |
| SuiteWriter.CheckedSuiteMayStop | llm_test_generation/generate_tests.py:426-441 | a suite that passes every check and stops half-way |
| SuiteWriter.Disk.WriteOutput | llm_test_generation/generate_tests.py:619-638 | the suite is followed by the two metadata writes, the second only after the first |
| SuiteWriter.MetadataLaws | llm_test_generation/generate_tests.py:619-638 | writing "generation.json" and "generation_metadata.json" changes no generated file and no other file, and succeeds exactly if no directory, old or generated, has one of the two names |
| Addresses.ReadDigitsIsValue | llm_test_generation/compare_icall_pairs.py:34 | the digit reader accepts exactly digits with single underscores between them and computes their positional value |
| Addresses.LiteralExact | llm_test_generation/compare_icall_pairs.py:34 | a literal is read as n if and only if the grammar gives it the value n and, in decimal, it has at most 4300 digits |
| Addresses.ParseExact | llm_test_generation/compare_icall_pairs.py:30-36 | a text is read as n if and only if it is a literal of n with at most one sign and white space around |
| Addresses.SpaceSpelledOut | llm_test_generation/compare_icall_pairs.py:34 | which characters are white space |
| Addresses.ShowParses | llm_test_generation/compare_icall_pairs.py:70-71 | what is printed parses back exactly when the number is not negative |
| Addresses.ShowInjective | llm_test_generation/compare_icall_pairs.py:70-71 | different numbers are printed differently |
| Addresses.ParseIgnoresCase | llm_test_generation/compare_icall_pairs.py:34 | letter case does not matter |
| IcallPairs.AddTargets | llm_test_generation/compare_icall_pairs.py:51-53 | the inner loop adds the pairs of one call site or reports the first target that is wrong |
| IcallPairs.AddFile | llm_test_generation/compare_icall_pairs.py:44-53 | the loop over the call sites of one file does so for each |
| IcallPairs.LoadPairs | llm_test_generation/compare_icall_pairs.py:39-54 | the first fault in reading order, or exactly the triples that the files denote and their identities in order |
| IcallPairs.FaultExact | llm_test_generation/compare_icall_pairs.py:39-54 | loading succeeds if and only if every file is well formed |
| IcallPairs.DenotedExactly | llm_test_generation/compare_icall_pairs.py:39-54 | a triple is loaded if and only if some file has a call site and a target that read as its two addresses |
| IcallPairs.FirstBadFile | llm_test_generation/compare_icall_pairs.py:39-54 | the first file that is not well formed is the one reported |
| IcallPairs.FirstBadEntry | llm_test_generation/compare_icall_pairs.py:44-50 | in it the first call site that is not well formed, and whether its address, its list or a target is at fault |
| IcallPairs.FirstBadTarget | llm_test_generation/compare_icall_pairs.py:51-53 | and there the first target that is no text or no address |
| IcallPairs.LoadingIgnoresOrderAndSpelling | llm_test_generation/compare_icall_pairs.py:39-54 | neither the order of files, call sites and targets nor the way each single address is written changes the triples, or whether loading succeeds |
| IcallPairs.CompareRuns | llm_test_generation/compare_icall_pairs.py:104-124 | a fault of the baseline, then of the candidate, then the verdict: the new pairs counted are the triples that candidate files denote and no baseline file does |
| IcallPairs.VerdictIgnoresOrderAndSpelling | llm_test_generation/compare_icall_pairs.py:104-124 | the whole summary, examples included, is the same for two such ways of saying the same |
| IcallPairs.PairLessIsTotal | llm_test_generation/compare_icall_pairs.py:73 | triples are strictly totally ordered, so sorting them is determined |
| IcallPairs.PairLessByPart | llm_test_generation/compare_icall_pairs.py:73 | the path decides, then the call site, then the target |
| IcallPairs.ComparePairSets | llm_test_generation/compare_icall_pairs.py:57-75 | baseline + new = union = candidate + not replayed |
| IcallPairs.CountsApart | llm_test_generation/compare_icall_pairs.py:57-66 | each count apart: new are the candidate's pairs without the common ones, not replayed the baseline's without them |
| IcallPairs.ExamplesAreTheLeast | llm_test_generation/compare_icall_pairs.py:67-74 | the examples are the first twenty new pairs: as many as there are up to twenty, none repeated, none passed over |
| IcallPairs.RenderReadsBack | llm_test_generation/compare_icall_pairs.py:68-72 | an example reads back as its pair exactly when neither address is negative |

## Left out

- `k.Deferred` and `k.when` are modelled on values: a callback can reach all six lists of every deferred, so the state is one value and a run is a sequence of such values. What this does not show is update in place; `CallbackObject` shows that for a single list.
- Callbacks that throw, `k.Deferred.then` with its use of `setTimeout`, and the jQuery code around these functions (DOM, events, effects, selectors).
- `k.when` with fewer than two arguments, with promises that are not jQuery's, and called more than once in a run.
- WhenInside.RunningRejectionDecides: `k.when` called while fail callbacks of several of its inputs are running, one inside the other, and none of its inputs has been rejected and run to its end.
- UniqueSort.NodeList.RemoveDuplicates: the sort before the loops is the browser's own and is a condition here, with nodes standing for their places in document order.
- SearchCode.SearchResults.Search: lower-casing is a parameter, so that it covers every character; reading the query from the page's address is left to the browser.
- ResultTree.FindChildElement: lower-casing of node names is that of ASCII letters.
- `check_file_exists`, `check_not_directory`, `getenv`, `setenv`, `readlink` and `access` are foreign: a predicate on names, and a map from names to values. `setenv` never fails here.
- PATH components that are empty or longer than 4096 and base paths for which an intermediate string is empty or longer than that: `get_strlen` fails its assertion there, or the block is too small (`BlockSize`) and what is written behind it is undefined in C.
- `malloc`, `calloc` and `strdup` always succeed. The block `buff` of `search_in_path`, which is never used, is counted among the live blocks but has no contents. Lengths are not limited to the width of `int`.
- The walk over the project (`iter_candidate_paths`), with its excluded directories and sensitive names: the candidates are a parameter. Reading a file is a function from paths to its size, whether it has a NUL byte and its text.
- Lower-casing of names is that of ASCII letters, and the suffix of a file name follows Python up to 3.13.
- SuiteWriter.Disk.MaterializeSuite: no symbolic links, no limits on the length of names in the file system, no failing device, and letter case distinguishes names; text always encodes, since it holds no lone surrogates.
- JSON encoding and decoding: suites and pair files are decoded values, rendered metadata are texts.
- Addresses.ParseExact: digits and white space outside ASCII, which Python also accepts. The limit of 4300 decimal digits is the default of Python 3.11; a program can change it.
- `discover_icall_files`: the files and their identities are a parameter.
- The model's request, retries, prompts and command lines; the other launcher sources; the Pin tool itself, whose headers are not part of this model.
