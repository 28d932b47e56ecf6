# Peridot's shared state, modelled and proved

Peridot keeps a user's session: stories made of modules, the links modules share, the context that
suggestions draw on, the agents and queues behind them. This project models the parts of it whose
correctness depends on several operations agreeing with each other, and proves that they do.

Code that changes objects step by step is a class here with the same fields, and each method is proved
against functions and predicates on values. What the code is for is then proved about those, over every
input, every reachable state and, for links and keys, every run.

| file | component |
|---|---|
| `KeyOrder.dfy`, `KeyGenerator.dfy` | the order of change keys, and their generator |
| `LinkJson.dfy`, `ChangeLog.dfy`, `Link.dfy` | the edits of a link document, its history, one device's replica and its watchers |
| `LinkSystem.dfy` | several devices over one ledger: log refinement and convergence |
| `ContextGraph.dfy`, `ContextIndex.dfy`, `ContextRepository.dfy` | the context engine: graph searches, inverted index, flattened metadata, subscriptions |
| `StoryViews.dfy` | the order in which views reach the story shell |
| `ModuleResolver.dfy` | finding modules by verb and nouns |
| `Ranking.dfy`, `SuggestionEngine.dfy` | ranked suggestions, windows, and the prototypes two lists share |
| `AgentRunner.dfy` | connections and tasks across the restarts of an agent |
| `MessageQueue.dfy` | delivery of queued messages |
| `Backoff.dfy` | retry delays |

## Main results

- **Links.** Whatever the interleaving of local edits, synchronisation and notifications on any number of
  devices, each device's document is the key-ordered fold of the changes it knows, its newest key is their
  maximum and its pending changes are in order, all along the run, if and only if no notification makes a
  device append its newest change to an array once more and no edit's key falls behind its device's pending
  ones. Then devices that know the same changes agree, and once all is notified each holds the meaning of the
  whole ledger; and from wherever an orderly run has got to, bringing devices what the ledger has is enough for
  that. What a change does to a document is described place by place, and applying it is proved to be the one
  function that does it. Notifications may come in any order and more than once; acknowledgements need not come in the
  order of writing. Over any run of a link, a watcher of all connections is up to date, and any other can only
  be behind by changes of its own connection.
- **Keys.** For clocks that fit eight digits, the next key is greater than the last exactly when the clock is
  not set back and the low 60 bits of the counter do not wrap, and over a run all keys ascend exactly when
  every call meets that. The condition for every 64-bit clock is stated too.
- **Context.** After every operation the flattened metadata equals what is merged from scratch, the index
  answers exactly as a scan would, and each subscription was told exactly when what it matches changed, with
  the values matching then.
- **Views.** Processing reaches the least set of views that can be shown, and so does showing ready views in
  any other order. Every call to a story shell follows the one for its anchor if and only if no view is shown
  by way of one that only an earlier shell of the story was sent.
- **Modules.** For any order of answers, and while entries come, change and go, a query ends once, never meets
  a missing entry, and gives the entries that had the verb at the start and were accepted at every answer. If
  no entry with the verb changes meanwhile, that is the filter of the entries by verb and noun types.
- **Suggestions.** The stored prototypes are those of the two lists, each in one of them and once; a clean
  next list is in order by its proposals' hints, less a tenth for a "kronk" url, and displayed in every window.
- **Agents and queues.** No connection, task or message is lost, repeated or reordered on its way, other
  than by an instance that goes away with it in its queue.

## What turned out false, and when it holds

- A device may apply its newest change a second time. That is harmless exactly when the change does not
  append to an array (`Link.InPlaceExact`, `LinkJson.SetTwice`, `LinkJson.UpdateTwice`), and a run of the
  system keeps its invariant exactly as long as this is so (`LinkSystem.NextInv`, `LinkSystem.RunInv`). With
  orderly clocks, edits without a "-" token are harmless (`LinkSystem.RepeatableRunHarmless`); with one, there is a run that
  leaves two devices with the same changes and different documents (`LinkSystem.AppendDiverges`).
- A story that is stopped and started again has a new shell, but the record of views sent is kept. A view can
  then be sent with an anchor the new shell was never sent: `StoryViews.RestartedStory` gets there, and the
  contracts of `StoryViews.StoryController` say exactly when it happens.
- A clock set back always gives a smaller key (`KeyGeneration.SetBackClock`), and a link's pending changes stay
  in order exactly when each new key follows them (`Link.LinkImpl.Enqueue`, `LinkSystem.EditInv`).
- Updating a context value leaves the index exact if and only if the type stays; otherwise the value is left
  listed under its old type (`ContextRepositories.ContextRepository.Update`). The callers in the repository keep the type
  (`bin/context_engine/context_writer_impl.cc:141`, `:256-266`).
- Module paths share an index term exactly when they are equal after each part is cut at its NUL
  characters (`ContextIndexes.PathsCollide`), so NUL-free paths never do.
- A receiver that registers while an acknowledgement is owed is given nothing; that is the only way a queue
  stalls (`MessageQueues.MessageQueueStorage.RegisterReceiver`), and `MessageQueues.StalledQueue` does.
- A connection or task that is handed to a live agent is lost, if nothing else happens, exactly when the agent
  is idle and comes to a stop before any connection or task, and then so is all that was queued before it
  (`AgentRunners.HandedOverButLost`, `AgentRunners.TaskHandedOverButLost`); `AgentRunners.LosingRun` is such a
  run from nothing.
- A module query need not give the filter of the entries as they are at its end: an entry replaced while it is
  open can be given although its verb no longer matches (`ModuleResolver.StaleResult`).
  `ModuleResolver.ResultIsFilter` says exactly when the result agrees with the filter, in each direction.

Where comments and code disagree the model follows the code: `index.h` promises that a query intersects
its output set, while the code adds to it; the backoff header gives an uncapped power of the factor, while
the code caps it; `ranked_suggestions.h` has its list re-sorted whenever it is modified, while only `Rank` sorts it.

## Assumptions

- The ledger only grows, and a device's store holds part of it. A key is made once across all devices.
- A link starts with one reload, before it has connections; clients' connections are never numbered 0, the
  number of the watchers of all connections.
- Operations queued on one object run one after the other, as the operation queues make them.
- Features score between 0 and 1, and so do confidence hints, as the code checks
  (`bin/suggestion_engine/ranking_feature.cc:18-19`).
- Waiting views are processed with every path before those that extend it, as the map keyed by joined paths
  has them.

## Model

| member | source | states |
|---|---|---|
| KeyOrder.StrictTotalOrder | bin/story_runner/incremental_link.cc:147-151 | The key comparison is irreflexive, transitive and total on all strings, so a set of changes has one sorted order. |
| KeyOrder.LessConcat | bin/story_runner/key_generator.cc:42-72 | Keys of a fixed-width first part compare by it, then by the rest. |
| KeyGeneration.DigitCharOrder | bin/story_runner/key_generator.cc:16-17 | The dictionary is in ascending order without repetition, so digit characters compare as what they stand for. |
| KeyGeneration.DigitsOrder | bin/story_runner/key_generator.cc:16-17 | Base-64 digits of one width compare lexicographically as the numbers they keep, both directions. |
| KeyGeneration.DigitsDecode | bin/story_runner/key_generator.cc:57-70 | Decoding the digits gives back the number modulo 64 to the width. |
| KeyGeneration.DigitsDetermined | bin/story_runner/key_generator.cc:57-70 | Two numbers get the same digits exactly when they are equal modulo 64 to the width. |
| KeyGeneration.KeysCompareAsStamps | bin/story_runner/key_generator.cc:42-72 | Two keys are ordered exactly as their (time modulo 2^48, random modulo 2^60) pairs. |
| KeyGeneration.KeyDecodes | bin/story_runner/key_generator.cc:42-72 | A key decodes to its time modulo 2^48 and its random number modulo 2^60. |
| KeyGeneration.NextKeyGreater | bin/story_runner/key_generator.cc:42-55 | For clocks that fit eight digits, the next key is greater than the last if and only if the clock has not gone back and the low 60 bits of a counted-up number do not wrap. |
| KeyGeneration.NextKeyGrows | bin/story_runner/key_generator.cc:42-72 | The exact condition for the next key to be greater, for every 64-bit clock and random number. |
| KeyGeneration.RunAscends | bin/story_runner/key_generator.h:47-49 | Over any run of calls with 64-bit clocks the keys strictly ascend if and only if each call's key grows. |
| KeyGeneration.FittingRunAscends | bin/story_runner/key_generator.h:47-49 | For clocks that fit, that is so if and only if every call found an orderly clock. |
| KeyGeneration.SetBackClock | bin/story_runner/key_generator.cc:46-54 | A clock that is set back gives a smaller key, whatever the random number. |
| KeyGeneration.KeyGenerator.Step | bin/story_runner/key_generator.cc:43-52 | Within one millisecond the random number is counted up and wraps at 64 bits; in another it is the one just drawn, and the time is the one just read. |
| KeyGeneration.KeyGenerator.Create | bin/story_runner/key_generator.cc:42-72 | The key of the advanced stamp, which counts up within one millisecond with 64-bit wrap. |
| KeyGeneration.WriteDigits | bin/story_runner/key_generator.cc:57-70 | Each digit loop fills its places with the number's base-64 digits and leaves the others. |
| LinkJson.MergeObject | bin/story_runner/link_impl.cc:680-710 | Each member of the result is the source's where the source has it and the target's elsewhere, and there are no others; a source that is no object changes nothing, a target that is none is replaced; the report says whether anything changed, both directions. |
| LinkJson.SetsUnique | bin/story_runner/link_impl.cc:642-655 | A set is the one edit after which the value stands at the path, or, where the path appends, in one new element at the end of its array, and every other place holds what it held and is missing where it was missing. |
| LinkJson.UpdatesUnique | bin/story_runner/link_impl.cc:657-672 | An update is the one edit that does this with what stood at the path, or null, combined with the source's members. |
| LinkJson.ErasesUnique | bin/story_runner/link_impl.cc:674-676 | An erase is the one edit after which the path is missing, the object it was in is still there and every other place is as before; a path that is missing or empty leaves the document. |
| LinkJson.CurrentStands | bin/story_runner/link_impl.cc:669 | What is read at a path is what its names lead to, and null where they lead nowhere. |
| LinkJson.ErasableStands | bin/story_runner/link_impl.cc:674-676 | There is something to erase exactly where a nonempty path leads somewhere. |
| LinkJson.CurrentOfPut | bin/story_runner/link_impl.cc:642-655 | What is set at a path that does not append is found there. |
| LinkJson.PutOfPut | bin/story_runner/link_impl.cc:642-655 | A later set at the same path hides an earlier one, unless the path appends. |
| LinkJson.PutElsewhere | bin/story_runner/link_impl.cc:642-655 | A set leaves what stands at every path apart from its own. |
| LinkJson.EraseRemoves | bin/story_runner/link_impl.cc:674-676 | After an erase nothing erasable is left at the path, and the document is unchanged exactly when nothing was. |
| LinkJson.EraseElsewhere | bin/story_runner/link_impl.cc:674-676 | An erase leaves what stands at every path apart from its own. |
| LinkJson.PutGrows | bin/story_runner/link_impl.cc:642-655 | A path that appends changes the document every time, whatever the values. |
| LinkJson.SetTwice | bin/story_runner/link_impl.cc:642-655 | Repeating a set changes nothing if and only if the path does not append. |
| LinkJson.UpdateTwice | bin/story_runner/link_impl.cc:657-672 | Repeating an update changes nothing if and only if the path does not append. |
| LinkJson.NoTokenNoAppend | bin/story_runner/link_impl.cc:642-672 | A path without an append token never appends, whatever the document. |
| ChangeLog.ApplyPerforms | bin/story_runner/incremental_link.cc:267-281 | Applying a change is the one function that performs it: a set, an update or an erase as described place by place, and nothing for a text that does not parse. |
| ChangeLog.ApplyTwice | bin/story_runner/incremental_link.cc:267-281 | Re-applying any change keeps the document if and only if it did not append. |
| ChangeLog.SortedUnique | bin/story_runner/incremental_link.cc:214-265 | Any ascending list of changes is the sorted log of its set: sorting leaves no choice. |
| ChangeLog.SortedLogSorts | bin/story_runner/incremental_link.cc:214-265 | The sorted log of a set is ascending and holds exactly the set. |
| ChangeLog.Extend | bin/story_runner/incremental_link.cc:156-163 | A change newer than all others goes to the end of the log: the larger set's fold is one more application. |
| ChangeLog.LastIsMax | bin/story_runner/incremental_link.cc:258-264 | The last change of an ascending list carries the maximum key of its set. |
| ChangeLog.ReapplyLatest | bin/story_runner/incremental_link.cc:156-163 | Applying the newest change again keeps the meaning of the set if and only if that change does not append to what came before it. |
| Link.MergeStep | bin/story_runner/incremental_link.cc:214-256 | One turn of the merge keeps the applied changes the ascending merge of the two prefixes, with all that is left after them. |
| Link.MergeDone | bin/story_runner/incremental_link.cc:258-265 | When both lists are used up, what was applied folds to the meaning of the union, and its last key is the maximum. |
| Link.LinkImpl.Replay | bin/story_runner/incremental_link.cc:214-265 | Each key of the ledger and of the pending changes is performed once, the ledger's copy if it has one, in ascending order, on the document the one before left and at first on an empty one; the last key becomes the newest, and with none it stays. |
| Link.LinkImpl.ApplyChange | bin/story_runner/incremental_link.cc:267-281 | After an erase nothing erasable is at the path; after a set that does not append the value is there; after such an update the members are the source's where it has them and the old ones elsewhere; all three leave every path apart from theirs, and a text that does not parse leaves the document; the report says whether it took effect. |
| Link.LinkImpl.Reload | bin/story_runner/incremental_link.cc:191-212 | Replays what the ledger holds, telling no watcher; an empty ledger is seeded once with the initial data, as a local change that tells all watchers but those of all connections. |
| Link.LinkImpl.IncrementalChange | bin/story_runner/incremental_link.cc:110-171 | The acknowledgement of the oldest pending change takes it off and does nothing else; any other keyed change is performed in place or has the history replayed, as its key demands; a local one is queued under its fresh key and written first. Exactly the connections that did not ask are told, or all clients' after a replay. |
| Link.LinkImpl.Enqueue | bin/story_runner/incremental_link.cc:125-145 | A local change gets the next key and waits; the pending changes stay in order if and only if that key follows all of theirs. |
| Link.OrderlyFollows | bin/story_runner/incremental_link.cc:125-145 | With an orderly clock the next key follows all pending ones. |
| Link.LinkImpl.ApplyOrReload | bin/story_runner/incremental_link.cc:147-171 | A change not older than the newest known is performed on the document and becomes the newest; an older one has the history replayed; watchers are told exactly if the document changed. |
| Link.ReplayRepresents | bin/story_runner/incremental_link.cc:214-265 | A reload gives the state that stands for the ledger's and the pending changes together. |
| Link.ReplayedIs | bin/story_runner/incremental_link.cc:214-265 | The reloaded state the other results speak of is the end of such a replay, change by change. |
| Link.InPlaceExact | bin/story_runner/incremental_link.cc:147-164 | The fast path gives what sorting and folding the larger set gives, if and only if it does not apply the newest change again as an append. |
| Link.IntegrateRepresents | bin/story_runner/incremental_link.cc:147-164 | Any keyed change, in or out of order, keeps the state standing for the changes known, if and only if it is not the newest one appending again. |
| Link.DeliverRepresents | bin/story_runner/incremental_link.cc:110-164 | So does a notification, and an acknowledgement always does. |
| Link.SubmitRepresents | bin/story_runner/incremental_link.cc:125-164 | A local change always does, even one that appends or is older than what other devices have made. |
| Link.LinkImpl.NotifyIfChanged | bin/story_runner/incremental_link.cc:167-171 | Watchers are told exactly when the document differs from before the operation. |
| Link.LinkImpl.NotifyWatchers | bin/story_runner/link_impl.cc:745-750 | Every watcher but those of the source connection receives the document. |
| Link.LinkImpl.Watch | bin/story_runner/link_impl.cc:464-479 | A new watcher is told the current document at once. |
| Link.WatcherLag | bin/story_runner/link_impl.cc:870-875 | Over any run, what a watcher has is what the document was at some point, since when nothing but its own connection has changed it. |
| Link.WatchAllFresh | bin/story_runner/link_impl.cc:745-750 | Over any run whose changes come from clients or the ledger, every watcher of all connections is up to date. |
| Link.NotifyKeepsFresh | bin/story_runner/link_impl.cc:745-750 | One operation keeps the watchers of all connections up to date if and only if it changes nothing, or is not the seeding, or there are none. |
| LinkSystem.StartInv | bin/story_runner/incremental_link.cc:191-212 | A device that starts from any part of the ledger stands for that part. |
| LinkSystem.NotifyInv | bin/story_runner/incremental_link.cc:298-308 | A notification of any stored change, in any order and repeated or not, keeps the device standing for what it knows if and only if it does not append the newest change again. |
| LinkSystem.EditInv | bin/story_runner/incremental_link.cc:125-164 | An edit, even one that appends, keeps the device standing for what it knows and its pending changes in order if and only if its key follows the pending ones. |
| LinkSystem.NextInv | bin/story_runner/incremental_link.cc:110-165 | An event keeps the invariant of every device if and only if it is harmless. |
| LinkSystem.RunInv | bin/story_runner/incremental_link.cc:110-165 | The invariant holds all along a run if and only if every event of it is harmless. |
| LinkSystem.RepeatableRunHarmless | bin/story_runner/link_impl.cc:642-676 | A run whose edits have no append token, and find their device's clock orderly, is harmless. |
| LinkSystem.LogRefinement | bin/story_runner/link_impl.h:70-87 | After any harmless run each document is the sorted fold of the changes the device knows: ledger changes, including all it was told of and all its pending ones. |
| LinkSystem.Convergence | bin/story_runner/link_impl.h:70-87 | After any harmless run, devices that know the same keys have equal documents and equal newest keys. |
| LinkSystem.CaughtUpDevice | bin/story_runner/incremental_link.cc:298-308 | A device told of all its store holds has the meaning of that store. |
| LinkSystem.QuiescentDevice | bin/story_runner/link_impl.h:70-87 | A device told of the whole ledger has the meaning of the whole ledger, so all such devices agree. |
| LinkSystem.Deliver | bin/story_runner/incremental_link.cc:298-308 | A device can always be brought one more ledger change and told of it, which touches no other device or the ledger. |
| LinkSystem.AllSettle | bin/story_runner/link_impl.h:70-87 | Wherever a run of orderly clocks and edits without append tokens has got to, bringing devices what the ledger has, and nothing else, makes all of them hold the meaning of the whole ledger. |
| LinkSystem.AppendDiverges | bin/story_runner/incremental_link.cc:147-164 | A run after which two devices know the whole ledger and differ: one starts from what the other has written and is told once more of its newest change, an append. |
| ContextGraphs.ContextGraph.AddEdge | bin/context_engine/context_repository.cc:18-20 | Adds one edge to both maps and no other. |
| ContextGraphs.ContextGraph.Remove | bin/context_engine/context_repository.cc:22-33 | Takes out exactly the edges of one node, keeping the two maps each other's inverse. |
| ContextGraphs.ContextGraph.GetChildrenRecursive | bin/context_engine/context_repository.cc:42-59 | On any graph without cycles the search ends, though it keeps no visited set, and returns exactly the proper descendants. |
| ContextGraphs.ContextGraph.GetAncestors | bin/context_engine/context_repository.cc:61-82 | On any finite graph, even cyclic, the search ends with each reachable ancestor once; on a forest they are listed from the root to the parent. |
| ContextGraphs.ChainIsAncestors | bin/context_engine/context_repository.cc:61-82 | On a forest the root-first chain holds exactly the nodes reached by one or more parent edges. |
| ContextGraphs.SearchStep | bin/context_engine/context_repository.cc:67-78 | Visiting a node keeps all met nodes ancestors and all parents of visited nodes met, on any graph. |
| ContextGraphs.SweepStep | bin/context_engine/context_repository.cc:45-57 | Visiting a node keeps all collected nodes descendants and all children of visited nodes collected. |
| ContextGraphs.WorkShrinks | bin/context_engine/context_repository.cc:45-57 | Without cycles, putting a node's children in its place leaves less to visit, however many ways lead to them. |
| ContextIndexes.PathsCollide | bin/context_engine/index.cc:58-66 | Two module paths have one encoding if and only if they agree once their parts are cut at NULs. |
| ContextIndexes.NulFreePathsDiffer | bin/context_engine/index.cc:58-66 | NUL-free paths have one encoding only if they are equal. |
| ContextIndexes.NulPathsCollide | bin/context_engine/index.cc:58-66 | A part with a NUL in it is taken for two parts. |
| ContextIndexes.TermsDecideMatch | bin/context_engine/index.cc:30-91 | A selector's terms are all among a value's terms if and only if the type is the same and every field it sets matches, entity types as a subset. |
| ContextIndexes.Tags | bin/context_engine/index.cc:30-91 | A term of one field is never mistaken for a term of another. |
| ContextIndexes.EncodeMetadataAndType | bin/context_engine/index.cc:30-91 | The inserts fill the set with exactly the terms of the metadata and the type. |
| ContextIndexes.ContextIndex.Add | bin/context_engine/index.cc:95-102 | Adds the id under each of its terms and changes no other posting. |
| ContextIndexes.ContextIndex.Remove | bin/context_engine/index.cc:104-111 | Takes the id out under each of its terms and changes no other posting. |
| ContextIndexes.ContextIndex.Query | bin/context_engine/index.cc:113-136 | Adds to the output exactly the ids that stand under every term of the selector. |
| ContextRepositories.SeniorityDecides | bin/context_engine/context_repository.cc:107-128 | Each kind of merged metadata comes from the most senior value that sets it, or from none if none does. |
| ContextRepositories.CoherentInherits | bin/context_engine/context_repository.cc:349-361 | A stored value's merged metadata is right if and only if each kind of it comes from the most senior of its ancestors and itself that sets it. |
| ContextRepositories.OutsideSubtree | bin/context_engine/context_repository.cc:159-169 | Values outside the touched subtree have the same flattened metadata before and after. |
| ContextRepositories.ReindexNeedsSameType | bin/context_engine/context_repository.cc:326-341 | Re-indexing leaves exactly the new terms if and only if the type has not changed. |
| ContextRepositories.ContextRepository.Select | bin/context_engine/context_repository.cc:363-368 | An exact index answers exactly the stored values that a scan finds matching; any index of stored values answers stored values. |
| ContextRepositories.ContextRepository.Collect | bin/context_engine/context_repository.cc:295-312 | With an exact index, the hits are the stored values whose type and merged metadata match, each with its version, and the values found are those, each with its type, its content and its merged metadata. |
| ContextRepositories.ContextRepository.QueryAndMaybeNotify | bin/context_engine/context_repository.cc:289-324 | With an exact index the subscription records the listed values with their versions, and its listener is called if and only if that differs from what it had recorded or the call is forced; the call gives, under each name of the query, the values matching that selector now, with type, content and merged metadata. |
| ContextRepositories.MatchingRecords | bin/context_engine/context_repository.cc:289-312 | What is recorded is what the query was last told of exactly if it is the listed values with their versions. |
| ContextRepositories.RefreshTells | bin/context_engine/context_repository.cc:314-324 | A listener hears of a change exactly if a value is listed before or after only, or under another version; then it is called once, with what is stored now. |
| ContextRepositories.ReplacementListed | bin/context_engine/context_repository.cc:149-170 | Replacing a value counts for a query if and only if the query lists it before or after, or lists some other value no more or anew. |
| ContextRepositories.ContextRepository.NotifyAll | bin/context_engine/context_repository.cc:342-346 | Every subscription is told exactly when what its query matches has changed. |
| ContextRepositories.ContextRepository.RecomputeMergedMetadata | bin/context_engine/context_repository.cc:349-361 | The merge loop over the ancestors gives the flattened metadata computed from scratch. |
| ContextRepositories.ContextRepository.Reindex | bin/context_engine/context_repository.cc:330-341 | A value's postings move from its old to its new terms; only a term that no metadata gives it can stay stale. |
| ContextRepositories.ContextRepository.ReindexAndNotify | bin/context_engine/context_repository.cc:326-347 | All three caches agree with a computation from scratch afterwards, but for a posting that was stale before; no value or version changes. |
| ContextRepositories.ContextRepository.Add | bin/context_engine/context_repository.cc:172-200 | A fresh id under its parent; other values unchanged, caches exact; every listener hears of it exactly if what its query lists has changed. |
| ContextRepositories.ContextRepository.Update | bin/context_engine/context_repository.cc:149-170 | For any new value: it is replaced and its version counted up, and values outside its subtree are untouched; the index is exact afterwards if and only if the type stays. Then all caches are exact, and a listener is called exactly once if its query lists the value before or after, or another value no more or anew, and otherwise not; if not, only the old type's posting is stale. |
| ContextRepositories.TypeTerms | bin/context_engine/index.cc:86-88 | Under another type a value keeps all terms but its type's, which no metadata gives it then. |
| ContextRepositories.ContextRepository.Remove | bin/context_engine/context_repository.cc:202-223 | The value and its edges go, its children stay; an unknown id changes nothing; caches exact; every listener hears of it exactly if what its query lists has changed. |
| ContextRepositories.ContextRepository.AddSubscription | bin/context_engine/context_repository.cc:244-264 | A new subscription is called once at once, with the values its query matches, which it records with their versions, under the next id of a wrapping counter. |
| ContextRepositories.ContextRepository.RemoveSubscription | bin/context_engine/context_repository.cc:281-287 | Only that subscription goes. |
| StoryViews.AnchorIsNearest | bin/story_runner/story_controller_impl.cc:1905-1922 | The anchor found is the nearest proper ancestor with a surface relation, reached through running embedded modules only, both directions. |
| StoryViews.StoryController.FindConnection | bin/story_runner/story_controller_impl.cc:1895-1903 | Nothing is found if and only if no connection has the path; otherwise the first one that has it is. |
| StoryViews.FindIsFirst | bin/story_runner/story_controller_impl.cc:1895-1903 | The connection the other results speak of is the first with the path, and there is none exactly if no connection has it. |
| StoryViews.StoryController.FindAnchor | bin/story_runner/story_controller_impl.cc:1905-1922 | The cursor ends at the nearest ancestor with a surface relation among running embedded ones, and at nothing if and only if there is none. |
| StoryViews.FixpointIsLeast | bin/story_runner/story_controller_impl.cc:1553-1597 | What can be shown is the least set that holds the shown views and is closed under showing. |
| StoryViews.FixpointAfterShowing | bin/story_runner/story_controller_impl.cc:1553-1597 | Showing ready views in any order does not change what is shown in the end. |
| StoryViews.AnyOrderReaches | bin/story_runner/story_controller_impl.cc:1553-1597 | Showing ready views one at a time in any order, until none is left, reaches that same set. |
| StoryViews.AnchorsFirstOneMore | bin/story_runner/story_controller_impl.cc:618-631 | One more call keeps anchors first if and only if they were and the call's anchor has been sent. |
| StoryViews.StoryController.ProcessPendingViews | bin/story_runner/story_controller_impl.cc:1553-1597 | The recursion ends with exactly the least fixpoint shown, each view once with its owner, anchor and relation, and none ready left waiting; anchors come first at the shell if and only if they did and no leftover of an earlier shell is needed. |
| StoryViews.StoryController.ShowReadyViews | bin/story_runner/story_controller_impl.cc:1562-1590 | One pass in path order already shows exactly the fixpoint, with the same condition for the order of anchors. |
| StoryViews.PassStep | bin/story_runner/story_controller_impl.cc:1566-1590 | In path order a waiting view is showable exactly when its anchor is known by its turn, and without leftovers exactly when this shell has been sent it by then. |
| StoryViews.ProcessedOn | bin/story_runner/story_controller_impl.cc:1592-1596 | Processing what a pass has left does what processing all would have done. |
| StoryViews.StoryController.ShowModule | bin/story_runner/story_controller_impl.cc:578-616 | A started module's view is sent if it is a root or its anchor is taken to be known, and waits otherwise; anchors come first afterwards if and only if neither it nor what follows needs a leftover. |
| StoryViews.StoryController.ConnectView | bin/story_runner/story_controller_impl.cc:618-631 | The view is sent, then all that can follow it; exactly when that keeps anchors first, and always when nothing is left over. |
| StoryViews.StoryController.ReleaseModule | bin/story_runner/story_controller_impl.cc:1458-1469 | The module no longer runs or waits; what has been sent stays known. |
| StoryViews.StoryController.Start | bin/story_runner/story_controller_impl.cc:1107-1140 | A running story ignores it; one that is not gets a new shell, sent nothing yet, while the record of views sent stays and is left over unless it is empty. |
| StoryViews.StoryController.OnRootStateChange | bin/story_runner/story_controller_impl.cc:1855-1893 | Each state of the root module becomes the story's while it is tracked, so the story can be started again exactly if its root has stopped or failed. |
| StoryViews.StoryController.Stop | bin/story_runner/story_controller_impl.cc:869-961 | Every module stops and waits no more, then there is no shell; the record of views sent stays. |
| StoryViews.LeftoverNeeded | bin/story_runner/story_controller_impl.cc:604-610 | With only a module and its child running under a stopped root, the child's view is sent by way of a leftover that cannot be sent itself. |
| StoryViews.RestartedStory | bin/story_runner/story_controller_impl.cc:1096-1140 | A story that comes to this: its second shell is sent a view whose anchor it never was. |
| ModuleResolver.Resolver.OnNewManifestEntry | bin/module_resolver/module_resolver_impl.cc:343-367 | A new or replaced entry leaves both indexes holding exactly what the entries say. |
| ModuleResolver.Resolver.OnRemoveManifestEntry | bin/module_resolver/module_resolver_impl.cc:369-388 | A removed entry leaves no posting; an unknown one changes nothing. |
| ModuleResolver.Post | bin/module_resolver/module_resolver_impl.cc:357-366 | The nested loops change exactly the postings of one id under its constraints. |
| ModuleResolver.OneMoreAnswer | bin/module_resolver/module_resolver_impl.cc:133-159 | One more answer leaves exactly the survivors that are entries then and take one of the noun's types under its name. |
| ModuleResolver.SteadyVerbSurvivorsFit | bin/module_resolver/module_resolver_impl.cc:90-159 | If no entry with the query's verb changes while it is open, the survivors are the filter of the entries by verb and noun types, in whatever order the answers came. |
| ModuleResolver.ResultIsFilter | bin/module_resolver/module_resolver_impl.cc:133-180 | The result holds none that does not fit at the end if and only if no replaced survivor has lost the verb or a type; it lacks none if and only if no entry that came or was replaced fits now and did not at the start or at an answer. |
| ModuleResolver.StaleResult | bin/module_resolver/module_resolver_impl.cc:133-180 | A query whose result holds a module of another verb: its entry was replaced before the answer. |
| ModuleResolver.FindModulesCall.Run | bin/module_resolver/module_resolver_impl.cc:90-129 | Without a verb, or with an unknown one, the result is empty; without nouns the query ends at once, with the entries of the verb under their binaries and local names; otherwise it waits for every noun. |
| ModuleResolver.FindModulesCall.OnNounTypes | bin/module_resolver/module_resolver_impl.cc:105-128 | In whatever order answers arrive, and whatever happens to the entries meanwhile, the query ends exactly when all have, once; then the result has the ids of the verb at the start that took one of its types for every noun when it was answered, each with the binary and the local name of its entry now. |
| ModuleResolver.FindModulesCall.ProcessNounTypes | bin/module_resolver/module_resolver_impl.cc:133-159 | The candidates are the entries accepted at the start and at every answer so far. |
| ModuleResolver.FindModulesCall.Finally | bin/module_resolver/module_resolver_impl.cc:161-180 | The result has exactly those ids, each with the binary and the local name of its entry now. |
| ModuleResolver.SurvivorsAreEntries | bin/module_resolver/module_resolver_impl.cc:137-156 | What the last answer accepts is an entry then, so the check in the end cannot fail. |
| ModuleResolver.SurvivingSurvives | bin/module_resolver/module_resolver_impl.cc:133-159 | An id survives if and only if its entry had the verb at the start and, at each answer, was there with a constraint of that noun's name that has one of its types. |
| Ranking.ConfidenceInRange | bin/suggestion_engine/ranked_suggestions.cc:52-79 | For weights of any sign, some positive, every confidence lies between 0 and 1. |
| Ranking.WeightDecides | bin/suggestion_engine/ranked_suggestions.cc:64-74 | Where one feature alone scores two suggestions differently, what they add up to differs by its weight times that difference, whatever the sign of the weight. |
| Ranking.StableSortPermutes | bin/suggestion_engine/ranked_suggestions.cc:115-121 | Sorting loses and repeats nothing. |
| Ranking.StableSortKeeps | bin/suggestion_engine/ranked_suggestions.cc:115-121 | Entries of equal confidence keep their order. |
| Ranking.StableSortSorts | bin/suggestion_engine/ranked_suggestions.cc:115-121 | Confidences do not increase along the list. |
| Ranking.StableSortUnique | bin/suggestion_engine/ranked_suggestions.cc:115-121 | Those properties leave one list only, so any stable sort gives it. |
| Ranking.RankedList | bin/suggestion_engine/ranked_suggestions.cc:61-81 | Ranking keeps the suggestions, in order and in range. |
| Ranking.WithoutMembers | bin/suggestion_engine/ranked_suggestions.cc:41-50 | Removal takes out exactly the entries of a key, and the list is shorter exactly when there was one. |
| Ranking.WithoutOrder | bin/suggestion_engine/ranked_suggestions.cc:41-50 | Removal keeps entries distinct and in order. |
| Ranking.RankedSuggestions.AddRankingFeature | bin/suggestion_engine/ranked_suggestions.cc:52-59 | The normalization grows by the weight if that is positive and stays otherwise, so it is the sum of the positive weights. |
| Ranking.RankedSuggestions.Rank | bin/suggestion_engine/ranked_suggestions.cc:61-81 | Every entry has the confidence its weighted scores add up to, negative weights included, pulled up to 0 and divided by the normalization; the list is its stable sort by confidence, and every window shows it. |
| Ranking.RankedSuggestions.RemoveProposal | bin/suggestion_engine/ranked_suggestions.cc:90-94 | All entries of the key go, and the result says whether there were any. |
| Ranking.FirstWithIsFirst | bin/suggestion_engine/ranked_suggestions.cc:32-39 | What is found is the first entry with the suggestion id, and nothing is found exactly when no entry has it. |
| Ranking.RankedSuggestions.GetSuggestion | bin/suggestion_engine/ranked_suggestions.cc:96-99 | The loop finds that entry. |
| Ranking.RankedSuggestions.OnSubscribe | bin/suggestion_engine/windowed_subscriber.cc:19-29 | The loop adds exactly the first entries, up to the window's size, to the display. |
| Ranking.RankedSuggestions.DispatchInvalidate | bin/suggestion_engine/windowed_subscriber.cc:31-34 | Every subscriber is left displaying exactly its window. |
| SuggestionEngines.PartitionRemove | bin/suggestion_engine/suggestion_engine_impl.cc:99-117 | Removing one key everywhere keeps the prototypes partitioned by the lists. |
| SuggestionEngines.PartitionAdd | bin/suggestion_engine/suggestion_engine_impl.cc:73-97 | Adding a new prototype to either list keeps the partition. |
| SuggestionEngines.PartitionRank | bin/suggestion_engine/ranked_suggestions.cc:61-81 | Ranking either list keeps the partition. |
| SuggestionEngines.PartitionClear | bin/suggestion_engine/suggestion_engine_impl.cc:287-300 | Clearing the query's list with its prototypes keeps the partition. |
| SuggestionEngines.SuggestionEngine.constructor | bin/suggestion_engine/suggestion_engine_impl.cc:53-70 | The engine starts empty, in a valid state, with the features and weights of both lists. |
| SuggestionEngines.RankedIsPriced | bin/suggestion_engine/suggestion_engine_impl.cc:62-70 | Under the engine's features a ranked suggestion's confidence is its hint, less a tenth where the url of its component contains "kronk", and never below 0. |
| SuggestionEngines.SuggestionEngine.AddNextProposal | bin/suggestion_engine/suggestion_engine_impl.cc:73-89 | A proposal replaces one of the same key in either list and joins next at its end; next is to be ranked. |
| SuggestionEngines.SuggestionEngine.AddAskProposal | bin/suggestion_engine/suggestion_engine_impl.cc:91-97 | The same for the query's list. |
| SuggestionEngines.SuggestionEngine.CreateSuggestionPrototype | bin/suggestion_engine/suggestion_engine_impl.cc:302-315 | The prototype under the key of url and proposal id is filled with the given suggestion id and the proposal's hint and headline, made first if there was none. |
| SuggestionEngines.SuggestionEngine.RemoveProposal | bin/suggestion_engine/suggestion_engine_impl.cc:99-117 | The proposal and its prototype go, and exactly the lists it was in become dirty. |
| SuggestionEngines.SuggestionEngine.Validate | bin/suggestion_engine/suggestion_engine_impl.cc:170-182 | Nothing is dirty afterwards: next is ranked if it was and as it was otherwise, every entry of it has the confidence of its hint and url, and all windows are right. |
| SuggestionEngines.SuggestionEngine.Propose | bin/suggestion_engine/proposal_publisher_impl.cc:22-25 | A published proposal replaces any of its key and joins next alone with its hint and headline; next is in order by hints less a tenth for "kronk" urls, and displayed in every window. |
| SuggestionEngines.SuggestionEngine.Withdraw | bin/suggestion_engine/proposal_publisher_impl.cc:27-30 | A withdrawn proposal is in no list and no window. |
| SuggestionEngines.SuggestionEngine.AddAskProposals | bin/suggestion_engine/query_processor.cc:85-87 | Every proposal of an answer replaces one of its key and joins the end of the query's list; of several with one id the last counts, and other prototypes stay. |
| SuggestionEngines.SuggestionEngine.OnQueryResponse | bin/suggestion_engine/query_processor.cc:85-90 | All proposals of an answer are in the query's list, which is ranked and displayed; of several with one id the last counts; next loses exactly the entries that moved, and other prototypes stay. |
| SuggestionEngines.SuggestionEngine.CleanUpPreviousQuery | bin/suggestion_engine/suggestion_engine_impl.cc:287-300 | The query's entries go with their prototypes, and no others. |
| SuggestionEngines.SuggestionEngine.Query | bin/suggestion_engine/suggestion_engine_impl.cc:137-164 | A new query starts from an empty list with its own subscriber. |
| SuggestionEngines.SuggestionEngine.SubscribeToNext | bin/suggestion_engine/suggestion_engine_impl.cc:191-198 | A new subscriber displays its window at once. |
| SuggestionEngines.SuggestionEngine.NotifyInteraction | bin/suggestion_engine/suggestion_engine_impl.cc:207-249 | The first next suggestion with the id goes alone; failing that one of the query ends the query; an unknown id changes nothing. |
| AgentRunners.AcceptConnValid | bin/agent_runner/agent_runner.cc:138-157 | Accepting a connection keeps every request in one place, in order. |
| AgentRunners.RequestedValid | bin/agent_runner/agent_runner.cc:93-109 | A request waits for a restart, or else all that waits goes to the agent in order; either way nothing is lost. |
| AgentRunners.ServeConserves | bin/agent_runner/agent_runner.cc:199-212 | A start callback moves its requests from waiting to the end of the agent's queue, each once. |
| AgentRunners.ServedAllConserves | bin/agent_runner/agent_runner.cc:111-136 | Running all callbacks of a started agent does so for all of them, and leaves no connection waiting. |
| AgentRunners.SteppedValid | bin/agent_runner/agent_context_impl.cc:139-163 | Working on the head of the queue settles the request and keeps the phases orderly. |
| AgentRunners.RemovedValid | bin/agent_runner/agent_runner.cc:181-197 | When an instance goes, waiting requests reach a new one if and as they came; waiting connections imply a queued callback. |
| AgentRunners.RestartHasAll | bin/agent_runner/agent_runner.cc:111-136 | The queue of the next instance holds exactly the waiting connections and tasks, in the order they came. |
| AgentRunners.HandedOverButLost | bin/agent_runner/agent_context_impl.cc:139-163 | For every slot with a live agent or none: with nothing else happening, a new connection and all connections and tasks queued before it are given to the agent, unless it is idle and comes to a stop first; then all of them are lost. |
| AgentRunners.TaskHandedOverButLost | bin/agent_runner/agent_context_impl.cc:234-245 | The same for a new task. |
| AgentRunners.OutcomeIsAllOrNothing | bin/agent_runner/agent_context_impl.cc:139-163 | If nothing else happens, a live agent is given all that its queue holds or loses all of it, by that same condition. |
| AgentRunners.DrainStops | bin/agent_runner/agent_context_impl.cc:139-163 | An orderly agent working on its queue stops if and only if it is idle and a stop precedes every connection and task; otherwise it serves the whole queue. |
| AgentRunners.BusyServesAll | bin/agent_runner/agent_context_impl.cc:139-150 | An agent that a controller or a task keeps alive serves its whole queue, passing over every stop. |
| AgentRunners.RunValid | bin/agent_runner/agent_runner.cc:93-212 | Over any run of requests, work, closing controllers, completed tasks and deaths, every request stays in one place and in order. |
| AgentRunners.LosingRun | bin/agent_runner/agent_context_impl.cc:283-291 | A run from nothing in which one connection is served and the next is lost with the instance. |
| AgentRunners.OthersStayValid | bin/agent_runner/agent_runner.cc:93-157 | What happens to one agent's slot leaves all other agents' slots valid. |
| AgentRunners.AgentRunner.ConnectToAgent | bin/agent_runner/agent_runner.cc:138-157 | The connection is last in the queue of a live agent, waits last behind a terminating one, or is behind the initialization of a new one; no other agent is touched. |
| AgentRunners.AgentRunner.StartTask | bin/agent_runner/agent_runner.cc:312-351 | The same for an agent task. |
| AgentRunners.AgentRunner.MaybeRunAgent | bin/agent_runner/agent_runner.cc:93-109 | The callback waits behind a terminating agent, runs at once on a live one, or starts one. |
| AgentRunners.AgentRunner.Serve | bin/agent_runner/agent_runner.cc:199-212 | Waiting connections are handed over in order and then wait no more. |
| AgentRunners.AgentRunner.RunAgent | bin/agent_runner/agent_runner.cc:111-136 | A new instance gets everything that waited, and no callback is left. |
| AgentRunners.AgentRunner.Step | bin/agent_runner/agent_context_impl.cc:52-163 | The agent begins to terminate exactly on a stop with no controller and no task left; otherwise the head of its queue is done, a connection counting one more controller and a task one more task. |
| AgentRunners.AgentRunner.BindingClosed | bin/agent_runner/agent_context_impl.cc:283-291 | One controller less; exactly if it was the last, a stop is queued. |
| AgentRunners.AgentRunner.TaskDone | bin/agent_runner/agent_context_impl.cc:234-245 | One task less, and a stop is queued. |
| AgentRunners.AgentRunner.RemoveAgent | bin/agent_runner/agent_runner.cc:181-197 | The instance goes and is started again exactly when callbacks wait; the new one, about to initialize, has in its queue just the connections and tasks that waited, in order. |
| MessageQueues.PersistentQueue.Dequeue | bin/component/persistent_queue.h:29-34 | The front goes, and the file follows. |
| MessageQueues.PersistentQueue.Enqueue | bin/component/persistent_queue.h:36-39 | The value goes to the back, and the file follows. |
| MessageQueues.MessageQueueStorage.Send | bin/component/message_queue_manager.cc:117-123 | Sent stays acknowledged followed by queued; a message is delivered at once exactly when a receiver waits on an empty queue. |
| MessageQueues.MessageQueueStorage.RegisterReceiver | bin/component/message_queue_manager.cc:60-75 | A new receiver is given the front message unless an acknowledgement was owed; the queue stalls if and only if it was. |
| MessageQueues.MessageQueueStorage.ReceiverClosed | bin/component/message_queue_manager.cc:76-79 | An unacknowledged message stays at the front for the next receiver. |
| MessageQueues.MessageQueueStorage.Acknowledge | bin/component/message_queue_manager.cc:103-114 | The message last delivered, and no other, leaves a nonempty queue, and the one after it is delivered. |
| MessageQueues.MessageQueueStorage.MaybeSendNextMessage | bin/component/message_queue_manager.cc:103-114 | At most one delivery is unacknowledged, and it is of the message just after the acknowledged ones. |
| MessageQueues.StalledQueue | bin/component/message_queue_manager.cc:60-75 | A run that stalls: the second receiver registers before the first has acknowledged. |
| Backoff.GrowIsCapped | lib/backoff/exponential_backoff.cc:45-48 | The division guard multiplies exactly when the product stays within the maximum. |
| Backoff.BaseGrows | lib/backoff/exponential_backoff.cc:45-48 | After N steps the delay is the smaller of the power and the maximum. |
| Backoff.ResultsNeverDecrease | lib/backoff/exponential_backoff.cc:37-50 | With a factor of at least two, no result is below the one before, whatever the random parts. |
| Backoff.ExponentialBackoff.GetNext | lib/backoff/exponential_backoff.cc:37-50 | The result is the closed-form base plus the random part, or the maximum where that is less, and lies between the base and its double; nothing computed exceeds the maximum. |
| Backoff.ExponentialBackoff.Reset | lib/backoff/exponential_backoff.cc:52-54 | The delay starts over. |

## Left out

- ContextRepositories.ContextRepository.Update: what subscriptions are told while a stale posting stays is not described.
- Link.LinkImpl.IncrementalChange: for a local change, requires that the next key follows the pending ones, as it does with an orderly clock; `Link.LinkImpl.Enqueue` says what happens otherwise.
- Link.LinkImpl.Reload: requires the same when it seeds.
- ContextRepositories.ContextRepository.Add: requires that the 32-bit id counter has not wrapped, so that values keep the order they were made in; ids are numbers, not their decimal strings.
- ContextGraphs.ContextGraph.GetChildrenRecursive: on a cycle the code does not end, and the repository builds none.
- AgentRunners.AgentRunner.Step: an agent is a value in the runner's map, so the runner's and the agent's views of it cannot differ.
- JSON text and the order of object members: documents are values, and a watcher receives the value that would be serialized. The JSON library is not part of this model.
- Schema validation, which only logs, and the link calls that replace the whole document at once.
- Ledger reads and writes that fail, and encoding for storage.
- View and link ids as joined strings: module paths are used as they are. Focus calls and the watchers of embedded modules.
- The nouns copied into a resolver's result, queries by user input, waiting for sources to be ready, and the inference of noun types. A noun whose types cannot be found never answers.
- SuggestionEngines.SuggestionEngine.CreateSuggestionPrototype: a ranked entry holds its prototype's value, not a pointer to it; callers have removed the key before, so no entry shares the one that is filled.
- How a query's text is matched against headlines: the feature has weight 0, and any one will do for it.
- Interruptions, media, actions, query timing and the processing flag.
- Agent teardown, alarms, entity providers and lists of watchers.
- The callback that wakes a queue's owner, tokens and the deletion of queues.
- Uniqueness of random ids and suggestion ids.
- std::stable_sort is modelled by insertion; `StableSortUnique` says that any stable sort gives the same list.
- How operation queues and flow tokens sequence operations.
