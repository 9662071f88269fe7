# Verification model of the Proton Drive helper and its daemons

The Go helper of gnome-proton-drive is a layered cache in front of a remote,
encrypted tree: path maps, a metadata cache with a time to live, and a block
cache on disk, all kept current by a stream of remote events. A C backend and
two small Vala daemons sit around it. This project models those caches and
protocols in Dafny and proves what they promise.

| file | what it models |
|---|---|
| `Outcome.dfy` | optional values, the three kinds of failure |
| `Paths.dfy` | clean absolute paths as strings and as components; what the prefix tests mean |
| `Remote.dfy` | links, keyrings, the remote tree, the walk, and the server's answers |
| `Metadata.dfy` | the metadata cache |
| `Session.dfy` | `resolvePath`, `ListChildren`, `Stat` and the invalidation calls |
| `PathCache.dfy` | the path caches against an unchanging tree |
| `Events.dfy` | the event poller: one event, a listing diff, the queue, one poll |
| `Coherence.dfy` | what one event prunes, and exactly when that is enough |
| `Records.dfy` | what a lookup and an event write into the path maps, as functions of the state before |
| `EventRuns.dfy` | whole runs of lookups, remote changes and late events |
| `Traces.dfy` | runs in which the reverse map, too, is right about every cached path |
| `Batches.dfy` | exactly which entries survive one batch of events |
| `Answers.dfy` | that what `ListChildren` and `Stat` answer against an unchanging tree is true |
| `Replies.dfy` | exactly what they answer: every error, every fallback, and that what can be found is found |
| `Freshness.dfy` | how old served metadata can be |
| `Announcements.dfy` | what the file manager is told about a rename, a move, a trashing, a creation |
| `Views.dfy`, `BatchViews.dfy` | what it then shows of a folder, after one event and after a batch |
| `Polls.dfy` | what a poll leaves behind, and its steps in the anchor machine |
| `Notifications.dfy` | the bounded queue's history; replaying a diff |
| `BlockStore.dfy` | the block cache and LRU eviction |
| `BlockReads.dfy`, `Streaming.dfy` | byte-range reads from blocks; sequential reads through a handle |
| `Anchors.dfy` | the persisted event anchor across crashes |
| `Rpc.dfy` | the socket RPC, both halves |
| `Monitors.dfy` | forwarding events to file monitors |
| `Accounts.dfy` | the account watcher and the volume list |
| `RunLength.dfy` | the run-length encoder of the setup wizard |

## How the model is built

- Objects whose methods change fields are classes with those fields. Each method
  is proved equal to a function on the object's abstract state, and the promises
  are lemmas about those functions, over single steps and over whole runs.
- The server, the clock, the disk and Go's map iteration order are parameters.
  The server's answers are indexed by request number, so within one operation a
  request may fail and succeed when repeated.
- A keyring is a function of its link. A name decrypts with the keyring of the
  link's parent and with no other.
- `asOf` on cached data says which request fetched it and when. It is part of the
  data; no branch reads it.
- Session operations, and the handling of one event, are atomic.
- In a well-formed tree no two listed children of one folder have the same name,
  which the server enforces (helper/drive/session.go:558-562).

## Where the code is narrower than its comments

- The comment at helper/drive/session.go:792-795 says every layer stays consistent.
  An event is enough to restore coherence exactly when every entry at or under the
  link's old path is one it prunes (`EventCoherenceExact`). What it prunes is read
  off the recorded paths, so anything that records a changed link's new path before
  its event is handled can take a wrong entry out of reach: a lookup
  (`LookupBeforeEventLeavesStaleEntry`), or the poller itself, when the diff of an
  earlier event in the same batch lists the folder (`TwoRenamesLeaveStaleEntry`).
  An entry is wrong if it leads to another link than the walk of the current tree.
  Every wrong entry stays one that a pending event prunes exactly when each step is
  harmless, a condition on the state before it: with the paths it is about to record,
  a lookup or an event leaves within reach each wrong entry it spares, and a remote
  change makes wrong only entries within reach (`MoveKeepsInvIff`,
  `BatchCoherentForeseen` for a batch). As long as the reverse map is right about the
  cached paths, remote changes are always harmless (`TracedRemoteIsHarmless`).
- An update of a folder that has itself been listed is diffed against that folder's
  own children and nothing else (helper/drive/events.go:307-314). A rename or move of
  such a folder is therefore not announced at all, its recorded path stays the old
  one, and the old path gets a fresh listing (`RenamedListedFolderIsSilent`); its
  trashing is not announced either. The exact conditions are in `RenameAnnouncedIff`,
  `MoveAnnouncedIff` and `TrashingAnnouncedIff`. A move never announces that the link
  has left its old folder, and a trashed link's path is forgotten only when neither
  the link nor its folder is listed again.
- The metadata cache drops a struck path and its parent's listing, but nothing below
  the path (helper/drive/metacache.go:146-149): when a folder moves or is deleted,
  stats and listings cached below its old path stay cached
  (`EventDropsExactly`, `DescendantsSurvive`).
- `InvalidatePath("/")` prunes no descendants and `InvalidatePath("")` clears the
  whole forward map (`InvalidatePathExact`).
- A stat answered from an expired listing while offline is stored as fresh, so
  the time to live bounds nothing afterwards (`OfflineStatRestampsOldData`). That is
  the only way the bound is lost (`StatKeepsAgeIff`, `RunAgesIff`).
- `ReadFile` reports the end of the file in its middle exactly when the request is
  longer than one page of 500 blocks covers, for instance with length 0 on a large
  file (`EofIsHonestIffPageCovers`).
- An empty file can never be read offline (`EmptyFileIsNeverReadOffline`), and an
  offline read whose end leaves the 64-bit range returns nothing
  (`OverflowingOfflineReadIsEmpty`).
- The session is visible to other connections before its poller has an anchor
  (helper/main.go:98-99). Without a persisted anchor the start is safe exactly when
  no event arrived since the oldest datum cached so far
  (`AnchorlessStartIsSafeIffClean`).
- docs/caching.md still describes whole-file cache entries; the code keeps one
  entry per block, and the model follows the code.

## Model

| member | source | states |
|---|---|---|
| `Paths.SplitPathComponents` | helper/drive/session.go:877-883 | `splitPath` yields exactly the components left by cleaning, and cleaning is idempotent |
| `Paths.CleanSteps` | helper/drive/session.go:877-883 | one more component after any path: a name goes down, an empty one or a dot stays, two dots go up and stop at the root |
| `Paths.CleanStart` | helper/drive/session.go:877-883 | a single component, with no slash before it, is taken from the root |
| `Paths.RenderInjective` | helper/drive/session.go:774-780 | clean absolute paths and component lists correspond one to one, so path keys cannot collide |
| `Paths.DirBaseOfChild` | helper/drive/session.go:390-391 | `path.Dir` and `path.Base` undo appending a component |
| `Paths.ChildPathOfRender` | helper/drive/events.go:385 | the poller's string recipe names the child of the folder it is given |
| `Paths.PrefixIsAncestor` | helper/drive/session.go:799-801 | a prefix test with a trailing slash is the strict component-ancestor relation |
| `Paths.AtOrUnderIsAncestor` | helper/drive/session.go:796-805 | what the invalidation test matches for an ordinary path, for "/" and for "" |
| `Remote.PathUnique` | helper/drive/session.go:748-787 | in a well-formed tree a link has one path |
| `Remote.TargetUnique` | helper/drive/session.go:748-787 | in a well-formed tree a path names one link |
| `Metadata.MetaCache.constructor` | helper/drive/metacache.go:65-74 | an empty cache; a zero time to live becomes 30 seconds |
| `Metadata.MetaCache.GetStat` | helper/drive/metacache.go:78-86 | a stat younger than the time to live, else a miss |
| `Metadata.MetaCache.GetStatStale` | helper/drive/metacache.go:97-105 | any stat of the path, whatever its age |
| `Metadata.MetaCache.SetStat` | helper/drive/metacache.go:89-93 | stores one stat with the current time and changes nothing else |
| `Metadata.MetaCache.GetList` | helper/drive/metacache.go:109-117 | a listing younger than the time to live, else a miss |
| `Metadata.MetaCache.GetListStale` | helper/drive/metacache.go:128-136 | any listing of the path, whatever its age |
| `Metadata.MetaCache.SetList` | helper/drive/metacache.go:120-124 | stores one listing with the current time and changes nothing else |
| `Metadata.MetaCache.InvalidatePath` | helper/drive/metacache.go:141-150 | drops the stat, the listing and the parent's listing; nothing for the empty path |
| `Metadata.MetaCache.InvalidateLinkID` | helper/drive/metacache.go:155-166 | drops the first stat of the link in iteration order, with its two listings |
| `Metadata.MetaCache.InvalidateAll` | helper/drive/metacache.go:170-175 | drops everything |
| `Sessions.Session.constructor` | helper/drive/session.go:214-228 | all maps start empty |
| `Sessions.Session.RootNodeKeyRing` | helper/drive/session.go:857-875 | the root keyring, cached after the first success |
| `Sessions.Session.ResolvePath` | helper/drive/session.go:724-746 | computes `Resolve`: the fast path, else seeding the root and walking, with everything left in the caches on success and on failure |
| `Sessions.Session.WalkDown` | helper/drive/session.go:748-789 | the loop over components computes `Walk` |
| `Sessions.Session.StepDown` | helper/drive/session.go:749-787 | one round of the loop: what is listed, learned and returned in each of its outcomes |
| `Remote.FindsFirst` | helper/drive/session.go:397-405 | of several children with the wanted name the first listed is taken |
| `Sessions.FindChild` | helper/drive/session.go:397-405 | the first child whose name decrypts to the wanted one |
| `Sessions.Session.ListChildren` | helper/drive/session.go:312-343 | fresh cache, else fetch and store, else the stale entry if the failure is an offline one |
| `Sessions.Session.StatAt` | helper/drive/session.go:350-372 | fresh cache, else look up and store, else the stale entry if the failure is an offline one |
| `Sessions.Session.StatNetwork` | helper/drive/session.go:375-408 | the root from its link, anything else from the parent's listing |
| `Sessions.DropKeys` | helper/drive/session.go:799-804 | the deletion loop removes exactly the keys with the prefix |
| `Sessions.Session.InvalidateByPath` | helper/drive/session.go:796-805 | metadata dropped and the forward map pruned |
| `Sessions.Session.InvalidateByLink` | helper/drive/session.go:809-814 | metadata of the link dropped, and at most one forward entry |
| `Sessions.Session.InvalidateEverything` | helper/drive/session.go:817-820 | metadata and forward map emptied |
| `PathCache.ResolveLearns` | helper/drive/session.go:724-790 | whatever fails on the way, a lookup only adds forward entries that are right and paths of links that are right, and never touches other entries |
| `PathCache.StatLearns` | helper/drive/session.go:350-408 | `Stat`, too, only adds right entries to the path caches and never touches others |
| `PathCache.ListLearns` | helper/drive/session.go:312-343 | so does `ListChildren` |
| `Answers.AnswersAreTrue` | helper/drive/session.go:312-408 | against an unchanging tree, after any lookups and invalidations with any failures, through fresh, expired and offline entries: a successful `ListChildren` returns the listing of the link the walk reaches, a successful `Stat` that link, and for "/" an answer the server gave for the root link |
| `Answers.ListAnswers` | helper/drive/session.go:312-343 | one listing keeps every cached listing and stat true, and its answer is the listing of the link its path leads to |
| `Answers.StatAnswers` | helper/drive/session.go:350-408 | so does one stat, and its answer is the link its path leads to, the root's included |
| `Replies.ResolveReplies` | helper/drive/session.go:724-790 | `resolvePath` gives the link of the path or exactly the first thing that goes wrong on the way: the server's error, a missing name, a key that does not decrypt |
| `Replies.ResolveLeavesListings` | helper/drive/session.go:749-753 | a lookup caches the listing of every folder it lists, also when it goes on to fail |
| `Replies.ListReplies` | helper/drive/session.go:312-343 | without a fresh entry `ListChildren` gives a listing fetched by this call, or the cached entry exactly if what went wrong is being offline, or else that error |
| `Replies.StatReplies` | helper/drive/session.go:350-408 | the same for `Stat` and its own cached entry, with every error named, the root's included |
| `Replies.StatFinds` | helper/drive/session.go:350-408 | when the server answers, `Stat` finds the root and every path whose folder can be read, whatever is cached, expired or fresh |
| `Replies.ListFinds` | helper/drive/session.go:312-343 | and `ListChildren` lists every readable folder |
| `Replies.EverythingIsFound` | helper/drive/session.go:312-408 | so it is after any lookups and invalidations with any failures |
| `Replies.ListDown` | helper/drive/session.go:320-338 | with the network down, in any state: a folder is listed if and only if some listing of it is cached, and as cached |
| `Replies.StatDown` | helper/drive/session.go:357-372 | likewise a stat: from its fresh entry, from a cached listing of a folder that needs no request, or from its own entry, in that order |
| `Replies.ListedStaysListed` | helper/drive/session.go:320-338 | while requests fail only as offline, a readable path once listed can always be listed |
| `Replies.StattedStaysStatted` | helper/drive/session.go:357-372 | and one once stat'ed can always be stat'ed |
| `Replies.NothingStaleOnline` | helper/drive/session.go:320-372 | if no request fails as offline nothing stale is served, and no answer claims to be offline |
| `PathCache.FastPathRefinesWalk` | helper/drive/session.go:724-790 | against an unchanging tree, after any lookups and invalidations with any failures, a successful `resolvePath` returns the link and keyring of the root-to-leaf walk and nothing else |
| `PathCache.ResolveFinds` | helper/drive/session.go:724-790 | with correct caches and a server that answers, every readable path is found |
| `PathCache.WalkMakesAncestorsHits` | helper/drive/session.go:779-780 | after a successful walk the path and all its ancestors resolve with no request at all |
| `PathCache.SlowSuccessListsAncestors` | helper/drive/session.go:753 | and every folder walked through has a fresh listing |
| `PathCache.RepeatedStatIsCached` | helper/drive/session.go:350-372 | a stat just fetched is answered from the cache while its age is below the time to live, and taken anew from then on |
| `PathCache.RepeatedListIsCached` | helper/drive/session.go:312-343 | a listing just fetched is answered from the cache while its age is below the time to live, and fetched anew from then on |
| `PathCache.InvalidatePathExact` | helper/drive/session.go:796-805 | on clean keys exactly the path and its component descendants are forgotten; "/" and "" are the exceptions |
| `Events.EventPoller.Add` | helper/drive/events.go:412-421 | appends, dropping the oldest event when 64 are queued |
| `Events.EventPoller.Drain` | helper/drive/events.go:115-124 | hands out the whole queue and empties it |
| `Events.EventPoller.EmitDifferences` | helper/drive/events.go:391-407 | one event for each name present on one side only, in iteration order |
| `Events.EventPoller.DiffAndEmit` | helper/drive/events.go:358-410 | computes `Diff`: reverse map, stored listing, queue and success |
| `Events.Names` | helper/drive/events.go:360-366 | the decryptable names of a listing, later links winning |
| `Events.WithChildPaths` | helper/drive/events.go:379-388 | the reverse map with the paths of all named children |
| `Events.EventPoller.OnDelete` | helper/drive/events.go:221-237 | the delete branch computes `HandleDelete` |
| `Events.EventPoller.OnCreate` | helper/drive/events.go:239-284 | the create branch computes `HandleCreate`, with its name lookup and both fallbacks |
| `Events.EventPoller.OnUpdate` | helper/drive/events.go:286-349 | the update branch computes `HandleUpdate`, with both diffs, the trash check and the fallback |
| `Events.EventPoller.Handle` | helper/drive/events.go:211-350 | handling one event computes `Handled` on caches, block store and queue |
| `Events.EventPoller.HandleBatch` | helper/drive/events.go:175-177 | events are handled in order |
| `Events.EventPoller.SaveAnchor` | helper/drive/events.go:198-209 | a failed write leaves the old anchor |
| `Events.EventPoller.Poll` | helper/drive/events.go:143-181 | computes `Polled`: error, lost anchor, refresh and batch |
| `Coherence.HandledForwardMap` | helper/drive/events.go:211-350 | the forward entries an event leaves, read off the reverse map alone |
| `Coherence.ReachesKept` | helper/drive/events.go:211-350 | a path that does not pass through the changed link leads where it led before |
| `Coherence.SurvivorsRightIff` | helper/drive/session.go:796-805 | the entries left by pruning agree with the new tree if and only if every entry at or under the link's old path was pruned |
| `Coherence.EventCoherenceExact` | helper/drive/events.go:211-350 | after the event of a link that left its path, the forward map agrees with the new tree if and only if every entry at or under that path is pruned |
| `Coherence.EventCoherence` | helper/drive/events.go:217-305 | in particular if the reverse map holds the link's path or nothing; creations always |
| `Records.LookupRecords` | helper/drive/session.go:724-790 | what any lookup leaves in both path maps: each link on the path it gets through, at its true path, and nothing else |
| `Records.EventRecords` | helper/drive/events.go:211-350 | what any event leaves in the reverse map: the named children of the one folder it lists, or the created link, or one link forgotten |
| `Records.EventRestocks` | helper/drive/events.go:211-410 | what any event leaves in the metadata, the forward map and the request count, whatever the server answers: what it drops, and the one listing it fetches |
| `EventRuns.HandledReverseMap` | helper/drive/events.go:257-264 | every path an event records is derived from the recorded path of the parent |
| `EventRuns.MoveKeepsInvIff` | helper/drive/events.go:143-350 | a lookup, remote change, late event or refresh leaves every entry that leads elsewhere than the walk one that a pending event prunes, if and only if the move is harmless, a condition on the state before it |
| `EventRuns.DepartureHarmlessIff` | helper/drive/session.go:796-805 | a change of a link that leaves its path is harmless if and only if each right entry at or under that path is one its event or an earlier one prunes |
| `EventRuns.UndisturbedLookupIsHarmless` | helper/drive/session.go:778-780 | a lookup is harmless if it records no changed link, nor its folder, at a new path |
| `EventRuns.RunKeepsInvIff` | helper/drive/events.go:126-181 | the same equivalence for every state of a run |
| `EventRuns.CaughtUpIsCoherent` | helper/drive/events.go:141-181 | in every run of harmless moves, once no event is pending, all cached paths are right and `resolvePath` is the walk of the current tree |
| `Traces.MoveKeepsTracesIff` | helper/drive/events.go:143-350 | the corresponding equivalence for entries that are right and recorded right; here every remote change qualifies |
| `Traces.TracedRemoteIsHarmless` | helper/drive/events.go:211-350 | as long as the reverse map is right about every cached path that no pending event prunes, no remote change does harm |
| `Traces.PromptRunStaysCoherent` | helper/drive/events.go:211-350 | if each change is handled before the next lookup, all cached paths stay right, with no further hypothesis |
| `EventRuns.StaleEntryStays` | helper/drive/session.go:724-790 | lookups never correct the entry of a path that leads nowhere |
| `EventRuns.LookupBeforeEventLeavesStaleEntry` | helper/drive/session.go:779 | a lookup between a rename and its event leaves the old path resolving, right after the event and through any further lookups |
| `Batches.BatchForwardMap` | helper/drive/events.go:175-177 | a batch leaves exactly the entries none of its events prunes by the paths recorded when its turn comes |
| `Batches.BatchCoherentIff` | helper/drive/events.go:175-177 | after a batch the forward map agrees with the tree if and only if each wrong entry is pruned by one of its events |
| `Batches.BatchCoherentForeseen` | helper/drive/events.go:175-177 | the same condition read off the session before the batch, with the paths each event records in turn |
| `Batches.TwoRenamesLeaveStaleEntry` | helper/drive/events.go:316-324 | two files of the root renamed and handled in one batch: the first event's diff records the second's new path, and its old path goes on resolving |
| `Freshness.StrikeRenews` | helper/drive/events.go:220-324 | what an event strikes holds only data requested from then on |
| `Freshness.EventDropsExactly` | helper/drive/metacache.go:141-166 | exactly which cached stats and listings an event removes and which listing it brings back; every other entry is served as before |
| `Freshness.DescendantsSurvive` | helper/drive/metacache.go:141-150 | in particular what is cached strictly below the struck paths survives |
| `Freshness.NoStaleSurvivor` | helper/drive/session.go:312-372 | after an event no continuation, offline answers included, serves struck paths or their parents' listings from before it |
| `Freshness.ListIsRecentIff` | helper/drive/session.go:312-343 | a listing that is served is younger than the time to live if and only if it is no fallback on a cached entry after a failure |
| `Freshness.StatKeepsAgeIff` | helper/drive/session.go:350-408 | a stat keeps every cached stat stamped within one time to live of its data if and only if it does not store what an expired listing of the parent says when listing it again fails offline |
| `Freshness.RunAgesIff` | helper/drive/session.go:350-408 | the same equivalence for every state of a run of lookups, events and refreshes |
| `Freshness.StalenessBound` | helper/drive/metacache.go:78-124 | in every run in which no stat does so, whichever requests fail: a listing that is served is younger than the time to live if and only if it is no fallback on a cached entry, a stat younger than twice that unless it is one |
| `Freshness.OfflineStatRestampsOldData` | helper/drive/session.go:332-337 | offline, an expired listing is stored again as a fresh stat and served online later |
| `Announcements.HandledQueue` | helper/drive/events.go:211-410 | what handling an event adds to the queue, as a function of the state before it |
| `Announcements.CreationIsAnnounced` | helper/drive/events.go:248-263 | a creation is announced at the new link's true path, which the reverse map then holds |
| `Announcements.DiffAnnouncedIff` | helper/drive/events.go:358-410 | whenever it runs, a diff announces exactly the children whose name the cached listing lacks and the cached names no child has now |
| `Announcements.ArrivalAnnouncedIff` | helper/drive/events.go:307-324 | however late an update is handled: the name the link has now is announced if and only if its own listing is not fetched again, its folder's is, and the listing cached before lacks the name |
| `Announcements.DepartureAnnouncedIff` | helper/drive/events.go:307-337 | however late: the link is announced gone from a path if and only if its own listing is not fetched again, and either its folder's is and the path is a name cached for it that no child has now, or the server says it is in the trash and the path is the recorded one |
| `Announcements.TrashingAnnouncedIff` | helper/drive/events.go:307-337 | handled before the next change, with listings cached before it: a trashing is announced if and only if the link's own listing is not fetched again and either its folder's is or the server says where it went; the path is forgotten only in the last case |
| `Announcements.RenameAnnouncedIff` | helper/drive/events.go:307-407 | handled before the next change, with listings cached before it: a rename is announced, as the new name there and as the old one gone, if and only if the link is not itself a listed folder listed again, and its folder is one |
| `Announcements.MoveAnnouncedIff` | helper/drive/events.go:307-407 | handled before the next change, with listings cached before it: a move is announced at the new folder under the same condition; that the link left the old one is never announced |
| `Announcements.RenamedListedFolderIsSilent` | helper/drive/events.go:307-314 | an update of a listed folder whose children did not change queues nothing, keeps its recorded path and leaves a fresh listing there, wherever the folder has gone |
| `Views.EventIsAnnounced` | helper/drive/events.go:211-410 | for every event handled before the next change: either the file manager is told to look at the folder or the link again, or applying what is announced turns the names shown into those the folder has now |
| `Views.OwnDiffSparesFolder` | helper/drive/events.go:307-314 | except that an update which lists the link itself says nothing about the folder the link is in |
| `Views.OwnDiffViewIff` | helper/drive/events.go:307-314 | so that after it the view of that folder is right if and only if its names did not change |
| `BatchViews.EventKeepsInStep` | helper/drive/events.go:211-410 | however late an event is handled: if the view of a folder agrees with its cached listing before, it does afterwards, whatever is dropped, fetched and announced |
| `BatchViews.BatchQueue` | helper/drive/events.go:175-177 | what a whole batch adds to the queue |
| `BatchViews.BatchIsShown` | helper/drive/events.go:175-177 | after a whole batch, however late, a folder with a cached listing is shown with exactly the names in it; if the batch fetched that listing, they are the names the folder has in the tree |
| `Polls.BlocksAreDropped` | helper/drive/events.go:226-305 | deletions and updates drop every cached block of the link and no other |
| `Polls.PollMovesOnlyWhenSafe` | helper/drive/events.go:143-181 | the anchor moves only after the whole batch was handled or everything was dropped |
| `Polls.RefreshKeeps` | helper/drive/session.go:817-820 | what a refreshing poll empties, and that it keeps recorded paths, keyrings, blocks and request count and queues one event |
| `Polls.EventAfterRefresh` | helper/drive/events.go:211-350 | an event after a refresh prunes and announces by the paths recorded before it |
| `Polls.PollIsSteps` | helper/drive/events.go:143-209 | every poll is a sequence of steps of the anchor machine, agreeing on the anchor, the anchor file, the events handled and whether everything cached was dropped |
| `Notifications.QueueIsNewest` | helper/drive/events.go:412-421 | in every run the queue is the last 64 events since the last drain |
| `Notifications.DrainsAreSubsequence` | helper/drive/events.go:115-124 | the drains, concatenated, are an in-order subsequence of all events |
| `Notifications.QueueIsLossless` | helper/drive/events.go:16-22 | and lose nothing if at most 64 events come between drains |
| `Notifications.DiffReplays` | helper/drive/events.go:391-407 | applying a diff's events in any order turns the old names into the new ones, one event a name |
| `Notifications.ArrivalsFirst` | helper/drive/events.go:391-407 | a diff tells of every arrival before any departure |
| `Notifications.DiffAndEmitReplays` | helper/drive/events.go:358-410 | the same for the events a diff adds to the queue, and the reverse map holds every named child |
| `BlockStore.BlockCache.GetBlock` | helper/drive/blockcache.go:86-95 | the cached bytes, and a new modification time on a hit |
| `BlockStore.BlockCache.PutBlock` | helper/drive/blockcache.go:103-120 | a failed write changes nothing; a successful one is followed by eviction |
| `BlockStore.BlockCache.InvalidateLink` | helper/drive/blockcache.go:72-74 | removes exactly the link's blocks |
| `BlockStore.WalkDir` | helper/drive/blockcache.go:132-146 | every file listed once, and the sum of all sizes |
| `BlockStore.SortByAge` | helper/drive/blockcache.go:152-154 | an age-ordered permutation of the files |
| `BlockStore.BlockCache.EvictIfNeeded` | helper/drive/blockcache.go:131-168 | eviction is ordered and minimal, also when removals fail |
| `BlockStore.EvictionIsOrderedAndMinimal` | helper/drive/blockcache.go:156-167 | when removals succeed the target is met, no file goes before an older one, and without the last removal the target is missed |
| `BlockStore.NewestSurvives` | helper/drive/blockcache.go:103-120 | the block just written survives if it is strictly newest and fits the target |
| `BlockStore.ReadBlockGoesLast` | helper/drive/blockcache.go:86-95 | a block that was read is evicted only after every removable block not used since |
| `BlockStore.ReadBlockSurvives` | helper/drive/blockcache.go:86-168 | one read last stays when the next block is stored, if both fit the target |
| `BlockStore.CacheStaysBounded` | helper/drive/blockcache.go:86-168 | in every state of every run with successful removals the cache is within its limit |
| `BlockReads.ReachableCacheIsSound` | helper/drive/blockcache.go:72-120 | every reachable cache holds true blocks, if true blocks were put |
| `BlockReads.ReadFromCache` | helper/drive/session.go:514-535 | computes `CachedRead` and changes no cached data |
| `BlockReads.SliceOfBlocks` | helper/drive/session.go:539-553 | trimming whole blocks gives the plain slice of the file |
| `BlockReads.OfflineReadIsExact` | helper/drive/session.go:514-535 | an offline read succeeds if and only if every overlapping block is cached, and returns the requested slice |
| `BlockReads.OverflowingOfflineReadIsEmpty` | helper/drive/session.go:520-523 | past the 64-bit range it returns nothing |
| `BlockReads.EmptyFileIsNeverReadOffline` | helper/drive/session.go:523 | for an empty file it looks for block 0 and fails |
| `BlockReads.ReadBlock` | helper/drive/session.go:476-505 | one listed block, cached or fetched, is that block of the file, the cache stays sound, and a fetched block is stored |
| `BlockReads.ReadListed` | helper/drive/session.go:475-506 | the loop over the listed blocks assembles their slice of the file, or stops at the first that cannot be had, storing what it fetches |
| `BlockReads.ReadFileContent` | helper/drive/session.go:448-509 | whatever is cached, a successful online read is the requested slice cut only by the page; which failures surface; within the limit every listed block is cached afterwards and none is lost; offline it is the cached read |
| `BlockReads.ReadFillsCache` | helper/drive/session.go:497-503 | a read within the cache's limit leaves every listed block in the cache, as it was cached or downloaded, and takes none out |
| `BlockReads.MissingWasEvicted` | helper/drive/blockcache.go:131-168 | otherwise a block that is missing was evicted by the storing of a listed one, with the cache over its limit |
| `BlockReads.OfflineAfterOnline` | helper/drive/session.go:448-535 | so the same range can be read offline straight after, with the same bytes |
| `BlockReads.OnlineRangeIsRequested` | helper/drive/session.go:448-509 | requests of up to 499 blocks are not cut |
| `BlockReads.OnlineAndOfflineAgree` | helper/drive/session.go:448-535 | online and offline reads agree on such requests |
| `Streaming.EofIsHonestIffPageCovers` | helper/main.go:286-295 | eof means end of file exactly when one page covers the request |
| `Streaming.EofIsHonestForShortReads` | helper/main.go:286-295 | so eof is honest for every read of at most 499 blocks |
| `Streaming.EofIffShort` | helper/main.go:286-295 | eof is reported exactly by a read that delivers less than it names, so by every empty one |
| `Streaming.Handle.ReadFile` | backend/proton-rpc.c:361-398 | at most the requested bytes are copied, the rest of the buffer is untouched |
| `Streaming.Handle.Read` | backend/gvfsbackendproton.c:598-624 | the offset advances by the bytes delivered, and stays on an error |
| `Streaming.DeliveredIsNext` | backend/gvfsbackendproton.c:598-624 | a read delivers the next bytes, and none exactly at the end of the file |
| `Streaming.StreamIsPrefix` | backend/gvfsbackendproton.c:598-624 | any sequence of reads delivers the file up to the offset |
| `Streaming.UntilEmpty` | backend/gvfsbackendproton.c:598-624 | reading until nothing comes terminates and yields the rest of the file |
| `Anchors.NextKeepsInv` | helper/drive/events.go:143-209 | each step of start, poll, handling, re-anchoring, saving and crashing keeps the invariant |
| `Anchors.AnchorNeverSkips` | helper/drive/events.go:84-209 | over every interleaving the anchor file never passes an event neither handled nor covered, the helper never passes an event newer than a live datum unhandled, and the file is never ahead of the helper |
| `Anchors.ResumesWhereSaved` | helper/drive/events.go:84-209 | a save writes the helper's position, and after any crashes, failed writes and other steps short of another save the next start resumes exactly there |
| `Anchors.AnchorlessStartIsSafeIffClean` | helper/main.go:187-188 | without a persisted anchor the start is safe if and only if no event arrived since the oldest datum cached |
| `Rpc.DispatchAnswers` | helper/rpc/server.go:69-84 | a response has the handler's value, and then no error; else the handler's own failure, or an internal error with its message, or one naming the unknown method |
| `Rpc.ServeKeepsOrder` | helper/rpc/server.go:36-67 | reader, channel and responder neither lose, duplicate, reorder nor alter a request, and answer it with what its handler did |
| `Rpc.OneResponsePerRequestInOrder` | helper/rpc/server.go:36-84 | responses answer the well-formed requests in order, one each, each with its own handler's value, its failure, or an internal error |
| `Rpc.ResponsesMatchCalls` | backend/proton-rpc.c:119-158 | in every run with cancellations anywhere, failed reconnections and unreadable lines: no identifier is reused, each request is handled at most once and under the name its call sent, and a response `call` returns tells what the handler did with that very request |
| `Rpc.CallAnswersIff` | helper/rpc/server.go:69-84 | that response is an answer exactly if the handler produced a value, and then it carries that value |
| `Rpc.ProtonRpc.Reconnect` | backend/proton-rpc.c:96-117 | a new connection, or none if it fails |
| `Rpc.ProtonRpc.Call` | backend/proton-rpc.c:119-158 | which outcomes are answers, that only a cancellation replaces the connection, and that after a failed reconnection every call is an error |
| `Monitors.MatchesIsAncestor` | backend/gvfsbackendproton.c:170-174 | on clean paths the string test is the component-wise ancestor-or-self relation, "/" included |
| `Monitors.Backend.RegisterMonitor` | backend/gvfsbackendproton.c:233-251 | appends a live entry |
| `Monitors.Backend.EmitOnMonitors` | backend/gvfsbackendproton.c:150-183 | exactly the live matching monitors are told, each once, in order; all of them about themselves when the path is unknown |
| `Monitors.Backend.PollEvents` | backend/gvfsbackendproton.c:186-229 | each drained event is put to the monitors in turn with its kind |
| `Monitors.ToldIffAtOrAbove` | backend/gvfsbackendproton.c:150-183 | a live monitor is told of a file if and only if it is at or above it |
| `Monitors.QueuedIsTold` | backend/gvfsbackendproton.c:150-229 | a queued event reaches exactly the live monitors at or above its path, as what it is; without a path each live monitor reports its own path changed |
| `Accounts.RemoteVolumeMonitor.OnAccountAdded` | volume-monitor/proton-remote-volume-monitor.vala:124-129 | stores the volume and signals it |
| `Accounts.RemoteVolumeMonitor.OnAccountRemoved` | volume-monitor/proton-remote-volume-monitor.vala:131-138 | removes and signals a known volume, ignores an unknown one |
| `Accounts.RemoteVolumeMonitor.List` | volume-monitor/proton-remote-volume-monitor.vala:62-74 | every volume once |
| `Accounts.AccountWatcher.OnDbusAccountAdded` | volume-monitor/proton-account-watcher.vala:155-167 | an unknown account is recorded and announced, a known one ignored |
| `Accounts.AccountWatcher.OnDbusAccountRemoved` | volume-monitor/proton-account-watcher.vala:169-181 | a known account is dropped and announced, an unknown one ignored |
| `Accounts.AccountWatcher.Reload` | volume-monitor/proton-account-watcher.vala:109-134 | afterwards exactly the found accounts are known, reached by additions of found and removals of missing ones only |
| `Accounts.SignalsMirrorAccounts` | volume-monitor/proton-account-watcher.vala:98-181 | over any interleaving of scans and signals each account's signals alternate, volumes and accounts agree, and a client following the signals shows exactly the identifiers of the volumes `list` returns |
| `Accounts.RescanIsSilent` | volume-monitor/proton-account-watcher.vala:117-134 | a scan that finds what is known emits nothing |
| `RunLength.CompressArray` | proton-drive-setup:166-196 | the code decodes to the list whatever follows it, is at most (4n + 5) / 3 long, and writes every stretch of equal values as one run |
| `RunLength.CombineArrays` | proton-drive-setup:199-206 | four concatenated codes come apart again with nothing left over |

## Left out

- Unsynchronised access to the session's maps from several goroutines, and fetches in flight while an entry is invalidated: operations are atomic here.
- Authentication, key unlocking, human verification and the cryptography of `MakeDir`: foreign libraries; keyrings and names are values.
- `MakeDir`, `Delete` and `Move`: they call the server and at most drop the parent's metadata, or are a stub.
- JSON and base64 encoding: messages are values. The RPC identifiers are unbounded numbers.
- Real file-system behaviour: writes to the block store and the anchor file are atomic, and removing emptied directories and migrating old whole-file entries are not modelled.
- The floating-point eviction target: a number between 0 and the limit.
- The share keyring: fetching share, root link and root keyring is one request.
- `EventRuns.CaughtUpIsCoherent`: holds for runs of harmless moves; `MoveKeepsInvIff` shows that harmlessness is exactly what keeps every wrong entry within reach of a pending event, the two counterexamples that it can fail. A run that loses a wrong entry may still recover, when the path is invalidated or becomes right again.
- `Freshness.StalenessBound`: holds for runs in which no stat stores expired data; `RunAgesIff` shows that this is exactly what is needed.
- `Views.EventIsAnnounced`: speaks of one event handled before the next change, of the queued events before the queue drops any, and of children whose names are proper path components.
- `Announcements.RenameAnnouncedIff`: like `MoveAnnouncedIff` and `TrashingAnnouncedIff`, for an event handled before the next change, with cached listings as they were before it; `ArrivalAnnouncedIff` and `DepartureAnnouncedIff` have no such hypothesis.
- `BatchViews.BatchIsShown`: says nothing of folders with no cached listing after the batch, and supposes that a listing an event compares with was cached for the folder it lists.
- `Anchors.AnchorNeverSkips`: holds for runs in which every start without a readable anchor is clean; `AnchorlessStartIsSafeIffClean` shows that this is exactly what is needed.
- `BlockReads.OfflineAfterOnline`: supposes that the page of blocks covers the request; `OnlineRangeIsRequested` says when it does.
- `Rpc.ResponsesMatchCalls`: assumes that a failed send or a failed read makes the connection unusable.
- `Rpc.ProtonRpc.Call`: after a failed reconnection the C code keeps a dangling writer; writing to it is modelled as having no effect but success or failure.
- `Notifications.DiffAndEmitReplays`: states replay only for a diff whose events fit the queue.
- The clock moving during one operation: each operation reads it once.
- `path.Dir` of a relative path: every recorded path starts with a slash.
- Thumbnails, error classification, `do_mount`, volume serialisation and the GVfs start-up code: plumbing with no state of interest.
- The 16-bit packing, compression and masking after the run-length encoding.
