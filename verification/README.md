# Direct-message sync, uploads and layout rules, modelled and proved

This project models the parts of the client that are hardest to get right by hand, and proves what they are meant to keep:

* **The conversation journal protocol** (`convSyncRules.ts`, `convStore.ts`, `convCacheRules.ts`). The server numbers every
  change a person can see (`pts`). Pushed events arrive in any order, with repetitions and gaps; catch-up replies, full
  lists and history pages are snapshots taken at other moments. The client buffers, drains and merges all of it into
  bounded windows of messages, each part with its own freshness number, and keeps a record on disk.
* **The draft writer** (`convStore.ts`, `convSyncRules.ts`), **the resumable upload in parts** (`chunkedUpload.ts`).
* **Four small algorithms**: album layout (`bubbleRules.ts`), channel reordering (`channelSidebarRules.ts`), rows that
  appear and leave (`bubbleMotion.ts`), avatar cropping (`avatarCropRules.ts`).

## How it is built

`Feed` has messages, their order, and feeds (strictly ordered, one entry an id). `SyncRules` has the state and every merge
rule; `SyncLoops` has the rules that the client computes with loops, each proved equal to its rule. What each rule does,
message by message and conversation by conversation, is stated without the pieces it is computed from: `PageEffect` for
pages, `ReplyEffect` for views, replies and pages from another instance, `Standings` for events, catch-up replies and lists.

`Journal` is the server: a sequence of changes, and what each message looks like after each of them (`ViewAt`). It assumes
what the server guarantees: an id is sent once and before anything else happens to it, a new message gets the largest key
of its conversation, edit times do not go back. It also assumes that every message a person can see was sent under a
number of that person's own journal. History pages and catch-up replies are read in one repeatable-read transaction, so a
page is exactly the journal at its number.

`Windows` defines when a window is right (`WinInv`): every listed message contains all its changes up to the journal
position and up to its own number; every message that exists, is known to the window and falls inside it is listed. The
ghost set `known` is what the window accounts for: at least every birth up to the position and up to `basePts`, and every
birth whose number the client keeps for a message it no longer lists. A window is right if it is right for some `known`;
then it is so for the least one, `Account` (`AccountEnough`).
`WindowRules`, `PageMerge` and `PageSafety` prove that each rule keeps it. The three rules that do not always keep it have
an exact condition, for every right window: a page (`PageKeepsWindowIff`), the reply to an own send
(`SentKeepsWindowIff`), a full list (`ListKeepsWindowIff`); where it fails the window is right for no `known` at all. For
a page the condition has five parts: the views it brings are current, and in none of four ways a hole opens
(`PageHolesIff`). There is also one that a client could check without the journal, all but its last two parts
(`PageKeepsWindow`).

`Client` and `ClientRuns` put a whole client beside the journal (`World`), prove that every step keeps every window right,
and what a client that has caught up shows. A `World` carries the set of conversations it makes claims about (`sound`). A
conversation leaves the set only when its window really is wrong (`LostIsWrong`), and comes back with the first page that
takes the place of the window (`ReplacingPageRecovers`).

`StoreSteps` and `ConvStore` are the store itself: a class whose methods are the pieces of the source's async functions
between two awaits. A suspended `runSync` or history request is an entry of `loops` or `requests`, a reply is one more
method, so any order of method calls is an interleaving. `Consumption` says how the journal was consumed, and every
summary is the newest standing consumed (`SummaryIsNewest`). `Cache` is the
record on disk, `Restart` takes it from one store to the next, and `Races` has the short histories in which a condition
fails.

## Where the code falls short of its intent

Each of these is a history that the client can go through, and next to it the exact condition under which it does not.
The four ways in which a page opens a hole are the four parts of `PageMerge.HolesFit`: by `PageSafety.PageHolesIff` there
is no hole exactly when all four hold.

* **A page older than the journal position** can show an old view for good (`Races.LatePageShowsOldView`): an event about a
  message that is not listed is dropped, and the page that was on its way brings the view from before it. A merged page
  that opens no hole leaves a right window exactly when nothing touched the messages it brings between its number and the
  position (`PageSafety.PageIsCurrentIff`; for an older page, `Races.OlderPageIsCurrentIff`). "Right" here is about
  numbers: a change that alters nothing visible counts too. Every view that is shown is current exactly when those taken
  from the page are (`PageSafety.PageShowsCurrentIff`).
* **A jump forgets no numbers.** The numbers of the messages it throws out stay, so a last page on its way loses them and
  the window claims to start where it does not (`Races.JumpLeavesNumbers`): exactly when a message of the page that still
  exists is dropped inside the merged window (`PageSafety.DroppedIff`).
* **A page that reaches the end** can hide a message for good (`Races.LateTailHidesMessage`), for the same reason as in the
  first case: exactly when something sent in between still exists (`PageSafety.NewerTailIff`, and `TailIff` for all
  kinds).
* **An own message without a number** can make a last page join a window it does not reach, whatever the length of the
  page (`Races.OwnMessageJoinsPage`): exactly when the old window, below what ties the page to it, lacks something that it
  did not vouch for (`PageSafety.AnchorIff`).
* **An old message that an event touches while a last page is on its way** stays below the page, whether the page reaches
  down to it or not, and the two become neighbours (`Races.LikedStaysBelow`; going down from an old place in the history
  while somebody reacts to what is on screen): exactly when something between the two is not listed
  (`PageSafety.BelowIff`).
* **The reply to an own send** into a window that is not at the tail opens a hole (`Races.SentBeyondWindowOpensHole`,
  `Races.SentBeyondWindowIff`); exactly when any such reply is right is `WindowRules.SentKeepsWindowIff`.
* **A full list** moves the position past windows opened before it and never asks for what they miss
  (`Races.ListPassesWindow`): the window is right afterwards in some sense exactly when it misses nothing
  (`WindowRules.ListKeepsWindowIff`).
* **A record from disk** that lands while the first list is on its way replaces the buffer (`Races.RecordKeepsReceivedIff`),
  drafts and their marks (`Drafts.RecordForgetsTyped`; exactly when, in any state, `Drafts.RecordMeetsTyping`).
* **A restart** shortens drafts of more than 4000 units (`Cache.DraftsSurviveIff`) and forgets all but 500 deletions
  (`Cache.DeletionsSurviveIff`).
* **A refused draft write** clears the mark even if the draft was changed while it was on its way; that change is written
  only after the next one (`Drafts.RefusedForgetsChange`; exactly when, in any state, `Drafts.ChangeMeetsAnswer`).

## Model

| member | source | states |
|---|---|---|
| `Feed.BeforeIsTotalOrder` | apps/client/src/convSyncRules.ts:146-149 | `compareConv` is a strict total order on messages with distinct ids and equal only for the same key and id |
| `Feed.SortMakesFeed` | apps/client/src/convSyncRules.ts:430-434 | sorting messages with distinct ids gives a strictly ordered feed with one entry an id |
| `Feed.SortOfFeed` | apps/client/src/convSyncRules.ts:430-434 | sorting a feed changes nothing |
| `Feed.DedupeMakesFeed` | apps/client/src/convSyncRules.ts:430-434 | `dedupe` gives a feed holding, of each id, exactly the last message of the input |
| `Feed.DedupeKeepsIds` | apps/client/src/convSyncRules.ts:430-434 | no id is lost or made up by `dedupe` |
| `SyncLoops.DrainPlanByLoop` | apps/client/src/convSyncRules.ts:189-204 | the loop over the buffer computes the drain rule, early return at the first gap included |
| `SyncLoops.DedupeByLoop` | apps/client/src/convSyncRules.ts:430-434 | filling the map by id and sorting its values is the dedupe rule |
| `SyncLoops.TakePageByLoop` | apps/client/src/convSyncRules.ts:358-370 | the loop over a page, which reads numbers it has just written, takes what the rule takes and numbers what it numbers |
| `SyncLoops.ApplyPageByLoop` | apps/client/src/convSyncRules.ts:351-406 | `applyPage` as computed is the merge rule, for all four kinds |
| `SyncLoops.TrimWindowByLoop` | apps/client/src/convSyncRules.ts:413-428 | `trimWindow` as computed is the trim rule |
| `SyncLoops.ApplyViaPageByLoop` | apps/client/src/convSyncRules.ts:1367-1382 | `applyViaPage` as computed is its rule |
| `SyncLoops.ListedByLoop` | apps/client/src/convSyncRules.ts:213-225 | the first loop of `applyList`: of each listed conversation the last entry, unless the client has a newer one |
| `SyncLoops.KeepNewerByLoop` | apps/client/src/convSyncRules.ts:226-231 | the second loop keeps exactly the client's own newer conversations that the list does not name |
| `SyncLoops.ApplyListByLoop` | apps/client/src/convSyncRules.ts:212-235 | `applyList` as computed is the list rule |
| `Buffering.BufferEventKeeps` | apps/client/src/convSyncRules.ts:180-183 | buffering keeps the buffer strictly increasing and adds exactly the number of the event, if it was not there |
| `Buffering.ArrivalOrderIrrelevant` | apps/client/src/convSyncRules.ts:180-183 | any two arrival orders of the same events, with repetitions, leave the same buffer |
| `Buffering.DrainIsMaximal` | apps/client/src/convSyncRules.ts:189-204 | what is applied is the longest run from the next number; all above it is kept; a gap is reported exactly when something is kept |
| `Buffering.DrainPlanIsMaximal` | apps/client/src/convSyncRules.ts:189-204 | the same for the whole plan, and nothing is left when the position is at or past every buffered number |
| `Buffering.NewestListWins` | apps/client/src/convSyncRules.ts:1040-1044 | of pins (and of scheduled messages) the list with the largest number stays, whatever the order of arrival |
| `FeedSafety.MessageKeepsTidy` | apps/client/src/convSyncRules.ts:301-329 | an event or catch-up view keeps a feed strictly ordered, with one entry an id and nothing that is gone |
| `FeedSafety.PageKeepsTidy` | apps/client/src/convSyncRules.ts:351-406 | a page of any kind and any content keeps a feed tidy, whatever was there before |
| `FeedSafety.SentKeepsTidy` | apps/client/src/convSyncRules.ts:440-447 | the reply to an own send keeps a feed tidy |
| `FeedSafety.RemovedKeepsTidy` | apps/client/src/convSyncRules.ts:463-472 | a confirmed deletion leaves the feed tidy and is remembered |
| `FeedSafety.ViaKeepsTidy` | apps/client/src/convSyncRules.ts:1367-1382 | a page from another instance keeps a feed tidy |
| `FeedSafety.ViaOnlyAdds` | apps/client/src/convSyncRules.ts:1367-1382 | a page from another instance changes no message that was listed, nor its number |
| `FeedSafety.PerformKeepsTidy` | apps/client/src/convSyncRules.ts:301-472 | every rule keeps every feed of the client tidy and never forgets a deletion |
| `FeedSafety.RunKeepsTidy` | apps/client/src/convSyncRules.ts:301-472 | so does every run of merges |
| `FeedSafety.DeletedNeverReturns` | apps/client/src/convSyncRules.ts:301-472 | a message deleted at any point of a run from the empty state is in no feed at any later point |
| `FeedSafety.TagsNeverFall` | apps/client/src/convSyncRules.ts:301-406 | while a message stays listed its freshness number does not fall, whatever is merged |
| `FeedSafety.RunTagsNeverFall` | apps/client/src/convSyncRules.ts:301-406 | the same over whole runs |
| `FeedSafety.NewestStandingWins` | apps/client/src/convSyncRules.ts:238-262 | of all standings of a conversation ("here is its summary", "you left") the one with the largest number decides, in any order of arrival |
| `FeedSafety.SummariesAgree` | apps/client/src/convSyncRules.ts:238-262 | two clients that show the same summary at some number and hear the same standings beyond it, each in its own order, with repetitions and others between, show the same summary again |
| `Standings.EventStanding` | apps/client/src/convStore.ts:414-421 | what an event says of its conversation is shown at its number unless something as new was known; a conversation left without a trace has no feed and no window; other conversations stay |
| `Standings.EventListsHeld` | apps/client/src/convStore.ts:414-421 | pins and scheduled messages of a conversation the person is in are held unless newer ones were; those of others stay |
| `Standings.SyncStanding` | apps/client/src/convStore.ts:443-457 | each conversation that a catch-up reply names shows what the reply says of it unless something as new was known; others stay |
| `Standings.SyncListsHeld` | apps/client/src/convStore.ts:451-456 | the lists of a reply are held if newer, for conversations still in the list of conversations |
| `Standings.SyncListsOnlyThere` | apps/client/src/convStore.ts:451-456 | a conversation that is not there after a reply takes no lists from it |
| `Standings.ListStanding` | apps/client/src/convSyncRules.ts:212-235 | after a full list a conversation shows what the list says of it last, what the client knows from something newer, or is gone |
| `Standings.ListWindows` | apps/client/src/convSyncRules.ts:232-234 | a window goes with its conversation, and only with it |
| `Trimming.TrimTopThenOlder` | apps/client/src/convSyncRules.ts:413-428 | cut at the top, then an older page of exactly the cut messages: the same feed, whatever the number of the page |
| `Trimming.TrimBottomThenNewer` | apps/client/src/convSyncRules.ts:413-428 | the same at the bottom with a newer page |
| `Trimming.TrimCutsEdge` | apps/client/src/convSyncRules.ts:413-428 | what a cut takes, tells the window and forgets; it never takes everything |
| `Trimming.KeptTagsRestoreIff` | apps/client/src/convSyncRules.ts:408-412 | had the numbers of cut messages been kept, reloading would restore the feed exactly when none of them is newer than the page |
| `Journal.BeforeIsBornEarlier` | packages/backend/src/conversations.ts:1380-1440 | in one conversation the order of the feed is the order in which messages were sent |
| `Journal.FreshAdvances` | apps/client/src/convSyncRules.ts:68-74 | a view stays up to date as long as nothing touches its message |
| `Journal.FreshAtEnd` | apps/client/src/convSyncRules.ts:68-74 | a view that is up to date at the end of the journal is what the server shows |
| `Journal.EditedReplyIsFresh` | apps/client/src/convSyncRules.ts:449-460 | taking an edit reply, or keeping a listed edit at least as late, makes a listed message no less up to date |
| `Windows.AccountEnough` | apps/client/src/convSyncRules.ts:68-81 | a window that is right in any sense is right with the least account: births up to the position and `basePts`, and those whose number is kept |
| `Windows.DeliverKeepsWindow` | apps/client/src/convSyncRules.ts:301-329 | an event or catch-up view, assembled at its number or later, keeps the window right; from then on the window accounts for its message |
| `WindowRules.TrimKeepsWindow` | apps/client/src/convSyncRules.ts:413-428 | cutting an edge keeps the window right |
| `WindowRules.SentKeepsWindowIff` | apps/client/src/convSyncRules.ts:440-447 | the reply to an own send leaves a window that is right in some sense exactly when it changes nothing, or adds a current view and draws nothing else that the window has to list inside |
| `WindowRules.InTimeFits` | apps/client/src/convSyncRules.ts:440-447 | that is so when it comes before the event of its message, or after it with the message listed or gone, and inside the window |
| `WindowRules.SentOfLastingFits` | apps/client/src/convSyncRules.ts:440-447 | and whenever the message still exists and falls inside the window, however late |
| `WindowRules.EditedKeepsWindow` | apps/client/src/convSyncRules.ts:453-460 | the reply to an own edit keeps the window right |
| `WindowRules.RemovedKeepsWindow` | apps/client/src/convSyncRules.ts:463-472 | a confirmed deletion keeps the window right |
| `WindowRules.ListKeepsWindowIff` | apps/client/src/convSyncRules.ts:212-235 | after a full list the window is right in some sense exactly when nothing the position moves past touched a listed message after its number, or was sent into the window and is not listed |
| `WindowRules.ListSafeFits` | apps/client/src/convSyncRules.ts:212-235 | that is so for a window with every number at least that of the list, which the client can check |
| `WindowRules.PositionKeepsWindow` | apps/client/src/convStore.ts:414-421 | moving the position keeps the window right once everything up to it is accounted for |
| `WindowRules.GrowthKeepsWindow` | packages/backend/src/conversations.ts:1789-1834 | changes that the client has not consumed make no window wrong |
| `ReplyEffect.ViewTakes` | apps/client/src/convSyncRules.ts:301-329 | a view is listed in the place of the old one, or where it belongs if the window has room for it, and its number kept; what is no news or has no room changes nothing |
| `ReplyEffect.TombTakes` | apps/client/src/convSyncRules.ts:308-312 | a tombstone removes the message and is remembered |
| `ReplyEffect.NoFeedKeepsDeletions` | apps/client/src/convSyncRules.ts:301-318 | without a feed only deletions leave a trace |
| `ReplyEffect.RemovalTakes` | apps/client/src/convSyncRules.ts:463-472 | a confirmed deletion removes the message, and is remembered, listed or not |
| `ReplyEffect.EditReplyTakes` | apps/client/src/convSyncRules.ts:453-460 | of the listed view and the reply to an own edit the later edit is shown; reactions and all other messages stay |
| `ReplyEffect.SentTakes` | apps/client/src/convSyncRules.ts:440-447 | an own message is listed where it belongs unless it is gone or listed; it gets no number of its own |
| `ReplyEffect.ViaTakes` | apps/client/src/convSyncRules.ts:1367-1382 | a window at its tail takes exactly what is neither listed nor gone from a page of another instance; any other window takes nothing |
| `PageMerge.MergedMembers` | apps/client/src/convSyncRules.ts:371-405 | exactly which messages the merged feed holds, in terms of the page and the old window |
| `PageMerge.DedupeOfConsistent` | apps/client/src/convSyncRules.ts:430-434 | when entries with one id are the same message, dedupe only sorts |
| `PageEffect.PageListsExactly` | apps/client/src/convSyncRules.ts:351-406 | the merged feed of any page, in terms of what was listed, the numbers kept and the page alone: ordered, and holding exactly the views the page brings, old ones ahead of it, and old ones below a last page that they reach, if more lies before it and the window is not stale |
| `PageEffect.PageSetsWindow` | apps/client/src/convSyncRules.ts:374-405 | flags and tail number of the window afterwards, for each kind; no other window changes |
| `PageEffect.PageNumbers` | apps/client/src/convSyncRules.ts:358-370 | a message of the page gets the number of the page unless it is gone or known in a newer view; nothing else changes |
| `PageEffect.StaleStartsOver` | apps/client/src/convSyncRules.ts:382-397 | the first last page starts a stale window over: what is listed afterwards is on the page or newer than it, and the window is stale no longer |
| `PageSafety.PageKeepsWindowIff` | apps/client/src/convSyncRules.ts:351-406 | after a page of any kind, at any number, the window is right in some sense exactly when the views it brings are current and it opens a hole in none of four ways; it then accounts for the least that any right window there accounts for |
| `PageSafety.PageHolesIff` | apps/client/src/convSyncRules.ts:358-405 | no hole exactly when: no message of the page that still exists is dropped inside; what came after a page that reaches the end stays; below what ties the page to the old window that window has no hole; between an old message that stays and a page above it nothing is missing |
| `PageSafety.DroppedIff` | apps/client/src/convSyncRules.ts:359-366 | with the other three in order, no hole exactly when no message of the page that still exists is dropped inside the merged window |
| `PageSafety.BelowIff` | apps/client/src/convSyncRules.ts:385-395 | with the other three in order, no hole exactly when everything between a kept newer message and the first of the page is listed |
| `PageSafety.PageKeepsWindow` | apps/client/src/convSyncRules.ts:351-406 | that is so for a page whose new views are as new as the position, none of whose messages is dropped, that claims no end or start the client has grown past, and whose tie to the old window is one that window vouches for |
| `PageSafety.PageIsCurrentIff` | apps/client/src/convSyncRules.ts:358-370 | a page that opens no hole leaves a right window exactly when nothing touched its messages between its number and the position |
| `PageSafety.PageShowsCurrentIff` | apps/client/src/convSyncRules.ts:358-370 | every view in the merged feed is as new as the position exactly when those taken from the page are |
| `PageSafety.AnchorIff` | apps/client/src/convSyncRules.ts:382-391 | a page tied to the old window leaves no hole exactly when below the tie that window lists also what it did not vouch for |
| `PageSafety.KnownAnchor` | apps/client/src/convSyncRules.ts:384-387 | a tie to a message sent no later than the position or `basePts` is enough |
| `PageSafety.TailIff` | apps/client/src/convSyncRules.ts:378-404 | a page that reaches the end leaves no hole exactly when everything the window now vouches for beyond the page stays |
| `PageSafety.NewerTailIff` | apps/client/src/convSyncRules.ts:401-404 | a newer page that reaches the end but is older than the position leaves no hole exactly when nothing sent in between still exists |
| `Client.MessageKeepsWorld` | apps/client/src/convStore.ts:396-407 | one delivered view keeps every window of the client right |
| `Client.StandingKeepsWorld` | apps/client/src/convStore.ts:364-394 | a summary, or leaving a conversation, which takes its feed along, keeps the other windows right |
| `Client.StandingKeepsKeyed` | apps/client/src/convSyncRules.ts:238-262 | each summary stays under its own id |
| `Client.EventKeepsWorld` | apps/client/src/convStore.ts:414-421 | applying the event with the next number keeps every window right at the new position |
| `Client.SyncKeepsWorld` | apps/client/src/convStore.ts:439-457 | applying a catch-up reply that starts at or below the position keeps every window right at its number |
| `ClientRuns.PageKeepsWorld` | apps/client/src/convStore.ts:571-594 | whatever page arrives, the windows of the others stay right; the one it is for is claimed afterwards if it was right and the page fits, or if the page takes its place |
| `ClientRuns.ReplacingPageRecovers` | apps/client/src/convSyncRules.ts:374-391 | a page at least as new as the position that takes the place of the window leaves a right one, whatever the window was before |
| `ClientRuns.JumpRecovers` | apps/client/src/convStore.ts:580-586 | so after a jump into the history the conversation is claimed again, whatever took it out |
| `ClientRuns.TrimKeepsWorld` | apps/client/src/convStore.ts:589-594 | cutting a window keeps all of them right |
| `ClientRuns.SentKeepsWorld` | apps/client/src/convStore.ts:779-788 | the reply to an own send keeps the windows of the others right; its own stays claimed unless the reply makes it wrong |
| `ClientRuns.EditKeepsWorld` | apps/client/src/convStore.ts:1285-1289 | the reply to an own edit keeps all windows right |
| `ClientRuns.RemovedKeepsWorld` | apps/client/src/convStore.ts:1291-1295 | a confirmed deletion keeps all windows right |
| `ClientRuns.ListKeepsWorld` | apps/client/src/convStore.ts:425-429 | a full list keeps every claimed window right; those that it makes wrong are claimed no longer |
| `ClientRuns.ListKeepsKeyed` | apps/client/src/convSyncRules.ts:212-231 | a full list puts each summary under its own id |
| `ClientRuns.StepKeepsWorld` | apps/client/src/convStore.ts:364-594 | every atomic step keeps every claimed window right |
| `ClientRuns.RunKeepsWorld` | apps/client/src/convStore.ts:364-594 | so does every run: events, replies, pages, trims, own actions and server commits in any order |
| `ClientRuns.LostIsWrong` | apps/client/src/convStore.ts:571-594 | a conversation leaves the claim only when its window is right in no sense after the step, or its feed is gone |
| `ClientRuns.CaughtUpShowsServer` | apps/client/src/convSyncRules.ts:68-81 | a client at the end of the journal shows every listed message exactly as the server does, and everything inside its windows |
| `ClientRuns.CaughtUpAgree` | apps/client/src/convSyncRules.ts:68-81 | two clients that have caught up agree on every message inside both windows |
| `ClientRuns.TailsAgree` | apps/client/src/convSyncRules.ts:68-81 | at the tail, the feed that starts later is exactly a suffix of the other |
| `Consumption.NothingLost` | apps/client/src/convStore.ts:423-483 | every number up to the position was consumed by a snapshot, a catch-up reply or the event itself |
| `Consumption.NothingTwice` | apps/client/src/convStore.ts:423-483 | an applied event was not covered by anything consumed before it |
| `StoreSteps.TakeSyncByLoop` | apps/client/src/convStore.ts:443-457 | the four loops over a catch-up reply are the catch-up rule |
| `StoreSteps.LoadByLoop` | apps/client/src/convStore.ts:571-594 | merging a page and cutting the window, never after a jump |
| `StoreSteps.LoadKeepsEdge` | apps/client/src/convStore.ts:571-594 | a bounded window keeps at most three hundred messages, those at the edge that was loaded, and knows that there is more beyond the other; a jump is never cut |
| `StoreSteps.LoadKeepsWorld` | apps/client/src/convStore.ts:571-594 | page and cut together keep every claimed window right |
| `StoreSteps.RecordKeepsWorld` | apps/client/src/convStore.ts:915-922 | a record that a launch can take (`Restart.RecordOfStore`), laid over a store without a list, gives a client that meets every claim |
| `ConvStore.Store.NothingMissed` | apps/client/src/convStore.ts:998-1015 | between resets: every number up to the position was consumed, every received event beyond it is in the buffer, and a live store has none |
| `ConvStore.Store.NothingRepeated` | apps/client/src/convStore.ts:998-1015 | between resets no event is applied that was consumed before |
| `ConvStore.Store.QuietMeansLive` | apps/client/src/convStore.ts:529-555 | with the gateway up, a store with no loop and no retry is live, its buffer is empty and everything it received is behind the position |
| `ConvStore.Store.RunSync` | apps/client/src/convStore.ts:529-555 | starts a loop if none runs, else has the running one go round once more when forced; a forced catch-up is remembered until one starts |
| `ConvStore.Store.LoopTurn` | apps/client/src/convStore.ts:537-552 | the end of a round: once more if asked and of this generation, else the loop ends; an error of this generation arms the retry |
| `ConvStore.Store.RetryFires` | apps/client/src/convStore.ts:515-523 | the retry timer starts a catch-up |
| `ConvStore.Store.ListArrives` | apps/client/src/convStore.ts:425-429 | the first list, then the drain; a list of an earlier generation changes nothing |
| `ConvStore.Store.SyncArrives` | apps/client/src/convStore.ts:431-463 | one catch-up reply; more of it is asked for from its number; a reply of an earlier generation changes nothing |
| `ConvStore.Store.ResetArrives` | apps/client/src/convStore.ts:435-438 | a journal that does not reach back makes the loop ask for the list |
| `ConvStore.Store.ResetListArrives` | apps/client/src/convStore.ts:486-495 | after a reset the conversations are those of the list at its number, and of what was there only the phase, the buffer and the deletions are left |
| `ConvStore.Store.ResetPageArrives` | apps/client/src/convStore.ts:494-496 | the open conversation is loaded again, or its failure is ignored |
| `ConvStore.Store.PeersDone` | apps/client/src/convStore.ts:462-483 | the last await of a catch-up, then the drain |
| `ConvStore.Store.DrainBuffer` | apps/client/src/convStore.ts:464-483 | the buffer is drained and the phase set in one step |
| `ConvStore.Store.SummaryIsNewest` | apps/client/src/convStore.ts:364-457 | after any run each summary is the newest standing consumed since the last list or record, at its number, lifted at most by an own message |
| `ConvStore.Store.ConvOnChange` | apps/client/src/convStore.ts:998-1015 | in a live store the next event is taken at once and asks for nothing, an old one changes nothing, one beyond the next is kept and a catch-up that starts from now on is sure to come; in any other store it is kept |
| `ConvStore.Store.ConvOnReady` | apps/client/src/convStore.ts:967-976 | after `ready` a catch-up starts later even if one runs, and the poll is off |
| `ConvStore.Store.ConvOnGatewayLost` | apps/client/src/convStore.ts:985-992 | the window is live no longer and the store polls from now on |
| `ConvStore.Store.PollFires` | apps/client/src/convStore.ts:558-568 | a poll starts a catch-up, or joins one, and waits for its end |
| `ConvStore.Store.PollEnds` | apps/client/src/convStore.ts:558-568 | the end of a poll arms the next one, in the same generation and while the gateway is down |
| `ConvStore.Store.ConvEnsureList` | apps/client/src/convStore.ts:1018-1022 | without a list or a gateway the interface starts a catch-up |
| `ConvStore.Store.ConvReset` | apps/client/src/convStore.ts:881-909 | a new generation: empty state, no loop, no retry, no poll, and every loop still suspended belongs to an earlier one |
| `ConvStore.Store.SwitchAway` | apps/client/src/store.ts:1937-1944 | leaving an instance also switches conversations off and drops the feeds; the next journal is another one |
| `ConvStore.Store.ConvHydrate` | apps/client/src/convStore.ts:915-922 | a record is taken only before the first list; the store then meets every claim at the number of the record |
| `ConvStore.Store.AskPage` | apps/client/src/convStore.ts:1107-1131 | a request remembers its generation and the edge it was asked from |
| `ConvStore.Store.PageArrives` | apps/client/src/convStore.ts:1107-1140 | a page of an earlier generation, or for an edge that has changed, changes nothing; any other is merged and cut |
| `ConvStore.Store.ConvAfterSend` | apps/client/src/convStore.ts:779-788 | the own message enters the feed, and its conversation stands at its time in the list, if that is later |
| `ConvStore.Store.ConvAfterEdit` | apps/client/src/convStore.ts:1285-1289 | an own edit is taken by the edit rule |
| `ConvStore.Store.ConvAfterDelete` | apps/client/src/convStore.ts:1291-1295 | an own deletion is taken and remembered |
| `Cache.BuildRecordByLoop` | apps/client/src/convCacheRules.ts:104-136 | the record as built: no list, no record; all summaries, at most twenty tails of at most fifty messages, the last 500 deletions |
| `Cache.ChosenAreMostRecent` | apps/client/src/convCacheRules.ts:114-121 | at most twenty windows at their tail with messages, the most recently active ones, fewer only if there are no more |
| `Cache.RecordLimits` | apps/client/src/convCacheRules.ts:122-136 | a record holds of each chosen window its last fifty messages, of the deletions the last five hundred, and every summary in order |
| `Cache.StoredIsFurthest` | apps/client/src/convCacheRules.ts:143-149 | whatever tabs write in whatever order, the disk holds the furthest number, and the last record that had it |
| `Cache.BuiltIsAccepted` | apps/client/src/convCacheRules.ts:156-178 | a built record of well-formed items is read back unless its number is no safe integer, and only drafts change |
| `Cache.AcceptedIff` | apps/client/src/convCacheRules.ts:156-178 | which records are accepted, whatever wrote them, and that exactly their well-formed items are kept |
| `Cache.Relaunch` | apps/client/src/convCacheRules.ts:104-283 | the record of any client that meets its claims, built, read back and launched from: refused only for its number; position, every summary and every chosen tail come back but for broken items, and exactly the claims about tails with nothing broken |
| `Cache.DraftsSurviveIff` | apps/client/src/convCacheRules.ts:229-239 | drafts are read back as they were exactly when none is longer than 4000 |
| `Cache.HydrateByLoop` | apps/client/src/convCacheRules.ts:266-283 | the first frame as built: one number for everything, windows at the tail, marked stale |
| `Cache.HydrateNumbers` | apps/client/src/convCacheRules.ts:266-283 | a launch knows every summary and every message of its feeds at the number of the record, and nothing else by number |
| `Cache.RelaunchKeeps` | apps/client/src/convCacheRules.ts:104-283 | with nothing broken all of it comes back as it was, and every claim about it |
| `Cache.RaisedWindow` | apps/client/src/convCacheRules.ts:261-265 | giving every message of a right tail the number of the position, and forgetting all but its last part, leaves a right window |
| `Cache.RelaunchKeepsWorld` | apps/client/src/convCacheRules.ts:266-283 | the state a launch starts from meets every claim at the number of the record |
| `Cache.RelaunchKeepsTidy` | apps/client/src/convCacheRules.ts:266-283 | a launch starts with tidy feeds |
| `Cache.RestartInvisible` | apps/client/src/convCacheRules.ts:10-13 | a client that went on and one launched from its record show, once both caught up, the same messages of a conversation at its tail |
| `Cache.RestartSummariesAgree` | apps/client/src/convCacheRules.ts:266-273 | and once both heard the same standings beyond the number of the record, the same summaries |
| `Cache.DeletionsSurviveIff` | apps/client/src/convCacheRules.ts:130-130 | a launch remembers every deletion exactly when there were at most 500 |
| `Restart.RecordOfStore` | apps/client/src/convStore.ts:915-922 | the record of a store in any state it can reach, read back, is one the next launch can take, whatever was sent since |
| `Restart.Relaunch` | apps/client/src/convStore.ts:915-922 | the app closed in any state and started again: a store at the position of the record that meets every claim about tails that came through whole, or an empty one if there was no list or the number is too large |
| `Races.LatePageShowsOldView` | apps/client/src/convSyncRules.ts:316-324 | an event dropped for an unlisted message, then a page from before it: the client has caught up and shows the old view |
| `Races.OlderPageIsCurrentIff` | apps/client/src/convSyncRules.ts:398-400 | after an older page the whole window is right exactly when nothing touched the messages of the page between its number and the position |
| `Races.LateTailHidesMessage` | apps/client/src/convSyncRules.ts:401-404 | the same at the end of a conversation: the client claims to show the end and a message is missing |
| `Races.NewerTailListsExactly` | apps/client/src/convSyncRules.ts:401-404 | after a newer page a message is listed exactly when it was before, or is on the page |
| `Races.SentBeyondWindowOpensHole` | apps/client/src/convSyncRules.ts:440-447 | an own message put behind a window that has more after it hides what lies between |
| `Races.SentBeyondWindowIff` | apps/client/src/convSyncRules.ts:440-447 | it does so exactly when something the window accounts for lies between |
| `Races.ListPassesWindow` | apps/client/src/convSyncRules.ts:232-234 | a conversation opened before the first list: the list moves the position past its window, which then is right in no sense |
| `Races.OwnMessageJoinsPage` | apps/client/src/convSyncRules.ts:382-391 | a last page of any length joins an old window through an own message without a number, and what lies between is dropped for good |
| `Races.JumpLeavesNumbers` | apps/client/src/convSyncRules.ts:360-376 | after a jump a last page loses the messages whose numbers the jump left behind, and the window claims to start after them |
| `Races.LikedStaysBelow` | apps/client/src/convSyncRules.ts:385-395 | an old place on screen, a last page on its way, a reaction: what was touched stays below the page, and what lies between is missing; no other condition fails |
| `Races.RecordKeepsReceivedIff` | apps/client/src/convStore.ts:915-919 | a late record keeps what was received exactly when nothing beyond its number was waiting |
| `Drafts.ServerTextIsLongestCut` | apps/client/src/convSyncRules.ts:1182-1188 | the server gets the longest beginning of at most 4000 units that splits no surrogate pair |
| `Drafts.UpdateSetsOne` | apps/client/src/convSyncRules.ts:987-1000 | the draft becomes what was typed, none if blank, all others stay; nothing changes exactly when it was that already |
| `Drafts.RemoteWinsOnlyWhenClean` | apps/client/src/convSyncRules.ts:1018-1030 | a remote draft is shown exactly when nothing typed here waits and it is no echo of this device |
| `Drafts.ChangeMeetsAnswer` | apps/client/src/convStore.ts:844-862 | in any state with a write on its way something else is typed, then the answer comes: it will be written exactly when the write was not refused; no other draft or mark changes |
| `Drafts.TypedAndSaved` | apps/client/src/convStore.ts:822-862 | in any state with no write of the conversation on its way: typing, the timer, the acknowledgement, and the writer rests with no mark, timer or write, and the server has what was typed |
| `Drafts.PayloadCarries` | apps/client/src/convStore.ts:844-847 | a write carries the draft as it is, but for what lies beyond the limit |
| `Drafts.RefusedForgetsChange` | apps/client/src/convStore.ts:856-860 | a history in which it is refused: the second letter is neither marked nor on its way |
| `Drafts.RecordKeepsTypedIff` | apps/client/src/convStore.ts:919-922 | all marked drafts keep text and mark exactly when the record has no drafts or the same ones for them, and no marks or at least these |
| `Drafts.RecordMeetsTyping` | apps/client/src/convStore.ts:919-922 | in any state something is typed, then the record comes: it stays, text and mark, exactly when the record has no drafts or this one and no marks or this one; any other draft, marked or saved, exactly when the record has no drafts or the same one |
| `Drafts.RecordForgetsTyped` | apps/client/src/convStore.ts:919-922 | a history in which the letter typed before the record is gone |
| `Drafts.Writer.NoLostWakeUp` | apps/client/src/convStore.ts:791-871 | for drafts typed here: unsaved means a timer or a write on its way; on its way means unsaved; saved means the server acknowledged exactly this text |
| `Drafts.Writer.OneWriteEach` | apps/client/src/convStore.ts:830-841 | at most one write a conversation is on its way |
| `Drafts.Writer.Schedule` | apps/client/src/convStore.ts:822-827 | the save is due after the pause, and not later than ten seconds after the first unsaved letter |
| `Drafts.Writer.SetDraft` | apps/client/src/convStore.ts:1229-1233 | a changed draft is marked and scheduled; an unchanged one is not |
| `Drafts.Writer.Save` | apps/client/src/convStore.ts:830-843 | one write a conversation: a second one waits for the first |
| `Drafts.Writer.WriteEnds` | apps/client/src/convStore.ts:844-867 | acknowledged as it is now, the draft is saved and the writer rests unless a save was asked for; acknowledged as it was, it is written again at once; refused, it is given up; failed, it is tried again after fifteen seconds |
| `Drafts.Writer.WriteOutdated` | apps/client/src/convStore.ts:854-855 | the answer to a write of an earlier generation has no effect |
| `Drafts.Writer.SaveAll` | apps/client/src/convStore.ts:869-871 | every unsaved draft is on its way |
| `Drafts.Writer.TakeSummary` | apps/client/src/convStore.ts:348-361 | a summary changes the draft only as the rule for remote drafts says |
| `Drafts.Writer.TakeRecord` | apps/client/src/convStore.ts:919-922 | the record replaces drafts and marks, each only if it has any |
| `Drafts.Writer.Reset` | apps/client/src/convStore.ts:902-908 | after a reset no timer, mark or write of before counts |
| `Upload.RangesMeet` | apps/client/src/chunkedUpload.ts:87-90 | ranges start at 0, meet end to start, are never empty and the last one ends the file |
| `Upload.RangesTile` | apps/client/src/chunkedUpload.ts:87-90 | every byte of the file is in exactly one part |
| `Upload.PartsToSend` | apps/client/src/chunkedUpload.ts:79-84 | the loop computes the missing parts |
| `Upload.ToSendIsMissing` | apps/client/src/chunkedUpload.ts:79-84 | exactly the parts the server does not have, each once, in order |
| `Upload.AckKeepsShared` | apps/client/src/chunkedUpload.ts:228-240 | when a part is acknowledged, each remaining part is still in the queue or with exactly one worker |
| `Upload.TakeKeepsShared` | apps/client/src/chunkedUpload.ts:228-240 | a part is taken by exactly one worker |
| `Upload.PassCompletes` | apps/client/src/chunkedUpload.ts:228-243 | when all workers are done without an error, every part is |
| `Upload.Uploader.WhatItMeans` | apps/client/src/chunkedUpload.ts:157-271 | in every state: at most 198 requests a part and 905 more, a count between nothing and the size, progress that never goes back nor past the size, and `complete` on its way only when every part is done by the server's word |
| `Upload.Uploader.constructor` | apps/client/src/chunkedUpload.ts:148-246 | the count and the bar start with what the server has; up to three workers hold the first missing parts, in order, and the rest waits |
| `Upload.Uploader.Report` | apps/client/src/chunkedUpload.ts:162-167 | the bar shows done parts and bytes on their way, never less than before and never more than the file |
| `Upload.Uploader.PutOk` | apps/client/src/chunkedUpload.ts:199-203 | an acknowledged part is counted once, with its own size, and its worker takes the next part |
| `Upload.Uploader.PutFails` | apps/client/src/chunkedUpload.ts:204-226 | no status, 408, 429 or 500 and more: tried again after a pause, sixty times for a server that says when, else five times; any other error, a sixth failure or an abort ends the pass |
| `Upload.Uploader.FailsOnlyFor` | apps/client/src/chunkedUpload.ts:204-243 | a pass ends early only by an abort, a final refusal, or a part with six ordinary failures |
| `Upload.OnTheWayCounts` | apps/client/src/chunkedUpload.ts:162-167 | each part on its way counts with its own bytes |
| `Upload.Uploader.PauseEnds` | apps/client/src/chunkedUpload.ts:174-220 | after a pause the same part is sent again, unless the upload was aborted |
| `Upload.Uploader.Next` | apps/client/src/chunkedUpload.ts:231-240 | a free worker takes the next part, unless none is left or the pass has failed |
| `Upload.Uploader.PassEnds` | apps/client/src/chunkedUpload.ts:241-251 | a pass without an error leads to `complete` with all bytes counted |
| `Upload.Uploader.PostReplies` | apps/client/src/chunkedUpload.ts:111-119 | assembled ends the upload at full size; assembling is asked again, at most 300 times |
| `Upload.Uploader.RoundFails` | apps/client/src/chunkedUpload.ts:255-270 | by the error and the round alone: 409 asks which parts are missing, what may be retried pauses, at most two times, anything else ends the upload |
| `Upload.Uploader.Told` | apps/client/src/chunkedUpload.ts:256-264 | missing parts leave the count and are sent again; none missing is the end |
| `Upload.Uploader.Break` | apps/client/src/chunkedUpload.ts:272-281 | an abort or a final refusal drops the upload on the server, any other error leaves it to be resumed |
| `Album.SplitsOf` | apps/client/src/bubbleRules.ts:113-118 | the recursion with its loop computes the enumeration |
| `Album.SplitsAreCompositions` | apps/client/src/bubbleRules.ts:113-118 | it lists exactly the splits of n into rows of one to four |
| `Album.SplitsAreDistinct` | apps/client/src/bubbleRules.ts:113-118 | and none of them twice |
| `Album.SomeSplitIff` | apps/client/src/bubbleRules.ts:146-149 | there is a split into at most four rows exactly for one to sixteen photos |
| `Album.FoursCompose` | apps/client/src/bubbleRules.ts:148-149 | the way out for more photos is a split into rows of four |
| `Album.CandidatesByLoop` | apps/client/src/bubbleRules.ts:146-149 | the candidates are all splits into one to four rows, or that one |
| `Album.CandidatesAre` | apps/client/src/bubbleRules.ts:146-149 | for up to sixteen photos every split into one to four rows of one to four is tried and nothing else; beyond, rows of four |
| `Album.BestSplit` | apps/client/src/bubbleRules.ts:150-177 | the chosen split has the least score of all candidates |
| `Album.ClampedIs` | apps/client/src/bubbleRules.ts:133-137 | a ratio is used as it is inside the range for mostly wide or other albums, and the nearer end of it outside |
| `Album.RowsFillWidth` | apps/client/src/bubbleRules.ts:138-145 | each row is as high as makes it exactly as wide as the grid |
| `Album.SmallestIs` | apps/client/src/bubbleRules.ts:158-168 | the smallest side is the least of all heights and widths of tiles |
| `Album.LastWidthIs` | apps/client/src/bubbleRules.ts:164-166 | the width of the last tile is its share of the last row |
| `Album.LargerTilesWin` | apps/client/src/bubbleRules.ts:169-172 | other things being equal, a larger smallest tile has the lower score |
| `Album.ShrinkingRowsLose` | apps/client/src/bubbleRules.ts:169-172 | other things being equal, a row with fewer photos than the one before costs |
| `Album.NoRoomCosts` | apps/client/src/bubbleRules.ts:170-172 | other things being equal, no room for the time on the last tile costs a thousand |
| `Album.FullerGridWins` | apps/client/src/bubbleRules.ts:172-172 | other things being equal, of layouts that need no shrinking the higher one has the lower score |
| `Album.RowsOnce` | apps/client/src/bubbleRules.ts:181-195 | the rows cover every pixel from top to bottom and side to side exactly once |
| `Album.TileKeepsShare` | apps/client/src/bubbleRules.ts:185-194 | every tile is as wide as its photo's share of the row, up to less than a pixel |
| `Album.TileKeepsShape` | apps/client/src/bubbleRules.ts:181-195 | every tile is as high as its row and as wide as its share of the row, up to less than a pixel |
| `Album.RoundIsNearest` | apps/client/src/bubbleRules.ts:180-193 | edges lie at the nearest pixel |
| `Album.ShrinksOnlyTo` | apps/client/src/bubbleRules.ts:178-180 | a grid shrinks only if it is too high, and then just to the limit |
| `Album.EdgesAre` | apps/client/src/bubbleRules.ts:196-204 | a tile lies at an edge of the grid exactly when it holds a pixel of that edge |
| `Album.LayOut` | apps/client/src/bubbleRules.ts:178-206 | one tile a photo, in order, filling a grid within the limits exactly |
| `Album.AlbumGrid` | apps/client/src/bubbleRules.ts:130-206 | the whole layout: a best split, laid out |
| `Album.EveryPixelHasOneTile` | apps/client/src/bubbleRules.ts:178-206 | every pixel of the grid lies in exactly one tile |
| `Reorder.ReorderByLoop` | apps/client/src/channelSidebarRules.ts:72-96 | `computeReorder` as computed is its rule |
| `Reorder.ReorderPlaces` | apps/client/src/channelSidebarRules.ts:72-96 | applying the rows gives the old order with the channel at the drop and positions 0 to k, closes up the old category in its order, and touches no other |
| `Reorder.ReorderIsMinimal` | apps/client/src/channelSidebarRules.ts:92-95 | the rows are exactly those of channels that change, one each |
| `Reorder.DropLandsBesideRow` | apps/client/src/channelSidebarRules.ts:25-47 | hint and rows together put the channel right before or right after the row it was dropped on |
| `Reorder.NoRowIsTheEnd` | apps/client/src/channelSidebarRules.ts:34-47 | with no row to stand before, and below a row that is not in the list, the channel goes to the end |
| `Reorder.DropBackChangesNothing` | apps/client/src/channelSidebarRules.ts:72-96 | in a dense category, dropping a channel where it is sends nothing |
| `Reorder.DropOnNeighbourChangesNothing` | apps/client/src/channelSidebarRules.ts:40-46 | dropping it on the near half of a neighbour sends nothing |
| `Reorder.PickOfSort` | apps/client/src/channelSidebarRules.ts:81-82 | leaving the dragged channel out before or after sorting is the same |
| `Motion.FreshTailIsWhatWasAdded` | apps/client/src/bubbleMotion.ts:24-32 | the rows that appear are those below the last old row, if they are one to three, whatever was loaded above |
| `Motion.NoTailNoMotion` | apps/client/src/bubbleMotion.ts:24-32 | a first rendering, or a window that lost its old end, moves nothing |
| `Motion.RemovedByLoop` | apps/client/src/bubbleMotion.ts:45-59 | the walk up from each deleted row finds its nearest neighbour that stays |
| `Motion.WithLeavingByLoop` | apps/client/src/bubbleMotion.ts:62-73 | the dictionary and the loops weave as the rule says |
| `Motion.WovenShows` | apps/client/src/bubbleMotion.ts:62-73 | shown are the rows that are there, and of those that leave the ones whose neighbour is there and that have not come back |
| `Motion.ManyGoneMoveNothing` | apps/client/src/bubbleMotion.ts:45-52 | more than three rows gone at once, or none: nothing is woven in |
| `Motion.RemovedRowsComeBack` | apps/client/src/bubbleMotion.ts:45-73 | deleting at most three rows and weaving them back gives the old feed by id, but for deleted rows above the first that stays |
| `Crop.CoverScaleIsLeast` | apps/client/src/avatarCropRules.ts:29-31 | the start scale is the least one at which the picture covers the view both ways |
| `Crop.ClampCovers` | apps/client/src/avatarCropRules.ts:39-43 | a pushed-back offset covers the view, and nothing moves exactly when it was covered |
| `Crop.ClampIsNearest` | apps/client/src/avatarCropRules.ts:39-43 | no covering offset is nearer to where the picture was dragged |
| `Crop.ZoomReaches` | apps/client/src/avatarCropRules.ts:56-56 | a zoom reaches its target inside the range, and the nearer end outside |
| `Crop.ZoomAroundMiddle` | apps/client/src/avatarCropRules.ts:57-61 | before it is pushed back a zoom keeps the middle of the view on the same point |
| `Crop.StartIsCentred` | apps/client/src/avatarCropRules.ts:33-36 | the picture starts with its middle in the middle of the view |
| `Crop.DragMoves` | apps/client/src/avatarCropRules.ts:38-43 | a drag that leaves the view covered moves the picture by just that much |
| `Crop.GestureKeepsSound` | apps/client/src/avatarCropRules.ts:49-63 | every zoom and drag keeps the scale in its range and the view covered |
| `Crop.CutStaysInside` | apps/client/src/avatarCropRules.ts:69-77 | after any gestures the cut-out lies inside the picture and the slider on its track |
| `Crop.CutIsView` | apps/client/src/avatarCropRules.ts:69-71 | what is cut out is what the view shows |
| `Crop.SliderFollows` | apps/client/src/avatarCropRules.ts:74-77 | the slider stands at its ends for the ends of the range and moves with the scale |
| `Crop.ZoomKeepsMiddle` | apps/client/src/avatarCropRules.ts:49-63 | a zoom that need not be pushed back keeps the middle of the view on the same point |
| `Crop.ZoomsCompose` | apps/client/src/avatarCropRules.ts:49-63 | of two zooms that need not be pushed back only the last target counts |

## Left out

- PageSafety.PageKeepsWindow: a sufficient condition, convenient because all but its last two parts speak of the client's own state; the exact one is `PageSafety.PageKeepsWindowIff`.
- ClientRuns.LostIsWrong: for pages that are what the server promises, under the loaders' guard of the edge; a page with no edge to compare, or one from another journal, only takes its conversation out of the claim.
- ClientRuns.ReplacingPageRecovers: for pages at least as new as the position; what an older page that takes the place of the window leaves is not claimed unless it meets the exact condition for a new window.
- PageSafety.PageIsCurrentIff: "current" is about numbers; the version about what is shown is `PageSafety.PageShowsCurrentIff`.
- Newcomers of a group whose history is open to them (`convGroups.ts` line 126) see messages without a number in their own journal; their pages are not snapshots in the sense of `PageOk`.
- ConvStore.Store.ConvOnReady: taken as called only while conversations are on, as its caller does (`sockets.ts` line 360); the same for losing the gateway (line 912).
- ConvStore.Store.NothingMissed: counts from the last reset or record; that a late record drops the buffer is `Races.RecordKeepsReceivedIff`.
- ConvStore.Store.PeersDone: the last await stands for re-reading `peerReadKey`, whose result, one field of each summary, is not modelled.
- ConvStore.Store.ConvAfterDelete: replies to own sends, edits and deletions carry no generation in the source; that a caller does not bring one after a reset is assumed.
- Cache.BuiltIsAccepted: the field-by-field validators of summaries and messages are two arbitrary predicates; places and the outgoing queue in the record are not modelled, nor is the stripping of attachment addresses.
- Cache.RestartInvisible: about messages in windows at their tail, the only ones a record has.
- Cache.RestartSummariesAgree: for a record in which no summary was broken; that both clients hear the same standings beyond its number is the condition.
- FeedSafety.NewestStandingWins: summaries are opaque beside id, `former` and the time that orders the list; `keepChatPrefs` (fields missing in summaries of older servers) is not modelled.
- Upload.Uploader.constructor: the exchange before the parts are known (asking about an earlier attempt, starting a new upload) is not modelled; the server's list of parts it has is taken to be distinct part numbers, and its part size and count to fit the file.
- Album.AlbumGrid: over the reals, so rounding errors of floating point do not appear; infinite and undefined ratios are not numbers here.
- Crop.CutStaysInside: over the reals.
- Reorder.DropLandsBesideRow: for channels with distinct, non-empty ids, as the server gives them.
- Motion.RemovedRowsComeBack: for rows with distinct, non-empty ids.
- Drafts.Writer.NoLostWakeUp: for drafts typed on this device, since the last refusal, remote draft or record.
- Freshness of a page from another instance (`applyViaPage`) against the home journal: its numbers are not comparable, so only order and deletions are claimed.
- The outgoing message queue (`pump`), read marks, unread badges, places in a feed and notifications.
- The order of keys in JavaScript objects (which summaries and deletions come first in a record) is a parameter.
- Network, timers, IndexedDB, Web Locks and React: replies, timers and failures are methods that may be called at any time.
- Dates are parsed to integers; `localeCompare` on the list's times is taken as their order.
- Switching conversations off without a reset, and `convTokenChanged`, which marks windows stale.
