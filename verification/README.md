# Verified models of Wyck

Wyck is a trading application for cTrader accounts. This project states what five of its parts
promise and proves it for every run, in Dafny 4.11. `dafny verify dfyconfig.toml` checks all of it.

## The parts

**The account** (`Reversals`, `ReversalTheorems`, `AccountState`, `AccountLaws`, `AccountInvariant`, `AccountSafety`,
`AccountTame`, `AccountRuns`, `AccountTheorems`, `AccountMeaning`, `AccountDoubts`, `AccountReversing`, `AccountReleases`,
`AccountProgress`, `AccountClearance`, `AccountEffects`, `AccountEntity`). One entity sends orders,
gives up calls that get no answer, reads the account again, hears events and reverses positions. Every
closure it hands to the executor is one atomic step; calls on their way, give-up timers, reads and
watchers are part of the state and may come back in any order, late ones too.
`AccountState` has the steps as functions, `AccountEntity` the object whose methods update its fields
and are each tied to those functions, and the other modules the invariants and what they mean. The
object is `Valid` when some run leads to what it holds, and each step it takes keeps it so: what is
proved of every run is then true of it. The laws are stated on a log of what was planned, sent,
answered, doubted and read.

**The connection** (`Connection`, `ConnectionInvariant`, `ConnectionTheorems`, `ConnectionClones`,
`ConnectionEnds`, `ConnectionEntity`). Any number of requests share a map of waiters and a closed flag with the task of
the socket. Each access to them is one step; requests may time out or be cancelled at any await.

**Durable files and upgrades** (`Disk`, `DiskInvariant`, `DiskTheorems`, `DiskFiles`, `Upgrade`,
`UpgradeRuns`, `UpgradeTheorems`, `UpgradeOutcomes`, `UpgradeOnDisk`, `UpgradeEntity`, `Migrations`, `Saver`,
`SaverTheorems`). A directory with a cache, where a crash may bring back any name changed since the
last flush and tear any file that was not flushed; the atomic write as steps on it, and a proof that
it looks from outside like whole changes of files; the upgrade of a saved file over crashes, failures
and new starts, first on whole files and then on the disk itself, which refines it; the steps of the
preferences; and the delayed writer with its generations.

**Alerts** (`AlertEval`, `AlertMoves`, `AlertBook`, `AlertBookTheorems`, `AlertEngine`,
`AlertTheorems`, `AlertLimits`, `AlertRules`, `AlertEntity`). The rules of firing, the pruned history of a move, the saved book
and the live engine over runs of prices, profits, bars, polls and edits.

**Small parsers and lists** (`Shortcuts`, `ShortcutTheorems`, `Sources`, `RecentList`).

`Wrappers` has the option and result types.

## What the proofs found

- An answer of a new order that was given up wipes what the app keeps of the order in flight. An
  acceptance, or a failure whose outcome is known, makes it forgotten: no doubt is kept when it gets
  no answer either (`AccountDoubts.AnOrderIsForgotten`). A failure whose outcome is open puts it in
  doubt early (`AnOrderIsDoubtedEarly`), and a read may settle that doubt while the order is still
  unanswered (`AnEarlyDoubtIsSettled`). So after its timer an order is in doubt exactly when no such
  answer came, or the first that came was of the last kind and nothing settled the doubt since
  (`AccountDoubts.WhenTheUnansweredIsDoubted`). As the order goes, none can come exactly when no other
  new order is unanswered (`AccountDoubts.WhenTheRecordIsSafe`).
- The late answer of a close that was given up acknowledges a reversal started since, and its late
  failure forgets it (`AccountReversing.AnotherCloseDecides`); that cannot happen exactly when no
  other close of the position is unanswered (`AccountReversing.WhoMayDecide`).
- Two flushes of the saver may overlap, and the older value may then replace the newer on the disk
  (`SaverTheorems.TheOlderValueMayStay`); that cannot happen exactly when no older flush is saving as
  the newest value waits (`SaverTheorems.AnOlderSaveMayWin`).
- An upgrade keeps the old text exactly when the name of its copy was free or held that text: a copy
  that is there is not replaced, as the source says it must not be (`UpgradeTheorems.TheOldTextIsKept`,
  with a file that loses its text in `UpgradeTheorems.AnOlderCopyMayStay`).
- A start of the upgrade that fails leaves the text it found (`UpgradeTheorems.AFailureChangesNothing`);
  it need not be the one from before all the starts (`UpgradeTheorems.AFailureMayFindTheNewText`), and is
  so exactly when the start found that one.
- A history that drops old readings agrees with the whole one exactly when nothing dropped comes back
  into the window, which a clock that goes back can bring about (`AlertMoves.WhenPruningIsHarmless`,
  `AlertMoves.AClockThatGoesBack`).
- At the close of bars an alert on a profit is judged on every reading all the same, so it can fire
  twice on one bar; a repaired book has none (`AlertLimits.TwiceOnOneBar`, `AlertLimits.WhenTheBarHolds`).
- Repairing a book of alerts twice may drop an alert the first repair kept
  (`AlertBookTheorems.RepairingTwice`, `AlertBookTheorems.ARepairMayDropLater`).

## What the models assume

- The identifiers of requests and the names of temporary files are unique.
- The flush of the directory works in the upgrade (in the atomic write it may fail, and only the
  durability theorem asks that it worked).
- A timeout looks at what it limits first: what came together with the timer is taken.
- What is written as TOML reads back as it was (`UpgradeRuns.Faithful`); the reading itself is a parameter.
- The limits of the safety settings are a parameter that may say anything of an order, except that a
  replay refuses every new one.
- Between edits of the alerts identifiers stay sound; `AlertBookTheorems` shows it of each change.

## Model

| member | source | states |
|---|---|---|
| `AccountTheorems.EveryPlanGoesInOrder` | crates/wyck-app/src/account/orders.rs:386-395 | in every run, what is sent of a plan is a prefix of it, in order, each order once, and each only after the call of every one before it was answered Ok |
| `AccountProgress.EveryPlaceIsSeenTo` | crates/wyck-app/src/account/orders.rs:386-414 | in every run each order of each plan was sent, or waits at its place with all that follow it, or the plan was dropped by a call given up or a new order that failed after it was made |
| `AccountProgress.APlanIsSentOrDropped` | crates/wyck-app/src/account/orders.rs:386-414 | so in every run, once no new order is in flight, each plan was sent to its last order or was dropped |
| `AccountProgress.AnAnswerSendsTheNext` | crates/wyck-app/src/account/orders.rs:99-101 | an Ok answer of the new order in flight sends exactly the next order of the plan and leaves the ones after it waiting, unless its event makes an opposite order go first, and then all wait on |
| `AccountProgress.APlanStarts` | crates/wyck-app/src/account/orders.rs:375-384 | a plan that is taken is noted whole under its names, its first order goes at once and the others wait in order |
| `AccountClearance.WhenAnOrderGoes` | crates/wyck-app/src/account/orders.rs:173-199 | an order goes exactly when it is sound, the limits allow it, no replay is on, no new order is in flight and it does not repeat the last one within two seconds; it is one call of its own, and otherwise nothing changes |
| `AccountClearance.WhenAPlanGoes` | crates/wyck-app/src/account/orders.rs:341-384 | a plan goes exactly when all its orders are sound, the limits allow the order that stands for it, and neither a replay, a new order in flight, a plan that waits nor a repetition is in the way |
| `AccountClearance.WhatIsAsked` | crates/wyck-app/src/account/orders.rs:303-318 | what stands for a plan is its first order of a side, with the volume of that side, which no other side is over; of sides that are as heavy it is the one met last |
| `AccountClearance.SidesAddUp` | crates/wyck-app/src/account/orders.rs:303-318 | the volume of a side over some orders is the sum of it over their parts |
| `AccountClearance.WhenAReversalStarts` | crates/wyck-app/src/account/reverse.rs:148-185 | a reversal starts exactly when its close is free, the position is there, no reversal of it waits, and the limits allow the opposite order now; otherwise nothing changes |
| `AccountClearance.EveryOrderWasAllowed` | crates/wyck-app/src/account/orders.rs:183-189 | in every run, the limits allowed each order sent on its own, opposite ones too, in the step that sent it |
| `AccountClearance.EveryPlanWasAllowed` | crates/wyck-app/src/account/orders.rs:362-368 | in every run, the limits allowed the order that stood for each plan noted, and every order of it was sound |
| `AccountTheorems.NoOrderGoesTwice` | crates/wyck-app/src/account/orders.rs:17-30 | in every run, two orders sent never share an id of ours, the later goes only after the earlier was answered or given up, and none goes while a replay is on |
| `AccountTheorems.NoDoubtIsSettledByAnOldRead` | crates/wyck-app/src/account/sync.rs:96-165 | in every run, a read that settles doubts was asked once, and after each doubt that arose before it was applied |
| `AccountTheorems.TheBooksAgree` | crates/wyck-app/src/account/orders.rs:22-36 | in every reachable state busy is the set of the keys of calls, the call numbers differ and stay under call_seq, a queue or a kept order in flight implies Placing is busy, and a replay implies neither |
| `AccountTheorems.AReversalNeverLingers` | crates/wyck-app/src/account/reverse.rs:103-185 | in every reachable state a pending reversal has the very close call that its start made still unanswered, or is acknowledged and has a live watcher with its stamp |
| `AccountTheorems.EveryRunKeeps` | crates/wyck-app/src/account/orders.rs:31-151 | every reachable state keeps all the invariants of the account at once, and the log of every run is lawful |
| `AccountTheorems.KeptNext` | crates/wyck-app/src/account/orders.rs:61-147 | every atomic step, whoever takes it, keeps all the invariants |
| `AccountTheorems.KeptTimer` | crates/wyck-app/src/account/orders.rs:31-57 | a give-up timer keeps them, whether its call is still the current one or not |
| `AccountTheorems.KeptAnswerOk` | crates/wyck-app/src/account/orders.rs:75-102 | an answer keeps them, with the event it carries, the reversal it completes and the next order of the plan inside the same step |
| `AccountTheorems.KeptReadApplied` | crates/wyck-app/src/account/sync.rs:141-181 | applying a read keeps them, with the reversals it completes |
| `AccountLaws.PlansGoInOrder` | crates/wyck-app/src/account/orders.rs:341-395 | a lawful log sends the orders of a plan in order, each once, each after the answer of the ones before |
| `AccountLaws.NeverTwice` | crates/wyck-app/src/account/orders.rs:201-230 | a lawful log never sends two orders with one id of ours, nor one while the last is out |
| `AccountLaws.NothingSentInReplay` | crates/wyck-app/src/account.rs:276-286 | a lawful log sends nothing while a replay is on, and each order goes with the proof made for it |
| `AccountLaws.NoStaleRead` | crates/wyck-app/src/account/sync.rs:96-165 | a lawful log settles a doubt only by a read whose one asking came after it |
| `AccountMeaning.OnlyItsOwnCallFrees` | crates/wyck-app/src/account/orders.rs:34-36 | a current call leaves its button only by its own answer or its own timer, so a late answer never releases a newer call |
| `AccountMeaning.NothingIsStuck` | crates/wyck-app/src/account/orders.rs:31-74 | what is busy has its answer and its timer still to come; once all came nothing is busy, queued, kept in flight or waiting to reverse |
| `AccountMeaning.ReplayIsQuiet` | crates/wyck-app/src/account.rs:276-286 | a replay that is on implies no order in flight as the current call and no queue |
| `AccountDoubts.UnansweredIsDoubted` | crates/wyck-app/src/account/orders.rs:39-41 | when it is given up or fails with its outcome open, the order in flight enters doubt exactly when no answer of an older order came while it was in flight, and is in doubt then exactly in that case or when it was before |
| `AccountDoubts.WhenTheUnansweredIsDoubted` | crates/wyck-app/src/account/orders.rs:33-56 | in every run the order in flight is in doubt after its own timer exactly when no answer of an older new order came while it was in flight, or the first that came failed with its outcome open and no read nor event settled the doubt since (an equal record may have been in doubt before, never for an id of ours) |
| `AccountDoubts.WhenTheRecordIsSafe` | crates/wyck-app/src/account/orders.rs:79-120 | of an order in flight that is kept: nothing that may still come takes its record away while it stays in flight, exactly when no other new order is unanswered |
| `AccountDoubts.TheFirstReplyDecides` | crates/wyck-app/src/account/orders.rs:79-120 | the first answer of an older order that comes puts the order in flight in doubt at once when its outcome is open, and otherwise forgets it: no order enters doubt |
| `AccountDoubts.TheRecordWasLost` | crates/wyck-app/src/account/orders.rs:79-120 | in every run, if nothing is kept of the order in flight, such an answer came, and this is the step at which it did |
| `AccountDoubts.HeldSince` | crates/wyck-app/src/account/orders.rs:39-120 | in every run, after such an answer the order in flight is in doubt exactly when that answer put it there or it was there before, and nothing settled it since |
| `AccountDoubts.DoubtsOnlyLeave` | crates/wyck-app/src/account/sync.rs:302-310 | while nothing is kept of the order in flight no order enters doubt, and one leaves exactly by the newest read or an event that names it |
| `AccountDoubts.EveryRunIsApart` | crates/wyck-app/src/account/orders.rs:201-230 | in every run an order of ours is never in doubt while it is still kept as the order in flight |
| `AccountDoubts.EveryDoubtIsAnOrder` | crates/wyck-app/src/account/orders.rs:216-227 | in every run each doubt, and the record of the order in flight, has the id, symbol, side and volume of an order that was sent |
| `AccountDoubts.AnOrderIsDoubtedEarly` | crates/wyck-app/src/account/orders.rs:110-120 | a run in which the late failure of the first order puts the second in doubt before its own timer, which leaves it there |
| `AccountDoubts.AnEarlyDoubtIsSettled` | crates/wyck-app/src/account/sync.rs:141-147 | a run in which a read then settles that doubt while the second order is still unanswered, so that its timer keeps none |
| `AccountDoubts.AnOrderIsForgotten` | crates/wyck-app/src/account/orders.rs:79-81 | a run in which such a late answer makes the app forget the order in flight, so that its timer keeps no doubt of it |
| `AccountMeaning.DoubtLeavesOnlyWhenAnswered` | crates/wyck-app/src/account/sync.rs:302-310 | an order leaves doubt, and the account stops being unsure, only by the newest read or (for the order) an event that names its id |
| `AccountMeaning.DoubtedIsNeverSentAgain` | crates/wyck-app/src/account/orders.rs:232-282 | once an order of ours is in doubt, no later step of any run sends it again |
| `AccountMeaning.LogGrows` | crates/wyck-app/src/account/orders.rs:61-147 | no step takes anything back: the log before a step is a prefix of the one after |
| `AccountMeaning.OneReversalPerRead` | crates/wyck-app/src/account/sync.rs:156-180 | of the reversals one read completes, at most one opposite order is sent: the others find the button busy |
| `AccountMeaning.GivingUpAsksTheAccount` | crates/wyck-app/src/account/orders.rs:34-54 | a call given up frees its button, drops the plan, leaves the account unsure and asks a new read, in one step |
| `AccountMeaning.DoubleClickIsDropped` | crates/wyck-app/src/account/orders.rs:190-195 | the same order again within two seconds of the last one changes nothing |
| `AccountMeaning.ReversingAsksForTheClose` | crates/wyck-app/src/account/reverse.rs:148-185 | starting a reversal makes one close call, whose number is remembered for it, sends nothing else, and waits with the opposite side and the same volume |
| `AccountMeaning.ClosureSendsTheOpposite` | crates/wyck-app/src/account/sync.rs:328-352 | an execution sends nothing, or the one opposite order of the acknowledged reversal whose position it closed, which no longer waits |
| `AccountMeaning.RefusalStopsTheReversal` | crates/wyck-app/src/account/sync.rs:311-327 | a refused, cancelled or expired order takes the reversal it names with it and sends nothing |
| `AccountEffects.AButtonMakesOneCall` | crates/wyck-app/src/account/actions.rs:58-150 | a close of a position that is there, a cancellation, and a change not by the user in a replay, each make exactly one call when the button is free, and change nothing else |
| `AccountEffects.RulesActOnFills` | crates/wyck-app/src/account/sync.rs:328-336 | after an order is filled each move the rules of the plans ask for is busy, and after any other event none is new |
| `AccountEffects.RulesActOnReads` | crates/wyck-app/src/account/sync.rs:141-165 | after the account is read each move the rules ask for is busy |
| `AccountEffects.PositionsFollowEvents` | crates/wyck-app/src/account/sync.rs:328-330 | after an event the book has what it says of its position, and the others as they were |
| `AccountEffects.WhatAReadLeaves` | crates/wyck-app/src/account/sync.rs:136-188 | what the newest read found replaces the book and makes the account known and sure; a failed one says so, and an older one changes nothing |
| `AccountEffects.WhatAskingLeaves` | crates/wyck-app/src/account/sync.rs:96-108 | asking a read takes a new epoch, and shows as loading until the account is known once |
| `AccountEffects.AReadClosesWhatIsGone` | crates/wyck-app/src/account/sync.rs:149-159 | a read completes the acknowledged reversals whose position is gone, marks the others closed, and leaves those whose position is there |
| `AccountEffects.WhichAnswersAccept` | crates/wyck-app/src/account/reverse.rs:51-66 | an acceptance, a partial fill and a fill acknowledge a reversal, and every other kind of answer forgets it |
| `AccountEffects.WhichEventsRefuse` | crates/wyck-app/src/account/sync.rs:311-327 | a rejection, a cancellation and an expiry end exactly the reversals they are about: by the position they bring, the one their order names, the closing order, or all when they name none |
| `AccountEffects.WhatAnAnswerWatches` | crates/wyck-app/src/account/orders.rs:93-98 | the answer of a close leaves a watch, with the stamp of its start, exactly when the reversal waits still |
| `AccountEffects.WhatARefusalEnds` | crates/wyck-app/src/account/reverse.rs:75-83 | a refusal ends the reversal of its position, those of its closing order, or all when it names none |
| `AccountEffects.WhatAnOrderLeaves` | crates/wyck-app/src/account/orders.rs:153-230 | an order that goes is counted for its day, is the last one sent, and is kept with its id, symbol, side, volume and time |
| `AccountEffects.WhatAPlanLeaves` | crates/wyck-app/src/account/orders.rs:370-384 | a plan that goes counts as one order of its day |
| `AccountEffects.WhatAFailureLeaves` | crates/wyck-app/src/account/orders.rs:103-144 | a new order that fails drops the plan, makes the account unsure when its outcome is open, and every failure reads the account again |
| `AccountEffects.AnOvertakenTimerDoesNothing` | crates/wyck-app/src/account/orders.rs:34-36 | the timer of a call that is not the current one of its button changes nothing |
| `AccountEffects.WhatAWatchDoes` | crates/wyck-app/src/account/reverse.rs:103-142 | the first look of a watch reads the account, and its last one forgets the reversal, exactly when that of its own start waits still |
| `AccountEffects.WhatTheLockDoes` | crates/wyck-app/src/account.rs:276-286 | the lock turns on only with no order in flight or waiting, and changes nothing else |
| `AccountReversing.WhoMayDecide` | crates/wyck-app/src/account/orders.rs:82-107 | a reversal that waits can be acknowledged or failed only by the close call its start made, exactly when no other close of its position is still unanswered |
| `AccountReversing.OnlyItsOwnWhileCurrent` | crates/wyck-app/src/account/reverse.rs:148-185 | when no close of the position was unanswered as the reversal was started, no other call decides it for as long as its own is the current one |
| `AccountReversing.WhenItsOwnDecides` | crates/wyck-app/src/account/orders.rs:82-107 | of a reversal whose own close is the current call: whatever comes, no other call decides it while that stays so, exactly when no other close of its position is unanswered |
| `AccountReversing.AnotherCloseDecides` | crates/wyck-app/src/account/reverse.rs:51-66 | a run in which the late answer of an older close that was given up acknowledges the reversal, or its late failure forgets it, while its own close is still unanswered |
| `AccountReversing.AnAnswerAcknowledges` | crates/wyck-app/src/account/reverse.rs:51-66 | an accepting answer ends the wait of a reversal exactly when its call is a close of that position, and no other answer acknowledges one |
| `AccountReversing.NothingElseAcknowledges` | crates/wyck-app/src/account/reverse.rs:51-99 | no other step of the account acknowledges a reversal |
| `AccountReleases.AnOppositeOrderIsReleased` | crates/wyck-app/src/account/reverse.rs:51-99 | in every run, an order sent on its own is one the user placed, or the opposite order of one start of a reversal, after an accepting answer and a closure both came since that start |
| `AccountReleases.AtMostOncePerStart` | crates/wyck-app/src/account/reverse.rs:92-99 | in every run, at most one order is sent for each start of a reversal |
| `AccountReleases.TrackerIsItsHistory` | crates/wyck-app/src/account/reverse.rs:33-100 | in every run, the tracker of the account is what the events that the steps tell it make of an empty one |
| `AccountReleases.StepSends` | crates/wyck-app/src/account/sync.rs:141-181 | a step the user did not take sends, a plan apart, at most one order, and it is one that its events released |
| `ReversalTheorems.TrackerAgrees` | crates/wyck-app/src/account/reverse.rs:33-100 | for every history of events the flags of the tracker are what the events since the start say |
| `ReversalTheorems.ReleasedExactly` | crates/wyck-app/src/account/reverse.rs:51-99 | the opposite order is released exactly when an accepting answer and a closure both came since a start with no refusal or cancellation between, once per start, and it is the order of that start |
| `ReversalTheorems.EitherOrder` | crates/wyck-app/src/account/reverse.rs:51-99 | the answer and the closure give the same release in either order |
| `Reversals.ReverseTracker.Start` | crates/wyck-app/src/account/reverse.rs:34-49 | a second start for a position that waits is refused and changes nothing, tied to the function on the map |
| `Reversals.ReverseTracker.Acknowledge` | crates/wyck-app/src/account/reverse.rs:51-73 | an accepting answer marks the reversal, any other forgets it, tied to the function on the map |
| `Reversals.ReverseTracker.Cancel` | crates/wyck-app/src/account/reverse.rs:75-83 | forgets all, or those of the position or of the closing order, tied to the function on the map |
| `Reversals.ReverseTracker.Close` | crates/wyck-app/src/account/reverse.rs:85-90 | marks the closure and gives the order that is ready, tied to the function on the map |
| `Reversals.ReverseTracker.Take` | crates/wyck-app/src/account/reverse.rs:92-99 | gives the order once both marks are there and forgets it, tied to the function on the map |
| `AccountEntity.Account.Take` | crates/wyck-app/src/account/orders.rs:61-147 | every closure and every request, taken on the object, extends the run the object is at by that step |
| `AccountEntity.Account.Keeps` | crates/wyck-app/src/account/orders.rs:31-151 | between its steps the object keeps every invariant, and its log is lawful |
| `AccountEntity.Account.Trade` | crates/wyck-app/src/account/orders.rs:22-30 | a busy button drops the call, else a new number is taken and the call and its timer go out, as the step on the value the fields stand for |
| `AccountEntity.Account.Send` | crates/wyck-app/src/account/orders.rs:214-230 | keeps what tells the order in doubt and makes the call, as the step on the value the fields stand for |
| `AccountEntity.Account.SendNext` | crates/wyck-app/src/account/orders.rs:387-395 | sends the head of the plan unless an order is in flight, as the step on the value the fields stand for |
| `AccountEntity.Account.Place` | crates/wyck-app/src/account/orders.rs:170-199 | checks in the order of the source, then counts, names and sends, as the step on the value the fields stand for |
| `AccountEntity.Account.PlaceMany` | crates/wyck-app/src/account/orders.rs:341-384 | checks a plan as one order, names and queues each, sends the first, as the step on the value the fields stand for |
| `AccountEntity.Account.BatchProbe` | crates/wyck-app/src/account/orders.rs:303-318 | the first order of the side that sends the most (of sides as heavy the one met last), with its volumes added up; none exactly for an empty plan, as the step on the value the fields stand for |
| `AccountEntity.Account.DropQueue` | crates/wyck-app/src/account/orders.rs:398-414 | empties the plan, as the step on the value the fields stand for |
| `AccountEntity.Account.Ready` | crates/wyck-app/src/account/sync.rs:96-102 | raises the epoch and asks a read, as the step on the value the fields stand for |
| `AccountEntity.Account.ReadCame` | crates/wyck-app/src/account/sync.rs:136-188 | applies the read of the current epoch only, as the step on the value the fields stand for |
| `AccountEntity.Account.CloseMissing` | crates/wyck-app/src/account/sync.rs:149-159 | completes the reversals whose position is gone, in any order of the map, as the step on the value the fields stand for |
| `AccountEntity.Account.Undoubt` | crates/wyck-app/src/account/sync.rs:304-310 | drops exactly the doubts of an id, as the step on the value the fields stand for |
| `AccountEntity.Account.Execute` | crates/wyck-app/src/account/sync.rs:302-353 | what an execution does to doubts, reversals, positions and the plan, as the step on the value the fields stand for |
| `AccountEntity.Account.Hear` | crates/wyck-app/src/account/sync.rs:292-367 | executions and refusals as they come, as the step on the value the fields stand for |
| `AccountEntity.Account.GiveUp` | crates/wyck-app/src/account/orders.rs:33-56 | the closure of the give-up timer, as the step on the value the fields stand for |
| `AccountEntity.Account.TakeOk` | crates/wyck-app/src/account/orders.rs:78-102 | the closure of an answer, re-entering on_event, as the step on the value the fields stand for |
| `AccountEntity.Account.Lose` | crates/wyck-app/src/account/orders.rs:103-144 | the closure of a failure, as the step on the value the fields stand for |
| `AccountEntity.Account.Answer` | crates/wyck-app/src/account/orders.rs:69-147 | the closure of a result, whichever it is, as the step on the value the fields stand for |
| `AccountEntity.Account.Close` | crates/wyck-app/src/account/actions.rs:58-71 | closes a position that is there, as the step on the value the fields stand for |
| `AccountEntity.Account.Reverse` | crates/wyck-app/src/account/reverse.rs:148-185 | starts a reversal and asks for the close, as the step on the value the fields stand for |
| `AccountEntity.Account.Recheck` | crates/wyck-app/src/account/reverse.rs:107-117 | the first look of a watcher, as the step on the value the fields stand for |
| `AccountEntity.Account.EndWatch` | crates/wyck-app/src/account/reverse.rs:120-142 | the last look of a watcher, as the step on the value the fields stand for |
| `AccountEntity.Account.LockForReplay` | crates/wyck-app/src/account.rs:276-286 | turns the lock on only when no order is in flight or queued, as the step on the value the fields stand for |
| `AccountEntity.Account.AmendOrder` | crates/wyck-app/src/account/actions.rs:94-150 | a change by the user is refused in a replay, as the step on the value the fields stand for |
| `ConnectionTheorems.NobodyIsStranded` | crates/wyck-ctrader/src/connection.rs:118-182 | in every interleaving each identifier in the map belongs to an unfinished exchange of that identifier, the map is empty once all are done, and after the drain every request that waits was resolved or is about to be |
| `ConnectionTheorems.EndedLeavesNoOneWaiting` | crates/wyck-ctrader/src/connection.rs:437-481 | once the connection ended, every unfinished exchange can go on by itself, without its timer |
| `ConnectionTheorems.FiveStepsAtMost` | crates/wyck-ctrader/src/connection.rs:430-482 | whatever the others do, an exchange is over after at most five steps of its own |
| `ConnectionEnds.WhyAnExchangeEnds` | crates/wyck-ctrader/src/connection.rs:436-482 | in every run an exchange ends with a time-out exactly when its timer went off, with a protocol error exactly when its request did not fit, which was then never queued, as cancelled exactly when it was dropped, and as closed only after the swap |
| `ConnectionEnds.WhatACollectReturns` | crates/wyck-ctrader/src/connection.rs:473-482 | what an exchange takes from its channel is what it returns |
| `ConnectionEnds.WhatWaitsWasQueued` | crates/wyck-ctrader/src/connection.rs:457-472 | in every run a request that waits for its answer was queued for the socket, and none is queued twice |
| `ConnectionEnds.TheReasonIsTold` | crates/wyck-ctrader/src/connection.rs:167-181 | in every run the end is told with the reason for which the connection was closed |
| `ConnectionEnds.WhatAnArrivalTells` | crates/wyck-ctrader/src/connection.rs:134-162 | a heartbeat changes nothing, and a message that nobody waits for is told when it reads as an event |
| `ConnectionEnds.WhatTheLooksDo` | crates/wyck-ctrader/src/connection.rs:437-456 | on a closed connection an exchange ends as it begins, and one that registered in between ends at its second look without being sent |
| `ConnectionTheorems.ResolvedOnce` | crates/wyck-ctrader/src/connection.rs:133-162 | a waiter is resolved at most once, and nobody holds its sender afterwards |
| `ConnectionTheorems.AnswersAreItsOwn` | crates/wyck-ctrader/src/connection.rs:139-150 | what an exchange returns as its answer came from the server in that run and carries its own identifier |
| `ConnectionTheorems.AnswerReachesItsRequest` | crates/wyck-ctrader/src/connection.rs:139-150 | an answer to a waiting request fills the channel of that request and changes nothing else |
| `ConnectionTheorems.ClosedBeforeTheLookIsNeverSent` | crates/wyck-ctrader/src/connection.rs:451-456 | a request that had not looked again when the flag was set is never queued for the socket |
| `ConnectionTheorems.OneLookWouldStrand` | crates/wyck-ctrader/src/connection.rs:452-456 | without the second look such a request would wait in the map of an ended connection with no one left to resolve it |
| `ConnectionTheorems.RegistersAfterTheDrain` | crates/wyck-ctrader/src/connection.rs:437-456 | the state the second look is for is reachable |
| `ConnectionTheorems.EveryOrderSweeps` | crates/wyck-ctrader/src/connection.rs:167-176 | in whatever order the drained waiters are refused, the same is left |
| `ConnectionTheorems.TheDrainEnds` | crates/wyck-ctrader/src/connection.rs:171-176 | the drain ends after one step for each waiter and one to tell it |
| `ConnectionTheorems.FinishingAtOnce` | crates/wyck-ctrader/src/connection.rs:167-182 | taken without a break, its steps are what finish is meant to do |
| `ConnectionTheorems.NothingAfterTheEnd` | crates/wyck-ctrader/src/connection.rs:177-181 | the last event of a connection is its one disconnection, and nothing is told or written after it |
| `ConnectionInvariant.EveryRunKeeps` | crates/wyck-ctrader/src/connection.rs:91-182 | every reachable state keeps all the invariants of the map, the channels, the flag and the queue |
| `ConnectionInvariant.Keeps` | crates/wyck-ctrader/src/connection.rs:118-182 | every atomic step keeps them |
| `ConnectionEntity.Shared.Start` | crates/wyck-ctrader/src/connection.rs:436-439 | the first look at the flag, as the step of the interleaved model, keeping its invariants |
| `ConnectionEntity.Shared.Enter` | crates/wyck-ctrader/src/connection.rs:444-451 | a request that cannot be written fails, else its waiter is in the map, as the step of the interleaved model, keeping its invariants |
| `ConnectionEntity.Shared.LookAgain` | crates/wyck-ctrader/src/connection.rs:452-456 | the second look, as the step of the interleaved model, keeping its invariants |
| `ConnectionEntity.Shared.Guard` | crates/wyck-ctrader/src/connection.rs:118-122 | the drop guard, as the step of the interleaved model, keeping its invariants |
| `ConnectionEntity.Shared.Send` | crates/wyck-ctrader/src/connection.rs:142-149 | sends into a channel unless its exchange gave up, as the step of the interleaved model |
| `ConnectionEntity.Shared.Route` | crates/wyck-ctrader/src/connection.rs:134-162 | a heartbeat, an answer or an event, as the step of the interleaved model, keeping its invariants |
| `ConnectionEntity.Shared.Finish` | crates/wyck-ctrader/src/connection.rs:167-182 | the flag is set, each drained waiter refused and the end told, once; calls after that find the flag set and do nothing, as the step of the interleaved model, keeping its invariants |
| `ConnectionEntity.Shared.CloneClient` | crates/wyck-ctrader/src/connection.rs:211-220 | counts a clone, as the step of the interleaved model |
| `ConnectionEntity.Shared.DropClient` | crates/wyck-ctrader/src/connection.rs:222-231 | asks for the close at the last one, as the step of the interleaved model |
| `ConnectionEntity.Shared.Close` | crates/wyck-ctrader/src/connection.rs:323-328 | asks for the close unless closed, as the step of the interleaved model |
| `ConnectionEntity.Call` | crates/wyck-ctrader/src/connection.rs:345-375 | returns the first attempt that is not refused for its rate, or the one the last retry got, with the wait before each retry |
| `ConnectionEntity.Wait` | crates/wyck-ctrader/src/connection.rs:357-362 | the wait is the advice when it is within the limits, always between them, plus a margin |
| `ConnectionClones.TheLastCloneCloses` | crates/wyck-ctrader/src/connection.rs:211-231 | the counter is the number of live clones, and the connection is asked to close exactly by a close or by the last drop |
| `DiskTheorems.ReadersSeeAWhole` | crates/wyck-storage/src/fs_util.rs:82-103 | with any interleaved writes, failures and crashes a reader finds what the file held at first or all of one call, and a file that was there is never missing |
| `DiskTheorems.ReturnedIsDurable` | crates/wyck-storage/src/fs_util.rs:96-103 | once a call returned with its directory flushed, no crash undoes it: the path holds its contents or those of a call that renamed later |
| `DiskTheorems.OpenedStaysTheSame` | crates/wyck-storage/src/fs_util.rs:153-163 | a file opened before it was replaced goes on reading the same text |
| `DiskTheorems.OnlyTheRenameReplaces` | crates/wyck-storage/src/fs_util.rs:96-99 | a write that fails, at whatever step, changes no file |
| `DiskTheorems.NoTemporaryFileStays` | crates/wyck-storage/src/fs_util.rs:98-99 | without a crash, and when removals work, no temporary file is left |
| `DiskTheorems.WithoutTheFlushAnythingMayBeLeft` | crates/wyck-storage/src/fs_util.rs:153-163 | were the rename to come before the flush of the contents, a crash could leave anything at the path |
| `DiskTheorems.AnyFilesAtRest` | crates/wyck-storage/src/fs_util.rs:82-103 | any map of files is held by some disk at rest, from which the runs start |
| `DiskInvariant.EveryRunKeeps` | crates/wyck-storage/src/fs_util.rs:82-103 | what may survive at a path is always a whole, flushed text, no older than what was settled |
| `DiskFiles.Refines` | crates/wyck-storage/src/fs_util.rs:82-103 | every step of the writes is, seen from outside, one whole change of one file, a flush, a crash, or nothing |
| `UpgradeEntity.RetryWhenBusy` | crates/wyck-storage/src/fs_util.rs:26-46 | tries again only on Windows and only after a refusal, at most twenty times and 420 ms, and returns the last result |
| `UpgradeTheorems.Converges` | crates/wyck-storage/src/migrate.rs:188-287 | however often crashes, failures and new starts cut the upgrade, a start that gets through leaves the files of one uninterrupted run |
| `UpgradeOutcomes.ANewerFileIsSetAside` | crates/wyck-storage/src/migrate.rs:157-162 | in every run a start that gets through moves a file of any newer version whole to from-v and that version, leaves nothing at the path and no other file changed; the outcome of one start says so |
| `UpgradeOutcomes.AnOlderFileIsUpgraded` | crates/wyck-storage/src/migrate.rs:188-240 | in every run a start that gets through leaves the written result of the steps at the path, and the old text beside it unless a copy was there |
| `UpgradeOutcomes.ACurrentFileStays` | crates/wyck-storage/src/migrate.rs:157-159 | in no run is a file of the current version touched |
| `UpgradeOutcomes.AnUnusableFileStays` | crates/wyck-storage/src/migrate.rs:125-153 | in no run is a file touched that is no table, or whose version is no whole number from 1 to the end of 32 bits: every start fails |
| `UpgradeOutcomes.NoFileIsMade` | crates/wyck-storage/src/migrate.rs:188-193 | where there is no file none is made |
| `UpgradeOutcomes.CopiesAreApart` | crates/wyck-storage/src/migrate.rs:242-251 | copies of different versions have different names, and none is the name of a file set aside |
| `UpgradeOutcomes.DecimalReads` | crates/wyck-storage/src/migrate.rs:242-251 | the digits in the name of a copy are read as its version |
| `UpgradeTheorems.TheOldTextIsKept` | crates/wyck-storage/src/migrate.rs:209-215 | in every state the old text is whole at the path or in its copy, exactly when the name of the copy was free or held that text already |
| `UpgradeTheorems.AnOlderCopyMayStay` | crates/wyck-storage/src/migrate.rs:209-215 | a file beside an older copy with another text: its upgrade leaves no copy of what it replaced |
| `UpgradeTheorems.AFailureChangesNothing` | crates/wyck-storage/src/migrate.rs:186-188 | a start that fails, wherever it does, leaves at the path the text it found there |
| `UpgradeTheorems.AFailureMayFindTheNewText` | crates/wyck-storage/src/migrate.rs:186-188 | a run in which a start fails and leaves the new text, which it found: a crash came once the file was replaced, and the next start cannot read it |
| `UpgradeTheorems.AfterAFailure` | crates/wyck-storage/src/migrate.rs:188-287 | over all the starts, after one that failed the path has its old text or what a start that gets through leaves there |
| `UpgradeTheorems.AStartGetsThrough` | crates/wyck-storage/src/migrate.rs:253-271 | from whatever a cut left, a start that nothing cuts is through after at most six steps |
| `UpgradeOnDisk.ConvergesOnDisk` | crates/wyck-storage/src/migrate.rs:188-287 | with every write of the upgrade cut at any of its own steps, by failures or by crashes that tear what was not flushed, and started again: once a start gets through, every file reads as after one uninterrupted run |
| `UpgradeOnDisk.AFailureKeepsTheFile` | crates/wyck-storage/src/migrate.rs:186-188 | a start that fails, at whatever step of a write, leaves the file reading as the start found it, whatever runs came before |
| `UpgradeOnDisk.TheOldTextIsKeptOnDisk` | crates/wyck-storage/src/migrate.rs:209-215 | after every step and every crash the old text can be read whole at the path or in its copy, exactly when the name of the copy was free or held it |
| `UpgradeOnDisk.AStartGetsThroughOnDisk` | crates/wyck-storage/src/migrate.rs:253-271 | from whatever crashes left of the disk, a start that nothing cuts ends with the files of one uninterrupted run |
| `UpgradeOnDisk.StepRefines` | crates/wyck-storage/src/migrate.rs:188-287 | each step of a write, each crash, failure and decision is one step of the upgrade seen from outside, or none |
| `UpgradeRuns.EveryRunKeeps` | crates/wyck-storage/src/migrate.rs:188-287 | every reachable state of the interrupted upgrade keeps its invariant |
| `UpgradeRuns.UpgradedIsUpToDate` | crates/wyck-storage/src/migrate.rs:155-176 | what was upgraded is read as current |
| `UpgradeEntity.Folder.UpgradeDocument` | crates/wyck-storage/src/migrate.rs:188-271 | the upgrade as one sequence: it leaves the goal, or fails and leaves the path as it was |
| `UpgradeEntity.Folder.SetAsideNewer` | crates/wyck-storage/src/migrate.rs:275-287 | the newer text is written whole beside the path before the path is removed |
| `UpgradeEntity.Folder.AtomicWrite` | crates/wyck-storage/src/fs_util.rs:75-103 | whole and flushed, or nothing |
| `Upgrade.UpgradeTable` | crates/wyck-storage/src/migrate.rs:155-176 | the loop over the versions computes the composition of the steps, or the error of the first that fails |
| `Upgrade.StepsGoInOrder` | crates/wyck-storage/src/migrate.rs:155-176 | under a complete plan a table goes through the step of each version it has still to pass, once and in order, and gets through exactly when none of them fails |
| `Upgrade.ResumingIsTheSame` | crates/wyck-storage/src/migrate.rs:163-175 | stopping at any version between and resuming gives the same table |
| `Upgrade.SecondRunChangesNothing` | crates/wyck-storage/src/migrate.rs:157-159 | after an upgrade the table is current and a second run changes nothing |
| `Upgrade.WhenAStepIsMissing` | crates/wyck-storage/src/migrate.rs:164-168 | some table is refused for want of a step exactly when an earlier version has none |
| `Upgrade.CompleteNeverLacks` | crates/wyck-storage/src/migrate.rs:90-97 | a complete plan never refuses a table for want of a step |
| `Upgrade.CompleteFinds` | crates/wyck-storage/src/migrate.rs:90-97 | in a complete plan the step of each version is found at its place, and no other |
| `Upgrade.UnchangedStepsOnlyMark` | crates/wyck-storage/src/migrate.rs:61-66 | steps that change nothing leave every key but the version |
| `Migrations.LiftChartLook` | crates/wyck-app/src/migrations.rs:107-156 | the step, loop by loop, computes the lifted table |
| `Migrations.TheLookIsMoved` | crates/wyck-app/src/migrations.rs:108-156 | with a chart to take the look from, each key of the new table is what that chart said, the zone at the top being the zone when it said none |
| `Migrations.WhichChartGivesTheLook` | crates/wyck-app/src/migrations.rs:111-131 | the look is taken from the chart that was worked on when it has settings, else from the first chart that has |
| `Migrations.WhatTheLookIs` | crates/wyck-app/src/migrations.rs:84-97 | these twelve keys are the look |
| `Migrations.TheZoneIsMoved` | crates/wyck-app/src/migrations.rs:145-156 | with no chart that has settings the zone at the top is all that is moved, and without one the table stays as it was |
| `Migrations.NoLookKeyIsLeft` | crates/wyck-app/src/migrations.rs:138-144 | no chart says how it looks any more and the zone at the top is gone |
| `Migrations.EveryOtherKeyIsKept` | crates/wyck-app/src/migrations.rs:107-156 | every other key keeps its value: at the top, in each chart and in the settings of each chart |
| `Migrations.LiftTwiceIsOnce` | crates/wyck-app/src/migrations.rs:107-156 | a table that was lifted is lifted to itself, whatever it held |
| `Migrations.TrimKeepsTheTab` | crates/wyck-app/src/migrations.rs:73-81 | the panel keeps only its tab, everything else is untouched, and trimming twice is trimming once |
| `Migrations.PreferencesComeThrough` | crates/wyck-app/src/migrations.rs:30-65 | the four plans are complete, and preferences of any earlier version are upgraded without fail by the steps left for them |
| `SaverTheorems.TheNewestIsNeverForgotten` | crates/wyck-app/src/saver.rs:28-94 | in every interleaving the newest value waits, is in a flush or was handed to the disk, and what waits has something still to come that takes it |
| `SaverTheorems.WhatAScheduleStarts` | crates/wyck-app/src/saver.rs:66-73 | a schedule replaces what waits and starts a delay of its own generation, which overtakes the earlier ones |
| `SaverTheorems.WhatADelayDoes` | crates/wyck-app/src/saver.rs:74-81 | a delay that ends writes exactly when nothing was scheduled since it began |
| `SaverTheorems.TheLastValueIsOnDisk` | crates/wyck-app/src/saver.rs:28-40 | when flushes never overlap and saves work, the disk holds the last value after the drop |
| `SaverTheorems.AnOlderSaveMayWin` | crates/wyck-app/src/saver.rs:29-39 | with a value waiting and nothing more scheduled, the disk is sure to end with it exactly when no flush is still saving an older one |
| `SaverTheorems.TheOlderValueMayStay` | crates/wyck-app/src/saver.rs:29-39 | a run after which an older value may be the one the disk keeps: a flush is saving it as the newer one is scheduled |
| `SaverTheorems.EveryRunKeeps` | crates/wyck-app/src/saver.rs:66-82 | every reachable state keeps the invariants of the saver |
| `Saver.Inner.Schedule` | crates/wyck-app/src/saver.rs:66-73 | replaces the value that waits and raises the generation |
| `Saver.Inner.Flush` | crates/wyck-app/src/saver.rs:29-39 | writes what waits once |
| `Saver.Inner.Wake` | crates/wyck-app/src/saver.rs:74-81 | a delayed write that was overtaken does nothing |
| `AlertLimits.AOneTimeAlertFiresOnce` | crates/wyck-app/src/alerts/model.rs:471-485 | between edits a one-time alert fires at most once in every run, and is off once it has |
| `AlertLimits.AByBarAlertFiresOncePerBar` | crates/wyck-app/src/alerts.rs:303-318 | while neither the clock nor the bars go back, an alert limited by bar fires on strictly later bars |
| `AlertLimits.AMoveIsJudgedOnEveryReading` | crates/wyck-app/src/alerts.rs:303-311 | in such a run a move is judged as it would be on every reading since the last firing or edit |
| `AlertLimits.IdsStaySound` | crates/wyck-app/src/alerts/model.rs:430-512 | identifiers stay unique, not zero and under the next one through every run |
| `AlertLimits.WhenTheBarHolds` | crates/wyck-app/src/alerts.rs:312-318 | a trigger by bar holds an alert judged on ticks or profits exactly when it is once per bar on a timeframe with bars |
| `AlertLimits.TwiceOnOneBar` | crates/wyck-app/src/alerts.rs:330-358 | an alert on a profit at the close of bars can fire twice on one bar |
| `AlertLimits.ARepairedBookIsLimited` | crates/wyck-app/src/alerts/model.rs:346-356 | a repaired book has no such alert |
| `AlertTheorems.EveryRunKeeps` | crates/wyck-app/src/alerts.rs:243-583 | every reachable state keeps the limits of every alert |
| `AlertRules.WhenATickHits` | crates/wyck-app/src/alerts.rs:298-319 | a tick hits exactly when its rule fires on the last two readings, or its value moved in the window of its minutes, and is held on the bar it fired on when it fires once per bar |
| `AlertRules.WhichBarATimeIsIn` | crates/wyck-app/src/alerts.rs:299-302 | a bar starts at a whole number of its lengths; ticks and unknown codes have none |
| `AlertRules.WhenAnAlertIsLive` | crates/wyck-app/src/alerts.rs:238-241 | an alert is judged while it is on, past its snooze and before its time is up |
| `AlertRules.WhatAnAlertFollows` | crates/wyck-app/src/alerts/model.rs:199-206 | which alerts are judged on ticks and which on bars |
| `AlertRules.WhatAFiringLeaves` | crates/wyck-app/src/alerts/model.rs:471-501 | a firing counts once more, keeps its time and bar, ends a one-time alert, is the first of at most 200 in the history, and touches no other alert |
| `AlertRules.WhatAPollEnds` | crates/wyck-app/src/alerts/model.rs:503-512 | a poll ends exactly the alerts whose time has come |
| `AlertTheorems.JudgeAllKeeps` | crates/wyck-app/src/alerts.rs:259-295 | judging all the alerts of a price keeps them, and gives hits that may each be recorded once |
| `AlertMoves.PrunedJudgesTheSame` | crates/wyck-app/src/alerts.rs:306-311 | for a clock that does not go back, the pruned history gives the answer of the whole one |
| `AlertMoves.WhenPruningIsHarmless` | crates/wyck-app/src/alerts.rs:306-311 | for all values the two agree exactly when no reading that was dropped comes back into the window |
| `AlertMoves.AClockThatGoesBack` | crates/wyck-app/src/alerts.rs:306-311 | three times of which the last goes back, where some values make the two differ |
| `AlertMoves.PrunedIsWithin` | crates/wyck-app/src/alerts.rs:306-311 | what is kept is just what is in the window of the last reading |
| `AlertEval.RulesAreSymmetric` | crates/wyck-app/src/alerts/eval.rs:43-59 | up and down are one rule in a mirror, and leaving a zone is entering it backwards |
| `AlertRules.WhenALevelFires` | crates/wyck-app/src/alerts/eval.rs:43-53 | each level rule in plain numbers: reaching the level counts as crossing it, rising above or falling below it may start on it but must leave it |
| `AlertRules.WhenAZoneFires` | crates/wyck-app/src/alerts/eval.rs:20-55 | a zone is entered from under or over both sides to between them, and left the other way, whichever side is the lower; without a second side neither fires |
| `AlertRules.NothingFiresWithoutNumbers` | crates/wyck-app/src/alerts/eval.rs:43-46 | a reading with something that is not a number fires nothing |
| `AlertRules.WhenAMoveCounts` | crates/wyck-app/src/alerts/eval.rs:84-86 | a rise and a fall count alike, as hundredths of what the value was |
| `AlertRules.WhenAMoveHits` | crates/wyck-app/src/alerts/eval.rs:73-87 | a move hits exactly when the last value is far enough from one still in the window |
| `AlertRules.WhatAClosedBarFires` | crates/wyck-app/src/alerts/eval.rs:119-160 | at the close of bars the last closed bar is judged against the one before it, once, and not before the alert was made |
| `AlertRules.WhatAFormingBarFires` | crates/wyck-app/src/alerts/eval.rs:119-160 | otherwise the bar that forms is judged against the reading kept, once where the trigger goes by bar |
| `AlertEval.FiringsTakeTurns` | crates/wyck-app/src/alerts/eval.rs:43-59 | over any stream that is never right on the level, rising above and falling below take turns, and crossing counts both |
| `AlertEval.ATurnIsAPeak` | crates/wyck-app/src/alerts/eval.rs:89-95 | a change of direction is a strict peak or bottom, whichever way it is read |
| `AlertEval.JudgingIsLimited` | crates/wyck-app/src/alerts/eval.rs:119-160 | no firing on the bar it fired on, none on bars closed before the alert was made, none at a first look |
| `AlertBookTheorems.NormalizedIsSound` | crates/wyck-app/src/alerts/model.rs:333-391 | after a repair identifiers are unique, not zero and under the next, first holders keep theirs, and nothing else of an alert changes |
| `AlertRules.WhenBarsHit` | crates/wyck-app/src/alerts.rs:500-560 | a series hits exactly when its alert as it is now, with the reading kept for it, fires on its bars; the reading is kept, and nothing else changes |
| `AlertRules.WhatAnEditForgets` | crates/wyck-app/src/alerts.rs:209-218 | a change of the alerts forgets every reading and history |
| `AlertRules.WhatABookBecomes` | crates/wyck-app/src/alerts/model.rs:333-391 | a book read from a file keeps the first 2000 alerts that may stay, each repaired, and the first 200 firings |
| `AlertRules.WhatStays` | crates/wyck-app/src/alerts/model.rs:335-346 | each alert stays or goes on its own account, in order: it needs a symbol unless it is on the profit of the account, and a usable price where one is compared with |
| `AlertRules.WhatARepairChanges` | crates/wyck-app/src/alerts/model.rs:348-376 | what a repair makes of each field of an alert |
| `AlertRules.WhenAnAlertIsAdded` | crates/wyck-app/src/alerts/model.rs:430-439 | an alert is added last under the next identifier exactly while there are fewer than the limit, from 1 to 2000 |
| `AlertBookTheorems.WhenNormalizedFits` | crates/wyck-app/src/alerts/model.rs:377-388 | the repair goes through exactly when the largest identifier and the new ones fit in 64 bits (the overflow stops the program) |
| `AlertBookTheorems.RepairingTwice` | crates/wyck-app/src/alerts/model.rs:333-391 | a second repair changes nothing, except that it drops the measures whose level is not a number and that needed none before: those exactly |
| `AlertBookTheorems.ARepairMayDropLater` | crates/wyck-app/src/alerts/model.rs:333-391 | a book of one alert on a profit, kept by the first repair and dropped by the second |
| `AlertBookTheorems.InsertKeeps` | crates/wyck-app/src/alerts/model.rs:430-439 | the identifier given is new and the book stays sound |
| `AlertBookTheorems.RemoveKeeps` | crates/wyck-app/src/alerts/model.rs:449-453 | exactly the alert of that identifier goes, and it is never given again |
| `AlertBookTheorems.FireKeeps` | crates/wyck-app/src/alerts/model.rs:471-501 | a firing keeps the identifiers |
| `AlertBookTheorems.ExpireKeeps` | crates/wyck-app/src/alerts/model.rs:503-512 | expiring keeps the identifiers |
| `AlertBook.GiveIds` | crates/wyck-app/src/alerts/model.rs:377-388 | the two loops give what the repair defines, or stop at the first identifier that overflows |
| `AlertBook.Expire` | crates/wyck-app/src/alerts/model.rs:503-512 | turns off the alerts out of time and says which, in order |
| `AlertEntity.Alerts.Edit` | crates/wyck-app/src/alerts.rs:210-227 | everything seen is forgotten, as the step on the value the fields stand for |
| `AlertEntity.Alerts.Poll` | crates/wyck-app/src/alerts.rs:395-409 | alerts out of time stop, as the step on the value the fields stand for |
| `AlertEntity.Alerts.Remember` | crates/wyck-app/src/alerts.rs:306-311 | adds a value and drops what left the window, as the step on the value the fields stand for |
| `AlertEntity.Alerts.JudgeOn` | crates/wyck-app/src/alerts.rs:298-319 | the judging of one reading, as the step on the value the fields stand for |
| `AlertEntity.Alerts.JudgeOnBars` | crates/wyck-app/src/alerts.rs:534-559 | the judging of one series of bars, as the step on the value the fields stand for |
| `AlertEntity.Alerts.FireHit` | crates/wyck-app/src/alerts.rs:564-583 | the firing and the bar it was on, as the step on the value the fields stand for |
| `AlertEntity.Alerts.OnReadings` | crates/wyck-app/src/alerts.rs:243-296 | all are judged before any fires, and the limits of every alert hold after it, as the step on the value the fields stand for |
| `AlertEntity.Alerts.OnBars` | crates/wyck-app/src/alerts.rs:500-562 | the same for the alerts that follow bars, as the step on the value the fields stand for |
| `ShortcutTheorems.WrittenReadsBack` | crates/wyck-app/src/shortcuts.rs:111-167 | reading a written combination gives it back, for every set of modifiers and the minus key too, exactly when the key is one and is in lower case |
| `ShortcutTheorems.WhatModifiersAreCalled` | crates/wyck-app/src/shortcuts.rs:120-136 | the names of each modifier, and no others |
| `ShortcutTheorems.WhatPartsRead` | crates/wyck-app/src/shortcuts.rs:120-140 | the parts read as modifiers exactly when each names one and no two the same, and then those are held |
| `ShortcutTheorems.WhichPartIsWrong` | crates/wyck-app/src/shortcuts.rs:126-144 | the first part that names no modifier, or one named before, is what the error is about |
| `ShortcutTheorems.WhatIsNoCombination` | crates/wyck-app/src/shortcuts.rs:111-150 | a text with nothing in it, a part that is wrong, or a key there is none of is refused for that, in this order |
| `ShortcutTheorems.CapitalsDoNotMatter` | crates/wyck-app/src/shortcuts.rs:112-112 | texts that differ in capitals only read as the same, or fail the same |
| `ShortcutTheorems.SpacesDoNotMatter` | crates/wyck-app/src/shortcuts.rs:112-112 | white space before a text or after it is as if it were not there |
| `ShortcutTheorems.WhatIsBlank` | crates/wyck-app/src/shortcuts.rs:112-112 | the white space that is trimmed is that of Unicode, code by code |
| `ShortcutTheorems.WhichKeysThereAre` | crates/wyck-app/src/shortcuts.rs:65-103 | the keys are the function keys, those with a name, and one letter, digit or sign |
| `ShortcutTheorems.WhichFunctionKeysThereAre` | crates/wyck-app/src/shortcuts.rs:84-88 | with no zero or plus sign before the number, they go from 1 to 24 |
| `ShortcutTheorems.WhatMayStandBefore` | crates/wyck-app/src/shortcuts.rs:84-88 | zeros and one plus sign may stand before that number, and nothing else |
| `ShortcutTheorems.WhatAPressMeans` | crates/wyck-app/src/shortcuts.rs:207-228 | which modifiers of a key press stand for which, on a Mac and elsewhere |
| `ShortcutTheorems.WhatNeedsAModifier` | crates/wyck-app/src/shortcuts.rs:180-200 | exactly the function keys and the keys that are no text may be used with no modifier, or with Shift alone |
| `ShortcutTheorems.CanonicalTwice` | crates/wyck-app/src/shortcuts.rs:258-262 | the canonical form of a canonical form is itself |
| `ShortcutTheorems.CanonicalIsUnique` | crates/wyck-app/src/shortcuts.rs:258-262 | two texts have one canonical form exactly when they are one combination |
| `ShortcutTheorems.PressedReadsBack` | crates/wyck-app/src/shortcuts.rs:207-228 | what a key press makes is written and read back, on every system |
| `ShortcutTheorems.NormalizedIsGood` | crates/wyck-app/src/shortcuts.rs:312-326 | after a repair each action has at most three combinations, canonical and different, and a second repair changes nothing |
| `ShortcutTheorems.WhatIsUsable` | crates/wyck-app/src/shortcuts.rs:312-326 | the texts are gone over in order, and each canonical form is kept where it first comes |
| `ShortcutTheorems.WhatARepairKeeps` | crates/wyck-app/src/shortcuts.rs:312-326 | a repair keeps the first three usable combinations of each action |
| `ShortcutTheorems.UsableIsGood` | crates/wyck-app/src/shortcuts.rs:314-324 | the combinations kept are those some text reads as, canonical and each once |
| `ShortcutTheorems.ClashIsTaken` | crates/wyck-app/src/shortcuts.rs:348-378 | a combination clashes exactly when an action that uses it finds it taken, and the clash names those that use it, each once |
| `ShortcutTheorems.SetIsRead` | crates/wyck-app/src/shortcuts.rs:275-296 | what is set is what is read, kept as a change exactly when it differs from the defaults |
| `Shortcuts.ParseChord` | crates/wyck-app/src/shortcuts.rs:111-148 | the loop over the parts reads as the definition, with the first error |
| `Shortcuts.WriteKeys` | crates/wyck-app/src/shortcuts.rs:152-167 | the modifiers in their fixed order, then the key |
| `Shortcuts.NormalizeKeys` | crates/wyck-app/src/shortcuts.rs:314-324 | looking only at what is kept so far gives the first three of all the different ones |
| `Shortcuts.FindClashes` | crates/wyck-app/src/shortcuts.rs:360-378 | the two loops collect every use |
| `Sources.HeadsAreTheNames` | xtask/src/sources.rs:267-298 | for every group, however nested, whose items start with a name: exactly the first names of its own items, in order, and nothing of what follows the closing brace |
| `Sources.WhatNamesAreMadeOf` | xtask/src/sources.rs:267-298 | names are made of the letters and digits of ASCII and of underscores, and blanks are those of ASCII |
| `Sources.GroupHeads` | xtask/src/sources.rs:267-298 | the loop over depth, item flag and skip is the scan |
| `Sources.TreesAreSkipped` | xtask/src/sources.rs:273-298 | a text with its braces in pairs is passed over inside a nested group or after a name |
| `RecentList.BoundedIsTheFirstEight` | crates/wyck-app/src/prefs/indicators.rs:115-119 | after any additions the bounded list is the first eight of the unbounded one |
| `RecentList.NotedByLastUse` | crates/wyck-app/src/prefs/indicators.rs:115-119 | the unbounded one holds each key once, ordered by last use, newest first |
| `RecentList.RepairedOnce` | crates/wyck-app/src/prefs/indicators.rs:95-127 | a repaired list has no repeats and fits, and repairing it again changes nothing |
| `RecentList.WhatARepairKeeps` | crates/wyck-app/src/prefs/indicators.rs:95-127 | a repair keeps each key where it first stands, up to 64 favorites and 8 recent ones |
| `RecentList.ToggledTwice` | crates/wyck-app/src/prefs/indicators.rs:106-112 | starring twice gives the list back exactly when the key was not starred or was the last one |
| `RecentList.Prefs.NoteRecent` | crates/wyck-app/src/prefs/indicators.rs:115-119 | the list in place is the bounded one |
| `RecentList.Prefs.Dedup` | crates/wyck-app/src/prefs/indicators.rs:123-127 | the first of each stays, in order |
| `RecentList.Prefs.ToggleFavorite` | crates/wyck-app/src/prefs/indicators.rs:106-112 | takes the star away or adds it at the end |

## Left out

- The wording of notices, labels, the window and the state only shown on screen: user interface.
- The rules of the safety limits, the profit and margin of the account, contracts, deals and the orders of the book: parameters of the steps, or not read by what is proved.
- How a doubt is looked up in what was read: it only chooses the wording of a notice.
- `assess` before a reversal and `clear` before an order are asked of one parameter, so that the model covers any answers they give; it does not say when they agree.
- The clock is read once for each step of the account, where the source reads it more than once within one closure.
- Volumes and identifiers of orders are unbounded integers; the text of a client id is its run and count.
- Plans' own rules (`manage`, catching up after a silence): the calls they make are a parameter of the steps.
- Spot, margin and trailing events: they change quotes and figures only.
- The rate limiters, the socket, the heartbeat and the silence check: they are when a step may come, not what it does.
- Between the end of `finish` and the drop of the receiver a request may still be queued, and is never written: `ConnectionTheorems.NothingAfterTheEnd` takes both as one step.
- What an answer means to one call (`call_once`): which error it is read as.
- The counter of clones is unbounded, and the sum of a wait and its margin does not overflow.
- Permissions of files and folders, and folders that have to be made.
- The survivors of a crash are chosen name by name, which allows more than a real disk does.
- `UpgradeOnDisk.ConvergesOnDisk`: no other file of the directory is written while the upgrade of one lasts.
- `UpgradeTheorems.AFailureChangesNothing`: speaks of what the failed start found, not of the text before all the starts, which an earlier start that was cut may have replaced.
- The staging and restoring of backups, and moving the data folder.
- Values of the tables that are dates, and the order of the keys.
- `AlertEval.Fired`: numbers are reals with one value for those that are not finite, so rounding and overflow of a difference are not modelled.
- The level a drawing gives, the plots of indicators, the spread in pips and the price a source reads: the value and level of a reading are parameters.
- The texts, sounds, tags and counters shown of an alert and its firings.
- Loading the bars of alerts: which bars come is a parameter.
- `Shortcuts.Parse`: lower case is that of the 26 letters; other letters that Unicode lowers to one of them are not modelled.
- Labels of combinations, and the order in which clashes are listed.
- The texts around a group (`crate_refs`, comments, owners): only the reader of the group is modelled.
- The counter of the saver is unbounded.
