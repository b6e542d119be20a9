# mtack, verified

mtack runs a set of processes in a background server and shows them, one tab
each, in whatever terminal attaches. These Dafny modules model the parts of the
server in which several parties or several pieces of arithmetic have to agree,
and prove what they promise.

| file | what it is about |
|---|---|
| `Delivery.dfy` | frames as differences, from the server's renderer through a bounded queue and a writer task to the client's screen |
| `App.dfy`, `AppObject.dfy`, `AppRun.dfy` | the server's state, every event handler as a function of it, and the object and event loop that change it in place |
| `AppView.dfy`, `AppQuit.dfy`, `AppPause.dfy`, `AppLives.dfy`, `AppRestarts.dfy`, `AppChildren.dfy`, `AppSearch.dfy`, `AppClients.dfy`, `AppGoodbyes.dfy`, `AppProgress.dfy`, `AppSizes.dfy` | what holds over whole runs of the server |
| `AppTyping.dfy` | what each key, click and wheel turn does, from the key to its effect |
| `Process.dfy`, `Children.dfy`, `InputQueue.dfy`, `Watcher.dfy` | the life of one process, the children behind it, its input, and the watcher that reads its output |
| `Terminal.dfy`, `Search.dfy`, `SearchMeaning.dfy`, `Emulation.dfy` | scrolling, searching and the search caches over an abstract emulator, and what a search finds, said over cells |
| `SocketLock.dfy` | which server owns a config's lock file and socket |
| `Tabs.dfy`, `Keys.dfy`, `Protocol.dfy` | the tab bar's range and hit test, key bindings, the wire format |

State that the program changes in place is a class whose methods are proved to
change it as a function says; the properties are lemmas about those functions.
Concurrency is a state machine whose steps interleave freely: every property of
a run is about every sequence of steps. Time, spawning, signals, the emulator,
drawing, lower-casing, key encoding and event encoding are parameters.

## What the proofs found

These are facts about the code as it is, with the condition under which each shows.

- `n` and `N` start from the middle of the view, which a jump cannot always put
  on the match. With an even viewport height they go to the nearest matching row
  exactly while the current one is outside the first and the last half screen of
  the content; in the last half screen `n` stays on the first match there and
  never reaches the ones below it, and `N` does the same at the top
  (`Terminal.EvenHeightNavigates`, `Terminal.NextReachesIff`,
  `AppSearch.KeySticksIff`). With an odd height the middle is one row too low
  even in between: `n` skips a match in the row right below and `N` finds the current
  row again (`Terminal.OddHeightGetsStuck`).
- One flag serves two search caches. A search repeated after new output returns
  the old matches if highlights were drawn in between, and highlights at the
  offset they were last drawn at are the old ones if a search of everything came
  in between (`Terminal.SearchFreshIff`, `Terminal.HighlightsFreshIff`).
- Quitting does not cancel a restart that is already pending: the process is
  started again while the server winds down. Nothing runs again after quitting
  exactly if no restart was pending (`AppQuit.QuitIsFinalIff`).
- A frame of more than 16 MiB is written but refused by the reader, which then
  stops at the first payload byte (`Protocol.FrameRoundTrip`).
- A process that is scrolled back stays paused, with its view at the bottom,
  when its output takes the history away: by switching to the alternate screen,
  or by a reset after which nothing scrolled off (`Process.OutputSyncedIff`). A
  running process that is scrolled back is always paused
  (`AppPause.ScrolledBackIsPaused`).
- A process that is stopping can be started again. Each process has one child
  at a time, the one it knows, exactly as long as no key does that
  (`AppChildren.AlwaysOneIff`); then no child is left once all processes have
  ended (`AppChildren.NoChildIsLeft`). When it happens and the spawn works, the
  exit of the old child is taken for that of the new one, which lives on unknown
  (`AppChildren.OldExitEndsNew`); when the spawn fails, the process counts as
  failed while the old child lives, and the server can end before it
  (`AppChildren.FailedStartLeavesChild`).
- An accepted search takes the row below the view for its last one: the match it
  jumps to lies in or above the view exactly if no match is in that row
  (`AppSearch.FirstJumpInViewIff`).
- A lower-casing that makes a row longer can look up a column past the end of
  the row (`Search.LookupInRangeIff`).
- Listing servers reads the socket and the lock file one after the other. The
  entry is that of the server it reached, whatever happens in between, exactly if
  no other server is about to start (`SocketLock.ListingNamesServerIff`);
  otherwise it can even be empty (`SocketLock.ListingCanBeTorn`).

## Model

| member | source | states |
|---|---|---|
| Delivery.DiffApplies | src/server.rs:290-304 | applying the difference of two pictures to the first shows the second; a fresh picture needs a cleared screen |
| Delivery.StepKeepsInv | src/server.rs:290-330 | every draw, resize, goodbye, dequeue, delivery, failure and read keeps: pictures arrive in order, nothing between server and screen is lost, one place stays free for a goodbye |
| Delivery.ClientSeesWhatWasRendered | src/server.rs:290-330 | over any interleaving each frame applied shows the picture rendered for it, in order; neither a frame nor a goodbye is refused for lack of room; once all has arrived the screen shows the last picture |
| Delivery.GoodbyeIsLast | src/server.rs:308-330 | of the messages on their way only the last can be a goodbye |
| Delivery.Client.Draw | src/server.rs:290-304 | renders nothing for a busy client, otherwise sends pending commands and the difference as one frame; never finds the queue full |
| Delivery.Client.Resize | src/server.rs:280-284 | forgets the last picture and clears the screen, so that the next frame redraws everything |
| Delivery.Client.SayGoodbye | src/server.rs:316-320 | queues the goodbye behind what is waiting unless the writer has ended |
| Delivery.WriteOutput | src/server.rs:324-330 | the writer's loop sends everything the server queues before and while it runs, in order, up to the first write that fails, then ends |
| Delivery.WriterSendsFirst | src/server.rs:325-329 | each turn of that loop is a receive and a delivery of the interleaved runs, whether or not the server has let go of the client |
| Delivery.WriterIsARun | src/server.rs:324-330 | and what it does after that is one of those runs, to its end |
| Delivery.GoodbyeArrives | src/server.rs:308-330 | whatever the writer and the client do after the server let go of a client: the goodbye is the last message on its way, or was read with nothing after it, or the connection broke |
| Delivery.IdleClientIsDrawnTo | src/server.rs:290-304 | a client whose writer lives and has taken everything is always rendered to: one frame joins its pipeline and the picture drawn for its size is the next one |
| Delivery.BusyClientIsNot | src/server.rs:290-294 | a client that has not taken everything is left alone altogether |
| Delivery.ResizedIsDrawnForTheSize | src/server.rs:280-304 | after a resize the next frame is drawn for the new size |
| Delivery.Drains | src/server.rs:324-330 | the writer and the client can always finish what is on its way, and nothing else changes |
| AppProgress.ClientCanCatchUp | src/app.rs:130-217 | in every reachable state with a client whose writer lives, deliveries and at most one tick bring the client's screen to exactly the current state |
| AppView.NextKeepsViewInv | src/app.rs:130-166 | every event keeps: a client that is not marked dirty was sent exactly the picture a redraw would give now |
| AppView.ClientSeesCurrentState | src/app.rs:111-217 | over any run from start-up, frames show rendered pictures in order, and with nothing dirty and everything delivered the client's screen is the view of the current state |
| AppView.NextClientStartsClean | src/app.rs:219-273 | the view of a client that attaches depends on nothing the previous client did to its view, except the selected tab, the last query and whether the server is quitting |
| AppView.AttachProcs | src/app.rs:219-273 | what the newcomer starts with: normal mode unless quitting, no help, no search, every tab as it was, the selected process at its bottom and sized for it |
| AppView.LooksAlikeIff | src/app.rs:196-210 | two servers show the same view exactly if tabs, selection, mode, help, search, selected terminal and highlights are the same |
| AppView.RemainingCounts | src/app.rs:203-208 | the number shown is how many processes have not ended |
| AppView.HighlightsShown | src/app.rs:188-196 | nothing is highlighted while a query is being typed; after that the matches in view are, unless a stale cache answers |
| AppView.BootStartsWhatIsConfigured | src/app.rs:111-119 | a server starts with exactly the processes that are to start by themselves running, or failed |
| AppSizes.SizesAlwaysAgree | src/app.rs:541-552 | over any run, while a client is attached, frames are drawn for the size the server works with and every terminal is as large as the part of the screen it is drawn in |
| AppSizes.NextAgrees | src/app.rs:275-279 | no event lets the sizes of screen, terminals and frames drift apart |
| AppView.ViewIgnores | src/app.rs:133-142 | a process that is not selected affects the view only through its tab, so its output needs no redraw |
| AppView.LookupKeepsView | src/app.rs:188-196 | filling the highlight cache while drawing does not change what the next frame would show |
| AppView.CtEventKeepsClient | src/app.rs:281-484 | input never touches the client's connection other than by detaching it |
| AppView.NextKeepsWf | src/app.rs:130-166 | the selected tab is always a process, whatever keys, clicks and clients come |
| AppView.ClickHitsTab | src/app.rs:302-316 | a click on the tab bar selects an existing tab or nothing |
| App.LiveCountUpdate | src/app.rs:203-208 | changing one process changes the count of unfinished processes by exactly that process's share |
| AppQuit.NextKeepsWinding | src/app.rs:157-159 | while quitting with no restart pending, no event leaves the mode or starts a process, and the number of unfinished processes drops by one on each exit of one and never otherwise |
| AppQuit.QuitEnds | src/app.rs:111-166 | over any run the loop's exit condition holds once as many exits came as there were unfinished processes |
| AppQuit.BeginQuitLives | src/app.rs:554-566 | quitting stops exactly the running processes and leaves the others' state alone |
| AppQuit.QuitIsFinalIff | src/process.rs:184-187 | after quitting begins, no later run has a running process if and only if no restart was pending |
| AppPause.NextKeepsPauseIff | src/app.rs:231-273 | every event keeps every running watched process paused while its view is scrolled back; it keeps the pause exact if and only if it is not output that takes away the history such a process is scrolled back in |
| AppPause.ScrolledBackIsPaused | src/app.rs:111-166 | over any run from start-up and any output, a running watched process that is scrolled back is paused |
| AppPause.PauseFollowsView | src/app.rs:111-166 | and it is paused only then, unless output took away the history it was scrolled back in |
| AppPause.ResetViewSyncs | src/app.rs:262-273 | resetting the view leaves every process unpaused if it is watched and running, whatever came before |
| AppSearch.SearchStaysConsistent | src/app.rs:382-446 | in every reachable state: no matches while a query is typed, a current match is one of the matches, matches are in row order and come from the selected process |
| AppSearch.NavigationShowsMatch | src/app.rs:507-539 | next and previous go to a match strictly below or above the centre and bring its row into view |
| AppSearch.SecondPressIff | src/app.rs:507-539 | the second press of the same key goes to the nearest match in a further row exactly if no match lies between the first one's row and the centre it led to, or there is nothing further and nothing between that could be found instead |
| AppSearch.KeySticksIff | src/app.rs:507-539 | the second press of a key leaves the whole state as it is if and only if no match lies beyond the centre that the first one left, or the nearest one beyond it is the match it went to |
| AppSearch.FirstJumpInViewIff | src/app.rs:412-425 | the match an accepted search jumps to is the last in or above the view, given a match not below the row after it, if and only if no match is in that row |
| AppTyping.AcceptFindsTheQuery | src/app.rs:397-433 | an accepted search on the primary screen finds every match of the typed query or, if none was typed, the last one, unless a stale cache answers; it remembers the query, returns to normal mode, and brings into view the last match not below the row after it, or the last of all |
| AppTyping.KeysSearchForTheText | src/app.rs:382-433 | slash, any text and enter do that for that text |
| AppTyping.TypingSpells | src/app.rs:382-388 | typing after slash spells the query letter by letter and changes nothing else |
| AppTyping.BackspaceTakesALetterBack | src/app.rs:389-391 | backspace takes the last letter back |
| AppTyping.TabFillsIn | src/app.rs:392-396 | tab fills in the last query if nothing was typed |
| AppTyping.EscapeEndsTheSearch | src/app.rs:434-440 | escape drops query and matches and returns the view to the bottom |
| AppTyping.NavigationKeysNavigate | src/app.rs:441-446 | n goes forward and shift-N back |
| AppTyping.TabActionsMove | src/app.rs:332-350 | next goes one tab to the right, previous one to the left, around either end, and a digit to its tab if there is one; each drops the search |
| AppTyping.ClickSelectsTheTab | src/app.rs:295-323 | a click selects the tab drawn in that column of the tab bar, and does nothing anywhere else |
| AppTyping.ScrollingMoves | src/app.rs:370-381 | the scroll keys move the selected view by a row or by its height and the wheel by three rows, as far as there are rows, and do nothing else |
| AppTyping.HelpKeyTogglesHelp | src/app.rs:447-450 | the help panel opens and closes, and the terminals make room for it |
| AppTyping.FocusedKeysAreWritten | src/input.rs:76-91 | only a running process is focused; it then gets every key but its unfocus key, which ends the focus |
| AppTyping.ProcessKeysAct | src/app.rs:359-369 | start, stop and restart act on the selected process and nothing else |
| AppTyping.QuittingAsksFirst | src/app.rs:459-478 | quitting asks while a process lives; y or enter goes on, any other key calls it off and changes nothing but the mode |
| AppTyping.ForceQuitDoesNotAsk | src/app.rs:466-472 | shift-Q quits without asking, and ctrl-c while quitting ends the loop |
| AppTyping.QuittingClosesHelp | src/app.rs:554-566 | when quitting begins the help panel closes and the terminals get its room |
| AppTyping.DetachKeyDetaches | src/app.rs:473-475 | detaching says goodbye to the client and leaves every process as it is, seen from its bottom |
| AppTyping.FocusIsAsReported | src/app.rs:324-325 | the focus is as the client last reported it, and on for the next client |
| AppTyping.OutputGoesToItsProcess | src/app.rs:486-492 | output changes its own process only, and asks for a redraw only if that one is selected |
| AppTyping.ExitGoesToItsProcess | src/app.rs:493-499 | an exit changes its own process only, and always asks for a redraw |
| AppSearch.TabsCycle | src/app.rs:338-351 | next and previous tab undo each other, wrapping around both ends |
| AppClients.StepKeepsBooked | src/server.rs:177-207 | every step keeps: the clients queued are those in the channel, the current one is the attached one, nobody is forgotten and no goodbye taken back |
| AppClients.NoClientLost | src/app.rs:167-181 | over any run, once the server has stopped no client is attached or waiting, and every client ever connected is accounted for |
| AppClients.LeavingIsToldOrGone | src/app.rs:219-258 | an attached client leaves only with its goodbye queued on its connection, by hanging up, or because its writer had ended |
| AppGoodbyes.EventIsGood | src/app.rs:247-258 | every event keeps the App's goodbyes good: each is last on its way, or read, or its connection broke; only a client let go of joins them |
| AppGoodbyes.EveryGoodbyeArrives | src/app.rs:167-181 | over any run of the server with all its clients, exactly the clients told goodbye have one, and every one is last on its way, or read with nothing after it, or its connection broke |
| AppGoodbyes.UnfinishedExactly | src/app.rs:247-253 | detaching forgets exactly the earlier goodbyes whose writer has ended |
| AppGoodbyes.StoppingSaysExited | src/app.rs:167-180 | when the server stops, the attached client and every one waiting is told that it exited, and earlier goodbyes go on |
| AppObject.App.HandleAction | src/app.rs:330-484 | the object carries out every action, with its own loops over the processes and the matches, exactly as the action's function says |
| AppObject.App.BeginQuit | src/app.rs:554-566 | quitting by loops over the processes: nothing but the end if all have stopped, otherwise every running one is stopped |
| AppObject.App.ResetView | src/app.rs:262-273 | the loop scrolls every process to the bottom and updates its pause |
| AppObject.App.Detach | src/app.rs:247-253 | the loop drops goodbyes whose writer has ended, and the client's own is added with its message queued |
| AppObject.App.SearchNavigate | src/app.rs:507-539 | the scan from either end finds the match that the view then jumps to |
| AppObject.App.FirstBelow | src/app.rs:523-528 | the scan from the top finds the first match strictly below a row |
| AppObject.App.LastAbove | src/app.rs:528-533 | the scan from the bottom finds the last match strictly above a row |
| AppObject.App.RemainingCount | src/app.rs:203-208 | the loop counts the processes that are running or stopping |
| AppObject.App.AllStopped | src/app.rs:574-578 | the loop finds out whether every process has ended |
| AppRun.Handle | src/app.rs:130-156 | one turn of the loop on the object takes the state to the one the event's function gives, for every event the App handles |
| AppRun.Run | src/app.rs:111-181 | the event loop over any events ends in the state that the runs above reach, and then lets go of earlier, current and waiting clients, in that order |
| AppRestarts.RestartsAreSpaced | src/process.rs:268-300 | over any run of the server, the restarts of a process that nobody asked for are at least a second apart, so any span of time holds at most one more than its seconds |
| AppRestarts.NextMoves | src/app.rs:130-166 | no event makes a process run that did not, other than by starting it at that moment |
| AppLives.NextKeeps | src/app.rs:130-166 | no event but an exit ends a process, and none but a key starts one that is stopping |
| Children.OneChildIff | src/process.rs:122-144 | start, stop, restart and exit keep a process at one child, the one it knows, if and only if it is not a start of a stopping process |
| AppChildren.NextKeepsOneIff | src/app.rs:358-363 | so does every event of the server, if and only if it is not a key that starts a stopping process |
| AppChildren.AlwaysOneIff | src/app.rs:111-166 | every process has one child, the one it knows, at every point of a run if and only if no event of the run starts a stopping process |
| AppChildren.NoChildIsLeft | src/app.rs:157-159 | in such a run from start-up no child is left once every process has ended |
| AppChildren.PlayIsAppPlay | src/app.rs:111-166 | the server behaves in these runs as in those that do not look at children |
| AppChildren.OldExitEndsNew | src/process.rs:122-144 | starting a stopping process gives it two children, and the exit of the old one makes it count as ended while the new one lives |
| AppChildren.FailedStartLeavesChild | src/process.rs:138-142 | if the spawn fails it counts as failed while its child lives, and quitting then ends the loop if all others have ended |
| Process.CrashLoopBound | src/process.rs:268-300 | the same for one process on its own, over any history of starts, stops, stale exits and failed spawns |
| Process.ExitRestartsIff | src/process.rs:268-300 | an exit starts the process again exactly if a restart was pending, or it ran for at least a second, is to be restarted, and no signal ended it |
| Process.ExitEnds | src/process.rs:268-283 | otherwise it is stopped, failed, or what it was |
| Process.StopIsFinal | src/process.rs:184-220 | a stop that was asked for unpauses the process and drops its input, and however it then exits it stays stopped |
| Process.RestartRunsAgain | src/process.rs:222-235 | a restart runs the process again, at once or after its exit, however it exits and however soon |
| Process.StartTakesInput | src/process.rs:122-144 | a started process takes input at once whatever was dropped before, is paused if scrolled back, and only a later start prints that it is one |
| Process.StartThatFailsSaysSo | src/process.rs:138-142 | a start that fails says so in the output and leaves a failed process |
| Process.RunningIsNotStarted | src/process.rs:122-125 | starting a running process does nothing |
| Process.InputIsQueued | src/process.rs:237-255 | input goes behind what is queued while there is room, is announced as dropped when there is not, and is ignored by a process that does not run |
| Process.HistoryKeepsPastInv | src/process.rs:122-144 | over any history of starts, stops, stale exits and failed spawns, a running process was started after its last automatic restart |
| Process.OutputSyncedIff | src/process.rs:264-266 | output keeps the pause of a running watched process right if and only if its view was at the bottom, or the output stays on the primary screen and any reset in it is followed by rows that scroll off |
| Process.OutputNeverUnpauses | src/process.rs:264-266 | whatever the output, a process that is scrolled back afterwards is paused if it was before |
| Process.PlainKeepsScrolledBack | src/terminal.rs:44-59 | output or a banner that neither resets nor switches screens never makes a view scrolled back or not |
| Process.LifeKeepsSynced | src/process.rs:122-220 | starting, stopping, restarting and exiting keep a running process paused exactly while scrolled back |
| Process.TerminalKeepsSynced | src/process.rs:237-262 | so do writing input and resizing |
| Process.Process.Start | src/process.rs:122-144 | the object starts as the function says: no start while running, a banner on a restart, Failed if the spawn fails |
| Process.Process.Stop | src/process.rs:184-220 | stops a running process and unpauses it, and ignores any other |
| Process.Process.Restart | src/process.rs:222-235 | restarts at once, or notes a pending restart while the process is stopping |
| Process.Process.HandleExit | src/process.rs:268-300 | after an exit: the new state and whether to start again |
| Process.Process.Write | src/process.rs:237-255 | queues input unless the process is not running, the queue is full, or it is still draining after an overflow |
| InputQueue.NothingLost | src/process.rs:649-676 | without write errors, delivered, being written and queued bytes are the accepted bytes, in order |
| InputQueue.LosesOnlyTail | src/process.rs:237-255 | messages sent while the queue never drains lose a tail, never a hole |
| InputQueue.InputArrives | src/process.rs:237-255 | over any run: accepted messages arrive in order, cut short only by write errors; each loss is announced once; a paste into a queue that does not drain arrives as a prefix |
| InputQueue.PlayKeeps | src/process.rs:649-676 | the invariants behind these hold in every reachable state, partial and failed writes included |
| InputQueue.TakenIff | src/process.rs:237-255 | over any run a message is taken exactly if fewer than 65,536 are queued and the one before was taken or the queue has drained since; the first that finds it full is announced, and no other |
| InputQueue.RoomLosesNothing | src/process.rs:237-255 | over any run with room at every write everything is taken, nothing is announced, and without write errors every byte is under way or there |
| InputQueue.FeedsUntilDone | src/process.rs:655-675 | the writer task goes on until everything queued is delivered, as long as the PTY takes something |
| InputQueue.OneAnswer | src/process.rs:663-672 | what each answer of the PTY does: a partial write takes a prefix, an interruption nothing, and an error or a write of nothing drops the message being written |
| InputQueue.FedIsARun | src/process.rs:649-676 | whatever the writer task does is one of those runs |
| InputQueue.Feeder.WriteInput | src/process.rs:655-675 | the writer task's loop delivers what the function of the PTY's answers says |
| Watcher.WatcherForwards | src/process.rs:680-708 | over any interleaving the App gets a process's output whole and in order, then at most one exit as the last event, and at most one chunk after the view is scrolled back |
| Watcher.PausedIsSilent | src/process.rs:692-696 | a blocked watcher reports nothing, not even an exit, until the pause is lifted |
| Watcher.Task.Run | src/process.rs:688-724 | the loops wait while the pause flag is set, read once for each time it is clear, forward every chunk, and report the exit at the end of output |
| Watcher.TaskIsARun | src/process.rs:688-724 | whatever flags it sees and whatever it reads, that is one of the interleaved runs |
| Watcher.ForwardsUntilTheEnd | src/process.rs:688-724 | with enough looks at a clear flag every chunk is forwarded and the end reported |
| Terminal.OutputPinsView | src/terminal.rs:44-59 | output moves a scrolled-back view so that it stays on its rows, up to the rows a full history drops |
| Terminal.FollowsOutput | src/terminal.rs:44-59 | a view at the bottom stays at the bottom, whatever the output |
| Terminal.ScrollUpUndoneIff | src/terminal.rs:80-98 | scrolling down undoes scrolling up, and the reverse, exactly if the end of the history did not cut the way short |
| Terminal.ScrollMovesView | src/terminal.rs:80-109 | scrolling moves the view over a content that stays by as many rows as asked for, as far as there are rows |
| Terminal.AlternateScreenStays | src/terminal.rs:80-109 | a program that has taken over the screen is not scrolled |
| Terminal.PagesJoin | src/app.rs:580-587 | scrolling by the height of the view skips no row and shows none twice |
| Terminal.ScrollToRowCenters | src/terminal.rs:236-251 | after scrolling to any row it is in view if and only if the content has it, and where the recomputed centre ends up for even and odd heights and at both ends |
| Terminal.NextIsNearestIff | src/app.rs:507-539 | after a jump to any row of any view, next goes to the nearest later match exactly if no match lies between the row and the centre the jump led to |
| Terminal.PreviousIsNearestIff | src/app.rs:507-539 | the same for previous |
| Terminal.NavigatesIffCentered | src/app.rs:507-539 | from a match, both directions go to the nearest match in another row if and only if the jump really centred it |
| Terminal.EvenHeightNavigates | src/app.rs:507-539 | with an even height that is exactly outside the first and last half screen of the content |
| Terminal.OddHeightGetsStuck | src/app.rs:507-539 | with an odd height it is in one row only; elsewhere next skips the row below and previous finds the same row again |
| Terminal.NextReachesIff | src/app.rs:507-539 | next can lead to a match from some scroll position exactly if the match is the first of its row, lies below the highest centre, and no earlier match lies below the lowest one |
| Terminal.PreviousReachesIff | src/app.rs:507-539 | the mirror image for previous |
| Terminal.WindowReadsRow | src/terminal.rs:207-213 | the scan's offset and row arithmetic puts each absolute row in the window, where it is read |
| Terminal.CacheInvHolds | src/terminal.rs:179-192 | whenever the flag is clean at least one of the two caches is current |
| Terminal.SearchFreshUnlessStolen | src/terminal.rs:186-192 | a repeated search is right unless the highlights took the flag after the last change |
| Terminal.HighlightsFreshUnlessStolen | src/terminal.rs:155-161 | highlights are right unless a search took the flag after the last change |
| Terminal.SearchFreshIff | src/terminal.rs:179-192 | for a query that can tell two screens apart, the matches of a repeated search are right whatever output, banners and resizing brought, if and only if the flag was not taken in between |
| Terminal.CountFreshIff | src/terminal.rs:186-192 | for every query, so is the number of rows, if and only if the flag was not taken, or nothing was written that could go into a history and the height is what it was |
| Terminal.HighlightsFreshIff | src/terminal.rs:155-161 | for such a query, highlights are right whatever came onto the screen, if and only if the flag was not taken by a search or nothing leads back to the offset of the cache |
| Terminal.Terminal.Process | src/terminal.rs:44-59 | the object does as the function says, though it can only learn the history's length by scrolling |
| Terminal.Terminal.MaxScrollback | src/terminal.rs:253-259 | finds the history's length and puts the view back |
| Terminal.Terminal.ScrollToRow | src/terminal.rs:236-251 | the object does as the function says |
| Terminal.Terminal.RowTextWithColumns | src/terminal.rs:136-149 | the text of a visible row and the column of each character |
| Terminal.Terminal.ScanVisible | src/terminal.rs:166-178 | row by row, the matches a flat search of the window finds |
| Terminal.Terminal.ScanAll | src/terminal.rs:193-227 | through a moving window, the matches a flat search of history and screen finds, and the number of rows; the view ends up where it was |
| Terminal.Terminal.FindVisibleMatches | src/terminal.rs:151-184 | the highlights, from the cache when flag, query and offset allow |
| Terminal.Terminal.FindAllMatches | src/terminal.rs:186-233 | all matches and the number of rows, from the cache when flag and query allow |
| Search.ColumnsAscend | src/terminal.rs:136-149 | characters get strictly ascending columns inside the row, and exactly the cells that do not continue a wide character are characters |
| Search.MatchesAreDisjoint | src/terminal.rs:216-224 | occurrences found are occurrences, ascending and not overlapping |
| Search.MatchesAreComplete | src/terminal.rs:216-224 | every occurrence starts inside one that was found |
| Search.SpanCoversMatch | src/terminal.rs:264-280 | a match's span starts at its first character, is not empty, ends in the row, and covers exactly the matched characters' cells, continuations included |
| Search.LookupInRangeIff | src/terminal.rs:216-218 | every query's matches look up an existing column if and only if lower-casing did not make the row longer |
| Search.RowSpansDisjoint | src/terminal.rs:166-178 | spans of one row are not empty, lie in the row and do not overlap |
| Search.FlatSearchAscends | src/terminal.rs:207-225 | matches ascend by row and column, disjoint and inside the content |
| Search.FlatSearchComplete | src/terminal.rs:207-225 | every occurrence in every row is covered by a reported match |
| SearchMeaning.ReadsOneWay | src/terminal.rs:136-149 | the text of a row is the first characters of its cells from left to right, a blank for an empty one, without second halves of wide characters |
| SearchMeaning.SearchFindsExactly | src/terminal.rs:186-233 | over the cells of history and screen: the cells of every match spell the query, upper and lower case aside, and every occurrence is covered by a match |
| SearchMeaning.HighlightsAreTheMatchesInView | src/terminal.rs:151-184 | the highlights are the matches of a search of everything that lie in the view, counted from its top |
| SocketLock.StepKeepsInv | src/server.rs:121-166 | every step of every server keeps what the lock, the lock file and the socket mean |
| SocketLock.OneOwner | src/server.rs:121-166 | in every interleaving one server at most holds the lock, a bound server's path leads to itself, and whoever can be reached holds the lock and is named in the lock file |
| SocketLock.OnlyHolderTouchesSocket | src/server.rs:128-166 | only the lock's holder changes the socket path or the lock file |
| SocketLock.BoundUntilGuardDrops | src/server.rs:121-136 | a bound server keeps lock, path and entry until it drops its guard or crashes |
| SocketLock.ListingNamesServerIff | src/server.rs:79-96 | a listing reads the config of the server it reached, whatever happens between its two reads, if and only if no server is about to start |
| SocketLock.ListingNamesServer | src/server.rs:79-96 | in any case it does as long as the server it reached stays |
| SocketLock.ListingCanBeTorn | src/server.rs:79-96 | with another server about to start there is a run after which the entry is empty |
| SocketLock.StartReplacesLeftovers | src/server.rs:138-166 | with nobody holding the lock, an undisturbed start succeeds whatever socket file is left, as the sequential program says |
| SocketLock.StartIsARun | src/server.rs:138-166 | in every reachable state and whatever fails, what a start does to the files is what some of that server's interleaved steps do, and unless it listens it ends without the lock |
| SocketLock.RunningServerIsLeftAlone | src/server.rs:145-147 | a start that finds another server running changes nothing |
| SocketLock.DropIsARun | src/server.rs:128-136 | dropping the guard is two of the interleaved steps: the socket goes, then the lock |
| SocketLock.Disk.Start | src/server.rs:138-166 | lock, truncate, write, remove, bind in order, with every error leaving the lock free |
| SocketLock.Disk.DropGuard | src/server.rs:128-136 | the socket is removed before the lock is let go |
| Tabs.RangeIsMaximal | src/ui/tabs.rs:40-91 | the range holds the selected tab, fits with its markers or is that tab alone, and no larger range fits |
| Tabs.CostMonotone | src/ui/tabs.rs:35-91 | a larger range never costs less, markers included, if no tab is narrower than a marker |
| Tabs.StuckIsMaximal | src/ui/tabs.rs:57-90 | when neither side can grow by one tab, no larger range fits |
| Tabs.RightNeighbourFirst | src/ui/tabs.rs:57-72 | the right neighbour is shown if it fits beside the selected tab |
| Tabs.SelectedIsCentred | src/ui/tabs.rs:52-90 | which of the largest ranges it is: with tabs of one width and both sides cut off the selected tab is in the middle, or has one tab more to its right |
| Tabs.VisibleRange | src/ui/tabs.rs:40-91 | the loop computes that range without overflowing 16 bits |
| Tabs.Render | src/ui/tabs.rs:123-187 | the renderer's pen draws the layout, column by column |
| Tabs.TabIndexAtCol | src/ui/tabs.rs:94-105 | a column hits a tab exactly if the layout gives that column to it |
| Tabs.LayoutFits | src/ui/tabs.rs:137-187 | what is drawn is as wide as the range was charged, so it fits unless a lone tab does not |
| Tabs.TabOwnsColumns | src/ui/tabs.rs:154-181 | a tab owns a column exactly if it is in the range |
| Keys.KeysStayInMode | src/input.rs:51-163 | every key leads only to its mode's actions; while quitting only ctrl-c does anything |
| Keys.NormalKeysIff | src/ui/hints.rs:85-107 | in normal mode each action has exactly the keys that the hints list, and tab, shift-tab, escape and ctrl-c |
| Keys.SearchKeysIff | src/input.rs:93-109 | the keys while a query is typed: shift makes no difference, other modifiers silence a key, but for ctrl-c |
| Keys.ConfirmKeysIff | src/input.rs:68-74 | y and enter confirm quitting and every other key calls it off |
| Keys.FocusedKeysIff | src/input.rs:76-91 | a focused process gets every key but its unfocus key |
| Protocol.FrameRoundTrip | src/protocol.rs:127-146 | a frame that was written reads back, leaving the rest, exactly if it is within the reader's limit |
| Protocol.ParseIsCanonical | src/protocol.rs:137-146 | whatever the reader accepts is the one encoding of what it returns |
| Protocol.StrictPrefixNeverReads | src/protocol.rs:137-146 | a frame cut anywhere never reads |
| Protocol.StreamRoundTrip | src/protocol.rs:127-146 | frames written back to back read back in order and leave exactly the bytes that follow |
| Protocol.HelloRoundTrip | src/protocol.rs:46-67 | an opening message reads back for all sizes |
| Protocol.HelloDecodesIff | src/protocol.rs:56-66 | a connection is opened by an a with four bytes, which are those of the message, or by a q; every other frame is an error |
| Protocol.ServerMsgRoundTrip | src/protocol.rs:103-121 | a server message reads back exactly if its output is within the limit |
| Protocol.ClientMsgRoundTrip | src/protocol.rs:69-101 | a client message reads back, or is skipped if its event does not decode, and takes exactly its own frame with it |
| Protocol.ClientMsgDecodesIff | src/protocol.rs:90-100 | an e is an event or skipped, an r with four bytes is that resize, and every other frame an error |
| Protocol.ServerMsgDecodesIff | src/protocol.rs:112-120 | an o is that output, a d and an x are goodbyes, and every other frame is an error |
| Protocol.ConversationRoundTrip | src/server.rs:177-207 | a whole conversation, cut off anywhere in its last frame, gives the server the opening message and every decodable message in order |
| Protocol.Stream.ReadFrame | src/protocol.rs:137-146 | reading piece by piece from the stream does what parsing its bytes says |
| Protocol.Stream.WriteFrame | src/protocol.rs:127-135 | appends the frame's bytes, and nothing if its length overflows 32 bits |

## Left out

- AppObject.App.Draw: the App object owns its processes as objects, but a process holds its terminal, and the App its client, as a value. The classes for both are proved on their own against the same functions; sharing between the objects is not modelled.
- The libraries: escape sequences and reflow on resize (an output is any change of history and screens, a resize any new screen), ratatui's cell buffers (a frame is a map of changed cells), crossterm and terminput encodings (any pair of encoder and decoder), tokio's scheduler (any interleaving, with channel sends atomic).
- Terminal.SearchFreshIff: is about queries that can tell some two screens apart; for the others, which find the same on every screen, only the number of rows is spoken for (Terminal.CountFreshIff).
- Terminal.HighlightsFreshIff: is about such queries too, and if the cached offset is not the bottom about runs whose last change is output; a banner or a resize need not reach the rows that a scrolled-back view shows, and Terminal.HighlightsFreshUnlessStolen then speaks for the one direction.
- Search.FlatSearchComplete: assumes a lower-casing that keeps the number of characters; what happens otherwise is Search.LookupInRangeIff. Positions are characters, not UTF-8 bytes.
- AppPause.PauseFollowsView: mtack's own banners are taken to be plain text that neither resets nor switches screens.
- AppRestarts.RestartsAreSpaced: the times at which events happen are taken not to run backwards.
- Tabs.VisibleRange: the tabs' widths with both markers are taken to fit 16 bits, as the program's sums require.
- SocketLock.Disk.DropGuard: removing the socket file is taken to work when the guard drops; its failure is ignored by the program and would leave a file that the next start replaces.
- AppQuit.QuitEnds: says when the loop is over, not that exits do arrive; the timer that kills a process which does not stop is any exit event.
- AppChildren.NoChildIsLeft: a child is gone once its exit has been handled; what becomes of children the server does not know when it ends, other than of those of running processes, is up to the operating system.
- A viewport of zero rows, a closed input channel while a process runs, and the one-second limit for flushing goodbyes, after which a writer that is stuck is as good as broken.
- Configuration parsing, the command line, the client's own terminal handling, help and status bar text, styles and colours, runtime directories, hashes and permissions.
