# Simple Network Dashboard: model and proofs

Dafny 4.11 models of the server side of the dashboard: the one-session-per-device
SSH protocol, the delivery of worker output to browser sockets, the terminal
stream machinery, the login throttle and session store, the mirrored
configuration save, and the Prometheus label parser. `dafny verify
dfyconfig.toml` checks everything.

Where threads, timers and the event loop share state, a module is a state
machine: one step per locked section, or per single access where the code takes
no lock, and theorems over every run of steps in any order. Beside it stands a
class whose methods carry out the code's own updates and are proved equal to the
steps. Byte streams, clocks, replies of the network, file faults and answers of
callbacks are parameters or arbitrary steps.

| module | source | what it models |
|---|---|---|
| `SessionSlots`, `SlotFeeds` | ssh_manager.py | reserve, promote, discard, close, disconnect, host-key prompts; generations |
| `CancelRaces` | terminal_control.py, ssh_manager.py | a cancel against the unlocked start-up of its run |
| `DeliveryQueues`, `QueueFeeds` | delivery_queue.py | the bounded thread-to-loop queue and its wake-ups; what it is for the pipeline |
| `Pipelines`, `WsManagers` | ssh_manager.py, ws_manager.py, main.py | from the worker's push to the socket, and page refresh |
| `AckWindows` | terminal_control.py | acknowledged and unacknowledged terminal output |
| `SudoGates`, `OutputBatchers`, `ChannelReaders` | terminal_run.py | from channel bytes to numbered text batches |
| `TerminalWriters` | terminal_run.py, terminal_control.py | typed input, interrupts and resizes to the channel |
| `WorkerOutputs` | ssh_manager.py | the emit callback: wait, history, push and record, against everything else |
| `TerminalViews` | all of these | what a refreshed page shows, from channel bytes to socket |
| `TerminalHistories`, `HistoryBudgets` | terminal_history.py | the recoverable screen text and its budget |
| `LoginThrottles`, `SessionStores` | session_manager.py, main.py | back-off and sessions |
| `Persistences` | persistence.py, main.py | the mirrored save and recovery mode |
| `IdleTimeouts` | ssh_manager.py | idle warning and disconnect |
| `LabelBlocks` | metrics_poller.py | label blocks of the text exposition format |

## Where the code and expectations part

- The acknowledgement limit plus one batch is not kept by every watched,
  uncancelled, unstalled run. `StallThenAckOverruns` gives a run, `GuardIsExact`
  the exact guard.
- An acknowledgement that arrives between the push of a batch and the record of
  it is ignored, and the bytes of that batch stay counted until a further
  acknowledgement or a snapshot (`EarlyAckIsLost`).
- A host-key prompt can be wiped by the second half of an older close
  (`LateCloseWipesPrompt`); the session then prompts with nothing to answer, and
  the sweep of expired prompts does not find it. `WipedExactlyIfClosing` says
  exactly when that can happen.
- Terminal output admitted before the delivery queue is started strands the
  queue (`EarlyTerminalOutputStrands`); `NoLostWakeUp` says exactly when wake-ups
  are kept. `push` applies no limit to non-terminal messages although the
  queue is described as bounded (`PushHasNoLimit`); `BytesAreBounded` is the
  bound that does hold.
- The session store prunes whatever looks dead at a check. That is unobservable as
  long as the clock does not go back and no generation returns
  (`PruningIsUnobservable`); `PruningShowsExactly` says for which runs it shows.
- Once the delivery queue is shut down the reader's final drain goes on feeding the
  history with batches that are no longer pushed; the watermark of a snapshot counts
  them, so a page still has no gap (`PageSeesEachBatchOnce`).
- The sudo gate is independent of chunking exactly for unambiguous patterns
  (`ChunkIndependence`); those of `build_command` always are.
- An owner who connects a second device while a silent command runs is warned
  again at the next tick, because the fresh entry forgets the silent mark
  (`SecondConnectWarnsAgain`, exactly when: `ConnectIsWarnedExactlyIfSilent`);
  the warning is still the only one since that activity.
- Unfinished lines are never cut from the init frame, so its budget is sure to
  hold for up to 21 running terminals and can be exceeded by 22
  (`BudgetHoldsExactlyTo21`).
- In the final drain of the reader a turned-down batch does not mark the run as
  superseded (`RefusalInTheDrainIsHidden`); `ReadChannel` states exactly when a
  run that counts as complete had everything taken.

## Model

| member | source | states |
|---|---|---|
| SessionSlots.StepKeepsInv | simple_network_dashboard/ssh_manager.py:304-475 | every locked section of connect, close, disconnect and prompt handling keeps the slot, holder, generation and prompt invariants, in any interleaving |
| SessionSlots.SlotsAreSound | simple_network_dashboard/ssh_manager.py:304-475 | over all runs a slot holds only a connecting, connected or prompting session of its device, and any connected or prompting session is the one in its slot |
| SessionSlots.ReservationIsExclusive | simple_network_dashboard/ssh_manager.py:304-324 | a reservation is refused exactly when a live session of another owner holds the device; otherwise the device is at once held by a new connecting session and the old one is closed |
| SessionSlots.SlotChanges | simple_network_dashboard/ssh_manager.py:304-475 | a slot changes only by emptying or by a higher generation, and passes to another owner only when empty |
| SessionSlots.GenerationNeverReturns | simple_network_dashboard/ssh_manager.py:79-82 | over every run the generations of a device's slot strictly increase, so one that left never returns |
| SessionSlots.OwnershipNeedsEmptySlot | simple_network_dashboard/ssh_manager.py:304-324 | over every run in which the slot is never empty its owner stays the same |
| SessionSlots.OvertakenNeverOk | simple_network_dashboard/ssh_manager.py:400-413 | a connect that lost its slot never returns ok, whatever follows |
| SessionSlots.OkMeansHolding | simple_network_dashboard/ssh_manager.py:400-420 | the reply is ok if and only if the session still holds its slot, and then it is connected there with no prompt left |
| SessionSlots.StaleCloseIsHarmless | simple_network_dashboard/ssh_manager.py:422-434 | a close aimed at a replaced session changes nothing |
| SessionSlots.ResolveIsBound | simple_network_dashboard/ssh_manager.py:223-284 | a prompt is resolved only by its owner with its code, in time, for the session that raised it and still prompts in the slot |
| SessionSlots.CodeWorksOnce | simple_network_dashboard/ssh_manager.py:242-284 | a resolved code has no effect in any later state of any run |
| SessionSlots.LateCloseWipesPrompt | simple_network_dashboard/ssh_manager.py:422-442 | the claim that every prompting session has a prompt record fails: a run in which the second section of an old close wipes a newer prompt |
| SessionSlots.PromptIsLostExactlyBy | simple_network_dashboard/ssh_manager.py:217-221 | in one step a session that still prompts loses its record if and only if it was used up (answered, expired, cleared) or wiped by the end of a close of its device |
| SessionSlots.RecordStaysUntilTaken | simple_network_dashboard/ssh_manager.py:422-442 | over every run in which a session goes on prompting and no close of its device was unfinished at the start, its record is there exactly until it is answered, expires or is cleared |
| SessionSlots.WipedExactlyIfClosing | simple_network_dashboard/ssh_manager.py:422-442 | some run wipes a waiting record nobody used up, under its prompting session, if and only if a close of the device has yet to run its second section |
| SessionSlots.RaisedPromptIsSafeExactly | simple_network_dashboard/ssh_manager.py:333-358 | what a connect can tell when it raises its prompt: the record is safe from older closes if and only if none of the device is unfinished then |
| SessionSlots.DiscardFreesSlot | simple_network_dashboard/ssh_manager.py:359-399 | a failed connect leaves its slot exactly if it still holds it, changes no other slot, and then whoever connects next gets the device |
| SessionSlots.CloseFreesSlot | simple_network_dashboard/ssh_manager.py:422-434 | a close empties the slot exactly if it holds the target, or anything when there is none, and then nobody is refused it |
| SessionSlots.DisconnectFreesSlot | simple_network_dashboard/ssh_manager.py:450-463 | a disconnect empties the slot exactly for its owner or for a caller without one, and then nobody is refused it |
| SessionSlots.RaisedPromptIsAnswerable | simple_network_dashboard/ssh_manager.py:223-284 | a raised prompt is answered by its owner with its code for five minutes and in no other way; the answer uses up that record only |
| SessionSlots.SshManager.ReserveSlot | simple_network_dashboard/ssh_manager.py:304-324 | the first section of connect is the Reserve step; it returns the new generation exactly when the device was not in use by another owner |
| SessionSlots.SshManager.PromoteSession | simple_network_dashboard/ssh_manager.py:400-413 | the last section after a successful connect is the Promote step and reports being superseded exactly when the slot is lost |
| SessionSlots.SshManager.RaiseHostKeyPrompt | simple_network_dashboard/ssh_manager.py:333-358 | an unknown or changed host key is the RaisePrompt step |
| SessionSlots.SshManager.DiscardSession | simple_network_dashboard/ssh_manager.py:359-399 | a failed connect removes its session from the slot exactly if it still holds it, and nothing else |
| SessionSlots.SshManager.CloseSession | simple_network_dashboard/ssh_manager.py:422-434 | the first section of a close pops the slot only if it holds the target |
| SessionSlots.SshManager.DisconnectDevice | simple_network_dashboard/ssh_manager.py:450-463 | owner check and pop happen in one section; a foreign owner changes nothing |
| SessionSlots.SshManager.FinishClosing | simple_network_dashboard/ssh_manager.py:217-221 | the second section of a close forgets the device's prompt |
| SessionSlots.SshManager.ResolvePrompt | simple_network_dashboard/ssh_manager.py:223-284 | trusting or rejecting takes the prompt exactly when it is valid for device, code, owner and time |
| SessionSlots.SshManager.SweepPrompt | simple_network_dashboard/ssh_manager.py:741-761 | an expired prompt is dropped; the session to close is named exactly if it is the one the prompt was raised for and still prompts in the slot |
| SlotFeeds.SlotStepsDriveThePipeline | simple_network_dashboard/ssh_manager.py:143-163 | every step of the slot protocol is for the delivery pipeline an install with the next generation, a vacated slot, or nothing |
| SlotFeeds.JointRunsAreThePipelines | simple_network_dashboard/ssh_manager.py:143-163 | every interleaving of slot protocol and pipeline steps is a run of the pipeline with the same slots, so all its theorems hold of both together |
| SlotFeeds.GenerationOrderUnderTheSlots | simple_network_dashboard/ssh_manager.py:304-324 | generation order at the sockets over every interleaving of the two machines |
| CancelRaces.StepKeepsInv | simple_network_dashboard/ssh_manager.py:566-592 | every single unlocked access of the worker and every read or write of a cancel keeps the invariant |
| CancelRaces.CancelIsNeverLost | simple_network_dashboard/terminal_control.py:93-127 | in every interleaving an accepted cancel of the current run leaves the flag up for the worker's next look, or the run ending, its channel closed, or its stop timer armed |
| CancelRaces.FlagStopsStartup | simple_network_dashboard/ssh_manager.py:566-592 | over every interleaving from a flag raised before the run reads: the flag stays up while the run is on, and if it ever gets to reading its channel is closed by then |
| CancelRaces.WorkerBringsDown | simple_network_dashboard/ssh_manager.py:566-592 | the worker alone needs at most four steps of its own to its next look, where it ends or closes its channel |
| CancelRaces.TimerStopsRun | simple_network_dashboard/terminal_control.py:129-134 | a ticking stop timer of the current run closes its channel |
| CancelRaces.InterruptHasWriter | simple_network_dashboard/terminal_control.py:106-123 | whenever a cancel finds the run ready, the channel and the writer it uses are the run's own |
| CancelRaces.CancelStopsNoOtherRun | simple_network_dashboard/terminal_control.py:93-134 | whatever cancels, timers and closes of earlier runs are under way when a run begins, in every interleaving without a cancel of it its flag stays down and its channel open |
| CancelRaces.UndisturbedRunStarts | simple_network_dashboard/ssh_manager.py:566-600 | left alone a run gets to reading its own open channel with its writer in place, stays there, and is ready to be interrupted once its start was announced |
| CancelRaces.RunsBeginAndEndClean | simple_network_dashboard/ssh_manager.py:490-523 | a run begins with flag, timer and channel clear, and its end leaves the session ready for the next one, or untouched if it was replaced |
| CancelRaces.ReplacedReaderStops | simple_network_dashboard/terminal_run.py:284-287 | the reader of a replaced session closes its channel at its next look and ends |
| CancelRaces.OutsidersStopTheRun | simple_network_dashboard/ssh_manager.py:422-442 | a replaced session is out of its slot with its flag up and its channel closed, and a stuck writer closes the channel |
| CancelRaces.CancelReads | simple_network_dashboard/terminal_control.py:93-107 | the single reads of an undisturbed cancel add up to one consistent look at the session |
| CancelRaces.StepsOfCancelAddUp | simple_network_dashboard/terminal_control.py:106-127 | acting on that look is: interrupt and arm the timer, close at the second cancel, or close a channel that is not ready |
| CancelRaces.CancelKeepsInv | simple_network_dashboard/terminal_control.py:93-127 | a whole undisturbed cancel keeps the invariant |
| CancelRaces.RunControl.StartRun | simple_network_dashboard/ssh_manager.py:486-525 | the four refusals in their order (no session in the slot, foreign owner, empty command, run on), otherwise the run is reserved with all cancel fields reset |
| CancelRaces.RunControl.Cancel | simple_network_dashboard/terminal_control.py:93-127 | refused for another run or a foreign owner without any change; otherwise the new state is the sum of the single accesses and an interrupt is queued exactly for the first cancel of a ready run |
| CancelRaces.RunControl.ForceStopRun | simple_network_dashboard/terminal_control.py:129-134 | the timer closes the channel only of the run it was set for |
| CancelRaces.RunControl.FinishRun | simple_network_dashboard/ssh_manager.py:699-722 | the end of a run clears its fields and stops its timer |
| Pipelines.StepKeepsOrder | simple_network_dashboard/ws_manager.py:93-110 | every step keeps the generation order at each socket and the bound by the slot's generation |
| Pipelines.HandedInGenerationOrder | simple_network_dashboard/ssh_manager.py:144-163 | over every interleaving the stamped frames of one device reach each socket in non-decreasing generation |
| Pipelines.HandedWasCurrent | simple_network_dashboard/ws_manager.py:93-110 | every frame handed to a socket was taken from the head of its queue by a dequeue of the run that found its session in its device's slot |
| Pipelines.FannedOutWasCurrent | simple_network_dashboard/ssh_manager.py:144-163 | no frame reaches the sockets' queues unless its session was in its device's slot when the delivery loop looked |
| Pipelines.NeverLiveAgain | simple_network_dashboard/ssh_manager.py:144-163 | a session that left its slot is never current again |
| Pipelines.LiveIsCurrent | simple_network_dashboard/ssh_manager.py:144-163 | no batch of a live run is dropped as stale |
| Pipelines.HeadIsNext | simple_network_dashboard/ssh_manager.py:606-623 | the batch that leaves the delivery queue for a live run is the one after those delivered |
| Pipelines.BatchReaches | simple_network_dashboard/ws_manager.py:155-162 | each delivered batch reaches every socket of the run's owner, in order |
| Pipelines.StepKeepsInit | simple_network_dashboard/ws_manager.py:41-52 | no frame precedes the init frame at any socket, and nothing drops it |
| Pipelines.StepKeepsGapInv | simple_network_dashboard/main.py:629-652 | every step keeps all of that |
| Pipelines.GapFreeRefresh | simple_network_dashboard/main.py:629-652 | in every reachable state, for a live run shown in a socket's init frame with watermark s, the init frame is first and only once, and the batches above s given to the socket or on their way are exactly s+1 up to the last pushed, in order |
| Pipelines.PageSeesEachBatchOnce | simple_network_dashboard/terminal_control.py:136-160 | snapshot plus the handed batches above its watermark is at every moment each batch from 1 to some n exactly once and in order; with nothing under way n is the last pushed batch |
| Pipelines.PageCatchesUp | simple_network_dashboard/delivery_queue.py:74-90 | from every reachable state the delivery loop and the sender alone bring a refreshed page to its snapshot and every batch pushed since, each once and in order |
| Pipelines.HandedToItsOwner | simple_network_dashboard/main.py:117-142 | over every interleaving a frame with an owner is handed to that owner's sockets only |
| Pipelines.InitShowsOwnRuns | simple_network_dashboard/terminal_control.py:136-160 | over every interleaving the runs an init frame shows are its socket owner's |
| WsManagers.FanOutIsThePipelines | simple_network_dashboard/main.py:117-142 | handing a frame to the sockets it is for is the pipeline's fan-out with exactly the full sockets dropped |
| WsManagers.InitIsThePipelines | simple_network_dashboard/ws_manager.py:41-52 | the init frame at the byte-counted queue is the pipeline's init step |
| WsManagers.TurnIsThePipelines | simple_network_dashboard/ws_manager.py:100-107 | the sender's turn with its currency check against the slots is the pipeline's dequeue, including the frame kept to be sent |
| WsManagers.SentIsThePipelines | simple_network_dashboard/ws_manager.py:105-107 | a completed send is the pipeline's hand-over of exactly that frame |
| WsManagers.DropIsThePipelines | simple_network_dashboard/ws_manager.py:57-67 | a dropped socket is the pipeline's drop |
| WsManagers.WsManager.Connect | simple_network_dashboard/ws_manager.py:30-39 | a new socket starts empty and not ready |
| WsManagers.WsManager.Drop | simple_network_dashboard/ws_manager.py:57-67 | exactly this socket is forgotten |
| WsManagers.WsManager.SendInit | simple_network_dashboard/ws_manager.py:41-52 | the init frame goes in front of all held frames and wakes the sender, or the socket is dropped when its bytes would exceed the limit; an unknown socket changes nothing |
| WsManagers.WsManager.Enqueue | simple_network_dashboard/ws_manager.py:81-91 | a frame is appended and counted, and wakes a ready sender, or the full socket is dropped; the counter stays exact and within the limit |
| WsManagers.WsManager.SendToOwner | simple_network_dashboard/ws_manager.py:155-162 | each of the owner's sockets got the frame or was dropped as full, every other socket is untouched |
| WsManagers.WsManager.Broadcast | simple_network_dashboard/ws_manager.py:148-153 | the same for every socket |
| WsManagers.WsManager.Deliver | simple_network_dashboard/main.py:117-142 | routing by owner key carries out the pipeline's fan-out step |
| WsManagers.WsManager.TakeNext | simple_network_dashboard/ws_manager.py:93-107 | the sender takes the head, counts it off, and keeps it to be sent exactly if its session is in its device's slot then |
| WsManagers.WsManager.Sent | simple_network_dashboard/ws_manager.py:105-107 | a completed send is the pipeline's hand-over of that frame to its socket |
| WsManagers.WsManager.Rest | simple_network_dashboard/ws_manager.py:93-110 | the wake-up is cleared only with nothing to send, so a ready socket with waiting frames always has one |
| DeliveryQueues.StepKeepsInv | simple_network_dashboard/delivery_queue.py:30-98 | every step of producers, loop and shutdown keeps conservation, byte count and reserve |
| DeliveryQueues.QueueConserves | simple_network_dashboard/delivery_queue.py:35-90 | over every interleaving admitted = delivered, then in flight, then queued, in order; the byte count is the sum of the queued sizes; terminal output stays within nine tenths |
| DeliveryQueues.TerminalLeavesReserve | simple_network_dashboard/delivery_queue.py:48-66 | a terminal message is admitted only if it leaves a tenth of both limits free |
| DeliveryQueues.TerminalIsAdmittedExactly | simple_network_dashboard/delivery_queue.py:49-66 | terminal output is let in exactly while the queue is open, its run goes on, and 3,774,873 bytes and 3,686 items hold it too |
| DeliveryQueues.OtherIsAdmittedExactly | simple_network_dashboard/delivery_queue.py:35-46 | any other message is let in exactly between start and shutdown |
| DeliveryQueues.AwakeQueueDelivers | simple_network_dashboard/delivery_queue.py:74-90 | the steps of the loop alone lead from any awake state to one in which all that was admitted has been handed on, in order |
| DeliveryQueues.ClosedLoopDeliversNothing | simple_network_dashboard/delivery_queue.py:68-72 | over every run after the loop was closed nothing more is delivered |
| DeliveryQueues.BytesAreBounded | simple_network_dashboard/delivery_queue.py:35-66 | over every run the queued bytes are at most the unreserved 3,774,873 and the non-terminal bytes waiting |
| DeliveryQueues.PushHasNoLimit | simple_network_dashboard/delivery_queue.py:35-46 | push has no limit of its own: for every number of bytes some run meets that bound with so many of them |
| DeliveryQueues.NoLostWakeUp | simple_network_dashboard/delivery_queue.py:35-90 | after start no wake-up is ever lost, in any interleaving, if and only if the queue was empty at start |
| DeliveryQueues.EarlyTerminalOutputStrands | simple_network_dashboard/delivery_queue.py:48-72 | from the empty queue, terminal output admitted before start leaves a drain that waits for a wake-up nobody sends, and nothing is delivered in any run from there |
| DeliveryQueues.ShutdownEndsAdmission | simple_network_dashboard/delivery_queue.py:92-98 | after a shutdown no run admits anything, and with the drain cancelled none delivers |
| DeliveryQueues.DeliveryQueue.StartDrain | simple_network_dashboard/delivery_queue.py:30-33 | start is the machine's Start step |
| DeliveryQueues.DeliveryQueue.PushMessage | simple_network_dashboard/delivery_queue.py:35-46 | a non-terminal push appends, counts, and wakes an empty queue |
| DeliveryQueues.DeliveryQueue.TryPushTerminal | simple_network_dashboard/delivery_queue.py:48-66 | one pass of the waiting loop admits, gives up or waits exactly as the limits and should_continue say |
| DeliveryQueues.DeliveryQueue.PopNext | simple_network_dashboard/delivery_queue.py:76-84 | the drain takes the oldest message, or clears the event when there is none |
| DeliveryQueues.DeliveryQueue.BeginShutdown | simple_network_dashboard/delivery_queue.py:92-98 | after it nothing is admitted in any run, and a running drain can be cancelled |
| AckWindows.WindowIsExact | simple_network_dashboard/terminal_control.py:55-91 | in every reachable state acked_seq <= sent_seq and the keys of sent_bytes are exactly the numbers in between |
| AckWindows.AckTakesOff | simple_network_dashboard/terminal_control.py:66-72 | an acknowledgement takes off exactly the bytes of the batches it covers |
| AckWindows.GuardedRunIsKept | simple_network_dashboard/terminal_control.py:74-91 | while a run is watched, not cancelled and not stalled its unacknowledged bytes stay within the limit plus one batch, in every state of every run whose batches were let go within the limit or after a cancel |
| AckWindows.PastTheLimitBreaks | simple_network_dashboard/terminal_control.py:74-91 | from every state in which an uncancelled run may let a batch past the limit, whatever its size, a continuation breaks that bound |
| AckWindows.GuardIsExact | simple_network_dashboard/terminal_control.py:74-91 | the two together over all runs: the guard "cancelled or within the limit" where a batch asks to go is exactly what the bound needs |
| AckWindows.WindowHoldsExactly | simple_network_dashboard/terminal_control.py:74-91 | the stricter bound, in every state of a run whether watched or not, holds if and only if no batch is recorded while the bytes are over the limit |
| AckWindows.LetGoWithinIsRecordedWithin | simple_network_dashboard/ssh_manager.py:606-623 | a batch let go within the limit is recorded within it, whatever happens between its push and its record |
| AckWindows.OrdinaryRunIsBounded | simple_network_dashboard/terminal_control.py:74-91 | if no batch was waved past the limit by an absent or stalled browser or a cancel, the bound holds in every state of the run |
| AckWindows.HeldExactly | simple_network_dashboard/terminal_control.py:74-91 | a batch is held exactly while a watching browser of an uncancelled, unstalled run owes more than the limit and made progress less than twenty seconds ago; a run counts as stalled only when that time was over |
| AckWindows.PromptRunIsBounded | simple_network_dashboard/terminal_control.py:74-91 | over every run whose batches ask to go watched, uncancelled and within twenty seconds of progress, the limit plus one batch holds in every state |
| AckWindows.CancelLetsGo | simple_network_dashboard/terminal_control.py:81-85 | a cancel or a browser that goes away lets the waiting batch go |
| AckWindows.StallThenAckOverruns | simple_network_dashboard/terminal_control.py:74-91 | a run of 131,072-byte batches that ends watched, not cancelled and not stalled with more than the limit and one batch unacknowledged |
| AckWindows.AckCountsExactly | simple_network_dashboard/terminal_control.py:63-72 | an acknowledgement changes anything if and only if its batch is already recorded and newer than the last that counted |
| AckWindows.CountedUntilReleased | simple_network_dashboard/terminal_control.py:63-72 | over every run a recorded batch stays in the window of its run, with its bytes counted, exactly until it or a later one is acknowledged or a snapshot is taken |
| AckWindows.EarlyAckIsLost | simple_network_dashboard/ssh_manager.py:616-622 | an acknowledgement between push and record is lost: over every continuation of the run the bytes of that batch are counted until a further acknowledgement or a snapshot |
| AckWindows.RunOutput.StartRun | simple_network_dashboard/ssh_manager.py:519-523 | a run starts with an empty window |
| AckWindows.RunOutput.CountUnacked | simple_network_dashboard/terminal_control.py:83 | the loop over sent_bytes counts the window |
| AckWindows.RunOutput.TerminalAck | simple_network_dashboard/terminal_control.py:55-72 | the method is the machine's Ack step |
| AckWindows.RunOutput.AcknowledgeSnapshot | simple_network_dashboard/terminal_control.py:153-159 | a page snapshot acknowledges everything recorded |
| AckWindows.RunOutput.Look | simple_network_dashboard/terminal_control.py:74-91 | one look: gone for a replaced run, otherwise held exactly while the browser watches, owes more than the limit and made progress less than twenty seconds ago |
| AckWindows.RunOutput.WaitForTerminalAck | simple_network_dashboard/terminal_control.py:74-91 | the loop ends at its first look that does not hold the batch; every look before held it for a browser that owes too much and made progress lately |
| AckWindows.RunOutput.RecordSent | simple_network_dashboard/ssh_manager.py:619-622 | the pushed batch joins the window |
| SudoGates.FindIsFirst | simple_network_dashboard/terminal_run.py:78-79 | the search finds the first occurrence, and -1 exactly when there is none |
| SudoGates.HitIsStable | simple_network_dashboard/terminal_run.py:77-83 | bytes that arrive later cannot change a hit |
| SudoGates.ScanContinues | simple_network_dashboard/terminal_run.py:69-94 | scanning a longer buffer continues from the verdict on the shorter one |
| SudoGates.FeedTwice | simple_network_dashboard/terminal_run.py:69-94 | two calls of feed do what one call with both pieces does |
| SudoGates.ChunkIndependence | simple_network_dashboard/terminal_run.py:50-94 | for every stream and every cut the gate gives the same state, output and password requests as for the whole stream, if and only if its patterns are unambiguous |
| SudoGates.AmbiguousPatternsDependOnChunks | simple_network_dashboard/terminal_run.py:50-94 | for every ambiguous pair of patterns the gate does depend on the cut |
| SudoGates.VerdictOnStream | simple_network_dashboard/terminal_run.py:69-94 | the verdict on a stream looks only at the phrases before the first mark and passes on what follows it |
| SudoGates.GateContract | simple_network_dashboard/terminal_run.py:50-94 | for separate patterns and any cut: output is exactly the bytes after the first mark, the password is asked for at most once, a second phrase refuses |
| SudoGates.BuildCommandPatternsAreSeparate | simple_network_dashboard/terminal_run.py:28-40 | the patterns of build_command are separate for all nonces |
| SudoGates.SudoGate.SuffixPrefix | simple_network_dashboard/terminal_run.py:61-67 | the loop returns the longest remembered suffix that begins a pattern |
| SudoGates.SudoGate.Feed | simple_network_dashboard/terminal_run.py:69-94 | the loop computes the gate's step |
| OutputBatchers.DecodeJoins | simple_network_dashboard/terminal_run.py:111-112 | decoding chunk by chunk is decoding the chunks joined |
| OutputBatchers.OneByteDecodes | simple_network_dashboard/terminal_run.py:112-118 | each byte is decoded by the step of the codec, and the end adds what the codec makes of the kept bytes |
| OutputBatchers.OutputBatcher.Add | simple_network_dashboard/terminal_run.py:111-123 | text is held or cut exactly when it is due, numbered next; sent and held text together are the decoding of everything fed |
| OutputBatchers.OutputBatcher.Flush | simple_network_dashboard/terminal_run.py:125-138 | a flush between reads cuts exactly the due text |
| OutputBatchers.OutputBatcher.FlushFinal | simple_network_dashboard/terminal_run.py:125-138 | after the last flush the batches, numbered from 1 and none empty, are the whole decoding |
| ChannelReaders.FeedAllSnoc | simple_network_dashboard/terminal_run.py:261-283 | one more piece through the gate extends its account by one step |
| ChannelReaders.EveryByteIsRead | simple_network_dashboard/terminal_run.py:284-307 | what the reading loop receives is every byte of the two streams, round by round and standard output first |
| ChannelReaders.DrainStopsAtEmpty | simple_network_dashboard/terminal_run.py:310-318 | the drain of a stream takes what comes before its first empty read |
| ChannelReaders.ShownIsAfterTheMark | simple_network_dashboard/terminal_run.py:252-331 | the text of a gated run is the decoding of the bytes after the first mark of everything received |
| ChannelReaders.ChannelReader.PassGate | simple_network_dashboard/terminal_run.py:261-278 | the gate's part of handle: password asked, start announced before output, or refusal with the channel closed |
| ChannelReaders.ChannelReader.Handle | simple_network_dashboard/terminal_run.py:261-283 | one piece goes through gate, decoder and batcher; it fails exactly on a refusal or a turned-down batch |
| ChannelReaders.ChannelReader.Offer | simple_network_dashboard/terminal_run.py:279-282 | a cut batch is offered and the answer decides |
| ChannelReaders.ChannelReader.FinishOutput | simple_network_dashboard/terminal_run.py:319-322 | the last flush completes the decoded output |
| ChannelReaders.ChannelReader.ReadRound | simple_network_dashboard/terminal_run.py:288-303 | one turn takes both streams in order and flushes due text, and stops exactly on a refusal or a turned-down batch |
| ChannelReaders.ChannelReader.ReadRounds | simple_network_dashboard/terminal_run.py:284-308 | the loop ends normally only with everything received so far handled |
| ChannelReaders.ChannelReader.Drain | simple_network_dashboard/terminal_run.py:310-318 | what is left on a stream is handled up to its first empty read |
| ChannelReaders.ChannelReader.ReadAll | simple_network_dashboard/terminal_run.py:284-322 | reading, draining and the last flush: an emit turned down supersedes the run before and after the drain, not in it |
| ChannelReaders.ChannelReader.ReadChannel | simple_network_dashboard/terminal_run.py:252-331 | offered batches are numbered from 1 with no gap, none empty; they are a beginning of, and unless superseded or refused all of, the decoded gate output over the bytes received in order; with all answers positive everything was received; the start is announced once and before any output; unless superseded or refused, everything offered was taken if and only if nothing offered in the drain was turned down; a refused or superseded run has its channel closed |
| ChannelReaders.RefusalInTheDrainIsHidden | simple_network_dashboard/terminal_run.py:310-322 | a channel whose drain has a batch turned down while the run counts as complete |
| TerminalWriters.StepKeepsInv | simple_network_dashboard/terminal_run.py:149-249 | every step of callers and thread keeps the channel, queue, counter and origin invariants |
| TerminalWriters.ChannelHoldsWholeItems | simple_network_dashboard/terminal_run.py:207-249 | for any partial sends, timeouts, failures and closes the channel holds a prefix of the dequeued items joined, with every item but the last in full |
| TerminalWriters.NothingFollowsAnUnfinishedItem | simple_network_dashboard/terminal_run.py:240-249 | after an item is given up nothing more reaches the channel |
| TerminalWriters.QueuedTypingIsTheControllers | simple_network_dashboard/terminal_control.py:14-39 | the pending counter is exactly the queued typed bytes and within the limit; all queued typing is the present controller's under the present revision; with what was taken it is the input accepted since the claim, in order |
| TerminalWriters.InterruptGoesFirst | simple_network_dashboard/terminal_run.py:184-188 | an interrupt goes in front of everything queued, and is refused only by a closed writer |
| TerminalWriters.InterruptIsNext | simple_network_dashboard/terminal_run.py:184-188 | in every run that begins with an interrupt of an open writer the next item taken is Ctrl-C |
| TerminalWriters.UntypedKeepsTheRest | simple_network_dashboard/terminal_run.py:190-194 | clearing the input works item by item, so what stays keeps its order |
| TerminalWriters.ClosedWriterTakesNothing | simple_network_dashboard/terminal_run.py:196-205 | over every run from the close nothing more is dequeued and nothing new is queued |
| TerminalWriters.SendingGoesOn | simple_network_dashboard/terminal_run.py:230-243 | timeouts do not end the sending loop; it sends what the channel takes |
| TerminalWriters.SendingEnds | simple_network_dashboard/terminal_run.py:230-249 | a close, deadline, failure or zero ends it with what was sent until then; stuck exactly when the deadline ended it |
| TerminalWriters.RunTerminal.ClaimTerminal | simple_network_dashboard/terminal_control.py:14-24 | a claim moves control and revision on and drops the queued typing |
| TerminalWriters.RunTerminal.TerminalInput | simple_network_dashboard/terminal_control.py:26-39 | input is queued exactly when the sender controls the run and it fits, and refused without any change otherwise |
| TerminalWriters.RunTerminal.TerminalResize | simple_network_dashboard/terminal_control.py:41-53 | a resize is queued exactly under control, clamped to the supported bounds |
| TerminalWriters.RunTerminal.QueuePassword | simple_network_dashboard/terminal_run.py:177-182 | a non-empty password is queued with its newline |
| TerminalWriters.RunTerminal.InterruptProgram | simple_network_dashboard/terminal_run.py:184-188 | Ctrl-C is put in front of everything queued, or nothing changes when the writer is closed |
| TerminalWriters.RunTerminal.TakeItem | simple_network_dashboard/terminal_run.py:212-227 | the thread ends when closed, waits when empty, and otherwise takes the head and counts typed bytes off |
| TerminalWriters.RunTerminal.SendItem | simple_network_dashboard/terminal_run.py:228-249 | the sending loop has exactly the outcome of its specification; the channel grows by exactly the bytes sent, and an unfinished item ends the thread |
| TerminalHistories.FeedTextKeepsWellFormed | simple_network_dashboard/terminal_history.py:57-129 | the cursor stays within the line, lines within 4096 characters, and no control character but tab is stored |
| TerminalHistories.SequenceApplies | simple_network_dashboard/terminal_history.py:57-111 | the character machine crosses a whole escape sequence as one effect |
| TerminalHistories.FeedShows | simple_network_dashboard/terminal_history.py:57-129 | feeding a text shows what tokenizing, dropping the alternate screen and line editing make of it |
| TerminalHistories.BatchingIsInvisible | simple_network_dashboard/terminal_history.py:42-46 | how the text was cut into batches does not show |
| TerminalHistories.HistoryIsThreePasses | simple_network_dashboard/terminal_history.py:33-129 | for every text and every cut into batches the state is what the three passes make of the whole text, of which the newest 1500 lines stay |
| TerminalHistories.PlainOutputIsKept | simple_network_dashboard/terminal_history.py:33-129 | plain lines come out as they went in: the newest 1500, oldest first, and the unfinished line |
| TerminalHistories.OnlyShownIsStored | simple_network_dashboard/terminal_history.py:113-129 | only tabs and characters that are no control characters are stored, at most 4096 to a line and 1500 lines |
| TerminalHistories.ControlSequenceActs | simple_network_dashboard/terminal_history.py:78-111 | a whole control sequence erases to the end of the line, switches the alternate screen, or does nothing, and the text goes on after it |
| TerminalHistories.ScreenSwitchExactly | simple_network_dashboard/terminal_history.py:101-111 | a private mode sequence switches the screen exactly if one of its parameters is 47, 1047 or 1049 |
| TerminalHistories.TerminalHistory.Feed | simple_network_dashboard/terminal_history.py:42-46 | the loop over characters is the machine; the object remains the history of all batches fed |
| TerminalHistories.TerminalHistory.TakeSnapshot | simple_network_dashboard/terminal_history.py:47-54 | the snapshot is the newest 1500 lines and the unfinished line of what the three passes make of everything fed, with the number of the last batch |
| TerminalHistories.TerminalHistory.FeedCharacter | simple_network_dashboard/terminal_history.py:57-99 | one character is one step of the machine |
| TerminalHistories.TerminalHistory.Handle | simple_network_dashboard/terminal_history.py:101-111 | a complete control sequence has the machine's effect |
| TerminalHistories.TerminalHistory.Write | simple_network_dashboard/terminal_history.py:113-129 | a shown character, carriage return, backspace, tab or newline edits the line as specified |
| HistoryBudgets.CountKept | simple_network_dashboard/terminal_history.py:11-27 | the loop keeps the longest suffix of lines whose encoded size with the unfinished line fits the share |
| HistoryBudgets.CostIsTheJson | simple_network_dashboard/terminal_history.py:22-29 | what the trimming counts is, character for character, the JSON text of the unfinished line and of the array of lines |
| HistoryBudgets.TrimToBudget | simple_network_dashboard/terminal_history.py:11-27 | every terminal of the array is rewritten in place to that suffix of its even share |
| HistoryBudgets.TrimmedFits | simple_network_dashboard/terminal_history.py:11-27 | a trimmed terminal fits its share if and only if its unfinished line does |
| HistoryBudgets.BudgetHolds | simple_network_dashboard/terminal_history.py:11-27 | the total fits the budget whenever every unfinished line fits its share |
| HistoryBudgets.BudgetHoldsExactlyTo21 | simple_network_dashboard/terminal_control.py:160 | with unfinished lines capped at 4096 characters the init frame is sure to fit its 1,048,576 for n terminals if and only if n is at most 21 |
| HistoryBudgets.TwentyOneFit | simple_network_dashboard/terminal_control.py:160 | up to 21 terminals fit whatever they show |
| HistoryBudgets.TwentyTwoMayNotFit | simple_network_dashboard/terminal_control.py:160 | from 22 terminals on, full lines of emoji do not fit |
| HistoryBudgets.LongUnfinishedLineBreaksBudget | simple_network_dashboard/terminal_history.py:11-27 | of the trimming itself at any budget: an unfinished line over it is kept |
| LoginThrottles.RunIsChain | simple_network_dashboard/main.py:534-551 | the failures of one address that the gate admits form a chain in which each waits out the previous pause |
| LoginThrottles.StreakTimeClosed | simple_network_dashboard/session_manager.py:197-201 | the pauses of a streak add up to 5(2^(min(n,11)-5) - 1) + 300 max(0, n-11) seconds |
| LoginThrottles.StreakIsSlowed | simple_network_dashboard/session_manager.py:175-204 | an unbroken streak of n >= 5 failures takes at least that long |
| LoginThrottles.GuessRateIsBounded | simple_network_dashboard/main.py:531-563 | for every run of attempts from any addresses, N failures of one address in any window with no success span T with 211 N <= 2 T + 1800 |
| LoginThrottles.BoundIsReached | simple_network_dashboard/session_manager.py:175-204 | for every number of rounds of ten failures some run meets that bound with equality |
| LoginThrottles.GuessesTakeLeastTime | simple_network_dashboard/main.py:531-563 | for every run and every N a window of N failures of one address takes at least the least time of N, the best over all ways to split N into streaks |
| LoginThrottles.LeastTimeIsReached | simple_network_dashboard/session_manager.py:175-204 | for every N some run has N failures in exactly that time, so it is the best bound for each N |
| LoginThrottles.LinearBoundAgainstLeast | simple_network_dashboard/session_manager.py:175-204 | the linear bound is below the least time for every N and equal to it at every ten |
| LoginThrottles.LoginThrottle.Current | simple_network_dashboard/session_manager.py:182-187 | an address is forgotten fifteen minutes after its last failure |
| LoginThrottles.LoginThrottle.RetryAfter | simple_network_dashboard/session_manager.py:189-195 | the answer is the rounded-up rest of the pause |
| LoginThrottles.LoginThrottle.Failure | simple_network_dashboard/session_manager.py:197-201 | a failure lengthens the streak and answers its pause |
| LoginThrottles.LoginThrottle.Success | simple_network_dashboard/session_manager.py:203-204 | after a success the address is unknown and waits for nothing at any time, and every other address is as before |
| LoginThrottles.OneRequest | simple_network_dashboard/main.py:531-563 | the gate alone decides whether the password is looked at, only a refused one lengthens the streak, only an accepted one forgives, and no other address notices |
| LoginThrottles.Login | simple_network_dashboard/main.py:531-563 | one attempt: the gate first, then the password, then failure or success, as the chain step says |
| SessionStores.PruningIsUnobservable | simple_network_dashboard/session_manager.py:135-172 | over every orderly run every validate that answers gives the answer of a store that never prunes, publishing failures included |
| SessionStores.EventKeepsAgreement | simple_network_dashboard/session_manager.py:135-172 | each create, validate and revoke keeps the file in agreement with the whole log |
| SessionStores.AnswerIsRight | simple_network_dashboard/session_manager.py:145-162 | an answer is true exactly for a token created, not revoked, unexpired and of the present generation |
| SessionStores.AnswerIs | simple_network_dashboard/session_manager.py:145-162 | every answer by the log of calls alone, for any clock and any generations: no answer exactly if something dead cannot be published away, otherwise whether the token is valid and never found dead |
| SessionStores.PruningShowsExactly | simple_network_dashboard/session_manager.py:145-162 | over every run with any clock and generations all answers are the reference's if and only if no token valid when checked was found dead by a published pruning since it was granted |
| SessionStores.ShowingTakesAReturn | simple_network_dashboard/session_manager.py:145-162 | wherever pruning shows, the pruning that dropped the record ran under another generation or at a later time than the check |
| SessionStores.ReturningGenerationShows | simple_network_dashboard/session_manager.py:145-162 | a run with a returning generation in which pruning shows |
| SessionStores.SessionStore.Create | simple_network_dashboard/session_manager.py:135-143 | a token is recorded under its digest with its expiry, or nothing changes when publishing fails |
| SessionStores.SessionStore.Validate | simple_network_dashboard/session_manager.py:145-162 | the loop prunes exactly the expired and foreign records and answers from what is left |
| SessionStores.SessionStore.Revoke | simple_network_dashboard/session_manager.py:164-172 | exactly the token's record goes |
| Persistences.StepKeepsInv | simple_network_dashboard/persistence.py:131-191 | every replace, sync, fault, crash, startup and repair step keeps the invariant |
| Persistences.StartupLoadsPromised | simple_network_dashboard/persistence.py:16-62 | stopping at any step of any sequence of saves, repairs and crashes, a startup that can read loads the payload of the last save that returned True or of a later attempt |
| Persistences.StartupTrustsPrimary | simple_network_dashboard/persistence.py:23-25 | a healthy primary is what a startup loads, whatever the backup holds, and neither file is touched |
| Persistences.StartupUsesBackupExactly | simple_network_dashboard/persistence.py:26-66 | the backup is used and goes back into the primary if and only if the primary does not load and the backup does; without either the inventory is empty, read-only exactly if there is a file |
| Persistences.UnreadableStartupKeepsFiles | simple_network_dashboard/persistence.py:16-62 | a startup that can read neither file leaves both as they are |
| Persistences.TrueSaveIsMirrored | simple_network_dashboard/persistence.py:165-191 | a True save leaves both files equal to its payload, on the disk as well |
| Persistences.RecoveryStep | simple_network_dashboard/main.py:742-765 | a step in recovery mode writes nothing but the retained payload, and ends the mode only with that payload restored |
| Persistences.RecoveryProtectsFiles | simple_network_dashboard/persistence.py:165-172 | over any run in recovery mode the backup stays and the primary gets nothing but the retained payload |
| Persistences.RecoveryDoesNotReturn | simple_network_dashboard/main.py:742-765 | only a startup enters recovery mode |
| Persistences.CacheMirrorsPrimary | simple_network_dashboard/persistence.py:165-191 | outside recovery mode the cache mirrors the primary file |
| Persistences.Storage.WritePrivatePayload | simple_network_dashboard/persistence.py:131-150 | replace and sync of one file with every fault position |
| Persistences.Storage.LoadStartupDevices | simple_network_dashboard/persistence.py:16-66 | a primary that loads is used with both files untouched; else a backup that loads is used, copied back and proved, or kept behind read-only mode; else the inventory is empty |
| Persistences.Storage.Save | simple_network_dashboard/persistence.py:165-191 | a save is the run of its single steps |
| Persistences.Storage.RetryRecovery | simple_network_dashboard/main.py:742-765 | nothing happens outside recovery mode or without a retained payload; otherwise a retry is the run of its single steps; the answer says which |
| IdleTimeouts.CrossingIsUnwarned | simple_network_dashboard/ssh_manager.py:786-794 | when all running commands have just fallen silent no warning is out |
| IdleTimeouts.StepKeepsInv | simple_network_dashboard/ssh_manager.py:763-826 | every activity, run, close and prompt tick keeps the invariant |
| IdleTimeouts.TickDecides | simple_network_dashboard/ssh_manager.py:763-817 | what every tick does: a command heard of within half an hour is activity; else from 300 s of idleness it disconnects and from 270 s warns once with the whole seconds left, idleness of commands that have just fallen silent being 270 s |
| IdleTimeouts.TickForgetsTheGone | simple_network_dashboard/ssh_manager.py:769-775 | an owner without sessions is forgotten without a word |
| IdleTimeouts.QuietOwnerIsDisconnected | simple_network_dashboard/ssh_manager.py:763-817 | an owner with nothing running is disconnected by the first tick 300 s after the last activity |
| IdleTimeouts.StaySparesTheOwner | simple_network_dashboard/ssh_manager.py:819-826 | for half an hour after staying, in every run in which a command goes on, the owner is neither warned nor disconnected |
| IdleTimeouts.OutputSparesTheOwner | simple_network_dashboard/terminal_control.py:26-40 | output or input of a command spares the owner for half an hour in the same way |
| IdleTimeouts.FinishCountsAsActivity | simple_network_dashboard/ssh_manager.py:725-737 | the end of a command is activity of its owner, and it no longer counts as running |
| IdleTimeouts.LeavingIsFinal | simple_network_dashboard/ssh_manager.py:828-840 | a closed session is gone, and a released owner has none and is forgotten |
| IdleTimeouts.EveryDisconnectIsWarnedOnce | simple_network_dashboard/ssh_manager.py:763-826 | over every run with ticks at most 30 s apart each idle disconnect has exactly one warning since the last activity and does not come before the announced time |
| IdleTimeouts.WiderGapSkipsTheWarning | simple_network_dashboard/ssh_manager.py:763-826 | for every longer gap some run disconnects an owner with no warning |
| IdleTimeouts.WarnedExactlyUpToTheNotice | simple_network_dashboard/ssh_manager.py:763-826 | that holds of all runs if and only if the allowed gap between ticks is at most 30 s |
| IdleTimeouts.OwnerActivity.OwnerReset | simple_network_dashboard/ssh_manager.py:111-116 | a reset moves the idle clock and clears the warning but not the silent mark |
| IdleTimeouts.OwnerActivity.Connected | simple_network_dashboard/ssh_manager.py:107-109 | a connect makes a fresh entry |
| IdleTimeouts.OwnerActivity.StayConnected | simple_network_dashboard/ssh_manager.py:819-826 | staying resets the owner and counts as output of every running command |
| IdleTimeouts.ConnectIsWarnedExactlyIfSilent | simple_network_dashboard/ssh_manager.py:107-109 | the tick after a connect warns the owner if and only if commands are running and all of them are silent |
| IdleTimeouts.SecondConnectWarnsAgain | simple_network_dashboard/ssh_manager.py:786-794 | a run with prompt ticks in which connecting a second device next to a silent command brings a second warning two seconds after the first |
| IdleTimeouts.OwnerActivity.TickIdle | simple_network_dashboard/ssh_manager.py:763-817 | one tick for one owner, however late, is the machine's step; a prompt one keeps the invariant |
| LabelBlocks.ParseLabelBlock | simple_network_dashboard/metrics_poller.py:98-115 | the loop computes the parse and ends because each match moves on |
| LabelBlocks.ParserIsGrammar | simple_network_dashboard/metrics_poller.py:86-115 | the parser returns labels and an end if and only if a legal block with that content stands there |
| LabelBlocks.BlockParses | simple_network_dashboard/metrics_poller.py:86-115 | every legal block parses to the dictionary it fills |
| LabelBlocks.ParsedIsBlock | simple_network_dashboard/metrics_poller.py:86-115 | whatever parses is a legal block |
| LabelBlocks.EscapeIsUndone | simple_network_dashboard/metrics_poller.py:93-95 | unescaping undoes the three escapes of the text exposition format |
| LabelBlocks.UnescapeTakesPairs | simple_network_dashboard/metrics_poller.py:93-95 | each of the three escapes becomes its character and any other pair stays as written |
| LabelBlocks.CharacterClasses | simple_network_dashboard/metrics_poller.py:85-86 | the ASCII white space and name characters of the regular expressions |
| LabelBlocks.NothingToUnescape | simple_network_dashboard/metrics_poller.py:112 | a raw value without a backslash needs no unescaping |
| LabelBlocks.PrintParses | simple_network_dashboard/metrics_poller.py:98-115 | for any legal names, any values and any surrounding line, printing and parsing returns the labels and the index after the brace |
| LabelBlocks.DistinctLabelsAreKept | simple_network_dashboard/metrics_poller.py:98-115 | with distinct names the dictionary holds exactly the printed labels |
| WorkerOutputs.RunsAreBoth | simple_network_dashboard/ssh_manager.py:606-623 | every interleaving of the steps of emit with everything else is a run of the pipeline and of the acknowledgement window, so all their theorems hold of it |
| WorkerOutputs.SizeIsOfTheBytes | simple_network_dashboard/ssh_manager.py:622 | the size recorded for a batch is the number of bytes of its UTF-8 text |
| WorkerOutputs.StepKeepsInv | simple_network_dashboard/ssh_manager.py:606-623 | every step of emit, and every foreign step between two of them, keeps the calls, answers, history, pipeline counters and window in agreement |
| WorkerOutputs.TakenIsABeginning | simple_network_dashboard/ssh_manager.py:606-623 | over every interleaving the batches emit took are the first ones, up to the last pushed; while the session holds its slot and the queue is open none is turned down; the history is that of the batches fed |
| WorkerOutputs.EmitIsNeverStuck | simple_network_dashboard/ssh_manager.py:606-623 | past the wait a call of emit always has a next step, decided by the slot and the queue alone |
| WorkerOutputs.UndisturbedCallIsTaken | simple_network_dashboard/ssh_manager.py:606-623 | while the session holds its slot, the queue is open and the browser keeps up, an offered batch is fed to the history, pushed, recorded and taken |
| WorkerOutputs.UnackedIsPushedText | simple_network_dashboard/ssh_manager.py:619-623 | over every interleaving the unacknowledged bytes are the UTF-8 size of the text of the batches recorded since the last acknowledged one, all of them pushed |
| WorkerOutputs.SnapshotShowsWhatItAcknowledges | simple_network_dashboard/terminal_control.py:136-159 | a page snapshot acknowledges no batch beyond its watermark, and its history is that of exactly the batches up to it |
| QueueFeeds.QueueStepsDriveThePipeline | simple_network_dashboard/delivery_queue.py:30-94 | every step of the delivery queue is for the pipeline a push, the start of a delivery, the shutdown, or nothing |
| QueueFeeds.JointRunsAreThePipelines | simple_network_dashboard/delivery_queue.py:30-94 | every interleaving of producers, drain and pipeline over the real queue is a run of the pipeline |
| QueueFeeds.BatchesPassInOrder | simple_network_dashboard/delivery_queue.py:30-94 | over every such interleaving a run's batches handed on are its first ones, and those in delivery and waiting are exactly the rest of the pushed ones, in order |
| TerminalViews.LiveRunIsTaken | simple_network_dashboard/ssh_manager.py:606-625 | while the session holds its slot and the queue is open every batch the reader offered was taken |
| TerminalViews.PageHasTheFirstBatches | simple_network_dashboard/main.py:629-652 | over every interleaving with the worker a refreshed page has exactly its first n batches, and all of them once nothing is under way |
| TerminalViews.PageShowsTheOutput | simple_network_dashboard/main.py:629-652 | end to end, over every interleaving: the text on a refreshed page is a beginning of the decoding of what the reader let through, and all of it once the reader is through and nothing is under way |
| TerminalViews.GatedPageShowsTheCommand | simple_network_dashboard/terminal_run.py:252-331 | behind the sudo gate that text is decoded from exactly the bytes after the first mark, and is all of their decoding once the reader is through and nothing is under way |
| TerminalViews.SnapshotShowsTheFirstBatches | simple_network_dashboard/terminal_control.py:136-160 | the snapshot with watermark n is the three passes over the text of the batches 1 to n |

## Left out

- Paramiko, sockets, HTTP routing, cookies, Argon2, DNS, logging, installers and the browser page: foreign calls and plumbing, modelled only by what they answer.
- The UTF-8 decoder: a step function on kept-back bytes with one law, that nothing kept back is nothing at the end.
- Metric extraction, address filters, version and port parsing, `_parse` around the label block, `_norm`: each picks one value out of one text, keeps no state and has no inverse, so all there is to say of them is what they compute.
- TerminalViews.PageShowsTheOutput: that the calls of emit are the reader's offers in order is how the two models are put together; an exception that ends the worker in the middle of a call is a worker that takes no further step.
- Thread scheduling and liveness: safety is proved, and that a wake-up, timer or flag exists; not that it is served in time.
- Delivery failures: an exception in one delivery counts as that message handed on.
- Session objects: identity of an object is identity of its generation, which is never given twice.
- Two sessions in one cancel race: a replaced session is modelled by leaving its slot, a replacement runs its own machine.
- Log lines, status frames and debug output: unspecific frames in the pipeline, nothing elsewhere.
- Sockets without an owner: the endpoint accepts none.
- Process-wide limits on runs and devices, `disconnect_all`: repeated single steps.
- Pipelines.GapFreeRefresh: one step for taking each run's watermark and one for sending the init frame, so also for orders the endpoint never uses; budget trimming of the init frame is HistoryBudgets' matter.
- DeliveryQueues.DeliveryQueue.TryPushTerminal: one pass of the waiting loop; how long the wait between passes lasts is not modelled.
- IdleTimeouts.OwnerActivity.TickIdle: one owner and one tick at a time; a session that connects in the middle of a tick is not modelled, and a connect and its touch of the owner are one step.
- CancelRaces.RunControl.Cancel: the method is the cancel nothing comes between; the interleavings are the machine's.
- TerminalWriters.RunTerminal.SendItem: bytes are what the channel reported as taken; resizing the pseudo-terminal has no bytes.
