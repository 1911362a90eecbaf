# FortiOS bootstrap: a verified model

The FortiOS launcher brings up a virtual firewall over its serial console. It logs in, sends blocks
of configuration commands one line at a time, survives lost sessions and displaced prompts by
replaying blocks, cleans up after features, and skips failed work if it is told to. This project
models that engine in Dafny and proves what it keeps on every run, together with the stream layer
below it, the configuration trees it captures and restores, its login conversation, and the PCI slot
arithmetic that the launchers share.

## How it is modelled

**The command scheduler** (`fos_commander.py`, `cli_commands.py`, `features/base.py`).
`CommanderSpec` gives the effect of every method as a function on a `State` that groups the fields of
`FOSCommander`; `Commander` is the class that updates those fields in place, each method proved equal
to the function of the same name; what the driver calls keeps the invariant as its `Valid()`. A feature is a strategy: what its lifecycle callbacks do (submit a
block, complete, borrow the console mode, register cleanup, raise) and what its observers answer (a
loss policy, cleanup, raise) may depend on everything it was told since it was activated. Prompt
contexts, failure reports and the console mode are read by oracles in `Env`. Every state carries a
trace of what happened. `CommanderMonitors` judges traces without looking at the scheduler's fields,
`CommanderInvariant` proves that no run makes a monitor object, `CommanderTheorems` and
`CommanderLedger` restate what that means about plain traces, `CommanderErrors` says exactly when an
error is got over and who is struck off for it, and `StaticBootstrap` proves the whole run of static
features against a device that answers as it should.

**The stream layer** (`terminal.py`). `ByteQueue` has the bounded queue as an object and as a
protocol: producer, consumer and a third party that closes or fails the queue take atomic steps in
any order, and `wait` parks a thread until it is notified. `TerminalSpec` and `Terminal` have the
retained buffer and `expect`; a regular expression is an oracle for the end of its first match, and
what the reader delivers during one call is a list of arrivals whose end is the deadline.

**The driver and the login** (`fos_cli_driver.py`, `launch.py`). `Login` is the conversation about
credentials. `DriverSpec` runs terminal, login and commander in the order the driver does, with the
launcher's reaction to exceptions; the commander and the login are what their own event logs make of
them, so everything proved of all event sequences holds of all driver runs. `Driver` has the objects,
`DriverTheorems` the properties that cross the layers, and `BootstrapRun` the whole bootstrap from
console bytes to command lines.

**Configuration trees** (`config_diff.py`, `features/startup_config.py`). `ConfigLine`, `ConfigDiff`
and `ConfigDelta` have line normalization, parser, printer and structural difference;
`StartupConfig` the quote automaton, `StartupParser` the scope parser and its inverse, and
`CaptureRestore` the round trip from a captured difference to an accepted startup configuration.

**NIC slots** (`common/vrnetlab.py`, `netapp/ontap`). `NicSlots` has the slot allocation, the bridges
and the renumbering around the management slot.

## Results that are not what one would expect

* A pending error is got over only while a feature is active or a cleanup failed, and the queue is not
  done. A last feature that completes itself and raises afterwards leaves an error that nothing clears;
  features handed over later never run (`CommanderErrors.RecoversExactly`, `HastyFeatureGetsStuck`).
* The feature struck off for an error is the one active when a prompt comes, which is the one that
  raised if and only if that one is not over by then. A feature that raises in `activate` and completes
  in the same dispatch counts as completed, and its successor, which is never activated, is recorded as
  failed (`CommanderErrors.BlameExactly`, `SuccessorPays`).
* Not every byte received is consumed or retained: closing the terminal at the end of the queue throws
  away what was read behind the last prompt. Nothing else is ever lost, and no capture is torn by it
  (`DriverTheorems.DriverKept`, `CaptureAcrossLayers`, `BootstrapRun.LostBehindThePrompt`).
* Rejected logins are not bounded before the first login: as long as the blank password is due and the
  device does not ask for it, any number is absorbed (`Login.RefusalsAbsorbed`). All others are at most
  three between two logins, prompted or not.
* The blank password is not confined to the first login (`Login.StaleBlank`).
* A yielded startup command can end in an escape: trimming removes white space that a backslash had
  escaped. `StartupConfig.YieldedClosed` has the exact condition, `TrimmedIntoEscape` an input.
* The last slot has no PCI bridge when the number of interfaces is a multiple of 26
  (`NicSlots.BridgesSuffice`).
* A `config` keyword followed by a tab is a scope to the capture but not to the startup parser; with
  balanced lines this and a stray top-level line are the only reasons why a printed configuration is
  rejected (`CaptureRestore.RenderedIsAccepted`).

## Model

| member | source | states |
|---|---|---|
| `CommanderInvariant.StepKept` | fortinet/common/fos_commander.py:198-347 | Every event the scheduler can see, whatever its features answer, keeps the invariant that ties all fields to the trace so far. |
| `CommanderInvariant.RunKept` | fortinet/common/fos_commander.py:50-687 | That invariant holds after every run: any features, any event sequence, errors skipped or not. |
| `CommanderInvariant.CallFeatureKept` | fortinet/common/fos_commander.py:84-101 | A lifecycle callback, whatever it asks of the scheduler and whatever that sets off, keeps the invariant and does not touch the command in flight or the session; an exception leaves it only in strict mode. |
| `CommanderInvariant.ActivateNextFeatureKept` | fortinet/common/fos_commander.py:349-379 | So does the activation of the next feature, with all that feature does at once, and reaching `ready`. |
| `CommanderInvariant.FeatureCompleteKept` | fortinet/common/fos_commander.py:217-230 | So does the completion of a feature, with its cleanup and the activation of its successors. |
| `CommanderInvariant.HandleSessionLossKept` | fortinet/common/fos_commander.py:610-657 | A lost session keeps the invariant at every stage of a block, a replay or a cleanup, under each of the five loss policies. |
| `CommanderInvariant.HandleContextLossKept` | fortinet/common/fos_commander.py:500-521 | So does a prompt that turns up in another scope than the command was sent in. |
| `CommanderInvariant.StrikeOffKept` | fortinet/common/fos_commander.py:139-172 | After failed work is skipped nothing is in flight, in cleanup or being replayed, the block is accounted for, and the invariant's core holds. |
| `CommanderTheorems.RunAccepted` | fortinet/common/fos_commander.py:122-137 | No run ever makes one of the seven trace monitors object, and `ready` means nothing is waiting, active, pending, queued for cleanup or in flight. |
| `CommanderTheorems.CreditedInItsSession` | fortinet/common/fos_commander.py:270-324 | A completion is credited only to a command that was taken and written once, with no other command and no session end in between. |
| `CommanderTheorems.OneAtATime` | fortinet/common/fos_commander.py:381-423 | Between any two command lines written, the first one's command has ended. |
| `CommanderTheorems.SentInTheClear` | fortinet/common/fos_commander.py:381-423 | No command line is written while the session is being recovered or an error is pending. |
| `CommanderLedger.CreditedCommandsValid` | fortinet/common/fos_commander.py:475-521 | A command counts as done only at one of its completion states, the expected one if it names one, without a failure report where it looks for one, and with the prompt in the scope it was sent in unless it may leave it. |
| `CommanderLedger.StepAccount` | fortinet/common/fos_commander.py:198-347 | Every event consumes exactly the bytes it was handed, or those it discards, writes at most one line, none unless it is one to be answered, and credits at most one command, a valid one; features handed to a scheduler that is done open a new connection's account. |
| `CommanderLedger.DispatchAccount` | fortinet/common/fos_commander.py:381-423 | One dispatch, through replay, activation, cleanup or the next command, writes at most one line, and none that leaves an error pending. |
| `CommanderLedger.CompleteInflightAccount` | fortinet/common/fos_commander.py:425-472 | The end of a command, reset, displaced, rejected or accepted, credits at most that one, a valid one, and leads to at most one line more. |
| `CommanderLedger.SessionLossAccount` | fortinet/common/fos_commander.py:610-657 | A lost session by itself writes, consumes and credits nothing. |
| `CommanderLedger.CaptureUntorn` | fortinet/common/fos_commander.py:257-268 | A credited capturing command holds exactly the bytes consumed while it was in flight, all of them over one connection. |
| `CommanderLedger.ClosedBetweenCommands` | fortinet/common/fos_commander.py:349-377 | Whatever was sent has ended before the terminal is closed. |
| `CommanderTheorems.ReplaysSoFar` | fortinet/common/fos_commander.py:659-675 | At any moment the lines written of the current block are some interrupted passes over it, at most `MAX_COMMAND_RECOVERY_RETRIES` per command, and then a prefix of it. |
| `CommanderTheorems.ReplayRefinement` | fortinet/common/fos_commander.py:610-675 | When a feature is told its block is complete and did not give it up, the lines written are those bounded interrupted passes and then the whole block, in order. |
| `CommanderTheorems.ReplayContextSound` | fortinet/common/fos_commander.py:523-543 | After a restart the next command is either the one `abort`, sent because the prompt is elsewhere, or a command sent at the context where the block was first submitted. |
| `CommanderTheorems.FeatureConservation` | fortinet/common/fos_commander.py:349-379 | Every feature enqueued is in exactly one place: over (completed or failed), active, or waiting, and the three lists together are the order of enqueueing. |
| `CommanderTheorems.ActivationInOrder` | fortinet/common/fos_commander.py:349-379 | Features are activated in the order they were enqueued, each at most once. |
| `CommanderTheorems.CleanupBeforeActivation` | fortinet/common/fos_commander.py:217-230 | A feature is activated, and `ready` reached, only when every cleanup command ever queued has been dealt with. |
| `CommanderTheorems.CleanupInOrder` | fortinet/common/fos_commander.py:248-255 | A cleanup command is taken by its place in the list of all cleanup commands ever queued and is the one queued there; they are taken in the order of that list, retries included. |
| `CommanderTheorems.CleanupRetriesBounded` | fortinet/common/fos_commander.py:610-635 | Between failures a cleanup command is written at most once and `MAX_COMMAND_RECOVERY_RETRIES` times more. |
| `CommanderTheorems.ConsoleGivenBack` | fortinet/common/fos_commander.py:600-608 | A console output mode that a feature borrowed is given back before the feature is over, completed or skipped, and the restore block is queued exactly when the mode had been changed. |
| `CommanderTheorems.ConsoleReleasedOnce` | fortinet/common/fos_commander.py:600-608 | Between two releases of the console mode it was borrowed again: it is restored once. |
| `CommanderTheorems.CaptureExact` | fortinet/common/fos_commander.py:257-268 | A credited capturing command holds exactly the console bytes consumed between its dispatch and its completion. |
| `CommanderErrors.SkippableOrStuck` | fortinet/common/fos_commander.py:139-172 | In every reachable state with an error pending there is either something to skip or nothing in flight, active or in cleanup: no third case. |
| `CommanderErrors.RecoversExactly` | fortinet/common/fos_commander.py:103-172 | From a reachable state with an error pending some continuation clears it if and only if the queue is not done and a feature or a cleanup can be skipped; then every prompt clears it, and strikes off what is active at that moment. |
| `CommanderErrors.BlameExactly` | fortinet/common/fos_commander.py:84-172 | Whenever the scheduler gets over an error by striking off a feature, the error is the last one noted and not cleared since; the feature struck off is the one whose activation raised it if and only if that activation is not over yet. |
| `CommanderErrors.SuccessorPays` | fortinet/common/fos_commander.py:349-379 | The input for the other case: a feature raises when it is activated and completes in the same dispatch; it counts as completed, its successor is never activated by a callback and is struck off for it, and the queue is done. |
| `CommanderErrors.StuckForGood` | fortinet/common/fos_commander.py:103-172 | A pending error that no feature and no cleanup answers for is never got over: no later event makes the scheduler take or write a command again. |
| `CommanderErrors.HastyFeatureGetsStuck` | fortinet/common/fos_commander.py:84-101 | Such a state is reached by a last feature that completes itself and then raises: it counts as completed, and features handed over later never run. |
| `StaticBootstrap.WholeRun` | fortinet/common/features/base.py:85-105 | Static features and a device that answers each command as expected, with ticks, timeouts, partial output, stray prompts and any states in between that leave the command in flight alone: after n answers exactly the first n lines of all blocks in feature order have been written, and `ready` comes with one answer more than there are lines. |
| `BootstrapRun.ServedWell` | fortinet/common/fos_cli_driver.py:117-171 | The same for every run of the whole driver, from what arrives on the console in whatever pieces: the script is sent line by line, one for each answer, and the driver is done exactly with the last answer. |
| `StaticBootstrap.BlockFeature.constructor` | fortinet/common/features/base.py:88-91 | A static feature starts with all its blocks. |
| `StaticBootstrap.BlockFeature.React` | fortinet/common/features/base.py:93-105 | Popping blocks off its list, the feature object answers every callback as the strategy does from its history. |
| `Commander.FOSCommander.constructor` | fortinet/common/fos_commander.py:50-82 | A new commander is idle, its terminal has been given nothing, and its invariant holds. |
| `Commander.FOSCommander.ScheduleFeatureCleanup` | fortinet/common/fos_commander.py:248-255 | Queues, in registration order, the commands of those registered actions that apply, and forgets the others. |
| `Commander.FOSCommander.RunOps` | fortinet/common/fos_commander.py:84-90 | The loop over what a callback asks for stops at the first exception and does the rest in order. |
| `Commander.FOSCommander.ContinueAfterError` | fortinet/common/fos_commander.py:139-172 | Skips exactly when a feature is active or a cleanup failed before the queue is done, and leaves the state alone otherwise. |
| `Commander.FOSCommander.OnOutput` | fortinet/common/fos_commander.py:257-268 | The result is the output taken, all of it or none; that is what the trace consumes, nothing is written, and the invariant is kept. |
| `Commander.FOSCommander.OnPromptEcho` | fortinet/common/fos_commander.py:326-331 | One newline is written, and nothing else, unless a capturing command or a session in recovery took the text or the policy raised. |
| `Commander.FOSCommander.EnqueueRuntimeFeatures` | fortinet/common/fos_commander.py:680-687 | Runtime features are accepted exactly when ready and idle, and then go to the front in order; otherwise nothing changes. |
| `Commander.FOSCommander.Handle` | fortinet/common/fos_commander.py:270-347 | One event of any kind takes the object to the next state of the run and keeps its invariant; it consumes exactly its own bytes, writes at most one line and credits at most one command, a valid one. |
| `Commander.Bootstrap` | fortinet/common/launch.py:322-366 | A whole run on the object: its final state is that of `Run`, its output what the trace says was sent, and the monitors accept it. |
| `CliCommands.QuotedLines` | fortinet/common/cli_commands.py:146-170 | One capturing command for each physical line of a quoted value, every one but the first a continuation; a single line ends at a command prompt, one of several also at a continuation prompt, and what is expected, a command prompt exactly after the last line, is among the states that end it. |
| `ByteQueue.ByteBuffer.constructor` | fortinet/common/terminal.py:75-81 | An empty, open queue with a positive limit. |
| `ByteQueue.ByteBuffer.PutSome` | fortinet/common/terminal.py:83-97 | One critical section of `put`: waits only when full and open, stops only when closed or failed, and otherwise appends as much as fits. |
| `ByteQueue.ByteBuffer.Get` | fortinet/common/terminal.py:99-144 | One critical section of `get` or `get_one`: waits only when empty and open, raises after a failure, and otherwise returns the oldest chunk or all of them, joined. |
| `ByteQueue.ByteBuffer.Close` | fortinet/common/terminal.py:146-149 | Marks the queue closed and changes nothing else. |
| `ByteQueue.ByteBuffer.Fail` | fortinet/common/terminal.py:151-154 | Marks the queue failed and changes nothing else. |
| `ByteQueue.StepKept` | fortinet/common/terminal.py:83-154 | Every atomic step of producer, consumer or a third party keeps the queue's invariant, whatever the others are doing. |
| `ByteQueue.InOrder` | fortinet/common/terminal.py:83-144 | In every interleaving, what was delivered followed by what is queued is a prefix of what was offered, all of it but the `put` in progress while the queue is open; the size field counts the queued bytes within the limit. |
| `ByteQueue.NoLostWakeup` | fortinet/common/terminal.py:86-110 | A waiting thread still has reason to wait, and producer and consumer never wait for each other. |
| `ByteQueue.EndMeansDrained` | fortinet/common/terminal.py:112-121 | A call that reports the end of the queue found it closed and drained, and nothing is accepted after that. |
| `ByteQueue.WriterStopsDrained` | fortinet/common/terminal.py:333-348 | Without a failure the writer thread stops only when the queue is closed and every accepted byte was delivered. |
| `ByteQueue.WriterDrains` | fortinet/common/terminal.py:333-348 | A closed queue that did not fail is emptied to the last byte, and then the writer stops. |
| `ByteQueue.FailureEndsDelivery` | fortinet/common/terminal.py:112-113 | After a failure nothing more is delivered; bytes still queued are lost. |
| `ByteQueue.PutCompletes` | fortinet/common/terminal.py:83-97 | From any reachable state of an open queue, whatever call is in progress, a `put` of any length goes through when the threads take turns: with `get_one` in at most as many rounds as it has bytes, with `get` in as many as it has limits' worth of them, and one more if a `get_one` is under way. |
| `TerminalSpec.Winner` | fortinet/common/terminal.py:390-398 | The match that ends earliest wins, and of equals the pattern listed first. |
| `TerminalSpec.WinnerUnique` | fortinet/common/terminal.py:390-398 | Those two rules determine the winner. |
| `TerminalSpec.ExpectFits` | fortinet/common/terminal.py:216-262 | `expect` consumes through the end of the winning match of all it received, and on a timeout, an overflow or a reader failure consumes nothing; fresh data is reported exactly when some arrived. |
| `TerminalSpec.NoMatchBefore` | fortinet/common/terminal.py:227-249 | `expect` stops at the first arrival that lets a pattern match, and keeps the buffer limit on the way. |
| `TerminalSpec.ExpectConserves` | fortinet/common/terminal.py:216-287 | `expect` keeps the account of the stream: every byte received was consumed, was lost when the terminal was closed, or is retained, once each and in order. |
| `TerminalSpec.DiscardConserves` | fortinet/common/terminal.py:264-274 | A discard consumes exactly a prefix of the buffer, refuses anything else, and keeps that account. |
| `TerminalSpec.NothingMissing` | fortinet/common/terminal.py:350-372 | The bytes received are those consumed and those retained if and only if nothing was retained whenever the terminal was closed. |
| `TerminalSpec.TimeoutIsInvisible` | fortinet/common/terminal.py:216-236 | A call that times out and a second call find what one call over all the arrivals would have found. |
| `TerminalSpec.ReadsTheQueue` | fortinet/common/terminal.py:227-249 | However reader and consumer interleave, what `expect` receives is a prefix of what the reader offered to the queue, and the rest is still queued or on its way while the queue is open. |
| `Terminal.TerminalBuffer.Match` | fortinet/common/terminal.py:390-398 | One search for each pattern, keeping the earliest end, finds the winner. |
| `Terminal.TerminalBuffer.Expect` | fortinet/common/terminal.py:216-262 | The loop over arrivals leaves the buffer and the result that the specification gives. |
| `Terminal.TerminalBuffer.DiscardPrefix` | fortinet/common/terminal.py:264-274 | Removes a prefix of the buffer in place, and nothing else. |
| `Terminal.TerminalBuffer.Close` | fortinet/common/terminal.py:350-372 | Closing loses exactly the retained bytes, which the record of losses gets, and rewrites nothing of what was received or consumed. |
| `Login.RejectionsBounded` | fortinet/common/fos_cli_driver.py:313-344 | Between two accepted logins at most three rejections are absorbed, not counting those before any login for which the blank password is already due. |
| `Login.RefusalsAbsorbed` | fortinet/common/fos_cli_driver.py:313-344 | Exactly how many rejections in a row are absorbed: any number as long as no login was completed and the blank password was not sent, else two, one or none as the detour over the previous credentials goes. |
| `Login.RefusedThrice` | fortinet/common/fos_cli_driver.py:313-344 | After a switch the desired credentials are typed, then the previous ones, then the desired ones again, and then the driver gives up. |
| `Login.TypedTogether` | fortinet/common/fos_cli_driver.py:182-204 | Username and password prompts in a row are answered for one account, the previous one on a detour, else the active one; the password is blank exactly while the fallback is due, and then the active credentials lose theirs. |
| `Login.BlankAtMostOnce` | fortinet/common/fos_cli_driver.py:189-197 | On every run the blank fallback is typed at most once. |
| `Login.StaleBlank` | fortinet/common/fos_cli_driver.py:189-204 | It can come after a completed login: a rejection that no password prompt followed leaves it due, and the desired password is lost. |
| `Login.RememberedForGood` | fortinet/common/launch.py:415-418 | The credentials remembered before the first switch are never replaced by later switches. |
| `Login.RecoveryErrorOnce` | fortinet/common/fos_cli_driver.py:225-250 | The `admin-credentials` error is recorded once while the last accepted login used the previous credentials, and never otherwise. |
| `Login.BootstrapActivation` | fortinet/common/fos_cli_driver.py:212-263 | The bootstrap credentials become active exactly at an acceptance or prompt after a confirmation that no rejection followed; nothing but the blank fallback changes them otherwise. |
| `DriverTheorems.ProcessStateStep` | fortinet/common/fos_cli_driver.py:142-162 | Reacting to a state hands the commander exactly the bytes that matched, over the connection it is on, and the login conversation fails only together with the driver. |
| `DriverTheorems.DriverKept` | fortinet/common/fos_cli_driver.py:117-132 | After any run of the driver every byte received was consumed by the commander, is retained, or was lost when a finished commander closed the terminal; none is missing exactly when nothing was retained at such a moment. |
| `BootstrapRun.LostBehindThePrompt` | fortinet/common/fos_commander.py:349-357 | An input where bytes are missing: what was read together with the prompt that ends the queue and lies behind it. |
| `DriverTheorems.ReceivedGrows` | fortinet/common/fos_cli_driver.py:117-171 | A turn only adds to what was received; the history is never rewritten. |
| `DriverTheorems.CaptureAcrossLayers` | fortinet/common/fos_cli_driver.py:117-171 | On every run a capturing command's output is the contiguous stretch of what the terminal truly received between its dispatch and its completion, whether the bytes came with timeouts or with matches, and whatever was lost before or after. |
| `DriverTheorems.CapturesDisjoint` | fortinet/common/fos_cli_driver.py:117-171 | Of two captured stretches one ends before the other begins: no byte is captured twice. |
| `DriverTheorems.PromptSettlesFirst` | fortinet/common/fos_cli_driver.py:142-159 | At a prompt the bootstrap credentials are settled before the commander runs, so a switch made in reaction to that prompt is not overruled. |
| `Driver.FOSCliDriver.constructor` | fortinet/common/fos_cli_driver.py:23-89 | A new driver has seen nothing, its terminal and commander are fresh, and the account of bytes is balanced. |
| `Driver.FOSCliDriver.OfferOutput` | fortinet/common/fos_cli_driver.py:122-126 | Unmatched output is offered to the commander and leaves the buffer only if it was used. |
| `Driver.FOSCliDriver.Pass` | fortinet/common/fos_cli_driver.py:117-171 | One pass of the loop: read, classify, record, react. |
| `Driver.FOSCliDriver.TakeTurn` | fortinet/common/launch.py:322-366 | A pass and, after an exception, the launcher's attempt to go on; a finished commander closes the terminal. What was received only grows, and all that was consumed has reached the commander. |
| `Driver.Operate` | fortinet/common/fos_cli_driver.py:117-132 | A whole run on the objects: terminal, commander and login end up as `DriverRun` says, what was received is what was consumed, lost and retained, and what was consumed is what the commander's trace accounts for. |
| `ConfigLine.NormalizeWord` | fortinet/common/config_diff.py:35-44 | A one-word line normalizes to that word, wherever it is indented. |
| `ConfigLine.NormalizeKeyword` | fortinet/common/config_diff.py:35-44 | A scope keyword followed by a blank survives normalization. |
| `ConfigLine.MaskSecret` | fortinet/common/config_diff.py:37-40 | The value after `ENC` is masked, whatever it is. |
| `ConfigDiff.ParseWellFormed` | fortinet/common/config_diff.py:47-82 | For all lines, also unbalanced ones, every parsed node is what its own line says, and no `config` block is empty. |
| `ConfigDiff.RenderParses` | fortinet/common/config_diff.py:23-32 | A well-formed forest without empty `config` blocks is what its printout parses to. |
| `ConfigDiff.ParseFixpoint` | fortinet/common/config_diff.py:23-82 | Parsing what a parse prints gives the parse again, for all line sequences. |
| `ConfigDiff.PruneAllKeeps` | fortinet/common/config_diff.py:47-54 | Pruning loses no leaf and no `edit` block, not even an empty one, and moves none. |
| `ConfigDiff.PruneAllFull` | fortinet/common/config_diff.py:47-54 | Pruning changes nothing once no `config` block is empty. |
| `ConfigDiff.PruneEmptyBlocks` | fortinet/common/config_diff.py:47-54 | The recursive loop prunes as specified. |
| `ConfigDiff.ParseConfig` | fortinet/common/config_diff.py:57-82 | The loop over the lines with its stack of open blocks parses as specified. |
| `ConfigDelta.SelfDelta` | fortinet/common/config_diff.py:85-124 | The k-th of several equal siblings is matched with the k-th, so a forest has no difference to itself. |
| `ConfigDelta.SelfDiffEmpty` | fortinet/common/config_diff.py:127-138 | The difference of a configuration to itself is empty, for all lines and both encryption settings. |
| `ConfigDelta.DeltaThinned` | fortinet/common/config_diff.py:92-124 | The delta is the current forest with nodes deleted: its order, leaves and `edit` blocks complete and unmodified, only `config` blocks reduced. |
| `ConfigDelta.DiffParses` | fortinet/common/config_diff.py:127-138 | The printed delta parses back to the delta. |
| `ConfigDelta.DiffPaths` | fortinet/common/config_diff.py:92-138 | The paths of baseline and delta together are the paths of baseline and current together, and every path of the delta is one of current. |
| `ConfigDelta.LeafCopies` | fortinet/common/config_diff.py:85-124 | Duplicate leaves among any siblings: the delta has exactly the copies in excess of the baseline's unmatched ones, and with tracking also those whose k-th counterpart stores another secret, in their order. |
| `ConfigDelta.DiffLeafCopies` | fortinet/common/config_diff.py:127-138 | The same of the printed delta and whole configurations, for both settings; without tracking these are the last copies, as many as the baseline is short of. |
| `ConfigDelta.FindMatchIn` | fortinet/common/config_diff.py:85-89 | The linear search finds the first unused node with the target's kind and line. |
| `ConfigDelta.DeltaNodes` | fortinet/common/config_diff.py:92-124 | The loop with its set of used baseline nodes computes the delta as specified. |
| `ConfigDelta.DiffConfigLines` | fortinet/common/config_diff.py:127-138 | Parse twice, compare, print: the lines of the specified difference. |
| `StartupConfig.CommandsExactly` | fortinet/common/features/startup_config.py:48-85 | The generator yields these commands without an error if and only if they are the file's lines, cut exactly where nothing is quoted or escaped, without the blank lines and comments in between. |
| `StartupConfig.YieldedClosed` | fortinet/common/features/startup_config.py:48-85 | A yielded command ends outside quotes, and before its last line something is open; it ends unescaped if and only if trimming its last line does not lay bare an odd number of backslashes. |
| `StartupConfig.TrimmedIntoEscape` | fortinet/common/features/startup_config.py:74-79 | A backslash before trailing white space: the yielded command ends escaped although the line did not. |
| `StartupConfig.EscapedAtEnd` | fortinet/common/features/startup_config.py:63-72 | A line ends escaped exactly when an odd number of backslashes ends it. |
| `StartupConfig.QuotedLinesInert` | fortinet/common/cli_commands.py:61-63 | Every physical line of a command but the first is sent as a continuation that neither closes a scope nor may change the context, even if it reads `end`. |
| `StartupConfig.ScanPhysicalLine` | fortinet/common/features/startup_config.py:63-72 | The character loop of the quote automaton. |
| `StartupConfig.CollectCommands` | fortinet/common/features/startup_config.py:48-85 | The generator's loop yields the specified commands and error. |
| `StartupParser.ParseExactly` | fortinet/common/features/startup_config.py:88-117 | A command sequence is accepted with these roots if and only if the roots are well-scoped `config` blocks whose lines are the sequence. |
| `StartupParser.StartupExactly` | fortinet/common/features/startup_config.py:48-117 | The same of a whole file, from its physical lines. |
| `StartupParser.ErrorsAreFinal` | fortinet/common/features/startup_config.py:88-114 | Every error but an unmatched scope stays whatever follows. |
| `StartupParser.UnmatchedCanBeClosed` | fortinet/common/features/startup_config.py:115-117 | An unmatched scope means that only closers are missing. |
| `StartupParser.AcceptedIsSent` | fortinet/common/cli_commands.py:86-124 | Flattening what was accepted gives back the commands, each physical line by itself. |
| `StartupParser.Parse` | fortinet/common/features/startup_config.py:88-117 | The loop with its stack of open blocks accepts and rejects as specified. |
| `CaptureRestore.RenderedIsAccepted` | fortinet/common/features/startup_config.py:48-117 | A printed forest with balanced lines is an accepted startup configuration exactly when it has only `config` blocks at the top and every scope keyword is followed by a space; flattened, it is its own lines, trimmed. |
| `CaptureRestore.CapturedDeltaRestores` | fortinet/common/features/capture_config.py:357-362 | So the delta of such a current configuration restores: it is accepted and sends exactly its own lines, trimmed. |
| `NicSlots.BridgesSuffice` | common/vrnetlab.py:520-522 | Every bus of slots 1 to n has a bridge exactly when n is no multiple of 26 (with the shifted layout: nor one less). |
| `NicSlots.SlotsAscend` | common/vrnetlab.py:987-1001 | The interfaces emitted lie in distinct slots, ascending by bus and address, on addresses 1 to 26. |
| `NicSlots.ProvisionedRun` | common/vrnetlab.py:900-1024 | With interfaces provisioned the machine gets every index from the first to the highest, each in the slot of its index, gaps filled with placeholders. |
| `NicSlots.UnprovisionedNics` | common/vrnetlab.py:900-1024 | Without provisioning there are no placeholders, just the interfaces present. |
| `NicSlots.DataPlane.constructor` | common/vrnetlab.py:300-390 | No interface is known to be provisioned yet. |
| `NicSlots.DataPlane.NicProvisionDelay` | common/vrnetlab.py:900-940 | The highest interface of the range that has appeared, or none. |
| `NicSlots.DataPlane.GenNics` | common/vrnetlab.py:978-1024 | The loop with its slot counter emits the specified interfaces. |
| `NicSlots.Renumber` | netapp/ontap/docker/launch.py:150-163 | The renumbering in place moves every interface of the first bus as specified and finds the slots before the management slot that are free. |
| `NicSlots.OntapKeepsOrder` | netapp/ontap/docker/launch.py:145-163 | After the renumbering the interfaces keep their order and distinct slots, and none is in the management slot. |
| `NicSlots.OntapSlot` | netapp/ontap/docker/launch.py:145-163 | eth1 and eth2 get slots 1 and 2, later interfaces of the first bus one slot more than their number. |
| `NicSlots.OntapNics` | netapp/ontap/docker/launch.py:145-176 | Slots 1 and 2 are always filled, by an interface or by a dummy, never by both. |

## Left out

- Feature callbacks: completion messages, logging and the output suppression stack are not modelled;
  they decide nothing in the scheduler. `begin_activation` only resets a feature's own fields, so it is
  part of the fresh history a feature is activated with.
- Feature observers (dispatch, output, loss callbacks) may raise, register cleanup and choose a loss
  policy, but do not submit or complete; the features of the repository keep to that. A feature never
  claims output for itself.
- CommanderSpec.FeatureComplete: features are told apart by number, so two features with one number
  would be one feature to the model; the error list holds the name struck off and not the message.
- Cleanup blocks are registered flattened, and each queued command has an identity of its own; a command
  object listed twice in one cleanup block shares its retry count in the original.
- Commander.FOSCommander: the original's fields are grouped in six records, and features are values
  that see their own history in place of mutable objects.
- CliCommands.Command: `SetValue` holds the lines of the trimmed value; `str.splitlines` is not part of
  the model, and configurations are lists of lines.
- Prompt, failure and console-mode patterns are oracles; only where a match ends matters.
- Time: deadlines, spins and the stall timer are choices of the environment; the retry delay after
  rejected credentials is not modelled.
- Terminal.TerminalBuffer: `wait_write` with its clean buffer, the raw serial log, and restarting a dead
  reader or writer thread are not modelled.
- DriverSpec.Turn: a feature switches to the desired credentials at most once in a pass of the loop.
- DriverSpec.OfferOutput: the spins counted while rebooting are left out, because nothing reads them.
- ConfigDiff.Node: nodes join their parent when they are closed, where the original appends to nodes that
  are still on its stack; the aliasing is not captured, the trees are the same.
- StaticBootstrap.WholeRun: blocks without commands, lost sessions and displaced prompts, and answers
  after which the scheduler waits for another prompt, are outside this result; what the scheduler does
  then is in the results about all runs.
- TerminalSpec.Stream: the terminal is closed when the queue is done; that the launcher also closes it
  for good when bootstrap gives up is left out, because nothing happens after that.
- StaticBootstrap.BlockFeature: the completion hook of a static feature and the undo stage are left out.
- ConfigLine.Mask: only ASCII letters, digits and the underscore count as word characters before `ENC`.
- StartupConfig.CommandsExactly: which line number an unfinished command reports is computed but not
  characterized.
- `filter_startup_config_blocks`, the file watcher and the environment are not modelled.
- NicSlots.Nics: MAC addresses, tap and macvtap arguments and the dummy NICs of machines with a minimum
  number of interfaces are not modelled; the last clash for interfaces with gaps.
- QEMU, sockets, threads as operating-system objects, files and subprocesses are plumbing.
- The other vendors' launchers and the concrete features (license, PKI, disks, DNS, status files) would
  add only members like `StaticBootstrap.StaticFeature`.
