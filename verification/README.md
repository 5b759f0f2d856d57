# ChatTree verification

A model of the hard parts of ChatTree in Dafny, with proofs.

- **Launcher sessions** (`Leases`, `Sessions`, `SessionEffects`, `SessionManager`, `ProfileStore`, `Profiles`, `Proxy`): connect tasks with
  generations, leases with an invalidation event, bindings from profile to server instance, the saved profile list, and the proxy that
  forwards only under a current lease. A step is a stretch of code without an await; `Sessions` proves one
  invariant over every sequence of steps, `SessionManager` holds the tables and proves each method equal to its step.
- **Command executor** (`CommandDrain`, `CommandExecutor`): starts, producers, done callbacks and a close that drains.
- **Transcript** (`TranscriptFold`, `TranscriptItems`, `TranscriptPatch`, `TranscriptReplicas`, with `StableSort`, `TextOrder` and
  `Positions`; what streams, items and patches contain is said by `StreamContents`, `NodeContents` and `PatchContents`): the event fold, the sorted and grouped timeline, and the differences that keep a replica in step. The fold's promises feed the item
  builder, whose distinct ids are what the differences need; `TranscriptReplicas` puts the three together.
- **Conversation tree and prune packets** (`TreeSpec`, `ConversationTree`, `TreeEdits`, `ConversationLoad`, `PrunePackets`).
- **Smaller algorithms**: event batcher (`EventBatcher`), cascading stop (`RunControl`), validation of error details (`JsonDetails`).
- **Printers and parsers** (`MemoryFile`, `MemoryAnswers`, `TaskTag`, `Base64Url`, `Utf8`, `Decimal`, `PythonText`).

Objects whose methods change fields are classes; each method is proved equal to a function of the old state, and the promises are lemmas
about those functions and about all runs made of them. Loops of the source are loops here.

Taken from outside as parameters: connectors, databases and files as outcomes of steps; UUIDs as fresh canonical texts; timers and
task switches as free choice among enabled steps; path normalisation as an idempotent function; case folding, sensitivity
patterns, control-character categories, housekeeping tools and serialisation of items as functions nothing is assumed of (but a plain
space is not a control character, and where a clash matters the serialised forms of a user message and of an answer differ). A document write either replaces the document or leaves it. A file fingerprint stands for the file.

Where the code does less than one might expect, the model follows the code and says when it holds:

- A live answer that takes the id of a shown user message gives two items one id; otherwise ids are distinct. With such a clash a
  replica leaves the node when the reading is repeated (`TranscriptReplicas.SharedIdDiverges`), without one it follows.
- A failed write loses its batch, and an immediate event waiting behind it: log and waiting events are complete exactly while none has failed.
- Loading a conversation walks up from nodes with a failed turn. On a parent cycle the walk does not end, and a root whose own parent is not
  stored makes it raise `KeyError` (`ConversationLoad.LoadCanHang`, `LoadCanMissAParent`); all other accepted documents load.
- An edit of a memory file between the conflict check and the replacement is overwritten (`MemoryFile.LateEditIsOverwritten`); no other edit is.
- When both listings of a run's children fail, the second failure is raised, even after an earlier one of the same run.
- After a deletion the current node may be one that was deleted, exactly if it stood strictly below the deleted node.

## Model

| member | source | states |
|---|---|---|
| Sessions.LeaseUnsetIffReady | client_launcher/sessions.py:48-106 | after any run of steps, a lease ever returned by `resolve_endpoint` has its event unset if and only if its profile is ready under that same lease id, epoch, server id and endpoint |
| Sessions.ReadyIsBound | client_launcher/sessions.py:568-608 | after any run, a ready session has the server id that its stored profile is bound to, and an endpoint obtained for the target the profile has at that moment |
| Sessions.ReadyServersDiffer | client_launcher/sessions.py:568-608 | no two profiles are ever ready on the same server instance |
| Sessions.RunKeepsInv | client_launcher/sessions.py:23-685 | the invariant tying status, endpoint, event, generation, task tables, stored target and stored binding holds after every interleaving of requests and connect tasks |
| Sessions.SupersededChangesNothing | client_launcher/sessions.py:518-644 | whatever a connect task of an older generation does, no session, phase, endpoint, lease, table, stored profile or binding changes |
| Sessions.NothingIsTakenBack | client_launcher/sessions.py:459-478 | no step unsets an event, forgets a lease it handed out or lowers a generation |
| Sessions.ConnectIsSingleFlight | client_launcher/sessions.py:181-263 | while a task of the current generation is at work, a connect request with the same intent joins that very task, one with another intent is refused, and none starts a second |
| SessionEffects.ConnectStarts | client_launcher/sessions.py:208-254 | a connect request to a known profile that is neither ready nor being connected starts the task of the next generation with this intent, shows the session connecting without error or endpoint, and changes nothing else |
| SessionEffects.ConnectAnswers | client_launcher/sessions.py:181-263 | for every state, profile and intent which answer a connect request gets: already ready, joined, started, or which refusal |
| SessionEffects.ConnectChangesNothingElse | client_launcher/sessions.py:181-263 | a connect request that starts nothing at most makes the session of a profile that had none |
| SessionEffects.ConnectCanSucceed | client_launcher/sessions.py:181-263 | in every store a known profile can be connected: request, start, publication and resolve end with a ready session, bound to the server that answered, and with its lease handed out and unset |
| SessionEffects.PublishSucceeds | client_launcher/sessions.py:543-608 | a returned connection of the current generation, on a server no other profile has and the binding allows, leaves the profile ready in the next epoch and bound |
| SessionEffects.DisconnectEffect | client_launcher/sessions.py:265-274 | a known profile is cut off and superseded and its event set, an unknown one changes nothing |
| SessionEffects.LockedEffect | client_launcher/sessions.py:459-478 | what a disconnect leaves of a profile: a disconnected session under a new lease id in the same epoch, the next generation, no endpoint, event, task or intent, and all other profiles untouched |
| SessionEffects.ReconcileEffect | client_launcher/sessions.py:394-411 | a stop closes the session exactly if it is ready on the server that was asked to stop |
| SessionEffects.MarkErrorEffect | client_launcher/sessions.py:75-106 | an error report counts exactly for a known profile that is ready in the reported epoch, and then fails its session with that error |
| SessionEffects.UpdateEffect | client_launcher/sessions.py:422-441 | an update cuts the session off exactly if it succeeds and gives a local profile another target |
| SessionEffects.DeleteEffect | client_launcher/sessions.py:447-453 | a deletion that succeeds leaves nothing of the session; one that fails leaves the session alone |
| SessionEffects.ResolveAnswers | client_launcher/sessions.py:48-73 | a lease is handed out exactly to a known, ready profile with a filled endpoint, a server id and an event, and names just these |
| SessionEffects.ResolveChangesNothing | client_launcher/sessions.py:48-73 | resolving changes no session it finds |
| SessionEffects.BeginEffect | client_launcher/sessions.py:518-527 | a task that begins reads its profile, and without one is over |
| SessionEffects.PhaseEffect | client_launcher/sessions.py:529-534 | a phase is shown exactly by a connecting session of its attempt's own generation |
| SessionEffects.PublishEffect | client_launcher/sessions.py:543-608 | what the publishing section changes: next epoch, new lease id and event, endpoint and server of the connection, or only the failure of the attempt |
| SessionEffects.FailEffect | client_launcher/sessions.py:611-637 | a failure of the current generation is shown by its session, which goes if the profile has gone; an older task shows nothing |
| SessionEffects.FinishEffect | client_launcher/sessions.py:639-644 | a task that leaves takes its own registration along and no other's |
| SessionEffects.LeavingEffect | client_launcher/sessions.py:611-644 | a failing connector or a cancellation moves the attempt alone |
| SessionEffects.BindServerRefusals | client_launcher/sessions.py:552-596 | a binding is refused as a mismatch exactly for another server than confirmed, and as removed exactly when it cost the profile its entry; any other refusal leaves the store alone |
| Sessions.PublishOutcome | client_launcher/sessions.py:543-608 | with a writable store a returned connection makes its profile ready if and only if no other profile has the server instance and the binding is free, the same or confirmed; the profile is removed exactly if it is unbound, not the default and lost that race |
| Sessions.BindServerOutcome | client_launcher/sessions.py:552-596 | which connections are bound, refused, or cost an unbound profile its entry |
| Sessions.BindServerKeeps | client_launcher/sessions.py:552-596 | binding leaves all other profiles alone, and a successful one stores exactly the observed server id without changing the target |
| Sessions.PrepareKeeps | client_launcher/sessions.py:181-263 | answering or starting a connect request keeps the invariant |
| Sessions.PublishKeeps | client_launcher/sessions.py:543-608 | the publishing section keeps the invariant, whether it publishes, fails, or removes the profile |
| Sessions.FailKeeps | client_launcher/sessions.py:611-638 | the failure section keeps the invariant, also when the profile has gone meanwhile |
| Sessions.FinishKeeps | client_launcher/sessions.py:639-644 | the final section keeps the invariant and removes only its own registration |
| Sessions.DisconnectKeeps | client_launcher/sessions.py:459-478 | disconnecting keeps the invariant even if the stored profile changes in the same section, and leaves the profile not ready |
| Sessions.ReconcileKeeps | client_launcher/sessions.py:394-420 | the end of a stop keeps the invariant |
| Sessions.UpdateKeeps | client_launcher/sessions.py:422-445 | changing a profile, with its session closed when the local target changes, keeps the invariant |
| Sessions.DeleteKeeps | client_launcher/sessions.py:447-457 | deleting a profile together with its session keeps the invariant |
| Sessions.MarkErrorKeeps | client_launcher/sessions.py:75-106 | reporting an error for an epoch keeps the invariant |
| Sessions.ResolveKeeps | client_launcher/sessions.py:48-73 | handing out a lease keeps the invariant |
| Sessions.PhaseStepKeeps | client_launcher/sessions.py:529-534 | a phase report at any time keeps the invariant |
| Leases.UnsetIffCurrent | client_launcher/sessions.py:48-73 | on every board with the invariant, unset event and current lease are the same thing |
| Leases.PublishedKeeps | client_launcher/sessions.py:598-608 | a new lease keeps all older leases honest: their events are set and their ids are not reused |
| Leases.EndedKeeps | client_launcher/sessions.py:469-478 | ending a session sets exactly its own event and takes readiness from it alone |
| Leases.IssuedKeeps | client_launcher/sessions.py:66-73 | the lease handed out is the current one with its unset event |
| SessionManager.Manager.Perform | client_launcher/sessions.py:23-685 | on a manager with the invariant, the method that has the code of any step of a run leaves exactly the state the run has next, and the invariant |
| SessionManager.ValidLeases | client_launcher/sessions.py:48-106 | in every such manager a lease ever handed out has its event unset if and only if it is the current lease |
| SessionManager.Manager.PrepareConnect | client_launcher/sessions.py:181-263 | the method takes the modelled step and gives the modelled answer, tables included |
| SessionManager.Manager.DisconnectUnderGuard | client_launcher/sessions.py:459-478 | the method takes exactly the modelled disconnect step |
| SessionManager.Manager.InvalidateLease | client_launcher/sessions.py:660-663 | takes the event out of the table and sets it, nothing else |
| SessionManager.Manager.GetSession | client_launcher/sessions.py:42-46 | makes a session on first sight and returns the stored one |
| SessionManager.Manager.DisconnectProfile | client_launcher/sessions.py:265-274 | disconnects a known profile; an unknown one changes nothing |
| SessionManager.Manager.ReconcileStopped | client_launcher/sessions.py:394-411 | closes the session only if it is still ready on the server that was asked to stop |
| SessionManager.Manager.Update | client_launcher/sessions.py:422-441 | stores the change and closes the session in the same section when the local target differs |
| SessionManager.Manager.Delete | client_launcher/sessions.py:447-453 | removes the profile, supersedes its tasks and drops its session in one section |
| SessionManager.Manager.MarkSessionError | client_launcher/sessions.py:75-106 | ends the session only if it is ready in the reported epoch, and says so |
| SessionManager.Manager.ResolveEndpoint | client_launcher/sessions.py:48-73 | returns the current lease of a ready profile or refuses, and never changes a session it finds |
| SessionManager.Manager.BeginConnect | client_launcher/sessions.py:518-527 | reads the profile, or ends at once without touching the tables |
| SessionManager.Manager.ReportPhase | client_launcher/sessions.py:529-534 | sets the phase only for the current generation of a connecting session |
| SessionManager.Manager.BindConnected | client_launcher/sessions.py:552-596 | binds, rebinds or removes exactly as modelled, with the modelled problem |
| SessionManager.Manager.PublishConnected | client_launcher/sessions.py:543-608 | checks the generation, binds and publishes the session with a fresh lease and event |
| SessionManager.Manager.FailConnect | client_launcher/sessions.py:611-637 | touches the session only for the current generation and drops it if its profile is gone |
| SessionManager.Manager.FinishConnect | client_launcher/sessions.py:639-644 | unregisters the attempt only if the tables still name it |
| ProfileStore.ApplyKeeps | client_launcher/profiles.py:61-238 | every operation leaves a well-formed list that reloading the saved document reproduces; one that fails changes neither list nor document |
| ProfileStore.InvIffReloads | client_launcher/profiles.py:279-345 | the store invariant says exactly that the list consists of valid profiles and that reloading the saved document gives it back |
| ProfileStore.RunKeeps | client_launcher/profiles.py:264-345 | the same after any run of operations, failed writes included |
| ProfileStore.ValidIffWellFormed | client_launcher/profiles.py:347-419 | validation accepts exactly the lists with distinct ids, local homes, local ports, SSH hosts and bound server instances that contain the default profile |
| ProfileStore.ValidateProfiles | client_launcher/profiles.py:347-419 | the loop over the five sets reports the first violation, and none exactly for well-formed lists |
| ProfileStore.LoadOfDocument | client_launcher/profiles.py:279-345 | a saved list loads as itself if and only if it is well formed |
| ProfileStore.BindSucceedsIff | client_launcher/profiles.py:177-196 | a first binding succeeds exactly for a known profile without another binding whose server no other profile has, and changes only that binding |
| ProfileStore.RebindSucceedsIff | client_launcher/profiles.py:198-238 | a rebinding succeeds exactly for a known profile whose new server no other profile has, and changes only that binding |
| ProfileStore.DeleteSucceedsIff | client_launcher/profiles.py:160-175 | a deletion succeeds exactly for a known profile other than the default one and removes exactly that profile |
| ProfileStore.CreateSucceedsIff | client_launcher/profiles.py:61-80 | an addition succeeds exactly if the profile is apart from every stored one, and appends it |
| ProfileStore.UpdateSucceedsIff | client_launcher/profiles.py:122-158 | an update succeeds exactly for a known profile, unless the title is blank, or a local target goes to an SSH profile or gets in the way of another; what was asked for is stored and nothing else changes |
| ProfileStore.EnsureSshSucceedsIff | client_launcher/profiles.py:82-120 | an SSH host is ensured exactly if its profile is there or its id and host are free; a new one is appended, unbound and without automatic connection |
| ProfileStore.ErrorNamesFirstViolation | client_launcher/profiles.py:347-419 | the error of a refused list is that of its first profile that does not go with those before it |
| ProfileStore.EnsureSshTwice | client_launcher/profiles.py:82-120 | asking for a host twice returns the same profile and changes nothing the second time |
| ProfileStore.OthersStay | client_launcher/profiles.py:61-238 | an operation leaves every profile but its own as it was |
| ProfileStore.SubjectChanges | client_launcher/profiles.py:122-238 | an update keeps binding and id, a binding keeps all but the binding, a deletion removes |
| ProfileStore.BindingsDiffer | client_launcher/profiles.py:403-412 | two profiles of a valid list never share a binding |
| ProfileStore.Store.Perform | client_launcher/profiles.py:61-238 | each public operation takes the store to the modelled state with the modelled answer |
| ProfileStore.Store.ReplaceProfiles | client_launcher/profiles.py:274-292 | validates, saves, and only then adopts a list |
| ProfileStore.Store.BindTo | client_launcher/profiles.py:206-238 | refuses a server that another profile has, otherwise replaces the one binding |
| ProfileStore.Store.Get | client_launcher/profiles.py:253-262 | finds the first profile with the id |
| Profiles.RoundTrip | client_launcher/models.py:160-217 | reading the document form of any valid profile gives the profile back |
| Profiles.DocumentShape | client_launcher/models.py:177-217 | the document of a profile has its fields under their names and nothing else |
| Profiles.TargetRoundTrip | client_launcher/models.py:65-140 | the same for local and SSH targets |
| Profiles.FromJson | client_launcher/models.py:184-217 | whatever is read from a document is a valid profile |
| Profiles.SshProfileIdIsInjective | client_launcher/models.py:143-146 | different hosts have different profile ids |
| Proxy.SendStartsIffLeaseIsCurrent | client_launcher/proxy.py:199-284 | a forwarded request reaches its send if and only if it was accepted, neither its declared nor its real length exceeds the limit, and its lease is the current one when the body is complete, whatever happened between the chunks; then the body sent is the whole concatenation, the one header is the session's lease id and the endpoint is the session's |
| Proxy.CurrentUntilInvalidated | client_launcher/proxy.py:396-408 | after any steps an accepted lease is invalidated exactly when it is no longer current |
| Proxy.AcceptedIffHeaderIsCurrent | client_launcher/proxy.py:350-393 | the first check passes exactly for a ready profile, a usable endpoint and one header equal to the session's lease id |
| Proxy.SingleLeaseIff | client_launcher/proxy.py:366-393 | the values read are one value exactly if the request has a single header of the lease name, in any case, with it |
| Proxy.RefusedBecause | client_launcher/proxy.py:199-256 | why a request is refused at the first check |
| Proxy.DeclaredLength | client_launcher/proxy.py:411-419 | a decimal length, with or without spaces around it, is compared with the limit; a malformed or absent one declares nothing |
| Proxy.OneMoreArrival | client_launcher/proxy.py:420-426 | each chunk goes to the end of the body and nothing else does |
| Proxy.AcceptedUnderCurrentLease | client_launcher/proxy.py:199-255 | an accepted request carries one canonical header naming the current, recorded lease of its own profile |
| Proxy.ProxyHandler.ReadBoundedBody | client_launcher/proxy.py:411-426 | with other steps between the chunks, returns the whole concatenation exactly if neither the declared nor the real length exceeds the limit, and stops reading at the first chunk over it |
| Proxy.CanonicalLease | client_launcher/proxy.py:385-393 | a header counts only if it is the only one and canonical |
| Proxy.ProxyHandler.AcceptRequest | client_launcher/proxy.py:199-256 | resolves and checks in one stretch as modelled |
| Proxy.ProxyHandler.SendUpstream | client_launcher/proxy.py:267-278 | looks at the event once more right before the send |
| Proxy.ProxyHandler.ForwardRequest | client_launcher/proxy.py:199-284 | the whole forwarding on a live manager leaves the modelled state and answer, and a valid manager |
| CommandDrain.EmptyReportIsGlobal | backend/core/command_runtime.py:336-474 | after an empty close report, then and ever after, every run ever started is durably terminal with no live process and no producer at work, and no start is admitted |
| CommandDrain.ReportIsExact | backend/core/command_runtime.py:413-474 | a close ends its loop with a turn in which nothing holds up any drained run, or by its deadline, and reports exactly the drained runs that hold it up, for the five reasons of the code |
| CommandDrain.CloseBegins | backend/core/command_runtime.py:336-393 | a close that waited in vain for a start reports that run or the marker; otherwise it drains all tasks, processes and undrained runs |
| CommandDrain.CleanClose | backend/core/command_runtime.py:336-474 | a run: started, its process spawned, closed in the middle, drained, and reported empty |
| CommandDrain.TaskIffRegistered | backend/core/command_runtime.py:106-218 | which steps list a task, create a run and make it terminal |
| CommandDrain.ProcessIffSpawned | backend/core/command_runtime.py:496-525 | a process is listed from its spawning until it is found exited |
| CommandDrain.UndrainedIff | backend/core/command_runtime.py:636-658 | a run counts as undrained from a step that leaves it so to one that finds it terminal without a live process |
| CommandDrain.StartIffNotClosing | backend/core/command_runtime.py:106-218 | a start is admitted exactly while none is in flight and no close has begun, and one in flight is then aborted |
| CommandDrain.ProducersMoveOn | backend/core/command_runtime.py:496-525 | producers only move on, one at a time, and a process lives from its spawning to its exit |
| CommandDrain.StartedRunIsTracked | backend/core/command_runtime.py:106-218 | outside an in-flight start, each started run is in tasks, processes or the undrained set, or terminal with no live process |
| CommandDrain.ReportStays | backend/core/command_runtime.py:336-393 | a close report once given never changes |
| CommandDrain.RunKeepsInv | backend/core/command_runtime.py:106-218 | the drain invariant holds in every state of every run |
| CommandDrain.StepKeepsAccounts | backend/core/command_runtime.py:636-658 | no step loses a run from the bookkeeping |
| CommandDrain.StepKeepsTable | backend/core/command_runtime.py:636-658 | every live process stays in the table and only listed tasks are active |
| CommandDrain.StepKeepsClose | backend/core/command_runtime.py:400-474 | what a close has established about runs it no longer looks at stays true |
| CommandExecutor.Executor.BeginAdmitted | backend/core/command_runtime.py:142-144 | a start is admitted exactly if no close has begun |
| CommandExecutor.Executor.RegisterProducer | backend/core/command_runtime.py:190-204 | the producer is registered exactly if no close came in between |
| CommandExecutor.Executor.AbortReturns | backend/core/command_runtime.py:206-218 | the abort path keeps a run that is not durably terminal as undrained |
| CommandExecutor.Executor.AfterKill | backend/core/command_runtime.py:636-647 | a process still alive after the kill attempt makes its run undrained |
| CommandExecutor.Executor.AfterFinish | backend/core/command_runtime.py:648-658 | the end of the cleanup block drops task and exited process and keeps what is not terminal |
| CommandExecutor.Executor.CommandTaskDone | backend/core/command_runtime.py:496-515 | the done callback clears a run only if it is terminal and physically drained |
| CommandExecutor.Executor.SnapshotForClose | backend/core/command_runtime.py:372-389 | a close drains all tasks, processes and undrained runs it finds |
| CommandExecutor.Executor.PollOnce | backend/core/command_runtime.py:433-457 | one turn of the close loop, for any order of the runs, settles and reports exactly the modelled sets |
| CommandExecutor.OutputTail.AppendTail | backend/core/command_runtime.py:781-788 | the kept tail is always the longest run of last parts of all output that fits |
| CommandExecutor.TailIsLongestFit | backend/core/command_runtime.py:781-792 | the tail consists of last parts, fits, and would not fit with one more |
| CommandExecutor.TailOfMore | backend/core/command_runtime.py:781-788 | trimming after each append is trimming once at the end |
| TranscriptFold.NoTextIsLost | backend/core/transcript.py:1166-1311 | content blocks in order and then the answer are exactly the received content, reasoning blocks exactly the received reasoning |
| StreamContents.CallIsListedIff | backend/core/transcript.py:1182-1311 | the stream lists exactly the calls that some event mentions under a name that is not housekeeping: none is dropped and none made up |
| StreamContents.EventCallsAreRead | backend/core/transcript.py:1313-1338 | every call of an event with an id is read, in order, with its name, arguments, preview, and own or positional index |
| StreamContents.UpsertEffect | backend/core/transcript.py:1178-1188 | a call mentioned again takes over every non-empty field in its place; a new one comes last |
| StreamContents.StatusIsTheLast | backend/core/transcript.py:1214-1231 | the stream has the status of the last event that says one, and runs without any |
| StreamContents.EventDecides | backend/core/transcript.py:1208-1233 | which status, message id, error and usage stand after one more event |
| StreamContents.ApprovalIsShown | backend/core/transcript.py:1250-1280 | after an approval event its call is shown waiting, approved or rejected, and a result overrides what is stored |
| StreamContents.OverridesComeFrom | backend/core/transcript.py:1259-1285 | nothing but approval results and tool errors overrides a stored result, an error by at most 4096 characters |
| TranscriptFold.IdsAreDistinct | backend/core/transcript.py:1166-1311 | block ids and tool-call ids are distinct and the call entries name each listed call once, in order |
| TranscriptFold.OnlyATrailingBlockMoves | backend/core/transcript.py:1287-1300 | only a trailing content block becomes the answer, only once the run is not running, and then no block is shown as streaming |
| TranscriptFold.EntriesOnlyGrow | backend/core/transcript.py:1178-1213 | more events only append entries: a block or call keeps its place and id |
| TranscriptFold.NoHousekeepingIsListed | backend/core/transcript.py:1178-1182 | no housekeeping tool is ever listed |
| TranscriptFold.ReasoningIsClosed | backend/core/transcript.py:1242-1244 | process text closes all reasoning received before it |
| TranscriptFold.ToolCallsCloseText | backend/core/transcript.py:1245-1249 | tool calls close all text received before them |
| TranscriptFold.EventCalls | backend/core/transcript.py:1313-1338 | calls without an id are skipped |
| TranscriptFold.Accumulator.UpsertToolCall | backend/core/transcript.py:1178-1188 | updates the first call with the id or appends a call and its entry |
| TranscriptFold.Accumulator.CloseReasoning | backend/core/transcript.py:1190-1201 | a non-empty reasoning buffer becomes one block numbered by its place |
| TranscriptFold.Accumulator.CloseContent | backend/core/transcript.py:1203-1213 | a non-empty content buffer becomes one block numbered by its place |
| TranscriptFold.Accumulator.ReadTags | backend/core/transcript.py:1216-1238 | status, message id, error, usage and reasoning of an event |
| TranscriptFold.Accumulator.ReadText | backend/core/transcript.py:1239-1244 | the text of an event joins the content buffer |
| TranscriptFold.Accumulator.ReadTools | backend/core/transcript.py:1245-1285 | tool calls, approvals and tool errors of an event |
| TranscriptFold.Accumulator.ReadApproval | backend/core/transcript.py:1250-1281 | an approval event sets the state of its call and, for a result, an override |
| TranscriptFold.Accumulator.Close | backend/core/transcript.py:1287-1311 | the closing step gives the modelled stream state |
| TranscriptFold.StreamState | backend/core/transcript.py:1166-1311 | the rebuilt state of any event list is the modelled fold, to which the promises above apply |
| TranscriptPatch.ReplicaEqualsLiveItems | backend/core/transcript.py:1080-1164 | after any feed that reads its node, with or without a patch, a replica that started empty and applied the node's patches of all sessions holds exactly the current items by id |
| PatchContents.DifferenceIsExact | backend/core/transcript.py:1114-1143 | a difference removes exactly the ids that are gone, in ascending order, and then sends exactly the changed items in their order, each where it belongs |
| PatchContents.UnplacedCounts | backend/core/transcript.py:1101-1143 | changed items the snapshot does not have are placed one after the other before the node's first item |
| PatchContents.SentIff | backend/core/transcript.py:1080-1164 | a feed that looks at its node sends exactly if something has changed or the event ends the run, with a revision just above the last one and the floor |
| PatchContents.LastNamedStays | backend/core/transcript.py:1083-1084 | a session speaks of the node named last: the target of an event, else its own node |
| PatchContents.UnnamedStays | backend/core/transcript.py:1083-1084 | without a name node and conversation stay |
| TranscriptPatch.DifferenceConvergesIffFaithful | backend/core/transcript.py:1122-1150 | one difference brings a replica from the items last sent to the current ones if and only if no changed item is followed by an unchanged last item of the same id |
| TranscriptPatch.FeedKeepsStepIffFaithful | backend/core/transcript.py:1080-1164 | a feed keeps a replica in step exactly under that condition, and touches no other node |
| TranscriptPatch.SharedIdsCanDiverge | backend/core/transcript.py:1122-1150 | a concrete list with a shared id that leaves the replica on another item than the one remembered as sent |
| TranscriptPatch.RepeatKeepsStepIff | backend/core/transcript.py:1080-1164 | two feeds in a row that find the same items keep the replica in step both times exactly if the items are faithful to what was sent, and to themselves |
| TranscriptReplicas.ReplicaShowsTheNode | backend/core/transcript.py:171-238 | over any sessions and feeds with items built from rows and folded events, a replica shows after each reading feed exactly the node's items, as long as no reading has a live answer under the id of a shown user message |
| TranscriptReplicas.RepeatedReadingFollowsIff | backend/core/transcript.py:1080-1164 | a reading that is fed twice, by one session or by two, keeps the replica with the node if and only if it has no such clash |
| TranscriptReplicas.SharedIdDiverges | backend/core/transcript.py:1080-1164 | the input: a shown message "m" and a stopped answer under id "m"; after the second feed of the session the replica differs from the node |
| TranscriptReplicas.ReadingIsDistinctIff | backend/core/transcript.py:171-238 | the items a feed compares have distinct ids exactly without a clash |
| TranscriptPatch.DistinctIdsAreFaithful | backend/core/transcript.py:1122-1150 | distinct item ids are enough |
| TranscriptPatch.ReplicasStayInStep | backend/core/transcript.py:1080-1164 | over any run of feeds of any sessions and foreign revisions, every node's replica equals what is remembered as sent |
| TranscriptPatch.RevisionsAlwaysIncrease | backend/core/transcript.py:33-38 | over any run the revisions of a node's patches strictly increase |
| TranscriptPatch.AnySplitEndsAlike | backend/core/transcript.py:143-147 | however events are split into silent replay and live feeds, runs that end live leave the same replica |
| TranscriptPatch.SilentEventsCount | backend/core/transcript.py:1080-1086 | a silent event counts for the stream state like a live one |
| TranscriptPatch.Assembler.TakeRevision | backend/core/transcript.py:33-38 | the next revision exceeds the last one and the floor |
| TranscriptPatch.PatchSession.TakeIn | backend/core/transcript.py:1080-1164 | a feed leaves exactly the modelled tables and answers with the modelled patch, silence or failure |
| TranscriptPatch.Compare | backend/core/transcript.py:1110-1139 | removals in sorted order, then changed items with their positions |
| TranscriptPatch.Remember | backend/core/transcript.py:1140-1145 | what is remembered as sent are the items by id |
| TextOrder.SortedIsAscending | backend/core/transcript.py:1121-1122 | the removal list has each id once, in ascending code point order |
| TranscriptItems.TimelineIsPartitioned | backend/core/transcript.py:240-403 | without a compact boundary the process blocks and participation items in order are exactly the sorted timeline, each element once; process items are non-empty, of one run, numbered upwards and never split without need |
| NodeContents.NodeShowsItsRows | backend/core/transcript.py:240-464 | a node without a compact boundary shows its user messages, its work, its status, its notifications, the live answer and the visible answers: each row that should be shown once, in order, with its content, the last answer led by the continuations |
| NodeContents.TimelineListsAll | backend/core/transcript.py:346-387 | the timeline is made of the stored process texts, the visible stored calls and all entries of a shown stream, each under its key |
| NodeContents.StatusIsShownIff | backend/core/transcript.py:404-421 | exactly when a status is shown, and for which run |
| NodeContents.LiveAnswerIsShownIff | backend/core/transcript.py:424-444 | exactly when the live answer is shown |
| NodeContents.KindIff | backend/core/transcript.py:483-498 | which calls take part, and as what |
| NodeContents.LiveResultsAre | backend/core/transcript.py:203-206 | while a stream is shown its overrides decide what a result says |
| NodeContents.RunTimesAre | backend/core/transcript.py:1005-1036 | a run starts when its last row says |
| TranscriptItems.TimelineOrderIsStable | backend/core/transcript.py:387-387 | the timeline is sorted stably by key |
| TranscriptItems.ItemIdsAreDistinctIff | backend/core/transcript.py:240-464 | with distinct message, call and notification ids all item ids are distinct if and only if the live answer does not take the id of a shown user message |
| TranscriptItems.LiveItemsAreDistinctIff | backend/core/transcript.py:171-238 | the same for live items with merged calls and overridden results, as the ids a patch session compares |
| TranscriptItems.ClashShowsBoth | backend/core/transcript.py:240-464 | in a clash the list holds the user message and, behind it, the live answer under the same id |
| TranscriptItems.FoldedStreamsAreLinked | backend/core/transcript.py:1166-1311 | every stream state the fold produces meets what the item builder needs |
| TranscriptItems.MergeKeepsStored | backend/core/transcript.py:466-483 | merging live calls keeps every stored row in its place and repeats no id |
| TranscriptItems.MergeListsLive | backend/core/transcript.py:466-483 | merging loses no live call |
| TranscriptItems.IdTextIsInjective | backend/core/transcript.py:288-307 | different items of a node never get the same printed id |
| TranscriptItems.TimelineCallsAreDistinct | backend/core/transcript.py:363-386 | a call shown by the live stream is not shown again from its row |
| TranscriptItems.BuildTimeline | backend/core/transcript.py:346-386 | the three loops collect exactly the modelled entries |
| TranscriptItems.Grouping.AppendProcessItem | backend/core/transcript.py:288-307 | an open group becomes one numbered process item |
| TranscriptItems.Grouping.AppendProcessBlock | backend/core/transcript.py:309-319 | a block of another run closes the open group first |
| TranscriptItems.Grouping.Append | backend/core/transcript.py:321-344 | participation calls stand alone, everything else joins the group |
| TranscriptItems.BuildNodeItems | backend/core/transcript.py:240-464 | the item list of a node is the modelled one |
| TranscriptItems.MergeLiveToolCalls | backend/core/transcript.py:466-483 | stored calls first, then live calls with new ids |
| StableSort.StableOrderIsStable | backend/core/transcript.py:387-387 | the order lists every position once, ascending by key, equal keys as they stood |
| StableSort.LessIsLexicographic | backend/core/transcript.py:387-387 | keys compare component by component |
| ConversationTree.Conversation.AddNode | backend/core/chat/conversation.py:60-81 | stores and links a node; below a live parent the tree stays well formed |
| ConversationTree.Conversation.DeleteRecursive | backend/core/chat/conversation.py:89-93 | removes exactly the listing of the subtree |
| ConversationTree.Conversation.DelNode | backend/core/chat/conversation.py:83-106 | removes the subtree, unlinks it, moves the current node only if it is the deleted one, and keeps a tree |
| ConversationTree.Conversation.GetNodeChain | backend/core/chat/conversation.py:108-123 | is the path from the root |
| ConversationTree.Conversation.GetDescendantNodeIds | backend/core/chat/conversation.py:190-201 | the explicit stack lists the subtree in recursive preorder |
| ConversationTree.Conversation.CountNodesInBranch | backend/core/chat/conversation.py:177-188 | counts exactly the preorder listing |
| ConversationTree.Conversation.GetNodeTree | backend/core/chat/conversation.py:133-159 | the display listing is the preorder with levels that are distances from the start |
| ConversationTree.DeleteKeepsTree | backend/core/chat/conversation.py:83-101 | deleting a non-root subtree leaves a well-formed tree |
| TreeEdits.DeletionKeepsListing | backend/core/chat/conversation.py:83-100 | after a deletion every subtree is listed as before, without what was deleted and in the same order |
| TreeEdits.DeletedTable | backend/core/chat/conversation.py:83-100 | a deletion takes exactly the nodes at or below the given one and changes nothing of the others but child lists |
| ConversationTree.AttachKeepsTree | backend/core/chat/conversation.py:60-81 | attaching a fresh leaf to a live parent leaves a well-formed tree |
| TreeEdits.AttachedIsLast | backend/core/chat/conversation.py:60-80 | a new leaf is listed last below its parent, behind all that was there |
| TreeEdits.AttachmentKeepsListing | backend/core/chat/conversation.py:60-80 | after an attachment every subtree is listed as before, but for the new leaf |
| TreeEdits.AttachedTable | backend/core/chat/conversation.py:60-80 | the leaf knows its parent, which lists it last; no other node changes |
| ConversationTree.CurrentStaysStored | backend/core/chat/conversation.py:103-104 | the current node is still stored after a deletion if and only if it did not stand strictly below the deleted node |
| TreeSpec.RootPathIsPath | backend/core/chat/conversation.py:108-123 | the root path starts at the root, ends at the node, follows parent links and repeats nothing |
| TreeSpec.PreorderElements | backend/core/chat/conversation.py:190-201 | the listing of a subtree holds exactly the nodes at or below its top |
| TreeSpec.PreorderDistinct | backend/core/chat/conversation.py:190-201 | a listing repeats no node |
| ConversationLoad.PruneDangling | backend/core/chat/conversation.py:305-325 | ends, whatever the scan order, with exactly the greatest set in which every non-root parent is kept or the marker |
| ConversationLoad.GreatestAnchoredUnique | backend/core/chat/conversation.py:305-325 | that set is unique |
| ConversationLoad.TreeIsAnchored | backend/core/chat/conversation.py:305-325 | nothing is dropped from a well-formed tree |
| ConversationLoad.BrokenChainIsDropped | backend/core/chat/conversation.py:305-325 | a node whose parent chain leaves the table is dropped |
| ConversationLoad.UnbrokenChainIsKept | backend/core/chat/conversation.py:305-325 | every other node is kept |
| ConversationLoad.FromDict | backend/core/chat/conversation.py:220-283 | a document loads if and only if it has an id, a supported version and a stored root and the walk up from every kept node with a failed turn ends; with which error, or without end, the others fail; root and current node of a loaded conversation are kept nodes |
| ConversationLoad.WalkUp | backend/core/chat/conversation.py:108-123 | on any table, the walk from a node to its ancestors ends, meets a parent that is not stored, or never ends, and which of them is the case |
| ConversationLoad.LastRecordCounts | backend/core/chat/conversation.py:245-253 | of the records of an id the last one is loaded, as stored |
| ConversationLoad.FailedTurnIff | backend/core/chat/conversation.py:285-303 | which turns count as failed |
| ConversationLoad.OnlyTheRootIsLost | backend/core/chat/conversation.py:305-325 | after pruning, a walk can meet a missing parent only at the root |
| ConversationLoad.TreeLoads | backend/core/chat/conversation.py:220-283 | a document with a well-formed tree loads whole, whatever its turns have come to |
| ConversationLoad.LoadCanHang | backend/core/chat/conversation.py:263-274 | two nodes that are each other's parent, one with a failed turn: the load does not come back |
| ConversationLoad.LoadCanMissAParent | backend/core/chat/conversation.py:263-274 | a root with a failed turn and a parent that is not stored: the load raises |
| PrunePackets.RawTurnShownOnce | backend/core/chat/prune_summary.py:265-316 | a node is a raw turn of its branch packet, and then once, if and only if it is not compact and has no compact descendant |
| PrunePackets.BuildBranch | backend/core/chat/prune_summary.py:265-316 | the folding pass gives segments, folded and included ids as specified for the branch |
| PrunePackets.BuildPrunePackets | backend/core/chat/prune_summary.py:225-341 | one packet for each direct child in order; covered ids list every proper descendant of the parent once; the two error cases |
| PrunePackets.SubtreeOrder | backend/core/chat/prune_summary.py:211-222 | the stack loop is the preorder of the tree with children in visiting order |
| PrunePackets.AncestorIdsUntil | backend/core/chat/prune_summary.py:189-197 | exactly the proper ancestors below the parent |
| PrunePackets.BranchesCoverDescendants | backend/core/chat/prune_summary.py:265-316 | the branches together list every proper descendant once |
| PrunePackets.CollectedIsFolded | backend/core/chat/prune_summary.py:274-281 | the folded ids are exactly the in-branch proper ancestors of compact nodes |
| PrunePackets.PassCompact | backend/core/chat/prune_summary.py:274-293 | visiting a compact node keeps the pass invariant: what is settled stays settled |
| PrunePackets.PassEnd | backend/core/chat/prune_summary.py:302-302 | at the end the segments show, in order, what no compact node folds away |
| PrunePackets.VisitOrderAscends | backend/core/chat/prune_summary.py:211-222 | siblings are visited by ascending timestamp |
| PrunePackets.VisitTiesReverse | backend/core/chat/prune_summary.py:211-222 | siblings of the same timestamp are visited from the one stored last |
| PrunePackets.PacketTiesStay | backend/core/chat/prune_summary.py:245-250 | direct children of the same rank and timestamp keep their stored order |
| PrunePackets.PacketOrderAscends | backend/core/chat/prune_summary.py:245-250 | packets come in the current branch first, then by timestamp |
| PrunePackets.Flushed | backend/core/chat/prune_summary.py:200-208 | flushing neither loses nor repeats a turn and adds no empty segment |
| RunControl.StopFrom | backend/api/routes/run_control.py:12-92 | on any finite graph, cyclic or not, the stop ends, attempts every reachable run that is found exactly once whatever fails, raises exactly if something failed at a reachable run, then with what that run raises, and otherwise returns the accepted ids |
| RunControl.RouteIff | backend/api/routes/run_control.py:37-51 | which service is called for a run, and under which id |
| RunControl.CallIsMadeIff | backend/api/routes/run_control.py:37-51 | a service call is made exactly if it is the call of an attempted run |
| RunControl.AcceptedAre | backend/api/routes/run_control.py:30-34 | the accepted ids are those of the attempts whose request was accepted, each in its turn |
| RunControl.OwnFailureIff | backend/api/routes/run_control.py:24-67 | which failure of a run counts |
| RunControl.StopCascade.StopRunTree | backend/api/routes/run_control.py:12-92 | one cascade over the shared seen set, from any state of it |
| RunControl.StopCascade.StopChildren | backend/api/routes/run_control.py:69-92 | all listed children get their turn and the first failure wins |
| RunControl.AttemptOne | backend/api/routes/run_control.py:31-67 | request, service call and child listing of one run, with the failure that is raised: the first one, unless the cached listing fails too, which is raised instead |
| RunControl.ClosedHoldsReachable | backend/api/routes/run_control.py:12-92 | a set closed under children holds everything reachable |
| EventBatcher.OrderIffNoWriteFailed | backend/api/routes/messages.py:80-121 | in every state of every run log, batch in flight, pending and event in hand are the submitted sequence if and only if no write has failed so far |
| EventBatcher.EventsKeepTheirOrder | backend/api/routes/messages.py:80-121 | with any failed writes, what was submitted is an interleaving of log and lost events, each in order, followed by what is on its way, in order; pending stays within the batch size |
| EventBatcher.LostExactlyByFailure | backend/api/routes/messages.py:106-114 | something is lost exactly if a write has failed |
| EventBatcher.FailedWriteBreaksOrder | backend/api/routes/messages.py:106-114 | a run whose failed write loses its batch for good |
| EventBatcher.ImmediateNeverOvertakes | backend/api/routes/messages.py:89-94 | in every run an immediate event is written last: all that was submitted before it is written, or lost by a failed write, and written if none failed |
| EventBatcher.FlushWritesEverything | backend/api/routes/messages.py:106-114 | in every run a flush of the producer that does not fail itself leaves nothing on its way: all is written or lost by an earlier failure |
| EventBatcher.WaitsIff | backend/api/routes/messages.py:68-76 | only plain text, reasoning and process text of a run that neither starts nor ends waits for a batch |
| EventBatcher.SubmittedGoes | backend/api/routes/messages.py:89-104 | where a submitted event goes, and when a flush is asked for |
| EventBatcher.TimerWritesBatch | backend/api/routes/messages.py:116-121 | a run in which an event waits for its timer and is written |
| EventBatcher.PendingHasTimer | backend/api/routes/messages.py:95-98 | a pending event always has a timer that will ask for a flush |
| EventBatcher.RunKeepsInv | backend/api/routes/messages.py:80-121 | the batcher invariant holds in every state of every run |
| EventBatcher.RunEventBatcher.Append | backend/api/routes/messages.py:89-95 | an event goes to the direct or to the batched path |
| EventBatcher.RunEventBatcher.AppendLocked | backend/api/routes/messages.py:95-104 | the event joins pending, a timer is started if none runs, a full batch asks for a flush |
| EventBatcher.RunEventBatcher.TakeBatch | backend/api/routes/messages.py:106-113 | a flush takes all of pending under the lock |
| EventBatcher.RunEventBatcher.BatchWritten | backend/api/routes/messages.py:113-114 | a batch is written in order or lost as a whole |
| EventBatcher.RunEventBatcher.DirectWritten | backend/api/routes/messages.py:92-94 | an immediate event is written alone |
| MemoryFile.DoneReadsBack | backend/core/memory.py:162-252 | whenever an update answers ok, the file reads back as a valid memory with exactly the intended entries within the limits |
| MemoryAnswers.DoneIff | backend/core/memory.py:85-252 | an update is answered ok exactly if the request is well put, without a secret and for a known project, the file is a valid memory, some list is intended, and that list is there already or is allowed and gets written |
| MemoryAnswers.RequestErrorIff | backend/core/memory.py:85-126 | with what a request is refused |
| MemoryAnswers.ListErrorIff | backend/core/memory.py:254-272 | with what a list is refused, with the limits of each scope |
| MemoryAnswers.ChangedIff | backend/core/memory.py:192-210 | an update writes exactly the intended list, if it is another one |
| MemoryAnswers.ParsedIff | backend/core/memory.py:141-160 | a file is read as these entries exactly if its lines are the heading and the entries, blank lines aside |
| MemoryFile.NoEditIsOverwrittenIff | backend/core/memory.py:214-242 | an update that puts its file in place has overwritten no edit of others if and only if nobody left other bytes after the conflict check; earlier edits are never overwritten |
| MemoryFile.LateEditIsOverwritten | backend/core/memory.py:236-242 | an entry written by someone else after the conflict check is gone, and the answer is ok |
| MemoryFile.OthersLeaveTheFile | backend/core/memory.py:162-252 | any other answer leaves the file as it was or as the last one who edited it made it |
| MemoryFile.ParseOfRender | backend/core/memory.py:141-160 | parsing a rendered list of entries gives the list back |
| MemoryFile.RenderedSize | backend/core/memory.py:15-20 | any list within its limits is printed to less than 16 KiB, below the 64 KiB view limit |
| MemoryFile.ReadersAcceptIff | backend/core/memory.py:254-272 | a rendered list reads back if and only if it keeps count, lengths, distinctness and sensitivity rules |
| MemoryFile.MatchCount | backend/core/memory.py:197-210 | "not found", "ambiguous" and a change mean exactly no, several and one matching entry |
| MemoryFile.ChangedIsIntended | backend/core/memory.py:192-210 | the changed list is the one the action asks for |
| MemoryFile.CurrentAreEntries | backend/core/memory.py:179-190 | what an update works on are normalised entries that a reader accepts too |
| MemoryFile.NormalizedIsEntry | backend/core/memory.py:110-116 | accepted content becomes an entry when normalised |
| MemoryFile.ParseText | backend/core/memory.py:141-160 | the parsing loop |
| MemoryFile.MemoryStore.Update | backend/core/memory.py:85-126 | an update leaves exactly the modelled file and answer |
| MemoryFile.MemoryStore.UpdateFile | backend/core/memory.py:162-252 | the checks, the change, the conflict check and the replacement in the order of the code |
| PythonText.NormalizedTwice | backend/core/memory.py:113-114 | normalising is done once and for all |
| PythonText.WordsOfJoin | backend/core/memory.py:151-151 | splitting joined words gives the words back |
| PythonText.FirstLine | backend/core/memory.py:144-144 | a line ends at its line feed |
| TaskTag.ParseOfPrint | backend/api/routes/tasks.py:25-56 | parsing a printed tag gives back generation id and revision, colons included; only an empty id is refused |
| TaskTag.TagExample | backend/api/routes/tasks.py:25-28 | the tag of revision 0 of generation "a" |
| TaskTag.TagsAreDistinct | backend/api/routes/tasks.py:25-28 | different task versions have different tags |
| TaskTag.SpacesDoNotMatter | backend/api/routes/tasks.py:42-42 | spaces around a tag change nothing |
| TaskTag.Parse | backend/api/routes/tasks.py:35-56 | exactly an absent or empty header is answered with "version required", and an accepted tag has a generation id |
| TaskTag.ParseDecodedOfParts | backend/api/routes/tasks.py:49-55 | the last colon separates id and revision |
| Base64Url.DecodeOfUnpadded | backend/api/routes/tasks.py:25-28 | unpadded base64url decodes to the same bytes once the padding is put back |
| Base64Url.RfcVectors | backend/api/routes/tasks.py:25-28 | test vectors of section 10 of RFC 4648 |
| Base64Url.UnpaddedEncode | backend/api/routes/tasks.py:25-28 | stripping the padding leaves exactly the symbols |
| Utf8.DecodeOfEncode | backend/api/routes/tasks.py:26-26 | UTF-8 decoding undoes encoding |
| Utf8.OnlyEncodedDecodes | backend/api/routes/tasks.py:48-48 | the strict decoder accepts nothing but encoded text |
| Decimal.ParseIntOfPrint | backend/api/routes/tasks.py:50-50 | `int` undoes `str` on natural numbers |
| JsonDetails.AcceptedIffTree | chattree_protocol/http_errors.py:99-141 | a graph is accepted with a tree exactly if it is its tree: scalars are themselves, lists their items in order, mappings their string keys with the tree of the last entry, and nothing else has a tree |
| JsonDetails.RefusedIffOffends | chattree_protocol/http_errors.py:99-141 | a walk fails exactly on an offending part, with the first one in its order: a float that is not finite, another value, a container inside itself, a key that is no string |
| JsonDetails.UnfoldIffTree | chattree_protocol/http_errors.py:99-141 | unfolding gives exactly the tree of a graph |
| JsonDetails.AcceptedUnfolds | chattree_protocol/http_errors.py:99-141 | what is accepted unfolds within as many levels as there are containers |
| JsonDetails.TreeIsAccepted | chattree_protocol/http_errors.py:99-141 | shared acyclic containers are accepted |
| JsonDetails.Validator.ValidateValue | chattree_protocol/http_errors.py:99-141 | the walk ends on every graph, answers as specified and restores the active set on every exit |
| JsonDetails.ValidateJsonObject | chattree_protocol/http_errors.py:143-151 | absent and empty details give none |

## Left out

- HTTP, FastAPI routing, response streaming and header filters, SSH, sockets, subprocesses, SQLite, and the JSON library: plumbing, or outcomes of steps.
- `local_server.py`, `ssh_connector.py`, `server_cli.py`, build scripts, Electron and React files: plumbing and user interface.
- Capability loaders, prompting, workspace and settings normalisation, OAuth, usage SQL: only easy members.
- Run manager, producer registry, mutation admission, plan ledger and task service: environments about which nothing is claimed.
- Lifecycle locks of sessions: the steps may interleave even where these locks forbid it, so what is proved holds with them too; the closed flag is read before the guard and is not relied on either.
- Cancelled connect tasks: a step may cancel any task at any time, which covers the requests of the code and more.
- Connection epochs across removal and re-creation of a profile: they restart, so only lease ids tell such sessions apart.
- Response chunks after a lease event is set, and two subscribers that share one node's baseline: the code promises nothing there.
- TranscriptItems.BuildNodeItems: items carry the rows and elements they show; their rendered fields (status texts, previews, durations, answers of plans) are left out, and tool results are given as what decides where a call is shown.
- TranscriptPatch.PatchSession.TakeIn: the position of an upsert is computed as in the code; what a client does with positions is not part of this model.
- Out-of-band plan and notification patches: they take a revision, which the runs include, and bypass the baseline.
- TranscriptFold.Accumulator.UpsertToolCall: after a repeated upsert the call index is that of the last mention, as in the code; it is not claimed to be an entry position.
- TranscriptFold.EventCalls: the columns every call of a session shares (conversation, node and run ids) are left out.
- PrunePackets.BuildPrunePackets: messages, tool histories, truncation and the notes about it are left out; turns are their node ids.
- ConversationLoad.PruneDangling: the dictionary the code prunes in place is returned as a value.
- ConversationLoad.FromDict: the usage a repaired node inherits is left out, the walk that looks for it is not; where the code's loop does not end, the model notices the circle and answers so.
- ConversationTree.Conversation.DelNode: deleting the root leaves no tree, and nothing is claimed of the object after that beyond its node table.
- CommandDrain.EmptyReportIsGlobal: reports are sets, without their order; exit codes and output events are left out. A `create_run` that raises after it has stored the run gives no run to the executor, so that run is not among those ever started.
- EventBatcher.RunEventBatcher.AppendLocked: the clock is a free choice whether the delay has elapsed; a producer cancelled while it waits for the lock is left out.
- JsonDetails.ValidateJsonObject: the argument is a mapping, as its type says; error paths are lists of steps, not text; recursion depth and NaN payloads are left out.
- MemoryFile.DoneReadsBack: does not promise that no edit of others is overwritten, because an edit after the conflict check is; `NoEditIsOverwrittenIff` says exactly when.
- MemoryFile.MemoryStore.Update: arguments that are not text, unknown actions and scopes, which are all answered with "invalid", and the content view of unreadable files are left out.
- TaskTag.Parse: `int` accepts other Unicode digits too and refuses more than 4300 digits; both are left out, as are surrogates, which UTF-8 cannot carry.
- Profiles.RoundTrip: documents are JSON values; reading and writing them as text is taken to lose nothing.
- ProfileStore.Store.Open: a store is opened on a document that loads; writing the first document with the default profile is left out.
- Proxy.ProxyHandler.AcceptRequest: a resolver that returns a plain endpoint, a request without the required header and URL building are left out; usable endpoints are a parameter.
- Utf8.OnlyEncodedDecodes: code points are Unicode scalar values.
