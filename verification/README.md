# Verified model of an agent that stops for approval

The repository is a server for agents that call a language model, run tools and delegate to other
agents. A call marked destructive stops the run until a user approves it: the server stores where
it stopped and later rebuilds the run from that record. These Dafny modules model that behaviour
and prove what it promises, together with the unified-diff engine and the other parts of the file
tools that carry logic of their own.

## How the model is built

**Outside world.** A language model, a tool and a remote agent are oracles (`World`): functions of
the call *and of the whole history of outside calls*, so each may be as stateful as it likes; only
determinism is assumed. The order of all outside calls is kept in a trace. Texts shown to people
are built by an arbitrary function `render` from what they are about. UUIDs and conversation ids
are fresh numbers, 0 standing for the empty string.

**Two forms of each core.** Where the source changes state step by step, the model does too:
classes `Conversation`, `SessionState`, `Storage`, `Agent`, `Server`, `FileStore` and
`CompositeClient`, and methods with loops for the orchestration engine, the single-model loop, the
message conversion, the diff parser and splice loop, and the path walk. Each such method is proved
to compute a function of its old state; the theorems are about those functions.

| files | what they hold |
|---|---|
| `Prelude`, `Conversation`, `World` | ids, conversations and their operations, trees, oracles |
| `Orchestrator`, `Engine` | the tree interpreter, as functions and as the objects that run it |
| `Asked`, `AskedRuns`, `RunAnswers`, `RunReplies`, `RunCourses` | what a run calls, stores and answers, which children run and what ends them, told from calls and answers alone |
| `SimpleAgent`, `Api`, `Service` | the single-model loop, the two entry points, and the server object |
| `Rounds`, `Told`, `ToldRuns` | a turn of the loop round by round, where recorded results come from, and what the model is shown next |
| `RunFacts`, `RunInduction`, `PauseResume`, `Budget`, `ApprovalRuns`, `BlockWork` | induction over runs; pauses, resumes and work bounds over whole runs |
| `ApiFacts`, `Lifecycle`, `Records`, `Release` | the approval life cycle, what stored approvals record, and which grants settle, over every reachable store |
| `Transcript`, `Chat`, `Pairing` | transcripts of simple agents and of trees |
| `Network`, `NetworkProofs`, `NetworkApprovals`, `NetworkStrands` | agents that delegate to one another, chains of proxy approvals, and the delegated conversations left without one |
| `NetworkTexts`, `NetworkLogins` | what delegated tasks report, and what their upstreams record of it |
| `Evaluation`, `Footprint`, `Schedule`, `ScheduleProofs`, `ScheduleProgress` | concurrent children and their schedules |
| `Counterexamples`, `Races` | runs in which a hoped-for property fails, each beside the exact condition proved elsewhere |
| `TextLines`, `Patch`, `PatchPlaces`, `PatchParse`, `PatchText`, `PatchFile` | unified diffs (POSIX.1-2017, `diff`, section "Diff -u or -U Output Format") |
| `LineWindows`, `PathContainment`, `ToolIndex` | line windows, path containment, the composite tool index |

## Where properties stop

Each item is a property one might expect, the reason the code does not have it, and what is proved
instead.

- *The answer of a resumed run.* The result of a resumed child is never kept as the last result
  (`internal/agent/orchestrator.go:139-169`), so a pause in the last child of the root loses the
  answer's text. `AnswerFor` in `PauseResumePreservesMeaning` says exactly when.
- *Pauses under parallel and loop nodes.* A remote agent that asks for input pauses the run there
  too, and the block ignores it (`internal/agent/orchestrator.go:330`, `:217`, `:238`). The stored
  path tells: after any run, and in every reachable store, it names the leaf that asked, and a resume
  can be led to that leaf exactly when no parallel or loop node lies above it (`StoredPathsTell`). The
  work bound holds while the granted pauses are of that kind, whatever remote agents ask for, hence
  for every tree without such nodes; `LoopPauseRepeatsWork` shows a granted pause of the other kind.
  Each granted pause of the other kind can repeat at most one run's work (`WorkRepeatedByBlocks`).
- *A second proxy approval in a pipeline* forgets the pipeline (`internal/agent/agent.go:594`,
  `:630-644`). A grant does so exactly when it grants a proxy whose remote agent asks again
  (`PipelineLostExactly`), and over whole runs no conversation ever waits without its pipeline
  exactly when no request is such a grant (`PipelinesLastExactly`). A run of grants stops there; what
  a further grant adds is exact too (`LostGrantCounts`).
- *One run per approval.* A simple agent runs what was approved at most once
  (`ReleasedAtMostOnce`). In a pipeline a grant whose call has no answer leaves the approval pending
  (`internal/agent/agent.go:621-627`, `:754-777`), so the call can be made again, or the approval
  rejected after it. If every leaf of the tree can do its part (its model can be had, its remote agent
  is known), a grant is accepted exactly when its own call has an answer, and an answered call is
  never made again (`GrantSettlesExactly`, `AnsweredCallRunsOnce`). Without that, an answered call may
  run again because the resumed run fails afterwards (`internal/agent/agent.go:795-798`):
  `AbortedRunCallsAgain`.
- *Proxies and the conversations they stand for* agree except where a granted delegation's
  input-required answer is taken as a result (`internal/agent/agent.go:709-714`). `ProxiesAgree` names
  those conversations. A demand strands one exactly when it is a grant, however long its chain of
  proxies, and the delegation it releases asks for input (`GrantedDelegationStrands`); over whole runs
  agreement is complete exactly when no demand does (`AgreementLastsExactly`).
- *Pairing of results and calls* holds for simple agents, and for trees without parallel and loop
  nodes whose models can reach no destructive agent (`OrchestratedResultsAnswerCalls`). For every
  agent it lasts exactly as long as no grant stores a result while the last record of the stored
  transcript is not a call to the approval's tool (`GrantPairsExactly`, `PairingLastsExactly`). For
  simple agents and for trees that always answer, the record before the grant and the call's answer
  alone decide (`TamePairingLastsExactly`). There are two causes: a model's destructive delegation is not recorded as a call
  (`internal/agent/orchestrator.go:315-318`, `OrchestratedDelegationIsUnpaired`), and a pause that a
  block ignores is followed by other records (`IgnoredPauseIsUnpaired`).
- *Schedules.* Siblings that write one key leave whichever value was stored last: `ScheduleDecides`.
- *Patches with huge line numbers.* A header number is at most 2^63 - 1, and the offset of earlier
  hunks is added in 64 bits (`internal/filesystem/patch.go:115`), so a start near that bound wraps below
  zero and indexes out of range. `CrashesExactly` says when, for ordered hunks; `FarHunkCrashes` is a
  patch of two hunks that does it to a file of one line.
- *Reading a printed diff.* Lines that print like file headers are dropped, and a final newline adds
  an empty context line (`internal/filesystem/patch.go:37`, `:68-71`). `ParseUndoesPrint` and
  `FinalNewlineAddsBlank` give the result for all inputs.
- *Path containment.* For the root `/` the test on text admits only `/` itself
  (`internal/filesystem/security.go:81-86`): `WithinIsPrefix` is exact for every root.
- *Line windows.* Following a file by a positive limit reaches its end exactly when the bound of the
  last window is a 64-bit integer (`internal/filesystem/tools.go:340`): `PagesRestore`.
- *Documentation.* `docs/functionalities.md:444` uses a placeholder `{user_message}`, which no code
  sets; `UnsetReferencesStay` shows it is sent as written. POSIX places a context-free insertion
  after its line, the code before it (`internal/filesystem/patch.go:117`); the model follows the code.

## Model

| member | source | states |
|---|---|---|
| ApprovalRuns.PauseResumePreservesMeaning | internal/agent/agent.go:748-810 | For every tree, oracle and message: granting each approval ends in the session state and the ordered outside calls of the run that never asks, with its answer but for the lost text after a pause in the root's last child; as many grants as the work bound suffice |
| ApprovalRuns.WorkBoundedAcrossPauses | internal/agent/orchestrator.go:479-500 | From the message through every granted pause that lies outside parallel and loop nodes, a tree makes at most W model calls and W executions, never runs off its recorded path, and has had every approval after W of them; each pause names the leaf, its key, session and message, or tells by its path that it lies below such a node. Tasks that ask for input are taken to have ids |
| ApprovalRuns.BlockFreeWorkBounded | internal/agent/orchestrator.go:126-170 | The same bounds, with every pause faithful, for every tree without parallel and loop nodes, whatever remote agents ask for, once or again. Tasks that ask for input are taken to have ids |
| ApprovalRuns.GrantsStopExactly | internal/agent/agent.go:630-644 | A run of grants stops at a forgotten pipeline exactly when the last grant's remote agent asked again |
| BlockWork.WorkRepeatedByBlocks | internal/agent/orchestrator.go:126-248 | Whatever pauses are granted: with b of them below parallel and loop nodes a tree makes at most (1 + b) W model calls and (1 + b) W + b executions, and never runs off its recorded path |
| ApprovalRuns.GrantTracks | internal/agent/agent.go:785-809 | One granted approval takes a paused run to its next pause on the same never-asking run, or to that run's end |
| PauseResume.NodeSplit | internal/agent/orchestrator.go:127-170 | A waiting run of any tree, started afresh or resumed, left a record from which the released call continues exactly the run that never asks |
| PauseResume.NodeAgree | internal/agent/orchestrator.go:111-124 | A run that does not wait equals the run in which nothing asks; under allowance nothing waits |
| PauseResume.ActReleased | internal/agent/orchestrator.go:305-400 | A gated leaf's calls followed by the approved call are the calls of the ungated leaf, with the same output and reply |
| Budget.NodeBudget | internal/agent/orchestrator.go:221-248 | Any run of a tree, fresh or resumed, stays within 1 per leaf, the sum over sequential and parallel children, and iterations times the sum for loops (10 iterations when none is set) |
| RunInduction.NodeInduct | internal/agent/orchestrator.go:111-248 | Whatever every leaf keeps, at its position and under any allowance, and steps in a row keep, every run of the tree keeps |
| RunInduction.ReachedIsOpenOrBelow | internal/agent/orchestrator.go:126-149 | A position a run executes can be resumed exactly when no parallel or loop node lies above it |
| Records.RunsRecordLeaves | internal/agent/orchestrator.go:480-487 | After any run, fresh or resumed, allowed or not, the approval is the old one or was recorded with the leaf that asked, its output key and the message |
| Records.StoredPathsTell | internal/agent/orchestrator.go:566-571 | In every reachable store a recorded path names a leaf and its key, and lies outside blocks exactly when a resume can be led to it |
| Records.PipelineLostExactly | internal/agent/agent.go:593-644 | A grant forgets its pipeline exactly when it grants a proxy whose remote agent asks again, in memory and in the store |
| Records.PipelinesLastExactly | internal/agent/agent.go:593-644 | Over every run of an orchestrated agent no conversation waits without its pipeline exactly when no request is such a grant |
| RunFacts.NodeKeeps | internal/agent/orchestrator.go:111-477 | Every run only extends the trace by calls of the tree's own nodes, destructive ones only where allowed or under a block, and keeps waiting and pending in step |
| Asked.RunsCallWhatIsDue | internal/agent/orchestrator.go:251-477 | Every call of any run of any tree, fresh or resumed, is its node's: a model is sent the node's own prompt as system text, the user's message as the one message, and the node's own offer; a tool or an agent is called with what the model just asked for; a remote-agent node sends its prompt or else the message |
| Asked.PlainPromptIsSent | internal/agent/orchestrator.go:97-108 | A prompt that refers to no key that is set or that the tree can set is sent as written |
| AskedRuns.ServedCallsAreWarranted | internal/agent/agent.go:151-197 | After any requests: a message makes the tree call what is due for that message and an empty session, a granted approval what is due for the message and the session stored with the pause, after the granted call itself |
| RunAnswers.RunsStoreAnswers | internal/agent/orchestrator.go:251-477 | After any run the session holds under each key the last text the outside gave a node that stores there, and otherwise what it held |
| RunReplies.NodeReplies | internal/agent/orchestrator.go:127-170 | A tree without parallel nodes answers with what the outside answered its last call, worded by the node that made it, unless it waits or demands a login |
| RunCourses.LeafEnds | internal/agent/orchestrator.go:262-477 | A leaf fails exactly when its model or agent is not there, and waits, leaves the loop or demands a login exactly when its last call was answered so or the call it wants is gated; it then asks the user about that call, under the next id, or tells whose login is demanded |
| RunCourses.SequenceCourse | internal/agent/orchestrator.go:152-170 | A sequence runs its children in order, up to the first that fails, waits, leaves a loop or demands a login, and ends as the last that ran |
| RunCourses.LoopCourse | internal/agent/orchestrator.go:221-248 | A loop runs its children round after round, as often as it says and ten times when it says nothing; only a child that fails or leaves the loop ends it early |
| RunCourses.ParallelCourse | internal/agent/orchestrator.go:173-218 | Taken in order, the children of a parallel node run up to the first that fails; otherwise the answer is their responses, one to a line, without the empty ones |
| Engine.Agent.ExecuteNode | internal/agent/orchestrator.go:111-124 | The object's run of any node computes the interpreter's new session, conversation, stored copy, trace and outcome, and saves no other conversation |
| Engine.Agent.ExecuteSequential | internal/agent/orchestrator.go:127-170 | Fast-forward to the paused child and the loop over the rest compute the sequential rule, with early stops on waiting, exit and authentication |
| Engine.Agent.ExecuteParallel | internal/agent/orchestrator.go:173-218 | The index-ordered run and the joining of non-empty responses compute the parallel rule |
| Engine.Agent.ExecuteLoop | internal/agent/orchestrator.go:221-248 | The nested loops compute the loop rule: exit_loop alone ends it early |
| Engine.Agent.ExecuteLLMNode | internal/agent/orchestrator.go:251-402 | A model node's every branch: resume, model failure, text, exit, delegation, tool |
| Engine.Agent.DelegateFromModel | internal/agent/orchestrator.go:306-360 | The a2a_ branch, from the lookup of the agent to the recorded result |
| Engine.Agent.UseTool | internal/agent/orchestrator.go:362-401 | The tool branch, with its call record, gate, error and authentication exits |
| Engine.Agent.SendAndRecord | internal/agent/orchestrator.go:436-476 | What a task's reply does: error, proxy approval, authentication, result |
| Engine.Agent.ExecuteA2ANode | internal/agent/orchestrator.go:405-477 | A remote-agent node: message from template or user, its own gate, delegation |
| Engine.Agent.Pause | internal/agent/orchestrator.go:480-500 | The stored record of a pause: path, output key, copy of the session, user message, and for a proxy the remote task and agent |
| Engine.Agent.ResumeNode | internal/agent/orchestrator.go:253-260 | A resumed leaf stores the result under the recorded key and replies with it |
| Engine.Agent.KeepNonEmpty | internal/agent/orchestrator.go:209-215 | Responses in index order without the empty ones |
| Engine.Storage.FindByApprovalUUID | internal/storage/storage.go:100-113 | Returns a stored conversation pending under this UUID, and fails only if there is none |
| Orchestrator.TakeRef | internal/agent/orchestrator.go:97-102 | A placeholder at the start of a text splits it into key and rest |
| Engine.Agent.ResolvePrompt | internal/agent/orchestrator.go:100-108 | Replacing placeholders from left to right, by reads of the session, gives the template resolved in it |
| Footprint.UnsetReferencesStay | internal/agent/orchestrator.go:100-108 | A template all of whose references are unset or empty is sent as written |
| Footprint.ReferencesAreReplaced | internal/agent/orchestrator.go:97-108 | In a text with references between other stretches each reference to a key that holds text is replaced by that text, the others stay, and what was put in is not looked at again |
| Footprint.ReferencesAreKeys | internal/agent/orchestrator.go:97 | What is taken for a reference is exactly letters, digits and underscores in braces |
| Footprint.ResolveFrame | internal/agent/orchestrator.go:100-108 | A template does not depend on keys it does not refer to |
| Footprint.NodeFrame | internal/agent/orchestrator.go:173-218 | A tree leaves keys outside its output keys alone and does not depend on keys it neither refers to nor writes |
| Evaluation.NodeComputes | internal/agent/orchestrator.go:111-124 | With memoryless oracles and no approvals the engine's result is a function of the session state, and its calls a fixed multiset |
| ScheduleProofs.ScheduleIndependent | internal/agent/orchestrator.go:173-218 | Every interleaving of the children's single key reads, leaf calls and key writes, at any depth, that ends gives the session state, result and multiset of calls of the left-to-right run, if no sibling touches a key another writes; if that run fails so does every interleaving |
| ScheduleProofs.StepKeeps | internal/agent/orchestrator.go:183-193 | One move of any child, at any moment, keeps what the whole run will end in |
| ScheduleProofs.StepGood | internal/agent/orchestrator.go:183-193 | Race-freedom lasts: a move never adds keys to a running child |
| ScheduleProofs.StepLocal | internal/agent/orchestrator.go:46-57 | A move depends only on the keys the child can read |
| ScheduleProgress.CanFinish | internal/agent/orchestrator.go:195-207 | From wherever the choices so far have led there is a schedule that ends, within a computed number of moves |
| ScheduleProgress.MovesShrink | internal/agent/orchestrator.go:200-207 | Every move that changes anything uses up work, so no schedule runs for ever |
| Races.ScheduleDecides | internal/agent/orchestrator.go:183-193 | Two siblings storing under one key: two schedules of the same tree end with different session states |
| Conversations.Conversation.ResolveApproval | internal/conversation/conversation.go:175-181 | A pending approval is cleared and the status active again; without one nothing changes |
| Service.Server.ProcessMessage | internal/agent/agent.go:151-172 | A message to a waiting conversation changes nothing; otherwise it is recorded and the loop or the tree runs |
| Service.Server.ProcessOrchestrated | internal/agent/agent.go:175-197 | A fresh session, the tree's run, its error worded as a message, and the save |
| Service.Server.ProcessSimpleMessage | internal/agent/agent.go:200-335 | At most ten rounds of asking the model and running one tool, then the cap message |
| Service.Server.TurnOnce | internal/agent/agent.go:204-327 | One round ends the turn or leaves the conversation for the next round |
| Service.Server.DelegateTurn | internal/agent/agent.go:228-287 | The delegation branch of a round, with its gate |
| Service.Server.TakeReply | internal/agent/agent.go:253-286 | What a simple agent makes of a remote task: result, proxy approval, authentication, error |
| Service.Server.ToolTurn | internal/agent/agent.go:290-327 | The tool branch of a round, with its gate |
| Service.Server.Request | internal/agent/agent.go:300-306 | The approval is set and saved together with the call record and the request's text |
| Service.Server.ResolveApproval | internal/agent/agent.go:583-810 | An answer clears the approval and the pipeline, then rejects, passes on, or makes the approved call and goes on |
| Service.Server.RejectIt | internal/agent/agent.go:596-613 | A rejection is saved first, then passed on to the remote agent of a proxy, whose answer is ignored |
| Service.Server.ApproveIt | internal/agent/agent.go:700-783 | The stored call is made with the stored arguments, and the result recorded |
| Service.Server.AfterProxyReply | internal/agent/agent.go:624-697 | A passed-on approval's answer: a new proxy approval, authentication, or the result to go on with |
| Service.Server.GoOn | internal/agent/agent.go:785-809 | The paused pipeline resumes from its snapshot, or the loop continues |
| Service.Server.AnswerApproval | internal/agent/agent.go:572-576 | The conversation is found by UUID, loaded and answered; an unknown UUID changes nothing |
| Rounds.TurnsHaveTenRounds | internal/agent/agent.go:200-335 | A turn is at most ten rounds, each a question to the model, the call it asked for, and the answer's record; after ten the cap's text is the answer, before that one more question ends the turn: with the model's own words, with an error, or with the wanted call's gate or demand, each given in full by trace, records and result |
| Rounds.TenQuestions | internal/agent/agent.go:201-204 | A turn asks the model at most ten times and once more than it records results, and is cut short by the cap exactly when it recorded ten |
| Told.RunsRecordAnswers | internal/agent/orchestrator.go:362-477 | Any run of a tree records as results only what the outside answered, at the point of the history where it did |
| ToldRuns.ResultsAreTold | internal/agent/agent.go:572-810 | In every reachable store each recorded result is what the outside answered to a call after the calls made until then, later results to later calls; a simple agent's result answers the call recorded before it, with its arguments |
| ToldRuns.GrantedAnswerIsShown | internal/agent/agent.go:700-746 | In every reachable store of a simple agent: right after a granted tool call, delegation or proxy that answered, the model is asked, and the last message it is shown ends with that answer under the tool's name |
| ApiFacts.ResolveApprovalResolves | internal/agent/agent.go:587-613 | An answered approval is cleared; only the stored call of an approved local approval may go ungated, and it goes first; a rejection makes no call but passing itself on |
| ApiFacts.ProcessMessageGrows | internal/agent/agent.go:151-172 | A message makes no ungated destructive call and keeps waiting and pending in step |
| Lifecycle.ApprovalLifecycle | internal/agent/agent.go:572-613 | In every reachable store waiting and pending coincide; each UUID is settled at most once; from a rejection on, no answer to its UUID runs anything |
| Lifecycle.ApprovalGate | internal/agent/agent.go:700-783 | In every run each destructive call lies under a parallel or loop node, or is the first call of an approving answer, with the stored tool and arguments |
| Lifecycle.MessageWhileWaitingIsInert | internal/agent/agent.go:157-163 | In every reachable store a message to a waiting conversation changes neither store nor outside |
| Lifecycle.ServeKeeps | internal/agent/agent.go:151-172 | The invariant behind these holds after any sequence of requests |
| Release.ReleasedAtMostOnce | internal/agent/agent.go:700-746 | In every run of a simple agent, once an answer to an approval has run something, later answers to it are refused and run nothing |
| Release.GrantAcceptedExactly | internal/agent/agent.go:615-810 | With a tree whose leaves can do their part, a grant of a tool, a delegation or a proxy is accepted exactly when its own call has an answer |
| Release.GrantSettlesExactly | internal/agent/agent.go:572-810 | In every reachable store: the grant is accepted, and the approval gone, exactly when its call has an answer; otherwise the store stays as it is and the call is all that happened |
| Release.AnsweredCallRunsOnce | internal/agent/agent.go:748-810 | In every run of such an agent, after a granted call has had its answer every later answer to the approval is refused and runs nothing |
| Release.NodeAnswers | internal/agent/orchestrator.go:111-477 | A tree whose leaves can do their part ends every run, fresh or resumed, without an error |
| Release.FailedCallStaysPending | internal/agent/agent.go:621-627 | A granted tool call, delegation or proxy without an answer leaves store and approval as they were: the same answer makes the call again, and a rejection is still accepted |
| Release.AbortedRunCallsAgain | internal/agent/agent.go:795-798 | From any reachable store, a message to a tree whose second child is an unknown remote agent: the first child asks, the approved tool succeeds, the resumed run fails, nothing is saved, and the same answer calls the tool again |
| Transcript.ConvertToLLMMessages | internal/agent/agent.go:367-406 | The loop's list is the visible messages grouped into maximal runs of one role, each run joined in order |
| Transcript.ReadyAlternates | internal/agent/agent.go:364-366 | If the user speaks first and last, the list starts and ends with the user and never repeats a role |
| Transcript.EveryWordIsShown | internal/agent/agent.go:370-402 | The list holds every text in order and once, a blank line between each and the next, and nothing of system messages and call records |
| Chat.TranscriptsAlternate | internal/agent/agent.go:364-406 | In every run of a simple agent each list ever passed to the model starts and ends with the user, alternates, and holds a stored transcript's visible texts in order |
| Chat.ResultsAnswerCalls | internal/agent/agent.go:228-327 | In every stored transcript of a simple agent each result answers the latest call before it, no call has two results, and a pending approval is for the one unanswered call |
| Chat.ScanIsPairing | internal/agent/agent.go:228-327 | The running check of calls and results accepts exactly the transcripts in which each result answers the latest call |
| Chat.LostGrantCounts | internal/agent/agent.go:692-697 | After a forgotten pipeline a grant leaves the number of model calls exactly when the remote agent gave no result, and otherwise adds at most ten |
| Pairing.RunsKeepPairing | internal/agent/orchestrator.go:251-477 | Any run of any tree leaves a transcript, and each stored copy, as well paired as it found it |
| Pairing.GrantPairsExactly | internal/agent/agent.go:615-783 | A grant keeps a paired transcript paired exactly when it records no result or the last record is its call |
| Pairing.PairingLastsExactly | internal/agent/agent.go:572-810 | Over every run of any agent all transcripts stay paired exactly when no grant stores a result that does not answer the last record |
| Pairing.TamePairingLastsExactly | internal/agent/agent.go:572-810 | For simple agents and trees whose leaves can do their part: exactly when no grant, judged by the stored record before it and the answer of its call, gives a result that does not answer the last record |
| Pairing.OrchestratedResultsAnswerCalls | internal/agent/orchestrator.go:305-400 | In every reachable store of a tree without blocks whose models reach no destructive agent, each result answers the latest call and a pending approval is for the one unanswered call |
| Chat.ModelCallsBounded | internal/agent/agent.go:200-204 | A turn of a simple agent makes at most ten model calls |
| NetworkApprovals.ProxiesAgree | internal/agent/agent.go:258-271 | After any demands on any acyclic network of simple agents: a delegated conversation waits exactly when its upstream waits on a proxy for it, or its granted delegation's input-required answer was taken as a result; never both, and nobody else has a proxy for it |
| NetworkApprovals.ChainDecides | internal/agent/agent.go:596-644 | A message makes no destructive call anywhere; a rejection only passes answers on and leaves nothing in its chain waiting; a grant makes the call the end of the chain waits for, right after the answers passed down, and no other destructive one |
| NetworkStrands.GrantStrands | internal/agent/agent.go:615-715 | Granting any waiting conversation, at any depth of a chain, adds to the stranded exactly the new task that the released delegation reports as asking for input |
| NetworkStrands.GrantedDelegationStrands | internal/agent/agent.go:702-715 | After any demands: a message, a rejection or a grant strands exactly that task or none; it waits, and nobody has a proxy for it |
| NetworkStrands.AgreementLastsExactly | internal/agent/agent.go:258-271 | Over whole runs every delegated conversation waits exactly when its upstream waits on a proxy for it, if and only if no demand is such a grant |
| NetworkApprovals.ResolveGranted | internal/agent/agent.go:615-697 | Granting any waiting conversation, at any depth of a chain, restores agreement and releases only the chain's last call |
| NetworkApprovals.ResolveRejects | internal/agent/agent.go:596-613 | Rejecting any waiting conversation clears the whole chain below it |
| NetworkApprovals.ApprovalWords | internal/agent/agent.go:609-624 | The two words proxies pass down are read as approval and rejection |
| NetworkApprovals.SevenWordsApprove | internal/api/handlers.go:450-459 | Exactly seven words, in small letters or capitals and between any white space, are read as an approval |
| NetworkProofs.SendKeeps | internal/api/handlers.go:404-447 | A new conversation's reply says input-required exactly when that conversation waits, and nothing else changes agreement |
| NetworkTexts.SendTells | internal/api/handlers.go:506-549 | Whatever a new delegated conversation does, the text of its task is what the assistant said last there, and the message that goes with the state is the pending approval's or the login's |
| NetworkTexts.ContinueTells | internal/api/handlers.go:340-400 | The same for every message to an existing task, whether it answers an approval, at any depth of a chain, or starts a turn |
| NetworkTexts.DelegationReports | internal/agent/agent.go:250-286 | A delegation that has a result: the next record upstream holds what was said last in the delegated conversation, and still does when the turn is over |
| NetworkTexts.GrantReports | internal/agent/agent.go:702-715 | A granted delegation: the record after the approval holds what was said last in the new conversation, whatever its state |
| NetworkTexts.ProxyReports | internal/agent/agent.go:615-697 | A granted proxy whose task has a result: the record after the approval holds what was said last in the conversation the proxy stood for |
| NetworkLogins.SendSurfaces | internal/api/handlers.go:513-519 | A task is reported as demanding a login exactly when the last call made by any agent, there or further down, was a tool's that demanded one |
| NetworkProofs.ConverseKeeps | internal/agent/agent.go:200-335 | A turn in a network, with all the delegations it causes, keeps agreement and makes no destructive call |
| NetworkProofs.AfterTask | internal/agent/agent.go:258-286 | What an agent makes of a reply restores agreement with the conversation behind it |
| Counterexamples.SecondProxyLosesPipeline | internal/agent/agent.go:630-644 | The failing direction of Records.PipelineLostExactly: stored without its pipeline, the second approval goes on with the single-model loop |
| Counterexamples.LoopPauseRepeatsWork | internal/agent/orchestrator.go:228-242 | Why the work bound asks where the granted pause lies: a pause under a loop, granted once, exceeds it |
| Counterexamples.OrchestratedDelegationIsUnpaired | internal/agent/orchestrator.go:315-318 | One cause of the failing direction of Pairing.GrantPairsExactly: from any paired conversation whose calls are answered, an approved delegation of a model was never recorded as a call |
| Counterexamples.IgnoredPauseIsUnpaired | internal/agent/orchestrator.go:445-457 | The other cause, with no destructive agent: a pause under a parallel node is followed by another call and its result |
| Patch.ApplyPatch | internal/filesystem/patch.go:102-179 | The two passes over each hunk and the splice compute the model's result, errors and crashes included |
| Patch.ApplyHunk | internal/filesystem/patch.go:115-173 | One hunk: start index with offset in 64 bits, check, new lines, splice, new offset |
| Patch.VerifyLines | internal/filesystem/patch.go:122-147 | The check stops at the first context or deleted line that differs or is past the end |
| Patch.BuildLines | internal/filesystem/patch.go:149-162 | A hunk that fits yields its new side |
| Patch.ApplyIsSimultaneous | internal/filesystem/patch.go:113-173 | For ordered disjoint hunks the splice loop equals one pass over the original that replaces old sides by new ones; it succeeds exactly when every old side is at its stated place in the original, and the final offset is additions less deletions |
| PatchPlaces.PlacesAreReplaced | internal/filesystem/patch.go:113-173 | If the text is the hunks' old sides with other lines between, and each hunk's number is that of the line its old side begins at (0 for the first line too), applying gives the new sides with the same lines between |
| PatchPlaces.AppliesExactlyToWoven | internal/filesystem/patch.go:113-173 | For hunks in order of their numbers: applying succeeds exactly on such texts |
| PatchPlaces.AppliesOnItsLines | internal/filesystem/patch.go:113-143 | For hunks in order: applying succeeds exactly when, for every hunk, the lines with its number and the numbers after it are its old side |
| Patch.CrashesExactly | internal/filesystem/patch.go:115-173 | For ordered disjoint hunks the first that does not fit decides: the hunk is reported by its number, unless it has no old side or its start plus the growth of the hunks before it passes 2^63 - 1, and then an index leaves its range; without such a hunk the patch applies |
| PatchParse.FarHunkCrashes | internal/filesystem/patch.go:113-127 | Two ordered hunks with old sides, read back from their printed form, that run out of range on a file of one line |
| Patch.FitsEach | internal/filesystem/patch.go:122-147 | Success is a condition on each hunk by itself |
| Patch.MismatchNamesFirstDifference | internal/filesystem/patch.go:127-143 | The error names the first hunk that does not fit the original and, if it starts inside the text, its first differing line counted in the text as edited so far, otherwise its start counted so in 64 bits |
| Patch.PatchesInvert | internal/filesystem/patch.go:102-179 | Applying a patch and then its inverse gives the text back with its last line ended, hence the text itself exactly when it is empty or ends with a newline |
| PatchParse.ParsePatch | internal/filesystem/patch.go:28-98 | The loop computes the model's reading of a patch |
| PatchParse.ParseUndoesPrint | internal/filesystem/patch.go:25-98 | Reading any printed hunks gives them back, numbers and omitted counts included, less the lines printed like file headers; the hunks come back whole exactly when there is no such line |
| PatchParse.FinalNewlineAddsBlank | internal/filesystem/patch.go:67-72 | A printed patch that ends with a newline gains an empty context line in its last hunk |
| PatchParse.HeaderReads | internal/filesystem/patch.go:25-61 | A printed header is read back, with and without counts of one, whatever section heading follows |
| PatchText.HeadersAreRead | internal/filesystem/patch.go:25-61 | Exactly the lines made of the two marks, white space, and two numbers with optional counts are taken for headers, and their numbers are read |
| PatchText.RemarksAreSkipped | internal/filesystem/patch.go:36-39 | A line that starts with a backslash or like a file header changes nothing, wherever it stands |
| PatchText.BareLinesAreContext | internal/filesystem/patch.go:67-90 | A line without a mark of its own reads like the same line after a space |
| PatchText.PreambleIsSkipped | internal/filesystem/patch.go:63-65 | Lines before the first header change nothing |
| PatchFile.FileStore.PatchFile | internal/filesystem/tools.go:486-519 | The file changes only after the patch parsed and every hunk applied; each failure before the write leaves every file as it was |
| TextLines.RenderLines | internal/filesystem/patch.go:104-111 | Splitting a text into lines and writing them out ends its last line and changes nothing else |
| TextLines.LinesRender | internal/filesystem/patch.go:175-178 | Lines written out are read back |
| LineWindows.PagesRestore | internal/filesystem/tools.go:309-347 | Following a file by any positive limit reaches its end exactly when the last window's bound is a 64-bit integer, as for a limit that covers the file; each line is then visited once, in order, and joining the pages gives the file up to its final newline |
| LineWindows.PageShowsWindow | internal/filesystem/tools.go:332-347 | A page is the lines from the offset on, at most limit of them, and truncated says whether more follow; it fails exactly when the 64-bit end overflows |
| LineWindows.AbsentParameters | internal/filesystem/tools.go:323-346 | Without an offset, or with offset zero, a page starts at the first line; without a limit it holds every line from the offset on and says that no more follow |
| LineWindows.ZeroLimitNeverEnds | internal/filesystem/tools.go:327-346 | With limit zero the pages of a file that has lines never end |
| PathContainment.WithinIsPrefix | internal/filesystem/security.go:81-86 | The test on text is the test on names for every root but /, which admits only itself |
| PathContainment.TargetIsWalked | internal/filesystem/security.go:20-28 | The path looked up is where the pieces lead: one that starts with a separator is walked from the top and put under the root, any other is walked from the root, up and down, and stops at the top |
| PathContainment.AllowedStaysInside | internal/filesystem/security.go:13-78 | A path is allowed exactly when it, or else its nearest existing ancestor, resolves inside the root; the result is clean and at or below the root |
| PathContainment.ValidatePath | internal/filesystem/security.go:13-43 | The decision, with its error cases, is the modelled one |
| PathContainment.ValidateAncestor | internal/filesystem/security.go:47-78 | The walk ends and is decided by the nearest existing ancestor |
| ToolIndex.CompositeClient.Start | internal/mcp/client_composite.go:37-77 | Success lists and indexes every offered tool under a unique name; a failed server or a repeated name leaves no server running and names the culprits; a second start changes nothing |
| ToolIndex.CompositeClient.StartAll | internal/mcp/client_composite.go:45-54 | Either all servers run, or the first to fail is reported and none runs |
| ToolIndex.CompositeClient.GatherAll | internal/mcp/client_composite.go:60-72 | All servers' tools are listed and indexed, or the first repeated name stops everything |
| ToolIndex.CompositeClient.GatherServer | internal/mcp/client_composite.go:61-71 | One server's tools are added, or the first repeated name stops everything |
| ToolIndex.CompositeClient.Stop | internal/mcp/client_composite.go:80-90 | No server runs afterwards; list and index are kept |
| ToolIndex.CompositeClient.GetTool | internal/mcp/client_composite.go:114-123 | The first listed tool of that name |
| ToolIndex.CompositeClient.CallTool | internal/mcp/client_composite.go:125-138 | A call goes to the indexed server or is refused; while the servers run, a listed tool is called at the server its listing names |
| ToolIndex.IndexAgreesWithScan | internal/mcp/client_composite.go:56-75 | Every listed tool is routed to the server its listing names; the index routes nothing else exactly when every name left from earlier starts is offered again |

## Left out

- HTTP servers and clients, JSON and JSON-RPC encoding, retries, timeouts, stdio pipes, the web interface, OAuth2 and session stores: plumbing; only the decision how to continue a conversation is kept.
- Language-model adapters and the exact tool list offered to a model: wire formats; a model call carries its prompt, messages and what it is offered.
- Wording of log lines, replies, descriptions and errors, message ids and timestamps: `render` is arbitrary. The quoting of a tool's name in a result message is taken as the name in quotes.
- Session ids and bearer tokens passed along with a request.
- Writes to the conversation store that fail: every save succeeds, as the source mostly ignores its errors. PatchFile does model a failing write.
- Requests that overlap on one conversation: the source has no lock for them; requests are atomic steps.
- Engine.Agent.ExecuteParallel: runs the children in index order, one of the possible schedules; `Schedule` models the others, on values and for trees that neither ask for approval nor use history, and compares session state, result and the multiset of calls. The order of transcript messages under real interleaving, and children still running after a sibling's error has been returned, are not compared.
- ApprovalRuns.PauseResumePreservesMeaning: assumes that every approved call returned a result and that no remote agent answers input-required, because a refused or failed call has no counterpart in the run that never asks.
- Patch.ApplyIsSimultaneous, Patch.CrashesExactly, Patch.MismatchNamesFirstDifference: the lines of text and patch together number fewer than 2^63 - 1 (Patch.PatchesInvert counts those of the patch twice), because they share one 64-bit memory.
- Network and its proofs are on values rather than objects: links lead from earlier to later agents, messages are delivered, all agents are in simple mode, and a delegated conversation is answered only by its upstream.
- NodeResult's pointer to the approval: it is the conversation's pending approval.
- PathContainment: symbolic links are a fixed function of the path, so a link changed between check and use is not modelled.
- ToolIndex: what a server offers and whether it starts are inputs of each start; an error from stopping a server is dropped.
- Copy, move, remove, stat, hash, permissions, directory walks, glob and regular-expression search, and byte windows: effects of libraries not shown here.
- executeToolAndRespond, executeA2AAndRespond and Conversation.Complete: nothing in the program calls them.
