/** Agent trees, and the outside world: language models, tools and remote agents.
    Every oracle may depend on the whole history of outside calls, so a tool or a
    model may be as stateful as it likes; only its determinism is assumed. */
module World {
  import opened Prelude
  import opened Conversations

  /** Unnamed is any type string the dispatcher does not know; it runs as a language-model node. */
  datatype Kind = Sequential | Parallel | Loop | A2A | LLM | Unnamed

  datatype AgentNode = AgentNode(
    name: string,
    kind: Kind,
    model: string,
    prompt: string,
    outputKey: string,
    canExitLoop: bool,
    maxIterations: int,
    agents: seq<AgentNode>,
    destructiveHint: bool,
    a2a: seq<string>)
  {
    predicate IsLeaf() {
      kind == A2A || kind == LLM || kind == Unnamed
    }

    predicate IsBlock() {
      kind == Parallel || kind == Loop
    }
  }

  datatype LlmRole = UserTurn | ModelTurn | ToolTurn

  datatype LlmMessage = LlmMessage(role: LlmRole, content: string)

  /** The tools offered to the model: a node's own, or everything the agent has. */
  datatype Offer = NodeOffer(a2a: seq<string>, exitLoop: bool) | FullOffer

  /** Calls that leave the process. */
  datatype Call =
    | AskModel(model: string, system: string, messages: seq<LlmMessage>, offer: Offer)
    | RunTool(name: string, args: Args)
    | SendTask(agent: string, text: string)
    | ContinueTask(agent: string, taskId: Id, text: string)

  /** A call made for a tree position, or made by the single-model loop. */
  datatype Event = Event(path: seq<nat>, call: Call) | ChatEvent(call: Call)

  datatype LlmReply = LlmError(error: string) | LlmText(text: string) | LlmTool(name: string, args: Args)

  datatype ToolReply = ToolOk(text: string, isError: bool) | ToolAuthRequired | ToolFailed(error: string)

  datatype TaskState = TaskCompleted | TaskFailed | InputRequired | AuthRequired | OtherState

  /** text is the artifact text, or the printed task id and state when there is none. */
  datatype Task = Task(id: Id, state: TaskState, message: Option<string>, text: string)

  datatype RemoteReply = RemoteError(error: string) | RemoteTask(task: Task)

  datatype Tool = Tool(destructive: bool, server: string)

  /** What a log line, reply or approval description is about; its wording is left to render. */
  datatype Notice =
    | Prefixed(node: string, text: string)
    | ModelFailed(node: string, error: string)
    | ExitLoopCalled(node: string)
    | AgentMissing(node: string, agent: string)
    | AgentFailed(node: string, error: string)
    | ToolMissing(node: string, tool: string)
    | ToolBroken(node: string, error: string)
    | AuthNeeded(node: string, target: string)
    | DelegateRequest(node: string, agent: string, text: string)
    | ProxyRequest(node: string, agent: string, text: string)
    | ToolRequest(tool: string, args: Args)
    | ApprovalNeeded(description: string, uuid: Id)
    | OperationDone(node: string, result: string)
    | ModelUnavailable(node: string)
    | PipelineError(error: string)
    | IterationCap
    | AlreadyWaiting
    | Cancelled
    | ApprovalFailed(error: string)

  datatype World = World(
    llm: (seq<Event>, Call) -> LlmReply,
    modelReady: string -> bool,
    tools: map<string, Tool>,
    runTool: (seq<Event>, string, Args) -> ToolReply,
    clients: map<string, bool>,
    send: (seq<Event>, string, string) -> RemoteReply,
    resumeTask: (seq<Event>, string, Id, string) -> RemoteReply,
    render: Notice -> string)

  const A2A_PREFIX := "a2a_"

  const EXIT_LOOP := "exit_loop"

  /** args["message"] when it is a string, "" otherwise. */
  function MessageArg(args: Args): string {
    if "message" in args && args["message"].Str? then args["message"].text else ""
  }

  /** The arguments' message, or nothing when there is no text under that name. */
  predicate IsMessageOf(args: Args, text: string) {
    if "message" in args && args["message"].Str? then text == args["message"].text else text == ""
  }

  /** The call an approval releases. */
  function ApprovedCall(tool: string, args: Args): Call {
    if HasPrefix(tool, A2A_PREFIX) then SendTask(TrimPrefix(tool, A2A_PREFIX), MessageArg(args))
    else RunTool(tool, args)
  }

  function At(path: seq<nat>, calls: seq<Call>): seq<Event> {
    seq(|calls|, i requires 0 <= i < |calls| => Event(path, calls[i]))
  }

  lemma OneCall(hist: seq<Event>, path: seq<nat>, call: Call)
    ensures hist + At(path, [call]) == hist + [Event(path, call)]
    ensures (hist + At(path, [call]))[..|hist|] == hist
  {
  }

  lemma TwoCalls(hist: seq<Event>, path: seq<nat>, a: Call, b: Call)
    ensures hist + At(path, [a, b]) == hist + [Event(path, a)] + [Event(path, b)]
    ensures (hist + At(path, [a, b]))[..|hist|] == hist
    ensures (hist + At(path, [a, b]))[..|hist| + 1] == hist + [Event(path, a)]
  {
  }
}
