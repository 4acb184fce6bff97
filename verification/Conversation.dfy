/** The stored conversation: its record, its operations and the object that mutates it. */
module Conversations {
  import opened Prelude

  datatype Value = Str(text: string) | NonString(tag: int)

  type Args = map<string, Value>

  datatype Role = RoleSystem | RoleUser | RoleAssistant | RoleTool

  datatype Message =
    | Text(role: Role, content: string)
    | CallRecord(name: string, args: Args)
    | ResultRecord(name: string, result: string, isError: bool)

  datatype Status = Active | WaitingApproval | Completed

  datatype Pending = Pending(
    uuid: Id,
    toolName: string,
    toolArgs: Args,
    description: string,
    remoteTaskId: Id,
    remoteAgent: string)
  {
    /** A proxy approval stands for an approval pending in a remote agent. */
    predicate IsProxy() {
      remoteTaskId != NO_ID && remoteAgent != ""
    }
  }

  datatype Pipeline = Pipeline(
    path: seq<nat>,
    outputKey: string,
    session: map<string, string>,
    userMessage: string)

  datatype Conv = Conv(
    id: Id,
    status: Status,
    messages: seq<Message>,
    pending: Option<Pending>,
    pipeline: Option<Pipeline>)
  {
    /** The conversation waits exactly when it holds a pending approval. */
    predicate StatusAgrees() {
      (status == WaitingApproval) == pending.Some?
    }

    function Append(more: seq<Message>): Conv {
      this.(messages := messages + more)
    }

    function AddMessage(role: Role, content: string): Conv {
      Append([Text(role, content)])
    }

    function AddToolCall(name: string, args: Args): Conv {
      Append([CallRecord(name, args)])
    }

    function AddToolResult(name: string, result: string, isError: bool): Conv {
      Append([ResultRecord(name, result, isError)])
    }

    function SetWaiting(p: Pending): Conv {
      this.(status := WaitingApproval, pending := Some(p))
    }

    function ResolveApproval(): Conv {
      if pending.Some? then this.(status := Active, pending := None) else this
    }
  }

  function NewConv(id: Id, systemPrompt: string): Conv {
    Conv(id, Active, if systemPrompt != "" then [Text(RoleSystem, systemPrompt)] else [], None, None)
  }

  /** The conversation object that handlers load, mutate and save. */
  class Conversation {
    var id: Id
    var status: Status
    var messages: seq<Message>
    var pending: Option<Pending>
    var pipeline: Option<Pipeline>

    function View(): Conv
      reads this
    {
      Conv(id, status, messages, pending, pipeline)
    }

    /** Decodes a stored conversation. */
    constructor Load(c: Conv)
      ensures View() == c
    {
      id, status, messages, pending, pipeline := c.id, c.status, c.messages, c.pending, c.pipeline;
    }

    method AddMessage(role: Role, content: string)
      modifies this
      ensures View() == old(View()).AddMessage(role, content)
    {
      messages := messages + [Text(role, content)];
    }

    method AddToolCall(name: string, args: Args)
      modifies this
      ensures View() == old(View()).AddToolCall(name, args)
    {
      messages := messages + [CallRecord(name, args)];
    }

    method AddToolResult(name: string, result: string, isError: bool)
      modifies this
      ensures View() == old(View()).AddToolResult(name, result, isError)
    {
      messages := messages + [ResultRecord(name, result, isError)];
    }

    method SetWaitingApproval(uuid: Id, toolName: string, toolArgs: Args, description: string)
      modifies this
      ensures View() == old(View()).SetWaiting(Pending(uuid, toolName, toolArgs, description, NO_ID, ""))
    {
      status := WaitingApproval;
      pending := Some(Pending(uuid, toolName, toolArgs, description, NO_ID, ""));
    }

    /** The assignments to PendingApproval.RemoteTaskID and RemoteAgentName. */
    method SetRemote(taskId: Id, agentName: string)
      requires pending.Some?
      modifies this
      ensures View()
              == old(View()).(pending := Some(old(pending).value.(remoteTaskId := taskId, remoteAgent := agentName)))
    {
      pending := Some(pending.value.(remoteTaskId := taskId, remoteAgent := agentName));
    }

    method ResolveApproval()
      modifies this
      ensures View() == old(View()).ResolveApproval()
    {
      if pending.Some? {
        pending := None;
        status := Active;
      }
    }
  }
}
