/** The message list a simple agent shows its model. */
module Transcript {
  import opened Prelude
  import opened Conversations
  import opened World

  const SEPARATOR := "\n\n"

  function ToolResultText(name: string, result: string): string {
    "Tool \"" + name + "\" returned:\n" + result
  }

  function RoleOf(role: Role): LlmRole {
    match role
    case RoleAssistant => ModelTurn
    case RoleTool => ToolTurn
    case _ => UserTurn
  }

  /** What the model sees of one message: nothing of system messages, call records and empty texts. */
  function Shown(m: Message): Option<LlmMessage> {
    match m
    case Text(role, content) =>
      if role == RoleSystem || content == "" then None else Some(LlmMessage(RoleOf(role), content))
    case CallRecord(_, _) => None
    case ResultRecord(name, result, _) => Some(LlmMessage(UserTurn, ToolResultText(name, result)))
  }

  function Visible(messages: seq<Message>): seq<LlmMessage> {
    if messages == [] then []
    else
      var last := Shown(messages[|messages| - 1]);
      Visible(messages[..|messages| - 1]) + (if last.Some? then [last.value] else [])
  }

  lemma {:induction false} VisibleAppend(a: seq<Message>, b: seq<Message>)
    ensures Visible(a + b) == Visible(a) + Visible(b)
  {
    if b == [] {
      assert a + b == a;
    } else {
      assert (a + b)[..|a + b| - 1] == a + b[..|b| - 1];
      VisibleAppend(a, b[..|b| - 1]);
    }
  }

  function AddToRuns(rs: seq<seq<LlmMessage>>, v: LlmMessage): seq<seq<LlmMessage>> {
    if rs != [] && rs[|rs| - 1] != [] && rs[|rs| - 1][0].role == v.role
    then rs[..|rs| - 1] + [rs[|rs| - 1] + [v]]
    else rs + [[v]]
  }

  /** The visible messages cut into maximal stretches of one role. */
  function Runs(vs: seq<LlmMessage>): seq<seq<LlmMessage>> {
    if vs == [] then [] else AddToRuns(Runs(vs[..|vs| - 1]), vs[|vs| - 1])
  }

  function Flatten(rs: seq<seq<LlmMessage>>): seq<LlmMessage> {
    if rs == [] then [] else Flatten(rs[..|rs| - 1]) + rs[|rs| - 1]
  }

  function Contents(run: seq<LlmMessage>): seq<string> {
    seq(|run|, i requires 0 <= i < |run| => run[i].content)
  }

  function Glue(run: seq<LlmMessage>): LlmMessage
    requires run != []
  {
    LlmMessage(run[0].role, Join(Contents(run), SEPARATOR))
  }

  ghost predicate Grouped(rs: seq<seq<LlmMessage>>) {
    && (forall i :: 0 <= i < |rs| ==> rs[i] != [])
    && (forall i, j :: 0 <= i < |rs| && 0 <= j < |rs[i]| ==> rs[i][j].role == rs[i][0].role)
    && (forall i :: 0 < i < |rs| ==> rs[i - 1][0].role != rs[i][0].role)
  }

  /** The merged list is the visible messages grouped by role, each group joined. */
  ghost predicate IsMerged(vs: seq<LlmMessage>, out: seq<LlmMessage>) {
    var rs := Runs(vs);
    && Flatten(rs) == vs && Grouped(rs)
    && |out| == |rs| && forall i :: 0 <= i < |rs| ==> out[i] == Glue(rs[i])
  }

  lemma {:induction false} JoinSnoc(parts: seq<string>, last: string)
    requires parts != []
    ensures Join(parts + [last], SEPARATOR) == Join(parts, SEPARATOR) + SEPARATOR + last
  {
    if |parts| == 1 {
      assert (parts + [last])[1..] == [last];
    } else {
      assert (parts + [last])[1..] == parts[1..] + [last];
      JoinSnoc(parts[1..], last);
    }
  }

  lemma AddToRunsGroups(rs: seq<seq<LlmMessage>>, v: LlmMessage)
    requires Grouped(rs)
    ensures Grouped(AddToRuns(rs, v)) && Flatten(AddToRuns(rs, v)) == Flatten(rs) + [v]
  {
    var all := AddToRuns(rs, v);
    if rs != [] && rs[|rs| - 1][0].role == v.role {
      assert all[..|all| - 1] == rs[..|rs| - 1];
      assert all[|all| - 1] == rs[|rs| - 1] + [v];
      var last := rs[|rs| - 1];
      assert forall j :: 0 <= j < |last| ==> last[j].role == last[0].role;
    } else {
      assert all[..|all| - 1] == rs;
    }
  }

  lemma {:induction false} RunsGroup(vs: seq<LlmMessage>)
    ensures Flatten(Runs(vs)) == vs && Grouped(Runs(vs))
  {
    if vs != [] {
      RunsGroup(vs[..|vs| - 1]);
      AddToRunsGroups(Runs(vs[..|vs| - 1]), vs[|vs| - 1]);
      assert vs == vs[..|vs| - 1] + [vs[|vs| - 1]];
    }
  }

  function Merge(out: seq<LlmMessage>, v: LlmMessage): seq<LlmMessage> {
    if out != [] && out[|out| - 1].role == v.role
    then out[|out| - 1 := LlmMessage(v.role, out[|out| - 1].content + SEPARATOR + v.content)]
    else out + [v]
  }

  function MergeAll(vs: seq<LlmMessage>): seq<LlmMessage> {
    if vs == [] then [] else Merge(MergeAll(vs[..|vs| - 1]), vs[|vs| - 1])
  }

  ghost predicate Glued(rs: seq<seq<LlmMessage>>, out: seq<LlmMessage>) {
    |out| == |rs| && forall i :: 0 <= i < |rs| ==> rs[i] != [] && out[i] == Glue(rs[i])
  }

  lemma MergeGlues(rs: seq<seq<LlmMessage>>, out: seq<LlmMessage>, v: LlmMessage)
    requires Glued(rs, out)
    ensures Glued(AddToRuns(rs, v), Merge(out, v))
  {
    assert Contents([v]) == [v.content];
    if rs != [] {
      var run := rs[|rs| - 1];
      assert Contents(run + [v]) == Contents(run) + [v.content];
      JoinSnoc(Contents(run), v.content);
      assert out[|out| - 1] == Glue(run);
    }
  }

  lemma {:induction false} MergeAllGlues(vs: seq<LlmMessage>)
    ensures Glued(Runs(vs), MergeAll(vs))
  {
    if vs != [] {
      MergeAllGlues(vs[..|vs| - 1]);
      MergeGlues(Runs(vs[..|vs| - 1]), MergeAll(vs[..|vs| - 1]), vs[|vs| - 1]);
    }
  }

  lemma MergeAllMerges(vs: seq<LlmMessage>)
    ensures IsMerged(vs, MergeAll(vs))
  {
    RunsGroup(vs);
    MergeAllGlues(vs);
  }

  /** The list passed to the model. */
  function LlmMessages(messages: seq<Message>): seq<LlmMessage> {
    MergeAll(Visible(messages))
  }

  /** What the model API needs of a message list. */
  ghost predicate Alternates(out: seq<LlmMessage>) {
    && out != [] && out[0].role == UserTurn && out[|out| - 1].role == UserTurn
    && forall i :: 0 < i < |out| ==> out[i - 1].role != out[i].role
  }

  lemma FlattenEnds(rs: seq<seq<LlmMessage>>)
    requires rs != [] && forall i :: 0 <= i < |rs| ==> rs[i] != []
    ensures Flatten(rs) != []
    ensures Flatten(rs)[0] == rs[0][0]
    ensures Flatten(rs)[|Flatten(rs)| - 1] == rs[|rs| - 1][|rs[|rs| - 1]| - 1]
  {
    if |rs| > 1 {
      FlattenEnds(rs[..|rs| - 1]);
    }
  }

  /** A conversation whose first and last visible messages are the user's gives such a list. */
  lemma ReadyAlternates(messages: seq<Message>)
    requires var vs := Visible(messages); vs != [] && vs[0].role == UserTurn && vs[|vs| - 1].role == UserTurn
    ensures Alternates(LlmMessages(messages))
    ensures IsMerged(Visible(messages), LlmMessages(messages))
  {
    var vs := Visible(messages);
    MergeAllMerges(vs);
    FlattenEnds(Runs(vs));
  }

  lemma ShownNext(messages: seq<Message>, i: nat)
    requires i < |messages|
    ensures var before, shown := LlmMessages(messages[..i]), Shown(messages[i]);
            LlmMessages(messages[..i + 1]) == if shown.Some? then Merge(before, shown.value) else before
  {
    assert messages[..i + 1][..i] == messages[..i];
    var vs, shown := Visible(messages[..i]), Shown(messages[i]);
    if shown.Some? {
      assert (vs + [shown.value])[..|vs|] == vs;
    } else {
      assert vs + [] == vs;
    }
  }

  // ---------- nothing is lost ----------

  /** Every text a message has for the model: results under their tool's name, and nothing of system
      messages and of calls. */
  function Words(messages: seq<Message>): seq<string> {
    if messages == [] then []
    else
      Words(messages[..|messages| - 1])
      + match messages[|messages| - 1]
        case Text(role, content) => if role == RoleSystem || content == "" then [] else [content]
        case CallRecord(_, _) => []
        case ResultRecord(name, result, _) => ["Tool \"" + name + "\" returned:\n" + result]
  }

  lemma JoinExtended(parts: seq<string>, front: seq<string>, last: string, more: string)
    requires parts == front + [last]
    ensures Join(front + [last + SEPARATOR + more], SEPARATOR) == Join(parts, SEPARATOR) + SEPARATOR + more
  {
    if front == [] {
      assert [] + [last] == [last] && [] + [last + SEPARATOR + more] == [last + SEPARATOR + more];
    } else {
      JoinSnoc(front, last);
      JoinSnoc(front, last + SEPARATOR + more);
      var all := Join(front, SEPARATOR);
      assert all + SEPARATOR + (last + SEPARATOR + more) == all + SEPARATOR + last + SEPARATOR + more;
    }
  }

  lemma MergeJoins(out: seq<LlmMessage>, v: LlmMessage)
    ensures Join(Contents(Merge(out, v)), SEPARATOR)
            == if out == [] then v.content else Join(Contents(out), SEPARATOR) + SEPARATOR + v.content
  {
    if out == [] {
      assert Contents([] + [v]) == [v.content];
    } else if out[|out| - 1].role == v.role {
      var front, last := out[..|out| - 1], out[|out| - 1].content;
      assert Contents(out) == Contents(front) + [last];
      assert Contents(Merge(out, v)) == Contents(front) + [last + SEPARATOR + v.content];
      JoinExtended(Contents(out), Contents(front), last, v.content);
    } else {
      assert Contents(out + [v]) == Contents(out) + [v.content];
      JoinSnoc(Contents(out), v.content);
    }
  }

  lemma WordsSnoc(words: seq<string>, word: string)
    ensures Join(words + [word], SEPARATOR)
            == if words == [] then word else Join(words, SEPARATOR) + SEPARATOR + word
  {
    if words == [] {
      assert [] + [word] == [word];
    } else {
      JoinSnoc(words, word);
    }
  }

  lemma WordAdded(messages: seq<Message>)
    requires messages != []
    ensures var before, shown := Words(messages[..|messages| - 1]), Shown(messages[|messages| - 1]);
            Words(messages) == if shown.Some? then before + [shown.value.content] else before
  {
  }

  lemma NoWords()
    ensures Join(Contents(LlmMessages([])), SEPARATOR) == Join(Words([]), SEPARATOR)
    ensures LlmMessages([]) == [] && Words([]) == []
  {
    assert Contents([]) == [];
  }

  ghost predicate SameText(out: seq<LlmMessage>, words: seq<string>) {
    Join(Contents(out), SEPARATOR) == Join(words, SEPARATOR) && (out == [] <==> words == [])
  }

  lemma SameTextThen(out: seq<LlmMessage>, words: seq<string>, v: LlmMessage)
    requires SameText(out, words)
    ensures SameText(Merge(out, v), words + [v.content])
  {
    hide Merge, Contents, Join;
    MergeJoins(out, v);
    MergeNotEmpty(out, v);
    WordsSnoc(words, v.content);
  }

  lemma {:induction false} WordsKeep(messages: seq<Message>)
    ensures SameText(LlmMessages(messages), Words(messages))
  {
    if messages == [] {
      NoWords();
    } else {
      hide Merge, Words, LlmMessages, Shown, SameText;
      var front, shown := messages[..|messages| - 1], Shown(messages[|messages| - 1]);
      WordsKeep(front);
      ShownNext(messages, |front|);
      assert messages[..|front| + 1] == messages;
      WordAdded(messages);
      if shown.Some? {
        SameTextThen(LlmMessages(front), Words(front), shown.value);
      }
    }
  }

  /** The list holds every text, in order and once, a blank line between each and the next. */
  lemma EveryWordIsShown(messages: seq<Message>)
    ensures Join(Contents(LlmMessages(messages)), "\n\n") == Join(Words(messages), "\n\n")
  {
    hide Words, LlmMessages;
    WordsKeep(messages);
  }

  lemma MergeNotEmpty(out: seq<LlmMessage>, v: LlmMessage)
    ensures Merge(out, v) != [] && Merge(out, v)[|Merge(out, v)| - 1].role == v.role
  {
  }

  /** The last to speak in the list is whoever spoke last. */
  lemma LastSpeakerIsKept(messages: seq<Message>, role: Role, content: string)
    requires role != RoleSystem && content != ""
    ensures var out := LlmMessages(messages + [Text(role, content)]);
            && out != []
            && out[|out| - 1].role
               == match role case RoleAssistant => ModelTurn case RoleTool => ToolTurn case _ => UserTurn
  {
    var all := messages + [Text(role, content)];
    ShownNext(all, |messages|);
    assert all[..|messages|] == messages && all[..|messages| + 1] == all;
    MergeNotEmpty(LlmMessages(messages), Shown(Text(role, content)).value);
  }

  method ConvertToLLMMessages(messages: seq<Message>) returns (out: seq<LlmMessage>)
    ensures out == LlmMessages(messages)
    ensures IsMerged(Visible(messages), out)
  {
    out := [];
    for i := 0 to |messages|
      invariant out == LlmMessages(messages[..i])
    {
      var msg := messages[i];
      ShownNext(messages, i);
      if msg.Text? && msg.role == RoleSystem {
        continue;
      }
      var role, content;
      if msg.CallRecord? {
        continue;
      }
      if msg.ResultRecord? {
        role := UserTurn;
        content := ToolResultText(msg.name, msg.result);
      } else if msg.content != "" {
        role := RoleOf(msg.role);
        content := msg.content;
      } else {
        continue;
      }
      if |out| > 0 && out[|out| - 1].role == role {
        out := out[|out| - 1 := LlmMessage(role, out[|out| - 1].content + SEPARATOR + content)];
      } else {
        out := out + [LlmMessage(role, content)];
      }
    }
    assert messages[..|messages|] == messages;
    MergeAllMerges(Visible(messages));
  }
}
