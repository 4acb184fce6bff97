/** Which session keys a tree can read and write, and that it depends on no others. */
module Footprint {
  import opened Prelude
  import opened World
  import opened Orchestrator
  import opened Evaluation

  /** The keys a template refers to. */
  function Refs(tmpl: string): set<string>
    decreases |tmpl|
  {
    if tmpl == "" then {}
    else match TakeRef(tmpl)
      case Some((key, rest)) => {key} + Refs(rest)
      case None => Refs(tmpl[1..])
  }

  function KeyOf(node: AgentNode): set<string> {
    if node.outputKey != "" then {node.outputKey} else {}
  }

  function Reads(node: AgentNode): set<string>
    decreases node, 2
  {
    if node.IsLeaf() then Refs(node.prompt) else ReadsFrom(node, 0)
  }

  function ReadsFrom(node: AgentNode, i: nat): set<string>
    requires i <= |node.agents|
    decreases node, 1, |node.agents| - i
  {
    if i == |node.agents| then {} else Reads(node.agents[i]) + ReadsFrom(node, i + 1)
  }

  function Writes(node: AgentNode): set<string>
    decreases node, 2
  {
    if node.IsLeaf() then KeyOf(node) else WritesFrom(node, 0)
  }

  function WritesFrom(node: AgentNode, i: nat): set<string>
    requires i <= |node.agents|
    decreases node, 1, |node.agents| - i
  {
    if i == |node.agents| then {} else Writes(node.agents[i]) + WritesFrom(node, i + 1)
  }

  predicate SameAt(k: string, a: map<string, string>, b: map<string, string>) {
    (k in a <==> k in b) && (k in a ==> a[k] == b[k])
  }

  /** A key that is not written keeps its value; a key that is not used at all may change before
      or after the run alike. */
  ghost predicate Framed(k: string, x: string, rd: set<string>, wr: set<string>, values: map<string, string>, r: Res,
                      changed: Res) {
    && (k !in wr ==> SameAt(k, values, r.values))
    && (k !in rd + wr ==> changed == r.(values := r.values[k := x]))
  }

  lemma {:induction false} ResolveFrame(tmpl: string, values: map<string, string>, k: string, x: string)
    requires k !in Refs(tmpl)
    ensures ResolveTemplate(tmpl, values[k := x]) == ResolveTemplate(tmpl, values)
    decreases |tmpl|
  {
    if tmpl != "" {
      match TakeRef(tmpl)
      case Some((key, rest)) => ResolveFrame(rest, values, k, x);
      case None => ResolveFrame(tmpl[1..], values, k, x);
    }
  }

  /** A template whose references are all unset or empty is sent as it is written: so is a reference
      to user_message at the start of a run, since only output keys are ever set. */
  lemma {:induction false} UnsetReferencesStay(tmpl: string, values: map<string, string>)
    requires forall k :: k in Refs(tmpl) ==> Lookup(values, k) == ""
    ensures ResolveTemplate(tmpl, values) == tmpl
    decreases |tmpl|
  {
    if tmpl != "" {
      match TakeRef(tmpl)
      case Some((key, rest)) => UnsetReferencesStay(rest, values);
      case None => UnsetReferencesStay(tmpl[1..], values);
    }
  }

  // ---------- templates as their writer sees them ----------

  /** A key that can be referred to. */
  predicate IsKey(key: string) {
    key != "" && forall i :: 0 <= i < |key| ==>
      'a' <= key[i] <= 'z' || 'A' <= key[i] <= 'Z' || '0' <= key[i] <= '9' || key[i] == '_'
  }

  /** Stretches of text with a reference to a key between each and the next. */
  function WithReferences(texts: seq<string>, keys: seq<string>): string
    requires |texts| == |keys| + 1
    decreases |keys|
  {
    if keys == [] then texts[0] else texts[0] + ("{" + keys[0] + "}") + WithReferences(texts[1..], keys[1..])
  }

  /** The same stretches with the keys' values between them. A key that is absent or holds no text
      keeps its reference. */
  function WithValues(texts: seq<string>, keys: seq<string>, values: map<string, string>): string
    requires |texts| == |keys| + 1
    decreases |keys|
  {
    if keys == [] then texts[0]
    else
      var key := keys[0];
      texts[0] + (if key in values && values[key] != "" then values[key] else "{" + key + "}")
      + WithValues(texts[1..], keys[1..], values)
  }

  lemma CharStays(s: string, values: map<string, string>)
    requires s != "" && s[0] != '{'
    ensures ResolveTemplate(s, values) == s[..1] + ResolveTemplate(s[1..], values)
  {
  }

  lemma Regroup(a: string, b: string, c: string)
    ensures a + b + c == a + (b + c)
  {
  }

  lemma {:induction false} TextStays(text: string, rest: string, values: map<string, string>)
    requires '{' !in text
    ensures ResolveTemplate(text + rest, values) == text + ResolveTemplate(rest, values)
  {
    hide ResolveTemplate;
    if text == "" {
      assert text + rest == rest;
    } else {
      TextStays(text[1..], rest, values);
      assert text[0] in text && (text + rest)[1..] == text[1..] + rest && (text + rest)[..1] == text[..1];
      CharStays(text + rest, values);
      Regroup(text[..1], text[1..], ResolveTemplate(rest, values));
      assert text == text[..1] + text[1..];
    }
  }

  lemma {:induction false} WordEnds(key: string, rest: string)
    requires forall i :: 0 <= i < |key| ==> IsWordChar(key[i])
    requires rest != "" && !IsWordChar(rest[0])
    ensures WordRun(key + rest) == |key|
  {
    if key == "" {
      assert key + rest == rest;
    } else {
      assert (key + rest)[1..] == key[1..] + rest;
      WordEnds(key[1..], rest);
    }
  }

  lemma ReferenceTaken(key: string, rest: string)
    requires IsKey(key)
    ensures TakeRef("{" + key + "}" + rest) == Some((key, rest))
  {
    var s := "{" + key + "}" + rest;
    assert s[1..] == key + ("}" + rest);
    WordEnds(key, "}" + rest);
    assert s[1..1 + |key|] == key && s[|key| + 2..] == rest;
  }

  /** What is taken for a reference is exactly a key in braces. */
  lemma ReferencesAreKeys(s: string)
    ensures TakeRef(s).Some? <==> exists key, rest :: IsKey(key) && s == "{" + key + "}" + rest
    ensures forall key, rest :: IsKey(key) && s == "{" + key + "}" + rest ==> TakeRef(s) == Some((key, rest))
  {
    forall key, rest | IsKey(key) && s == "{" + key + "}" + rest
      ensures TakeRef(s) == Some((key, rest))
    {
      ReferenceTaken(key, rest);
    }
    if TakeRef(s).Some? {
      var (key, rest) := TakeRef(s).value;
      assert IsKey(key) && s == "{" + key + "}" + rest;
    }
  }

  lemma ReferenceIsReplaced(key: string, rest: string, values: map<string, string>)
    requires IsKey(key)
    ensures ResolveTemplate("{" + key + "}" + rest, values)
            == (if key in values && values[key] != "" then values[key] else "{" + key + "}")
               + ResolveTemplate(rest, values)
  {
    hide TakeRef, IsKey;
    ReferenceTaken(key, rest);
  }

  /** Every reference is replaced by its key's value, once, and nothing else changes: what a value
      holds is not looked at again. */
  lemma {:induction false} ReferencesAreReplaced(texts: seq<string>, keys: seq<string>, values: map<string, string>)
    requires |texts| == |keys| + 1
    requires (forall i :: 0 <= i < |texts| ==> '{' !in texts[i]) && (forall i :: 0 <= i < |keys| ==> IsKey(keys[i]))
    ensures ResolveTemplate(WithReferences(texts, keys), values) == WithValues(texts, keys, values)
    decreases |keys|
  {
    hide IsKey;
    if keys == [] {
      TextStays(texts[0], "", values);
      assert texts[0] + "" == texts[0];
    } else {
      hide ResolveTemplate;
      var ref, rest := "{" + keys[0] + "}", WithReferences(texts[1..], keys[1..]);
      ReferencesAreReplaced(texts[1..], keys[1..], values);
      ReferenceIsReplaced(keys[0], rest, values);
      TextStays(texts[0], ref + rest, values);
      Regroup(texts[0], ref, rest);
      Regroup(texts[0], if keys[0] in values && values[keys[0]] != "" then values[keys[0]] else ref,
              WithValues(texts[1..], keys[1..], values));
    }
  }

  lemma PromptFrame(w: World, node: AgentNode, path: seq<nat>, userMessage: string, prompt: string,
                    values: map<string, string>, k: string, x: string)
    ensures Framed(k, x, {}, KeyOf(node), values, EvalPrompt(w, node, path, userMessage, prompt, values),
                   EvalPrompt(w, node, path, userMessage, prompt, values[k := x]))
  {
    var act := LeafActOf(w, node, path, prompt, userMessage);
    if k !in KeyOf(node) && act.end.Reply? && act.out.Some? && node.outputKey != "" {
      assert values[k := x][node.outputKey := act.out.value] == values[node.outputKey := act.out.value][k := x];
    }
  }

  lemma {:induction false} NodeFrame(w: World, node: AgentNode, path: seq<nat>, userMessage: string,
                      values: map<string, string>, k: string, x: string)
    ensures Framed(k, x, Reads(node), Writes(node), values, EvalNode(w, node, path, userMessage, values),
                   EvalNode(w, node, path, userMessage, values[k := x]))
    decreases node, 3
  {
    match node.kind
    case Sequential => SeqFrame(w, node, path, userMessage, values, 0, None, k, x);
    case Parallel => ParFrame(w, node, path, userMessage, values, 0, [], k, x);
    case Loop => LoopFrame(w, node, path, userMessage, values, MaxIterations(node), None, k, x);
    case _ =>
      PromptFrame(w, node, path, userMessage, ResolveTemplate(node.prompt, values), values, k, x);
      if k !in Refs(node.prompt) {
        ResolveFrame(node.prompt, values, k, x);
      }
  }

  lemma {:induction false} SeqFrame(w: World, node: AgentNode, path: seq<nat>, userMessage: string,
                      values: map<string, string>, i: nat, last: Option<NodeResult>, k: string, x: string)
    requires i <= |node.agents|
    ensures Framed(k, x, ReadsFrom(node, i), WritesFrom(node, i), values,
                   EvalSeq(w, node, path, userMessage, values, i, last),
                   EvalSeq(w, node, path, userMessage, values[k := x], i, last))
    decreases node, 1, |node.agents| - i
  {
    if i < |node.agents| {
      NodeFrame(w, node.agents[i], path + [i], userMessage, values, k, x);
      var r := EvalNode(w, node.agents[i], path + [i], userMessage, values);
      if !r.outcome.Stops() {
        SeqFrame(w, node, path, userMessage, r.values, i + 1, Some(r.outcome.result), k, x);
      }
    }
  }

  lemma {:induction false} ParFrame(w: World, node: AgentNode, path: seq<nat>, userMessage: string,
                      values: map<string, string>, i: nat, responses: seq<string>, k: string, x: string)
    requires i <= |node.agents|
    ensures Framed(k, x, ReadsFrom(node, i), WritesFrom(node, i), values,
                   EvalPar(w, node, path, userMessage, values, i, responses),
                   EvalPar(w, node, path, userMessage, values[k := x], i, responses))
    decreases node, 1, |node.agents| - i
  {
    if i < |node.agents| {
      NodeFrame(w, node.agents[i], path + [i], userMessage, values, k, x);
      var r := EvalNode(w, node.agents[i], path + [i], userMessage, values);
      if r.outcome.Ok? {
        ParFrame(w, node, path, userMessage, r.values, i + 1, responses + [r.outcome.result.response], k, x);
      }
    }
  }

  lemma {:induction false} LoopFrame(w: World, node: AgentNode, path: seq<nat>, userMessage: string,
                      values: map<string, string>, rounds: nat, last: Option<NodeResult>, k: string, x: string)
    ensures Framed(k, x, ReadsFrom(node, 0), WritesFrom(node, 0), values,
                   EvalLoop(w, node, path, userMessage, values, rounds, last),
                   EvalLoop(w, node, path, userMessage, values[k := x], rounds, last))
    decreases node, 2, rounds, 0
  {
    if rounds > 0 {
      RoundFrame(w, node, path, userMessage, values, rounds, 0, last, k, x);
    }
  }

  lemma {:induction false} FromMonotone(node: AgentNode, i: nat)
    requires i <= |node.agents|
    ensures ReadsFrom(node, i) <= ReadsFrom(node, 0) && WritesFrom(node, i) <= WritesFrom(node, 0)
    decreases i
  {
    if i > 0 {
      FromMonotone(node, i - 1);
    }
  }

  lemma {:induction false} RoundFrame(w: World, node: AgentNode, path: seq<nat>, userMessage: string,
                      values: map<string, string>, rounds: nat, i: nat, last: Option<NodeResult>, k: string,
                      x: string)
    requires i <= |node.agents| && rounds > 0
    ensures Framed(k, x, ReadsFrom(node, 0), WritesFrom(node, 0), values,
                   EvalRound(w, node, path, userMessage, values, rounds, i, last),
                   EvalRound(w, node, path, userMessage, values[k := x], rounds, i, last))
    decreases node, 2, rounds - 1, 1, |node.agents| - i
  {
    if i == |node.agents| {
      LoopFrame(w, node, path, userMessage, values, rounds - 1, last, k, x);
    } else {
      FromMonotone(node, i);
      NodeFrame(w, node.agents[i], path + [i], userMessage, values, k, x);
      var r := EvalNode(w, node.agents[i], path + [i], userMessage, values);
      if r.outcome.Ok? && !r.outcome.result.exitLoop {
        RoundFrame(w, node, path, userMessage, r.values, rounds, i + 1, Some(r.outcome.result), k, x);
      }
    }
  }
}
