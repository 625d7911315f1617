// One round's content: reserved tool uses are answered, other blocks are shown as they are.
module BridgeTurn {
  import opened JsonValues
  import opened BridgeHistory
  import opened Wrappers

  // The server names of a reserved tool: of its call, its result and its error.
  datatype ServerNames = ServerNames(call: string, result: string, error: string)

  function ExecutionNames(name: Json): Option<ServerNames> {
    if name == Str("__kiro_server_bash_execution") then
      Some(ServerNames("bash_code_execution", "bash_code_execution_tool_result",
                       "bash_code_execution_tool_result_error"))
    else if name == Str("__kiro_server_text_editor_execution") then
      Some(ServerNames("text_editor_code_execution", "text_editor_code_execution_tool_result",
                       "text_editor_code_execution_tool_result_error"))
    else None
  }

  predicate IsUse(block: Json) {
    Get(block, "type") == Str("tool_use")
  }

  // A use of a tool the bridge runs itself.
  predicate IsExecution(block: Json) {
    IsUse(block) && ExecutionNames(Get(block, "name")).Some?
  }

  function CallOf(block: Json, id: string): Json
    requires IsExecution(block)
  {
    var names := ExecutionNames(Get(block, "name")).value;
    Obj(block.fields["type" := Str("server_tool_use")]["name" := Str(names.call)]["id" := Str(id)])
  }

  function UnavailableOf(block: Json, id: string): Json
    requires IsExecution(block)
  {
    var names := ExecutionNames(Get(block, "name")).value;
    Obj(map["type" := Str(names.result),
            "tool_use_id" := Str(id),
            "content" := Obj(map["type" := Str(names.error), "error_code" := Str("unavailable")])])
  }

  function FeedbackOf(block: Json): Json {
    Obj(map["type" := Str("tool_result"),
            "tool_use_id" := Get(block, "id"),
            "is_error" := Bool(true),
            "content" := Str("Server-side code execution is unavailable: no isolated execution backend is configured. No command was run.")])
  }

  predicate AnyExecution(blocks: seq<Json>) {
    exists i :: 0 <= i < |blocks| && IsExecution(blocks[i])
  }

  // A use of a tool that belongs to the client.
  predicate AnyClientUse(blocks: seq<Json>) {
    exists i :: 0 <= i < |blocks| && IsUse(blocks[i]) && !IsExecution(blocks[i])
  }

  // What the client sees of a block; `id` is the new server tool id.
  function ShownOf(block: Json, id: string): seq<Json> {
    if IsExecution(block) then [CallOf(block, id), UnavailableOf(block, id)] else [block]
  }

  function Executions(blocks: seq<Json>, i: nat): nat
    requires i <= |blocks|
  {
    if i == 0 then 0 else Executions(blocks, i - 1) + (if IsExecution(blocks[i - 1]) then 1 else 0)
  }

  // The first `i` blocks as shown; `newId` gives the k-th generated id, and `n` were used before.
  function Shown(blocks: seq<Json>, i: nat, newId: nat -> string, n: nat): seq<Json>
    requires i <= |blocks|
  {
    if i == 0 then []
    else Shown(blocks, i - 1, newId, n) + ShownOf(blocks[i - 1], newId(n + Executions(blocks, i - 1)))
  }

  function Feedback(blocks: seq<Json>, i: nat): seq<Json>
    requires i <= |blocks|
  {
    if i == 0 then []
    else Feedback(blocks, i - 1) + (if IsExecution(blocks[i - 1]) then [FeedbackOf(blocks[i - 1])] else [])
  }

  datatype Turn = Turn(shown: seq<Json>, feedback: seq<Json>, selected: bool, clientTools: bool)

  // The loop over a round's blocks. A turn that upstream ended early must not use a reserved tool.
  method ProcessTurn(blocks: seq<Json>, terminal: bool, presentation: seq<Json>, newId: nat -> string, n: nat)
    returns (r: Option<Turn>)
    ensures r.None? <==> terminal && AnyExecution(blocks)
    ensures r.Some? ==>
      && r.value.shown == presentation + Shown(blocks, |blocks|, newId, n)
      && r.value.feedback == Feedback(blocks, |blocks|)
      && r.value.selected == AnyExecution(blocks)
      && r.value.clientTools == (!terminal && AnyClientUse(blocks))
      && |r.value.feedback| == Executions(blocks, |blocks|)
  {
    hide ExecutionNames, CallOf, UnavailableOf, FeedbackOf, IsUse, IsExecution;
    var shown, feedback, selected, clientTools := presentation, [], false, false;
    for i := 0 to |blocks|
      invariant shown == presentation + Shown(blocks, i, newId, n)
      invariant feedback == Feedback(blocks, i) && |feedback| == Executions(blocks, i)
      invariant selected == AnyExecution(blocks[..i])
      invariant clientTools == (!terminal && AnyClientUse(blocks[..i]))
      invariant terminal ==> !AnyExecution(blocks[..i])
    {
      var block := blocks[i];
      OneMore(blocks, i);
      if terminal && IsExecution(block) {
        return None;
      }
      if IsExecution(block) {
        selected := true;
        var id := newId(n + |feedback|);
        shown := shown + [CallOf(block, id), UnavailableOf(block, id)];
        feedback := feedback + [FeedbackOf(block)];
      } else {
        if !terminal && IsUse(block) {
          clientTools := true;
        }
        shown := shown + [block];
      }
    }
    assert blocks[..|blocks|] == blocks;
    r := Some(Turn(shown, feedback, selected, clientTools));
  }

  lemma OneMore(blocks: seq<Json>, i: nat)
    requires i < |blocks|
    ensures AnyExecution(blocks[..i + 1]) <==> AnyExecution(blocks[..i]) || IsExecution(blocks[i])
    ensures AnyClientUse(blocks[..i + 1])
        <==> AnyClientUse(blocks[..i]) || (IsUse(blocks[i]) && !IsExecution(blocks[i]))
    ensures IsExecution(blocks[i]) ==> AnyExecution(blocks)
  {
    hide IsUse, IsExecution;
    var before, after := blocks[..i], blocks[..i + 1];
    assert after == before + [blocks[i]];
    if AnyExecution(before) {
      var k :| 0 <= k < |before| && IsExecution(before[k]);
      assert IsExecution(after[k]);
    }
    if AnyClientUse(before) {
      var k :| 0 <= k < |before| && IsUse(before[k]) && !IsExecution(before[k]);
      assert IsUse(after[k]) && !IsExecution(after[k]);
    }
    assert after[i] == blocks[i];
  }

  // ----- what the client may see -----

  // A use of one of the two reserved tools, by name.
  predicate NamesReserved(block: Json) {
    && Get(block, "type") == Str("tool_use")
    && (|| Get(block, "name") == Str("__kiro_server_bash_execution")
        || Get(block, "name") == Str("__kiro_server_text_editor_execution"))
  }

  lemma ReservedIff(block: Json)
    ensures IsExecution(block) <==> NamesReserved(block)
  {
  }

  predicate NoneReserved(blocks: seq<Json>) {
    forall i :: 0 <= i < |blocks| ==> !NamesReserved(blocks[i])
  }

  // A use of a reserved tool is shown as a call of the server tool, with its other fields, and a
  // result that says the tool is unavailable.
  lemma ShownMeans(block: Json, id: string)
    requires NamesReserved(block)
    ensures var bash := Get(block, "name") == Str("__kiro_server_bash_execution");
            var shown := ShownOf(block, id);
            && |shown| == 2
            && Get(shown[0], "type") == Str("server_tool_use")
            && Get(shown[0], "name") == Str(if bash then "bash_code_execution" else "text_editor_code_execution")
            && Get(shown[0], "id") == Str(id)
            && (forall k :: k != "type" && k != "name" && k != "id" ==> Get(shown[0], k) == Get(block, k))
            && Get(shown[1], "type") == Str(if bash then "bash_code_execution_tool_result"
                                            else "text_editor_code_execution_tool_result")
            && Get(shown[1], "tool_use_id") == Str(id)
            && Get(Get(shown[1], "content"), "type")
               == Str(if bash then "bash_code_execution_tool_result_error"
                      else "text_editor_code_execution_tool_result_error")
            && Get(Get(shown[1], "content"), "error_code") == Str("unavailable")
  {
    hide *;
    ReservedIff(block);
    NamesOf(block);
    ShownIs(block, id);
    CallFields(block, id);
    ResultFields(block, id);
  }

  lemma ShownIs(block: Json, id: string)
    requires IsExecution(block)
    ensures ShownOf(block, id) == [CallOf(block, id), UnavailableOf(block, id)]
  {
    hide CallOf, UnavailableOf, IsExecution;
  }

  lemma NamesOf(block: Json)
    requires NamesReserved(block)
    ensures ExecutionNames(Get(block, "name"))
         == Some(if Get(block, "name") == Str("__kiro_server_bash_execution")
                 then ServerNames("bash_code_execution", "bash_code_execution_tool_result",
                                  "bash_code_execution_tool_result_error")
                 else ServerNames("text_editor_code_execution", "text_editor_code_execution_tool_result",
                                  "text_editor_code_execution_tool_result_error"))
  {
    hide Get;
  }

  lemma ResultFields(block: Json, id: string)
    requires IsExecution(block)
    ensures var names := ExecutionNames(Get(block, "name")).value;
            var result := UnavailableOf(block, id);
            && Get(result, "type") == Str(names.result) && Get(result, "tool_use_id") == Str(id)
            && Get(Get(result, "content"), "type") == Str(names.error)
            && Get(Get(result, "content"), "error_code") == Str("unavailable")
  {
    hide ExecutionNames;
    assert "type" != "tool_use_id" && "type" != "content" && "content" != "tool_use_id" && "type" != "error_code";
  }

  lemma ShownOfNotReserved(block: Json, id: string)
    ensures NoneReserved(ShownOf(block, id))
  {
    ReservedIff(block);
    if IsExecution(block) {
      hide ExecutionNames;
      CallFields(block, id);
      assert ShownOf(block, id)[0] == CallOf(block, id);
      assert ShownOf(block, id)[1] == UnavailableOf(block, id);
      ResultNotUse(block, id);
    }
  }

  lemma CallFields(block: Json, id: string)
    requires IsExecution(block)
    ensures Get(CallOf(block, id), "type") == Str("server_tool_use")
    ensures Get(CallOf(block, id), "name") == Str(ExecutionNames(Get(block, "name")).value.call)
    ensures Get(CallOf(block, id), "id") == Str(id)
    ensures forall k :: k != "type" && k != "name" && k != "id" ==> Get(CallOf(block, id), k) == Get(block, k)
  {
    hide ExecutionNames;
    assert "type" != "name" && "name" != "id" && "type" != "id";
  }

  // A use's feedback answers its id, as an error.
  lemma FeedbackNamesUse(block: Json)
    requires IsUse(block)
    ensures ResultId(FeedbackOf(block)) == UseId(block)
    ensures Get(FeedbackOf(block), "type") == Str("tool_result")
    ensures Get(FeedbackOf(block), "tool_use_id") == Get(block, "id")
    ensures Get(FeedbackOf(block), "is_error") == Bool(true)
  {
    assert Get(FeedbackOf(block), "type") == Str("tool_result");
    assert Get(FeedbackOf(block), "tool_use_id") == Get(block, "id");
  }

  // It says that nothing was run.
  lemma FeedbackSays(block: Json, text: Json)
    requires text == Get(FeedbackOf(block), "content")
    ensures text.Str? && EndsWith(text.s, "No command was run.")
  {
    assert "content" != "is_error";
    assert text.s[|text.s| - 19..] == "No command was run.";
  }

  lemma ResultNotUse(block: Json, id: string)
    requires IsExecution(block)
    ensures !IsUse(UnavailableOf(block, id))
  {
    var names := ExecutionNames(Get(block, "name")).value;
    assert |names.result| > |"tool_use"|;
  }

  // No block shown to the client is a use of a reserved tool.
  lemma {:induction false} NoReservedShown(blocks: seq<Json>, i: nat, newId: nat -> string, n: nat)
    requires i <= |blocks|
    ensures NoneReserved(Shown(blocks, i, newId, n))
  {
    hide NamesReserved, ShownOf;
    if i > 0 {
      NoReservedShown(blocks, i - 1, newId, n);
      ShownOfNotReserved(blocks[i - 1], newId(n + Executions(blocks, i - 1)));
    }
  }

  // ----- a shown call and its result are a pair that replays -----

  // When the client replays a shown call and result, the call opens the id that the result answers,
  // under the same internal tool name, and the result counts as an error.
  lemma ShownPairReplays(block: Json, id: string)
    requires IsExecution(block)
    ensures Opened(CallOf(block, id)) == Some(id)
    ensures Answered(UnavailableOf(block, id)) == Some(id)
    ensures Get(Rewrite(CallOf(block, id)), "name") == Get(block, "name")
    ensures IsError(Get(UnavailableOf(block, id), "content"))
  {
    CallFields(block, id);
    CallNames(Get(block, "name"));
    CallReplays(block, id);
    ResultReplays(block, id);
  }

  lemma CallNames(name: Json)
    requires ExecutionNames(name).Some?
    ensures InternalName(Str(ExecutionNames(name).value.call)) == Some(name.s)
  {
  }

  lemma CallReplays(block: Json, id: string)
    requires IsExecution(block)
    requires InternalName(Str(ExecutionNames(Get(block, "name")).value.call)) == Some(Get(block, "name").s)
    ensures Opened(CallOf(block, id)) == Some(id)
    ensures Get(Rewrite(CallOf(block, id)), "name") == Get(block, "name")
  {
    hide InternalName;
    CallFields(block, id);
    hide CallOf;
    assert "type" != "name";
  }

  lemma ResultReplays(block: Json, id: string)
    requires IsExecution(block)
    ensures Answered(UnavailableOf(block, id)) == Some(id)
    ensures IsError(Get(UnavailableOf(block, id), "content"))
  {
    hide ExecutionNames;
    var r := UnavailableOf(block, id);
    var names := ExecutionNames(Get(block, "name")).value;
    ResultNames(Get(block, "name"));
    assert Get(r, "type") == Str(names.result) && Get(r, "tool_use_id") == Str(id);
    assert Get(Get(r, "content"), "type") == Str(names.error);
  }

  lemma ResultNames(name: Json)
    requires ExecutionNames(name).Some?
    ensures var names := ExecutionNames(name).value;
            && (|| names.result == "bash_code_execution_tool_result"
                || names.result == "text_editor_code_execution_tool_result")
            && EndsWith(names.error, "_tool_result_error")
  {
    hide EndsWith;
    if name == Str("__kiro_server_bash_execution") {
      BashError();
    } else {
      EditorError();
    }
  }

  lemma BashError()
    ensures EndsWith("bash_code_execution_tool_result_error", "_tool_result_error")
  {
    SuffixAt("bash_code_execution_tool_result_error", "_tool_result_error", 19);
  }

  lemma EditorError()
    ensures EndsWith("text_editor_code_execution_tool_result_error", "_tool_result_error")
  {
    SuffixAt("text_editor_code_execution_tool_result_error", "_tool_result_error", 26);
  }

  lemma SuffixAt(s: string, suffix: string, i: nat)
    requires i + |suffix| == |s| && s[i..] == suffix
    ensures EndsWith(s, suffix)
  {
  }

  // Read in full: a replayed pair becomes the tool use followed by its result message.
  lemma {:induction false} PairNormalizes(block: Json, id: string, text: Json -> string)
    requires IsExecution(block)
    ensures
      var call, result := CallOf(block, id), UnavailableOf(block, id);
      BridgeHistory.Turn([call, result], 0, [], text) == [Assistant([Rewrite(call)]), Reply(result, text)]
  {
    ShownPairReplays(block, id);
    hide IsExecution, CallOf, UnavailableOf, Opened, Answered, Rewrite, IsError, Reply;
    var call, result := CallOf(block, id), UnavailableOf(block, id);
    ResultIsNoUse(result);
    PairTurn(call, result, id, text);
  }

  lemma ResultIsNoUse(result: Json)
    requires Answered(result).Some?
    ensures Rewrite(result) == result && Opened(result).None?
  {
    RewriteSettles(result);
  }

  lemma PairTurn(call: Json, result: Json, id: string, text: Json -> string)
    requires Opened(call) == Some(id) && Answered(result) == Some(id)
    requires Rewrite(result) == result && Opened(result).None?
    ensures BridgeHistory.Turn([call, result], 0, [], text) == [Assistant([Rewrite(call)]), Reply(result, text)]
  {
    hide Opened, Answered, Rewrite, Reply;
    var blocks := [call, result];
    RewriteSettles(call);
    assert OpenIds(blocks, 0) == {};
    assert OpenIds(blocks, 1) == {id};
    assert !Converts(blocks, 0) && Converts(blocks, 1);
    assert BridgeHistory.Turn(blocks, 2, [], text) == [];
    assert BridgeHistory.Turn(blocks, 1, [Rewrite(call)], text)
        == [Assistant([Rewrite(call)])] + [Reply(result, text)] + [];
    assert [] + [Rewrite(call)] == [Rewrite(call)];
  }

  // ----- a round that continues is well paired -----

  // Without client uses, every tool use of the round has its feedback, in order.
  lemma {:induction false} FeedbackCovers(blocks: seq<Json>, n: nat, i: nat)
    requires i < n <= |blocks| && IsUse(blocks[i]) && !AnyClientUse(blocks)
    ensures exists k :: 0 <= k < |Feedback(blocks, n)| && Feedback(blocks, n)[k] == FeedbackOf(blocks[i])
  {
    hide IsUse, IsExecution, FeedbackOf;
    assert IsExecution(blocks[i]);
    if i == n - 1 {
      assert Feedback(blocks, n)[|Feedback(blocks, i)|] == FeedbackOf(blocks[i]);
    } else {
      FeedbackCovers(blocks, n - 1, i);
      var k :| 0 <= k < |Feedback(blocks, n - 1)| && Feedback(blocks, n - 1)[k] == FeedbackOf(blocks[i]);
      assert Feedback(blocks, n)[k] == FeedbackOf(blocks[i]);
    }
  }

  // And every feedback answers a tool use of the round.
  lemma {:induction false} FeedbackAnswers(blocks: seq<Json>, n: nat, k: nat)
    requires n <= |blocks| && k < |Feedback(blocks, n)|
    ensures exists i :: 0 <= i < n && IsExecution(blocks[i]) && Feedback(blocks, n)[k] == FeedbackOf(blocks[i])
  {
    hide IsExecution, FeedbackOf;
    if k < |Feedback(blocks, n - 1)| {
      FeedbackAnswers(blocks, n - 1, k);
    } else {
      assert IsExecution(blocks[n - 1]);
    }
  }
}
