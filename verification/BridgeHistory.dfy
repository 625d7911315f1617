// Rewriting replayed server-tool blocks into tool-use and tool-result messages.
module BridgeHistory {
  import opened JsonValues
  import opened Wrappers

  datatype Message = Message(role: string, content: Json)

  // ----- single blocks -----

  // The internal name of a server tool the bridge knows.
  function InternalName(name: Json): Option<string> {
    if name == Str("bash_code_execution") then Some("__kiro_server_bash_execution")
    else if name == Str("text_editor_code_execution") then Some("__kiro_server_text_editor_execution")
    else if name == Str("web_search") then Some("web_search")
    else None
  }

  predicate IsServerUse(block: Json) {
    Get(block, "type") == Str("server_tool_use") && InternalName(Get(block, "name")).Some?
  }

  // A known server use becomes an ordinary use of the internal tool; other blocks stay.
  function Rewrite(block: Json): Json {
    if IsServerUse(block) then
      Obj(block.fields["type" := Str("tool_use")]["name" := Str(InternalName(Get(block, "name")).value)])
    else block
  }

  function StringOf(j: Json): Option<string> {
    if j.Str? then Some(j.s) else None
  }

  // The id a block opens for a result.
  function Opened(block: Json): Option<string> {
    if IsServerUse(block) then StringOf(Get(block, "id")) else None
  }

  // The id a result block would answer.
  function Answered(block: Json): Option<string> {
    var kind := Get(block, "type");
    if kind == Str("bash_code_execution_tool_result")
       || kind == Str("text_editor_code_execution_tool_result")
       || kind == Str("web_search_tool_result")
    then StringOf(Get(block, "tool_use_id")) else None
  }

  // The id of an ordinary tool use.
  function UseId(block: Json): Option<string> {
    if Get(block, "type") == Str("tool_use") then StringOf(Get(block, "id")) else None
  }

  predicate EndsWith(s: string, suffix: string) {
    |suffix| <= |s| && s[|s| - |suffix|..] == suffix
  }

  predicate IsError(content: Json) {
    var kind, code := Get(content, "type"), Get(content, "return_code");
    (kind.Str? && EndsWith(kind.s, "_tool_result_error")) || (IsI64(code) && code.n != 0)
  }

  // The tool_result block made of a result block; `text` is how a JSON value prints.
  function ResultBlock(block: Json, text: Json -> string): Json {
    Obj(map["type" := Str("tool_result"),
            "tool_use_id" := Get(block, "tool_use_id"),
            "is_error" := Bool(IsError(Get(block, "content"))),
            "content" := Str(text(Get(block, "content")))])
  }

  function ResultId(block: Json): Option<string> {
    if Get(block, "type") == Str("tool_result") then StringOf(Get(block, "tool_use_id")) else None
  }

  // A block after rewriting: nothing to open and nothing left to rewrite.
  predicate Settled(block: Json) {
    Rewrite(block) == block && Opened(block).None?
  }

  lemma RewriteSettles(block: Json)
    ensures Settled(Rewrite(block))
    ensures Answered(Rewrite(block)) == Answered(block)
    ensures Opened(block).Some? ==> UseId(Rewrite(block)) == Opened(block)
    ensures Opened(block).Some? ==> Answered(block).None?
  {
    if IsServerUse(block) {
      assert "type" != "name" && "name" != "id" && "type" != "id";
      assert Get(Rewrite(block), "type") == Str("tool_use");
    }
  }

  lemma ResultBlockId(block: Json, text: Json -> string)
    ensures Answered(block).Some? ==> ResultId(ResultBlock(block, text)) == Answered(block)
    ensures Get(ResultBlock(block, text), "is_error") == Bool(IsError(Get(block, "content")))
  {
  }

  // ----- one assistant turn -----

  predicate IsTurn(m: Message) {
    m.role == "assistant" && m.content.Arr?
  }

  function Assistant(items: seq<Json>): Message {
    Message("assistant", Arr(items))
  }

  function Reply(block: Json, text: Json -> string): Message {
    Message("user", Arr([ResultBlock(block, text)]))
  }

  function Flush(pending: seq<Json>): seq<Message> {
    if pending == [] then [] else [Assistant(pending)]
  }

  function Insert(ids: set<string>, id: Option<string>): set<string> {
    if id.Some? then ids + {id.value} else ids
  }

  function Remove(ids: set<string>, id: Option<string>): set<string> {
    if id.Some? then ids - {id.value} else ids
  }

  // The open ids before block `i`.
  function OpenIds(blocks: seq<Json>, i: nat): set<string>
    requires i <= |blocks|
  {
    if i == 0 then {}
    else Remove(Insert(OpenIds(blocks, i - 1), Opened(blocks[i - 1])), Answered(Rewrite(blocks[i - 1])))
  }

  // Block `i` is a result of a use that is still open.
  predicate Converts(blocks: seq<Json>, i: nat)
    requires i < |blocks|
  {
    var id := Answered(Rewrite(blocks[i]));
    id.Some? && id.value in Insert(OpenIds(blocks, i), Opened(blocks[i]))
  }

  // The messages made of blocks[i..] when `pending` holds the blocks not yet flushed.
  function Turn(blocks: seq<Json>, i: nat, pending: seq<Json>, text: Json -> string): seq<Message>
    requires i <= |blocks|
    decreases |blocks| - i
  {
    if i == |blocks| then Flush(pending)
    else if Converts(blocks, i) then
      Flush(pending) + [Reply(Rewrite(blocks[i]), text)] + Turn(blocks, i + 1, [], text)
    else Turn(blocks, i + 1, pending + [Rewrite(blocks[i])], text)
  }

  function Normalized(messages: seq<Message>, text: Json -> string): seq<Message> {
    if messages == [] then []
    else (if IsTurn(messages[0]) then Turn(messages[0].content.items, 0, [], text) else [messages[0]])
         + Normalized(messages[1..], text)
  }

  method NormalizeTurn(blocks: seq<Json>, messages: seq<Message>, text: Json -> string) returns (r: seq<Message>)
    ensures r == messages + Turn(blocks, 0, [], text)
  {
    hide Rewrite, Opened, Answered, Reply;
    r := messages;
    var pending: seq<Json> := [];
    var ids: set<string> := {};
    for i := 0 to |blocks|
      invariant ids == OpenIds(blocks, i)
      invariant r + Turn(blocks, i, pending, text) == messages + Turn(blocks, 0, [], text)
    {
      ghost var whole := r + Turn(blocks, i, pending, text);
      ids := Insert(ids, Opened(blocks[i]));
      var block := Rewrite(blocks[i]);
      var id := Answered(block);
      if id.Some? && id.value in ids {
        ids := ids - {id.value};
        if pending != [] {
          r, pending := r + [Assistant(pending)], [];
        }
        r := r + [Reply(block, text)];
      } else {
        pending := pending + [block];
      }
      assert r + Turn(blocks, i + 1, pending, text) == whole;
    }
    if pending != [] {
      r := r + [Assistant(pending)];
    }
  }

  // What one message becomes.
  function NormalizedOne(m: Message, text: Json -> string): seq<Message> {
    if IsTurn(m) then Turn(m.content.items, 0, [], text) else [m]
  }

  lemma NormalizedStep(messages: seq<Message>, i: nat, r: seq<Message>, text: Json -> string)
    requires i < |messages|
    ensures r + Normalized(messages[i..], text)
         == r + NormalizedOne(messages[i], text) + Normalized(messages[i + 1..], text)
  {
    hide Turn, IsTurn;
    assert messages[i..][0] == messages[i] && messages[i..][1..] == messages[i + 1..];
  }

  lemma NormalizedEnds(messages: seq<Message>, r: seq<Message>, text: Json -> string)
    ensures [] + Normalized(messages[0..], text) == Normalized(messages, text)
    ensures r + Normalized(messages[|messages|..], text) == r
  {
    hide Turn, IsTurn;
    assert messages[0..] == messages && messages[|messages|..] == [];
  }

  method NormalizeHistory(messages: seq<Message>, text: Json -> string) returns (r: seq<Message>)
    ensures r == Normalized(messages, text)
  {
    hide Turn, Normalized;
    r := [];
    NormalizedEnds(messages, [], text);
    for i := 0 to |messages|
      invariant r + Normalized(messages[i..], text) == Normalized(messages, text)
    {
      NormalizedStep(messages, i, r, text);
      if !IsTurn(messages[i]) {
        r := r + [messages[i]];
      } else {
        r := NormalizeTurn(messages[i].content.items, r, text);
      }
    }
    NormalizedEnds(messages, r, text);
  }

  // ----- the blocks keep their order -----

  // What block `i` becomes.
  function Image(blocks: seq<Json>, i: nat, text: Json -> string): Json
    requires i < |blocks|
  {
    if Converts(blocks, i) then ResultBlock(Rewrite(blocks[i]), text) else Rewrite(blocks[i])
  }

  function Images(blocks: seq<Json>, i: nat, text: Json -> string): (r: seq<Json>)
    requires i <= |blocks|
    ensures |r| == |blocks| - i
    ensures forall k :: 0 <= k < |r| ==> r[k] == Image(blocks, i + k, text)
    decreases |blocks| - i
  {
    if i == |blocks| then [] else [Image(blocks, i, text)] + Images(blocks, i + 1, text)
  }

  function Items(m: Message): seq<Json> {
    if m.content.Arr? then m.content.items else []
  }

  function Flattened(messages: seq<Message>): seq<Json> {
    if messages == [] then [] else Items(messages[0]) + Flattened(messages[1..])
  }

  lemma {:induction false} FlattenConcat(a: seq<Message>, b: seq<Message>)
    ensures Flattened(a + b) == Flattened(a) + Flattened(b)
  {
    if a == [] {
      assert a + b == b;
    } else {
      assert (a + b)[0] == a[0] && (a + b)[1..] == a[1..] + b;
      FlattenConcat(a[1..], b);
    }
  }

  lemma FlattenOne(m: Message)
    ensures Flattened([m]) == Items(m)
  {
    assert Flattened([m][1..]) == [];
  }

  // Flattening a normalized turn gives its blocks in order, each rewritten in place.
  lemma {:induction false} TurnKeepsBlocks(blocks: seq<Json>, i: nat, pending: seq<Json>, text: Json -> string)
    requires i <= |blocks|
    ensures Flattened(Turn(blocks, i, pending, text)) == pending + Images(blocks, i, text)
    decreases |blocks| - i
  {
    hide Converts, Rewrite, ResultBlock;
    FlushFlat(pending);
    if i < |blocks| {
      if Converts(blocks, i) {
        var reply := Reply(Rewrite(blocks[i]), text);
        TurnKeepsBlocks(blocks, i + 1, [], text);
        FlattenConcat(Flush(pending) + [reply], Turn(blocks, i + 1, [], text));
        FlattenConcat(Flush(pending), [reply]);
        FlattenOne(reply);
      } else {
        TurnKeepsBlocks(blocks, i + 1, pending + [Rewrite(blocks[i])], text);
      }
    }
  }

  function ImagesOf(m: Message, text: Json -> string): seq<Json> {
    if IsTurn(m) then Images(m.content.items, 0, text) else Items(m)
  }

  function AllImages(messages: seq<Message>, text: Json -> string): seq<Json> {
    if messages == [] then [] else ImagesOf(messages[0], text) + AllImages(messages[1..], text)
  }

  // Flattening a whole normalized history gives all its blocks in order, each rewritten in place.
  lemma {:induction false} HistoryKeepsBlocks(messages: seq<Message>, text: Json -> string)
    ensures Flattened(Normalized(messages, text)) == AllImages(messages, text)
  {
    hide Turn, Images, Items;
    if messages != [] {
      var m := messages[0];
      HistoryKeepsBlocks(messages[1..], text);
      FlattenConcat(NormalizedOne(m, text), Normalized(messages[1..], text));
      if IsTurn(m) {
        TurnKeepsBlocks(m.content.items, 0, [], text);
        assert [] + Images(m.content.items, 0, text) == Images(m.content.items, 0, text);
      } else {
        FlattenOne(m);
      }
    }
  }

  lemma FlushFlat(pending: seq<Json>)
    ensures Flattened(Flush(pending)) == pending
  {
    if pending != [] {
      FlattenOne(Assistant(pending));
    }
  }

  // ----- which results are converted -----

  // Some earlier block opens `id` and no block in between answers it.
  predicate StillOpen(blocks: seq<Json>, i: nat, id: string)
    requires i <= |blocks|
  {
    exists j :: 0 <= j < i && OpensLast(blocks, j, i, id)
  }

  predicate OpensLast(blocks: seq<Json>, j: nat, i: nat, id: string)
    requires j < i <= |blocks|
  {
    Opened(blocks[j]) == Some(id) && forall k :: j < k < i ==> Answered(blocks[k]) != Some(id)
  }

  lemma {:induction false} OpenIdsMeaning(blocks: seq<Json>, i: nat, id: string)
    requires i <= |blocks|
    ensures id in OpenIds(blocks, i) <==> StillOpen(blocks, i, id)
  {
    hide Opened, Answered, Rewrite;
    if i > 0 {
      var last := blocks[i - 1];
      RewriteSettles(last);
      OpenIdsMeaning(blocks, i - 1, id);
      if Opened(last) == Some(id) {
        assert OpensLast(blocks, i - 1, i, id);
      }
      if id in OpenIds(blocks, i) && Opened(last) != Some(id) {
        var j :| 0 <= j < i - 1 && OpensLast(blocks, j, i - 1, id);
        assert OpensLast(blocks, j, i, id);
      }
      if StillOpen(blocks, i, id) && Opened(last) != Some(id) {
        var j :| 0 <= j < i && OpensLast(blocks, j, i, id);
        assert OpensLast(blocks, j, i - 1, id);
        assert Answered(blocks[i - 1]) != Some(id);
      }
    }
  }

  // A block is converted exactly when it answers an id that an earlier block opened and nothing
  // answered since.
  lemma ConvertsMeaning(blocks: seq<Json>, i: nat)
    requires i < |blocks|
    ensures Converts(blocks, i) <==> Answered(blocks[i]).Some? && StillOpen(blocks, i, Answered(blocks[i]).value)
  {
    hide Opened, Answered, Rewrite, StillOpen;
    RewriteSettles(blocks[i]);
    if Answered(blocks[i]).Some? {
      OpenIdsMeaning(blocks, i, Answered(blocks[i]).value);
    }
  }

  // ----- the same by the fields of the blocks -----

  // A call of a server tool the bridge knows, with this id.
  predicate Calls(block: Json, id: string) {
    && Get(block, "type") == Str("server_tool_use") && Get(block, "id") == Str(id)
    && (|| Get(block, "name") == Str("bash_code_execution")
        || Get(block, "name") == Str("text_editor_code_execution")
        || Get(block, "name") == Str("web_search"))
  }

  // A result of such a tool for this id.
  predicate HoldsResult(block: Json, id: string) {
    && Get(block, "tool_use_id") == Str(id)
    && (|| Get(block, "type") == Str("bash_code_execution_tool_result")
        || Get(block, "type") == Str("text_editor_code_execution_tool_result")
        || Get(block, "type") == Str("web_search_tool_result"))
  }

  // Block `i` is a result for `id`, called before it by block `j` and not answered in between.
  predicate AnswersCall(blocks: seq<Json>, j: nat, i: nat, id: string)
    requires j < i < |blocks|
  {
    HoldsResult(blocks[i], id) && Calls(blocks[j], id) && forall k :: j < k < i ==> !HoldsResult(blocks[k], id)
  }

  lemma CallsIff(block: Json, id: string)
    ensures Opened(block) == Some(id) <==> Calls(block, id)
    ensures Answered(block) == Some(id) <==> HoldsResult(block, id)
  {
  }

  lemma ConvertsIff(blocks: seq<Json>, i: nat)
    requires i < |blocks|
    ensures Converts(blocks, i) <==> exists j, id :: 0 <= j < i && AnswersCall(blocks, j, i, id)
  {
    hide Converts, Opened, Answered, Calls, HoldsResult;
    ConvertsMeaning(blocks, i);
    forall id, k | 0 <= k < |blocks|
      ensures Opened(blocks[k]) == Some(id) <==> Calls(blocks[k], id)
      ensures Answered(blocks[k]) == Some(id) <==> HoldsResult(blocks[k], id)
    {
      CallsIff(blocks[k], id);
    }
    if Converts(blocks, i) {
      var id := Answered(blocks[i]).value;
      var j :| 0 <= j < i && OpensLast(blocks, j, i, id);
      assert AnswersCall(blocks, j, i, id);
    }
    if j, id :| 0 <= j < i && AnswersCall(blocks, j, i, id) {
      assert OpensLast(blocks, j, i, id);
    }
  }

  // The content of a result says that the tool failed.
  ghost predicate SaysFailed(content: Json) {
    var kind, code := Get(content, "type"), Get(content, "return_code");
    || (kind.Str? && exists s :: kind.s == s + "_tool_result_error")
    || (code.Num? && code.n != 0 && -0x8000_0000_0000_0000 <= code.n <= 0x7FFF_FFFF_FFFF_FFFF)
  }

  // A result block in the form of the model's history.
  ghost predicate IsResultOf(after: Json, before: Json, text: Json -> string) {
    && Get(after, "type") == Str("tool_result")
    && Get(after, "tool_use_id") == Get(before, "tool_use_id")
    && Get(after, "content") == Str(text(Get(before, "content")))
    && Get(after, "is_error") == Bool(SaysFailed(Get(before, "content")))
  }

  // A call of a server tool as a use of the internal tool, with its other fields; any other block as
  // it is.
  ghost predicate IsRewritten(after: Json, before: Json) {
    if exists name :: Get(before, "type") == Str("server_tool_use") && InternalNamed(before, name)
    then && Get(after, "type") == Str("tool_use") && InternalNamed(before, Get(after, "name"))
         && after.Obj? && after.fields.Keys == before.fields.Keys
         && forall k :: k in after.fields && k != "type" && k != "name" ==> after.fields[k] == before.fields[k]
    else after == before
  }

  predicate InternalNamed(block: Json, name: Json) {
    || (Get(block, "name") == Str("bash_code_execution") && name == Str("__kiro_server_bash_execution"))
    || (Get(block, "name") == Str("text_editor_code_execution") && name == Str("__kiro_server_text_editor_execution"))
    || (Get(block, "name") == Str("web_search") && name == Str("web_search"))
  }

  lemma SuffixIff(s: string, suffix: string)
    ensures EndsWith(s, suffix) <==> exists head :: s == head + suffix
  {
    if EndsWith(s, suffix) {
      assert s == s[..|s| - |suffix|] + suffix;
    }
  }

  lemma FailedIff(content: Json)
    ensures IsError(content) <==> SaysFailed(content)
  {
    hide EndsWith;
    var kind := Get(content, "type");
    if kind.Str? {
      SuffixIff(kind.s, "_tool_result_error");
    }
  }

  lemma ResultBlockIs(block: Json, text: Json -> string)
    ensures IsResultOf(ResultBlock(block, text), block, text)
  {
    hide IsError, SaysFailed;
    FailedIff(Get(block, "content"));
    assert "type" != "tool_use_id" && "type" != "is_error" && "type" != "content" && "content" != "is_error";
    assert "tool_use_id" != "is_error" && "tool_use_id" != "content";
  }

  lemma RewriteIs(block: Json)
    ensures IsRewritten(Rewrite(block), block)
  {
    hide IsServerUse, InternalNamed;
    ServerUseIff(block);
    if IsServerUse(block) {
      RewriteNames(block);
    }
  }

  lemma ServerUseIff(block: Json)
    ensures IsServerUse(block)
        <==> exists name :: Get(block, "type") == Str("server_tool_use") && InternalNamed(block, name)
  {
    if IsServerUse(block) {
      assert InternalNamed(block, Str(InternalName(Get(block, "name")).value));
    }
  }

  lemma RewriteNames(block: Json)
    requires IsServerUse(block)
    ensures Get(Rewrite(block), "type") == Str("tool_use") && InternalNamed(block, Get(Rewrite(block), "name"))
  {
    assert "type" != "name";
  }

  // What each block of a turn becomes: a result where it answers an open call, otherwise itself
  // with the internal name. TurnKeepsBlocks and HistoryKeepsBlocks say that nothing else does.
  lemma ImageMeans(blocks: seq<Json>, i: nat, text: Json -> string)
    requires i < |blocks|
    ensures if exists j, id :: 0 <= j < i && AnswersCall(blocks, j, i, id)
            then IsResultOf(Image(blocks, i, text), blocks[i], text)
            else IsRewritten(Image(blocks, i, text), blocks[i])
  {
    hide AnswersCall, IsResultOf, IsRewritten, Rewrite, ResultBlock, Converts;
    ConvertsIff(blocks, i);
    ResultBlockIs(blocks[i], text);
    RewriteIs(blocks[i]);
    if Converts(blocks, i) {
      ConvertedStays(blocks, i);
    }
  }

  lemma ConvertedStays(blocks: seq<Json>, i: nat)
    requires i < |blocks| && Converts(blocks, i)
    ensures Rewrite(blocks[i]) == blocks[i]
  {
    RewriteSettles(blocks[i]);
    if IsServerUse(blocks[i]) {
      AnsweredIsNoUse(blocks[i]);
    }
  }

  lemma AnsweredIsNoUse(block: Json)
    requires IsServerUse(block)
    ensures Answered(block).None?
  {
    assert |"server_tool_use"| == 15 && |"web_search_tool_result"| == 22;
  }

  // ----- each result is a message of its own -----

  // A user message that holds the result and nothing else.
  ghost predicate IsResultMessage(m: Message, block: Json, text: Json -> string) {
    m.role == "user" && m.content.Arr? && |m.content.items| == 1 && IsResultOf(m.content.items[0], block, text)
  }

  lemma {:induction false} TurnSendsResult(blocks: seq<Json>, n: nat, i: nat, pending: seq<Json>, text: Json -> string)
    returns (k: nat)
    requires n <= i < |blocks| && exists j, id :: 0 <= j < i && AnswersCall(blocks, j, i, id)
    ensures k < |Turn(blocks, n, pending, text)| && IsResultMessage(Turn(blocks, n, pending, text)[k], blocks[i], text)
    decreases |blocks| - n
  {
    hide AnswersCall, IsResultOf, Converts, Rewrite, ResultBlock, Flush;
    ConvertsIff(blocks, i);
    if n == i {
      ConvertedStays(blocks, i);
      ResultBlockIs(blocks[i], text);
      k := |Flush(pending)|;
    } else if Converts(blocks, n) {
      var l := TurnSendsResult(blocks, n + 1, i, [], text);
      k := |Flush(pending)| + 1 + l;
    } else {
      k := TurnSendsResult(blocks, n + 1, i, pending + [Rewrite(blocks[n])], text);
    }
  }

  // Every block of a history that answers an open call of its turn is sent as such a message.
  lemma {:induction false} HistorySendsResult(messages: seq<Message>, n: nat, i: nat, text: Json -> string)
    returns (k: nat)
    requires n < |messages| && messages[n].role == "assistant" && messages[n].content.Arr?
    requires i < |messages[n].content.items|
    requires exists j, id :: 0 <= j < i && AnswersCall(messages[n].content.items, j, i, id)
    ensures k < |Normalized(messages, text)|
    ensures IsResultMessage(Normalized(messages, text)[k], messages[n].content.items[i], text)
  {
    hide Turn, AnswersCall, IsResultMessage;
    var first := NormalizedOne(messages[0], text);
    if n == 0 {
      k := TurnSendsResult(messages[0].content.items, 0, i, [], text);
    } else {
      var l := HistorySendsResult(messages[1..], n - 1, i, text);
      k := |first| + l;
    }
  }

  // ----- results never outnumber uses -----

  function Uses(blocks: seq<Json>, i: nat, id: string): nat
    requires i <= |blocks|
  {
    if i == 0 then 0 else Uses(blocks, i - 1, id) + (if Opened(blocks[i - 1]) == Some(id) then 1 else 0)
  }

  function Results(blocks: seq<Json>, i: nat, id: string): nat
    requires i <= |blocks|
  {
    if i == 0 then 0
    else Results(blocks, i - 1, id)
         + (if Converts(blocks, i - 1) && Answered(blocks[i - 1]) == Some(id) then 1 else 0)
  }

  lemma {:induction false} NoMoreResultsThanUses(blocks: seq<Json>, i: nat, id: string)
    requires i <= |blocks|
    ensures Results(blocks, i, id) + (if id in OpenIds(blocks, i) then 1 else 0) <= Uses(blocks, i, id)
  {
    hide Opened, Answered, Rewrite;
    if i > 0 {
      RewriteSettles(blocks[i - 1]);
      NoMoreResultsThanUses(blocks, i - 1, id);
    }
  }

  // ----- every reply names a use in an earlier assistant message -----

  predicate HasUse(m: Message, id: string) {
    m.role == "assistant" && exists k :: 0 <= k < |Items(m)| && UseId(Items(m)[k]) == Some(id)
  }

  predicate IsReplyTo(m: Message, id: string) {
    m.role == "user" && |Items(m)| == 1 && ResultId(Items(m)[0]) == Some(id)
  }

  predicate UsedBefore(out: seq<Message>, n: nat, id: string)
    requires n <= |out|
  {
    exists l :: 0 <= l < n && HasUse(out[l], id)
  }

  // Message `n` of a normalized turn is an assistant message or a reply to a use before it.
  ghost predicate Paired(out: seq<Message>, n: nat)
    requires n < |out|
  {
    || (out[n].role == "assistant" && Items(out[n]) != [])
    || (exists id :: IsReplyTo(out[n], id) && UsedBefore(out, n, id))
  }

  ghost predicate AllPaired(out: seq<Message>) {
    forall n :: 0 <= n < |out| ==> Paired(out, n)
  }

  // Each open id has a use among the messages written so far or the pending blocks.
  predicate Covered(ids: set<string>, out: seq<Message>, pending: seq<Json>) {
    forall id :: id in ids ==> UsedBefore(out, |out|, id) || HasUse(Assistant(pending), id)
  }

  lemma UsedLater(out: seq<Message>, more: seq<Message>, n: nat, id: string)
    requires n <= |out| && UsedBefore(out, n, id)
    ensures forall k :: n <= k <= |out + more| ==> UsedBefore(out + more, k, id)
  {
    hide HasUse;
    var l :| 0 <= l < n && HasUse(out[l], id);
    assert (out + more)[l] == out[l];
  }

  lemma PairedPush(out: seq<Message>, m: Message)
    requires AllPaired(out) && Paired(out + [m], |out|)
    ensures AllPaired(out + [m])
  {
    hide HasUse, IsReplyTo, UsedBefore, Items;
    forall n | 0 <= n < |out + [m]| ensures Paired(out + [m], n) {
      if n < |out| {
        assert (out + [m])[n] == out[n];
        assert Paired(out, n);
        if !(out[n].role == "assistant" && Items(out[n]) != []) {
          var id :| IsReplyTo(out[n], id) && UsedBefore(out, n, id);
          UsedLater(out, [m], n, id);
        }
      }
    }
  }

  lemma FlushPaired(ids: set<string>, out: seq<Message>, pending: seq<Json>)
    requires AllPaired(out) && Covered(ids, out, pending)
    ensures AllPaired(out + Flush(pending)) && Covered(ids, out + Flush(pending), [])
  {
    var next := out + Flush(pending);
    if pending == [] {
      assert next == out;
    } else {
      PairedPush(out, Assistant(pending));
      assert next[|out|] == Assistant(pending);
      forall id | id in ids ensures UsedBefore(next, |next|, id) {
        if UsedBefore(out, |out|, id) {
          UsedLater(out, [Assistant(pending)], |out|, id);
        }
      }
    }
  }

  lemma ReplyPaired(out: seq<Message>, block: Json, text: Json -> string, id: string)
    requires AllPaired(out) && UsedBefore(out, |out|, id) && Answered(block) == Some(id)
    ensures AllPaired(out + [Reply(block, text)])
  {
    hide UsedBefore, ResultBlock, Answered, ResultId;
    var m := Reply(block, text);
    ResultBlockId(block, text);
    assert Items(m) == [ResultBlock(block, text)];
    assert IsReplyTo(m, id);
    UsedLater(out, [m], |out|, id);
    PairedPush(out, m);
  }

  lemma CoveredAfterReply(ids: set<string>, out: seq<Message>, m: Message)
    requires Covered(ids, out, [])
    ensures Covered(ids, out + [m], [])
  {
    hide HasUse, UsedBefore;
    forall id | id in ids ensures UsedBefore(out + [m], |out + [m]|, id) {
      NothingPending(id);
      UsedLater(out, [m], |out|, id);
    }
  }

  lemma NothingPending(id: string)
    ensures !HasUse(Assistant([]), id)
  {
  }

  lemma CoveredAfterPush(ids: set<string>, out: seq<Message>, pending: seq<Json>, block: Json)
    requires Covered(ids, out, pending)
    ensures Covered(Insert(ids, Opened(block)), out, pending + [Rewrite(block)])
  {
    hide Opened, Rewrite, UseId;
    RewriteSettles(block);
    var more := pending + [Rewrite(block)];
    forall id | id in Insert(ids, Opened(block))
      ensures UsedBefore(out, |out|, id) || HasUse(Assistant(more), id)
    {
      if Opened(block) == Some(id) {
        assert Items(Assistant(more))[|pending|] == Rewrite(block);
      } else if !UsedBefore(out, |out|, id) {
        assert HasUse(Assistant(pending), id);
        var k :| 0 <= k < |Items(Assistant(pending))| && UseId(Items(Assistant(pending))[k]) == Some(id);
        assert Items(Assistant(more))[k] == pending[k];
      }
    }
  }

  lemma {:induction false} TurnPaired(blocks: seq<Json>, i: nat, pending: seq<Json>, out: seq<Message>,
                                      text: Json -> string)
    requires i <= |blocks| && AllPaired(out) && Covered(OpenIds(blocks, i), out, pending)
    ensures AllPaired(out + Turn(blocks, i, pending, text))
    decreases |blocks| - i
  {
    hide AllPaired, Covered, Rewrite, Opened, Answered, Reply;
    var ids := OpenIds(blocks, i);
    if i == |blocks| {
      FlushPaired(ids, out, pending);
    } else if Converts(blocks, i) {
      RewriteSettles(blocks[i]);
      var block := Rewrite(blocks[i]);
      var id := Answered(block).value;
      FlushPaired(ids, out, pending);
      var flushed := out + Flush(pending);
      CoveredUse(ids, flushed, id);
      ReplyPaired(flushed, block, text, id);
      CoveredAfterReply(ids, flushed, Reply(block, text));
      CoveredLess(ids, OpenIds(blocks, i + 1), flushed + [Reply(block, text)], []);
      TurnPaired(blocks, i + 1, [], flushed + [Reply(block, text)], text);
      assert flushed + [Reply(block, text)] + Turn(blocks, i + 1, [], text)
          == out + (Flush(pending) + [Reply(block, text)] + Turn(blocks, i + 1, [], text));
    } else {
      CoveredAfterPush(ids, out, pending, blocks[i]);
      CoveredLess(Insert(ids, Opened(blocks[i])), OpenIds(blocks, i + 1), out, pending + [Rewrite(blocks[i])]);
      TurnPaired(blocks, i + 1, pending + [Rewrite(blocks[i])], out, text);
    }
  }

  lemma CoveredUse(ids: set<string>, out: seq<Message>, id: string)
    requires Covered(ids, out, []) && id in ids
    ensures UsedBefore(out, |out|, id)
  {
    NothingPending(id);
  }

  lemma CoveredLess(ids: set<string>, fewer: set<string>, out: seq<Message>, pending: seq<Json>)
    requires Covered(ids, out, pending) && fewer <= ids
    ensures Covered(fewer, out, pending)
  {
  }

  lemma RepliesFollowUses(blocks: seq<Json>, text: Json -> string)
    ensures AllPaired(Turn(blocks, 0, [], text))
  {
    TurnPaired(blocks, 0, [], [], text);
    assert [] + Turn(blocks, 0, [], text) == Turn(blocks, 0, [], text);
  }

  // ----- whole histories -----

  lemma {:induction false} NormalizedConcat(a: seq<Message>, b: seq<Message>, text: Json -> string)
    ensures Normalized(a + b, text) == Normalized(a, text) + Normalized(b, text)
  {
    hide Turn;
    if a == [] {
      assert a + b == b;
    } else {
      assert (a + b)[0] == a[0] && (a + b)[1..] == a[1..] + b;
      NormalizedConcat(a[1..], b, text);
    }
  }

  // Each message is rewritten on its own; one that is not an assistant turn stays as it is.
  lemma OtherMessagesUntouched(a: seq<Message>, m: Message, b: seq<Message>, text: Json -> string)
    requires m.role != "assistant" || !m.content.Arr?
    ensures Normalized(a + [m] + b, text) == Normalized(a, text) + [m] + Normalized(b, text)
  {
    hide Turn;
    NormalizedConcat(a + [m], b, text);
    NormalizedConcat(a, [m], text);
    assert [m][1..] == [];
    assert Normalized([m], text) == [m] + Normalized([], text);
  }

  // A message that normalizing leaves alone.
  predicate Normal(m: Message) {
    IsTurn(m) ==> m.content.items != [] && forall i :: 0 <= i < |m.content.items| ==> Settled(m.content.items[i])
  }

  predicate AllNormal(out: seq<Message>) {
    forall n :: 0 <= n < |out| ==> Normal(out[n])
  }

  lemma NormalConcat(a: seq<Message>, b: seq<Message>)
    requires AllNormal(a) && AllNormal(b)
    ensures AllNormal(a + b)
  {
    hide Normal;
  }

  lemma {:induction false} TurnIsNormal(blocks: seq<Json>, i: nat, pending: seq<Json>, text: Json -> string)
    requires i <= |blocks| && forall k :: 0 <= k < |pending| ==> Settled(pending[k])
    ensures AllNormal(Turn(blocks, i, pending, text))
    decreases |blocks| - i
  {
    hide Rewrite, Settled, Converts, AllNormal;
    FlushNormal(pending);
    if i < |blocks| {
      RewriteSettles(blocks[i]);
      if Converts(blocks, i) {
        ReplyNormal(Rewrite(blocks[i]), text);
        TurnIsNormal(blocks, i + 1, [], text);
        NormalConcat(Flush(pending), [Reply(Rewrite(blocks[i]), text)]);
        NormalConcat(Flush(pending) + [Reply(Rewrite(blocks[i]), text)], Turn(blocks, i + 1, [], text));
      } else {
        TurnIsNormal(blocks, i + 1, pending + [Rewrite(blocks[i])], text);
      }
    }
  }

  lemma FlushNormal(pending: seq<Json>)
    requires forall k :: 0 <= k < |pending| ==> Settled(pending[k])
    ensures AllNormal(Flush(pending))
  {
    hide Settled;
  }

  lemma ReplyNormal(block: Json, text: Json -> string)
    ensures AllNormal([Reply(block, text)])
  {
  }

  lemma {:induction false} NormalizedIsNormal(messages: seq<Message>, text: Json -> string)
    ensures AllNormal(Normalized(messages, text))
  {
    hide Turn, Settled;
    if messages != [] {
      var m := messages[0];
      NormalizedIsNormal(messages[1..], text);
      if IsTurn(m) {
        TurnIsNormal(m.content.items, 0, [], text);
        NormalConcat(Turn(m.content.items, 0, [], text), Normalized(messages[1..], text));
      } else {
        NormalConcat([m], Normalized(messages[1..], text));
      }
    }
  }

  lemma {:induction false} NothingOpens(blocks: seq<Json>, i: nat)
    requires i <= |blocks| && forall k :: 0 <= k < |blocks| ==> Settled(blocks[k])
    ensures OpenIds(blocks, i) == {}
  {
    hide Opened, Answered, Rewrite;
    if i > 0 {
      NothingOpens(blocks, i - 1);
      assert Settled(blocks[i - 1]);
    }
  }

  lemma {:induction false} SettledTurn(blocks: seq<Json>, i: nat, text: Json -> string)
    requires i <= |blocks| && forall k :: 0 <= k < |blocks| ==> Settled(blocks[k])
    ensures Turn(blocks, i, blocks[..i], text) == Flush(blocks)
    decreases |blocks| - i
  {
    hide Opened, Answered, Rewrite;
    if i == |blocks| {
      assert blocks[..i] == blocks;
    } else {
      NothingOpens(blocks, i);
      assert Settled(blocks[i]);
      assert blocks[..i] + [blocks[i]] == blocks[..i + 1];
      SettledTurn(blocks, i + 1, text);
    }
  }

  lemma {:induction false} NormalIsFixed(messages: seq<Message>, text: Json -> string)
    requires AllNormal(messages)
    ensures Normalized(messages, text) == messages
  {
    hide Turn, Settled;
    if messages != [] {
      var m := messages[0];
      assert Normal(m);
      forall n | 0 <= n < |messages[1..]| ensures Normal(messages[1..][n]) {
        assert Normal(messages[n + 1]);
      }
      NormalIsFixed(messages[1..], text);
      if IsTurn(m) {
        assert m.content.items[..0] == [];
        SettledTurn(m.content.items, 0, text);
        assert Flush(m.content.items) == [m];
      }
      assert messages == [m] + messages[1..];
    }
  }

  // Applying it twice equals applying it once.
  lemma NormalizeIdempotent(messages: seq<Message>, text: Json -> string)
    ensures Normalized(Normalized(messages, text), text) == Normalized(messages, text)
  {
    NormalizedIsNormal(messages, text);
    NormalIsFixed(Normalized(messages, text), text);
  }
}
