// Replacing document blocks by their text, under one budget for the whole request.
module Documents {
  import opened JsonValues
  import opened BridgeHistory
  import opened Wrappers
  import Snippet

  function MaxTextBytes(): nat { 2 * 1024 * 1024 }

  function TooMuch(): string { "Extracted documents exceed the 2 MiB text limit" }

  predicate IsDocument(j: Json) {
    j.Obj? && Get(j, "type") == Str("document")
  }

  function Size(text: string): nat {
    |Snippet.Encode(text)|
  }

  // The text block that replaces a document.
  function TextBlock(block: Json, text: string): Json {
    if block.Obj? && "cache_control" in block.fields
    then Obj(map["type" := Str("text"), "text" := Str(text), "cache_control" := block.fields["cache_control"]])
    else Obj(map["type" := Str("text"), "text" := Str(text)])
  }

  predicate ContainsDocument(j: Json) {
    match j
    case Arr(items) => exists i :: 0 <= i < |items| && ContainsDocument(items[i])
    case Obj(fields) => IsDocument(j) || ("content" in fields && ContainsDocument(fields["content"]))
    case _ => false
  }

  // Extracting the text of a document, or the reason it cannot be.
  type Extractor = Json -> Result<string, string>

  // The new value and the running total, or an error.
  function Convert(j: Json, total: nat, text: Extractor): Result<(Json, nat), string>
    decreases j, 1
  {
    if j.Arr? then
      var r := ConvertItems(j, 0, total, text);
      if r.Err? then Err(r.error) else Ok((Arr(r.value.0), r.value.1))
    else if IsDocument(j) then
      var t := text(j);
      if t.Err? then Err(t.error)
      else if total + Size(t.value) > MaxTextBytes() then Err(TooMuch())
      else Ok((TextBlock(j, t.value), total + Size(t.value)))
    else if j.Obj? && "content" in j.fields then
      var r := Convert(j.fields["content"], total, text);
      if r.Err? then Err(r.error) else Ok((Obj(j.fields["content" := r.value.0]), r.value.1))
    else Ok((j, total))
  }

  function ConvertItems(j: Json, i: nat, total: nat, text: Extractor): Result<(seq<Json>, nat), string>
    requires j.Arr? && i <= |j.items|
    decreases j, 0, |j.items| - i
  {
    if i == |j.items| then Ok(([], total))
    else
      var first := Convert(j.items[i], total, text);
      if first.Err? then Err(first.error)
      else
        var rest := ConvertItems(j, i + 1, first.value.1, text);
        if rest.Err? then Err(rest.error) else Ok(([first.value.0] + rest.value.0, rest.value.1))
  }

  // The recursion over a value, with its loop over array items.
  method ConvertBlocks(j: Json, total: nat, text: Extractor) returns (r: Result<(Json, nat), string>)
    ensures r == Convert(j, total, text)
    decreases j
  {
    hide IsDocument, TextBlock, TooMuch, MaxTextBytes, Size;
    if j.Arr? {
      var done: seq<Json>, sum := [], total;
      NothingDone(j, total, text);
      for i := 0 to |j.items|
        invariant |done| == i
        invariant ConvertItems(j, 0, total, text) == Prepend(done, ConvertItems(j, i, sum, text))
      {
        var item := ConvertBlocks(j.items[i], sum, text);
        if item.Err? {
          return Err(item.error);
        }
        PrependMore(done, item.value.0, ConvertItems(j, i + 1, item.value.1, text));
        done, sum := done + [item.value.0], item.value.1;
      }
      assert done + [] == done;
      r := Ok((Arr(done), sum));
    } else if IsDocument(j) {
      var t := text(j);
      if t.Err? {
        return Err(t.error);
      }
      if total + Size(t.value) > MaxTextBytes() {
        return Err(TooMuch());
      }
      r := Ok((TextBlock(j, t.value), total + Size(t.value)));
    } else if j.Obj? && "content" in j.fields {
      var inner := ConvertBlocks(j.fields["content"], total, text);
      if inner.Err? {
        return Err(inner.error);
      }
      r := Ok((Obj(j.fields["content" := inner.value.0]), inner.value.1));
    } else {
      r := Ok((j, total));
    }
  }

  function Prepend(done: seq<Json>, r: Result<(seq<Json>, nat), string>): Result<(seq<Json>, nat), string> {
    if r.Err? then r else Ok((done + r.value.0, r.value.1))
  }

  lemma PrependMore(done: seq<Json>, x: Json, r: Result<(seq<Json>, nat), string>)
    ensures Prepend(done, Prepend([x], r)) == Prepend(done + [x], r)
  {
    if r.Ok? {
      assert done + ([x] + r.value.0) == done + [x] + r.value.0;
    }
  }

  // ----- what a conversion does, without saying how -----

  // A text block with that text, and with the document's cache marker if it has one.
  predicate IsTextOf(before: Json, after: Json, t: string) {
    && before.Obj? && after.Obj? && Get(after, "type") == Str("text") && Get(after, "text") == Str(t)
    && after.fields.Keys == {"type", "text"} + (if "cache_control" in before.fields then {"cache_control"} else {})
    && Get(after, "cache_control") == Get(before, "cache_control")
  }

  lemma TextBlockIs(block: Json, t: string)
    requires block.Obj?
    ensures IsTextOf(block, TextBlock(block, t), t)
  {
    assert |"type"| == 4 && |"text"| == 4 && |"cache_control"| == 13;
    assert "type" != "text";
  }

  // `after` is `before` with every document replaced by its text block, and nothing else changed.
  predicate OnlyDocumentsReplaced(before: Json, after: Json, text: Extractor) {
    if before.Arr? then
      after.Arr? && |after.items| == |before.items|
      && forall i :: 0 <= i < |before.items| ==> OnlyDocumentsReplaced(before.items[i], after.items[i], text)
    else if Get(before, "type") == Str("document") then
      text(before).Ok? && IsTextOf(before, after, text(before).value)
    else if before.Obj? && "content" in before.fields then
      after.Obj? && "content" in after.fields
      && after == Obj(before.fields["content" := after.fields["content"]])
      && OnlyDocumentsReplaced(before.fields["content"], after.fields["content"], text)
    else after == before
  }

  // The bytes of text all its documents yield.
  function TextBytes(j: Json, text: Extractor): nat
    decreases j, 1
  {
    if j.Arr? then ItemsTextBytes(j, 0, text)
    else if IsDocument(j) then (if text(j).Ok? then |Snippet.Encode(text(j).value)| else 0)
    else if j.Obj? && "content" in j.fields then TextBytes(j.fields["content"], text)
    else 0
  }

  function ItemsTextBytes(j: Json, i: nat, text: Extractor): nat
    requires j.Arr? && i <= |j.items|
    decreases j, 0, |j.items| - i
  {
    if i == |j.items| then 0 else TextBytes(j.items[i], text) + ItemsTextBytes(j, i + 1, text)
  }

  // Every document's text can be extracted.
  predicate Readable(j: Json, text: Extractor) {
    if j.Arr? then forall i :: 0 <= i < |j.items| ==> Readable(j.items[i], text)
    else if IsDocument(j) then text(j).Ok?
    else if j.Obj? && "content" in j.fields then Readable(j.fields["content"], text)
    else true
  }

  // A conversion succeeds exactly when every document is readable and the total stays in budget; the
  // total then grows by the sum of the text sizes.
  lemma {:induction false} ConvertSucceedsIff(j: Json, total: nat, text: Extractor)
    requires total <= 2_097_152
    ensures Convert(j, total, text).Ok? <==> Readable(j, text) && total + TextBytes(j, text) <= 2_097_152
    ensures Convert(j, total, text).Ok? ==> Convert(j, total, text).value.1 == total + TextBytes(j, text)
    decreases j, 1
  {
    hide IsDocument, TextBlock, TooMuch, Snippet.Encode;
    if j.Arr? {
      ItemsSucceedIff(j, 0, total, text);
    } else if IsDocument(j) {
    } else if j.Obj? && "content" in j.fields {
      ConvertSucceedsIff(j.fields["content"], total, text);
    }
  }

  lemma {:induction false} ItemsSucceedIff(j: Json, i: nat, total: nat, text: Extractor)
    requires j.Arr? && i <= |j.items| && total <= 2_097_152
    ensures ConvertItems(j, i, total, text).Ok?
        <==> (forall k :: i <= k < |j.items| ==> Readable(j.items[k], text))
             && total + ItemsTextBytes(j, i, text) <= 2_097_152
    ensures ConvertItems(j, i, total, text).Ok? ==>
      ConvertItems(j, i, total, text).value.1 == total + ItemsTextBytes(j, i, text)
    decreases j, 0, |j.items| - i
  {
    hide MaxTextBytes, Convert, Readable, TextBytes;
    if i < |j.items| {
      ConvertSucceedsIff(j.items[i], total, text);
      var first := Convert(j.items[i], total, text);
      if first.Ok? {
        ItemsSucceedIff(j, i + 1, first.value.1, text);
      }
    }
  }

  // Only documents change.
  lemma {:induction false} ConvertReplaces(j: Json, total: nat, text: Extractor)
    requires Convert(j, total, text).Ok?
    ensures OnlyDocumentsReplaced(j, Convert(j, total, text).value.0, text)
    decreases j, 1
  {
    hide MaxTextBytes, TextBlock, Size, TooMuch, IsTextOf;
    if j.Arr? {
      ItemsReplace(j, 0, total, text);
    } else if IsDocument(j) {
      TextBlockIs(j, text(j).value);
    } else if j.Obj? && "content" in j.fields {
      ConvertReplaces(j.fields["content"], total, text);
    }
  }

  lemma {:induction false} ItemsReplace(j: Json, i: nat, total: nat, text: Extractor)
    requires j.Arr? && i <= |j.items| && ConvertItems(j, i, total, text).Ok?
    ensures var r := ConvertItems(j, i, total, text).value.0;
            |r| == |j.items| - i
            && forall k :: 0 <= k < |r| ==> OnlyDocumentsReplaced(j.items[i + k], r[k], text)
    decreases j, 0, |j.items| - i
  {
    hide OnlyDocumentsReplaced, Convert;
    if i < |j.items| {
      ConvertReplaces(j.items[i], total, text);
      ItemsReplace(j, i + 1, Convert(j.items[i], total, text).value.1, text);
    }
  }

  // Afterwards no document is left anywhere the search looks.
  lemma {:induction false} NoneLeft(before: Json, after: Json, text: Extractor)
    requires OnlyDocumentsReplaced(before, after, text)
    ensures !ContainsDocument(after)
    decreases before
  {
    hide MaxTextBytes, Size;
    if before.Arr? {
      forall i | 0 <= i < |after.items| ensures !ContainsDocument(after.items[i]) {
        NoneLeft(before.items[i], after.items[i], text);
      }
    } else if IsDocument(before) {
      TextIsNone(before, after, text(before).value);
    } else if before.Obj? && "content" in before.fields {
      NoneLeft(before.fields["content"], after.fields["content"], text);
      NotDocument(before, after.fields["content"]);
    }
  }

  lemma TextIsNone(before: Json, after: Json, t: string)
    requires IsTextOf(before, after, t)
    ensures !ContainsDocument(after)
  {
    assert |"type"| == 4 && |"text"| == 4 && |"cache_control"| == 13 && |"content"| == 7;
    assert "content" !in after.fields;
    assert |"document"| == 8;
  }

  lemma NotDocument(before: Json, content: Json)
    requires before.Obj? && !IsDocument(before)
    ensures !IsDocument(Obj(before.fields["content" := content]))
  {
    assert |"type"| == 4 && |"content"| == 7;
  }

  // Without documents nothing changes, whatever the total.
  lemma {:induction false} DocumentFreeFixed(j: Json, total: nat, text: Extractor)
    requires !ContainsDocument(j)
    ensures Convert(j, total, text) == Ok((j, total))
    decreases j, 1
  {
    hide MaxTextBytes, TextBlock, Size, TooMuch;
    if j.Arr? {
      ItemsFixed(j, 0, total, text);
      assert j.items[0..] == j.items;
    } else if j.Obj? && "content" in j.fields {
      DocumentFreeFixed(j.fields["content"], total, text);
      assert j.fields["content" := j.fields["content"]] == j.fields;
    }
  }

  lemma {:induction false} ItemsFixed(j: Json, i: nat, total: nat, text: Extractor)
    requires j.Arr? && i <= |j.items| && !ContainsDocument(j)
    ensures ConvertItems(j, i, total, text) == Ok((j.items[i..], total))
    decreases j, 0, |j.items| - i
  {
    hide Convert;
    if i < |j.items| {
      DocumentFreeFixed(j.items[i], total, text);
      ItemsFixed(j, i + 1, total, text);
      assert j.items[i..] == [j.items[i]] + j.items[i + 1..];
    } else {
      assert j.items[i..] == [];
    }
  }

  // ----- a request -----

  // All the messages' contents as one array: the total runs across messages.
  function Contents(messages: seq<Message>): (r: seq<Json>)
    ensures |r| == |messages|
    ensures forall i :: 0 <= i < |r| ==> r[i] == messages[i].content
  {
    if messages == [] then [] else [messages[0].content] + Contents(messages[1..])
  }

  predicate AnyDocument(messages: seq<Message>) {
    exists i :: 0 <= i < |messages| && ContainsDocument(messages[i].content)
  }

  function TotalBytes(messages: seq<Message>, text: Extractor): nat {
    TextBytes(Arr(Contents(messages)), text)
  }

  predicate AllReadable(messages: seq<Message>, text: Extractor) {
    forall i :: 0 <= i < |messages| ==> Readable(messages[i].content, text)
  }

  // Message by message: the same role, and only documents replaced.
  predicate Prepared(before: seq<Message>, after: seq<Message>, text: Extractor) {
    |after| == |before| && forall i :: 0 <= i < |before| ==>
      after[i].role == before[i].role && OnlyDocumentsReplaced(before[i].content, after[i].content, text)
  }

  class Request {
    var messages: seq<Message>

    constructor (messages: seq<Message>)
      ensures this.messages == messages
    {
      this.messages := messages;
    }

    // Works on a copy and keeps it only when every message converts.
    method Prepare(text: Extractor) returns (r: Result<(), string>)
      modifies this
      ensures r.Ok? <==> !AnyDocument(old(messages))
                         || (AllReadable(old(messages), text) && TotalBytes(old(messages), text) <= 2_097_152)
      ensures r.Err? ==> messages == old(messages)
      ensures r.Ok? ==> !AnyDocument(messages)
      ensures r.Ok? && !AnyDocument(old(messages)) ==> messages == old(messages)
      ensures r.Ok? && AnyDocument(old(messages)) ==> Prepared(old(messages), messages, text)
    {
      hide *;
      var any := FindDocument(messages);
      if !any {
        return Ok(());
      }
      var converted := ConvertMessages(messages, text);
      if converted.Err? {
        return Err(converted.error);
      }
      messages := converted.value;
      r := Ok(());
    }
  }

  // The loop over messages with one running total.
  method ConvertMessages(messages: seq<Message>, text: Extractor) returns (r: Result<seq<Message>, string>)
    ensures r.Ok? <==> AllReadable(messages, text) && TotalBytes(messages, text) <= 2_097_152
    ensures r.Ok? ==> Prepared(messages, r.value, text) && !AnyDocument(r.value)
  {
    hide *;
    ghost var all := Arr(Contents(messages));
    AllSucceedIff(messages, text);
    NothingDone(all, 0, text);
    var copy, total: nat := messages, 0;
    ghost var done: seq<Json> := [];
    for i := 0 to |messages|
      invariant |copy| == |messages| && |done| == i
      invariant ConvertItems(all, 0, 0, text) == Prepend(done, ConvertItems(all, i, total, text))
      invariant forall k :: 0 <= k < i ==> copy[k] == Message(messages[k].role, done[k])
      invariant forall k :: i <= k < |copy| ==> copy[k] == messages[k]
    {
      var item := ConvertBlocks(copy[i].content, total, text);
      ItemsUnfold(all, i, total, text);
      if item.Err? {
        PrependError(done, ConvertItems(all, i, total, text));
        return Err(item.error);
      }
      PrependMore(done, item.value.0, ConvertItems(all, i + 1, item.value.1, text));
      copy := copy[i := Message(copy[i].role, item.value.0)];
      done := done + [item.value.0];
      total := item.value.1;
    }
    ItemsEnd(all, total, text);
    PrependNothing(done, total);
    ItemsReplace(all, 0, 0, text);
    AllReplaced(messages, copy, done, text);
    r := Ok(copy);
  }

  lemma AllSucceedIff(messages: seq<Message>, text: Extractor)
    ensures ConvertItems(Arr(Contents(messages)), 0, 0, text).Ok?
        <==> AllReadable(messages, text) && TotalBytes(messages, text) <= 2_097_152
  {
    hide ConvertItems, Readable;
    ItemsSucceedIff(Arr(Contents(messages)), 0, 0, text);
  }

  lemma PrependError(done: seq<Json>, r: Result<(seq<Json>, nat), string>)
    requires r.Err?
    ensures Prepend(done, r).Err?
  {
  }

  lemma PrependNothing(done: seq<Json>, total: nat)
    ensures Prepend(done, Ok(([], total))) == Ok((done, total))
  {
    assert done + [] == done;
  }

  lemma NothingDone(all: Json, total: nat, text: Extractor)
    requires all.Arr?
    ensures ConvertItems(all, 0, total, text) == Prepend([], ConvertItems(all, 0, total, text))
  {
    hide ConvertItems;
    var r := ConvertItems(all, 0, total, text);
    if r.Ok? {
      assert [] + r.value.0 == r.value.0;
    }
  }

  lemma ItemsUnfold(all: Json, i: nat, total: nat, text: Extractor)
    requires all.Arr? && i < |all.items|
    ensures var first := Convert(all.items[i], total, text);
            ConvertItems(all, i, total, text)
            == if first.Err? then Err(first.error)
               else Prepend([first.value.0], ConvertItems(all, i + 1, first.value.1, text))
  {
    hide Convert;
  }

  lemma ItemsEnd(all: Json, total: nat, text: Extractor)
    requires all.Arr?
    ensures ConvertItems(all, |all.items|, total, text) == Ok(([], total))
  {
  }

  lemma {:induction false} AllReplaced(before: seq<Message>, after: seq<Message>, done: seq<Json>, text: Extractor)
    requires |before| == |after| == |done|
    requires forall k :: 0 <= k < |after| ==> after[k] == Message(before[k].role, done[k])
    requires forall k :: 0 <= k < |done| ==> OnlyDocumentsReplaced(Contents(before)[k], done[k], text)
    ensures Prepared(before, after, text) && !AnyDocument(after)
  {
    hide OnlyDocumentsReplaced, ContainsDocument;
    forall i | 0 <= i < |after| ensures !ContainsDocument(after[i].content) {
      assert OnlyDocumentsReplaced(Contents(before)[i], done[i], text);
      NoneLeft(before[i].content, after[i].content, text);
    }
  }

  method FindDocument(messages: seq<Message>) returns (any: bool)
    ensures any == AnyDocument(messages)
  {
    hide ContainsDocument;
    for i := 0 to |messages|
      invariant forall k :: 0 <= k < i ==> !ContainsDocument(messages[k].content)
    {
      if ContainsDocument(messages[i].content) {
        return true;
      }
    }
    any := false;
  }
}
