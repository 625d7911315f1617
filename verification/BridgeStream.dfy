// Streaming a bridge run: blocks published round by round, and the tail sent at the end.
module BridgeStream {
  import opened JsonValues
  import opened Wrappers

  // How a JSON value prints, and reads back.
  datatype Printer = Printer(print_: Json -> string, parse: string -> Json)

  datatype Delta =
    | TextDelta(text: Json)
    | InputDelta(partial: string)
    | ThinkingDelta(thinking: Json)
    | SignatureDelta(signature: Json)

  datatype Event =
    | MessageStart(message: Json)
    | BlockStart(index: nat, block: Json)
    | BlockDelta(index: nat, delta: Delta)
    | BlockStop(index: nat)
    | MessageDelta(stopReason: Json, stopSequence: Json, usage: Json)
    | MessageStop
    | Failure

  predicate OfBlock(e: Event) {
    e.BlockStart? || e.BlockDelta? || e.BlockStop?
  }

  function Kind(block: Json): Json {
    Get(block, "type")
  }

  // The block as it is announced, before its deltas.
  function StartOf(block: Json): Json {
    if Kind(block) == Str("text") then Obj(block.fields["text" := Str("")])
    else if Kind(block) == Str("tool_use") || Kind(block) == Str("server_tool_use") then
        Obj(block.fields["input" := Obj(map[])])
    else if Kind(block) == Str("thinking") then Obj(block.fields["thinking" := Str("")]["signature" := Str("")])
    else block
  }

  function DeltasOf(block: Json, print_: Json -> string): seq<Delta> {
    if Kind(block) == Str("text") then [TextDelta(Get(block, "text"))]
    else if Kind(block) == Str("tool_use") || Kind(block) == Str("server_tool_use") then
        [InputDelta(print_(Get(block, "input")))]
    else if Kind(block) == Str("thinking") then
      [ThinkingDelta(Get(block, "thinking"))]
      + (if "signature" in block.fields then [SignatureDelta(Get(block, "signature"))] else [])
    else []
  }

  function DeltaEvents(deltas: seq<Delta>, index: nat): (r: seq<Event>)
    ensures |r| == |deltas|
    ensures forall k :: 0 <= k < |r| ==> r[k] == BlockDelta(index, deltas[k])
  {
    if deltas == [] then [] else [BlockDelta(index, deltas[0])] + DeltaEvents(deltas[1..], index)
  }

  function BlockEvents(block: Json, index: nat, print_: Json -> string): (r: seq<Event>)
    ensures forall k :: 0 <= k < |r| ==> OfBlock(r[k]) && r[k].index == index
  {
    [BlockStart(index, StartOf(block))] + DeltaEvents(DeltasOf(block, print_), index) + [BlockStop(index)]
  }

  function Events(blocks: seq<Json>, offset: nat, print_: Json -> string): seq<Event> {
    if blocks == [] then [] else BlockEvents(blocks[0], offset, print_) + Events(blocks[1..], offset + 1, print_)
  }

  method ContentEvents(blocks: seq<Json>, offset: nat, print_: Json -> string) returns (events: seq<Event>)
    ensures events == Events(blocks, offset, print_)
  {
    hide BlockEvents;
    events := [];
    for i := 0 to |blocks|
      invariant events + Events(blocks[i..], offset + i, print_) == Events(blocks, offset, print_)
    {
      assert blocks[i..][0] == blocks[i] && blocks[i..][1..] == blocks[i + 1..];
      ghost var rest := Events(blocks[i + 1..], offset + i + 1, print_);
      assert events + (BlockEvents(blocks[i], offset + i, print_) + rest)
          == events + BlockEvents(blocks[i], offset + i, print_) + rest;
      events := events + BlockEvents(blocks[i], offset + i, print_);
    }
  }

  // ----- the events of a split content -----

  lemma {:induction false} EventsSplit(blocks: seq<Json>, k: nat, offset: nat, print_: Json -> string)
    requires k <= |blocks|
    ensures Events(blocks, offset, print_)
         == Events(blocks[..k], offset, print_) + Events(blocks[k..], offset + k, print_)
  {
    hide BlockEvents;
    if k == 0 {
      assert blocks[..0] == [] && blocks[0..] == blocks;
    } else {
      EventsSplit(blocks[1..], k - 1, offset + 1, print_);
      assert blocks[..k][0] == blocks[0] && blocks[..k][1..] == blocks[1..][..k - 1];
      assert blocks[1..][k - 1..] == blocks[k..];
    }
  }

  // The tail filter of a finished run: block events below `emitted` were sent before.
  function Unsent(events: seq<Event>, emitted: nat): seq<Event> {
    if events == [] then []
    else (if OfBlock(events[0]) && events[0].index < emitted then [] else [events[0]]) + Unsent(events[1..], emitted)
  }

  lemma {:induction false} UnsentConcat(a: seq<Event>, b: seq<Event>, emitted: nat)
    ensures Unsent(a + b, emitted) == Unsent(a, emitted) + Unsent(b, emitted)
  {
    if a == [] {
      assert a + b == b;
    } else {
      assert (a + b)[0] == a[0] && (a + b)[1..] == a[1..] + b;
      UnsentConcat(a[1..], b, emitted);
    }
  }

  lemma {:induction false} UnsentOfOne(events: seq<Event>, index: nat, emitted: nat)
    requires forall k :: 0 <= k < |events| ==> OfBlock(events[k]) && events[k].index == index
    ensures Unsent(events, emitted) == if index < emitted then [] else events
  {
    if events != [] {
      UnsentOfOne(events[1..], index, emitted);
      assert events == [events[0]] + events[1..];
    }
  }

  lemma {:induction false} UnsentSent(blocks: seq<Json>, offset: nat, emitted: nat, print_: Json -> string)
    requires offset + |blocks| <= emitted
    ensures Unsent(Events(blocks, offset, print_), emitted) == []
  {
    hide BlockEvents;
    if blocks != [] {
      UnsentConcat(BlockEvents(blocks[0], offset, print_), Events(blocks[1..], offset + 1, print_), emitted);
      UnsentOfOne(BlockEvents(blocks[0], offset, print_), offset, emitted);
      UnsentSent(blocks[1..], offset + 1, emitted, print_);
    }
  }

  lemma {:induction false} UnsentNew(blocks: seq<Json>, offset: nat, emitted: nat, print_: Json -> string)
    requires emitted <= offset
    ensures Unsent(Events(blocks, offset, print_), emitted) == Events(blocks, offset, print_)
  {
    hide BlockEvents;
    if blocks != [] {
      UnsentConcat(BlockEvents(blocks[0], offset, print_), Events(blocks[1..], offset + 1, print_), emitted);
      UnsentOfOne(BlockEvents(blocks[0], offset, print_), offset, emitted);
      UnsentNew(blocks[1..], offset + 1, emitted, print_);
    }
  }

  // ----- one stream -----

  // sse_events of a buffered message.
  function MessageEvents(message: Json, start: Json, print_: Json -> string): seq<Event> {
    [MessageStart(start)]
    + (if Get(message, "content").Arr? then Events(Get(message, "content").items, 0, print_) else [])
    + Closing(message)
  }

  function Closing(message: Json): seq<Event> {
    [MessageDelta(Get(message, "stop_reason"), Get(message, "stop_sequence"), Get(message, "usage")), MessageStop]
  }

  // What the end of a run sends: everything but the opening event and the blocks already sent.
  function Tail(message: Json, start: Json, emitted: nat, print_: Json -> string): seq<Event> {
    Unsent(MessageEvents(message, start, print_)[1..], emitted)
  }

  lemma TailIsTheRest(message: Json, start: Json, emitted: nat, print_: Json -> string)
    requires Get(message, "content").Arr? && emitted <= |Get(message, "content").items|
    ensures Events(Get(message, "content").items[..emitted], 0, print_) + Tail(message, start, emitted, print_)
         == Events(Get(message, "content").items, 0, print_) + Closing(message)
  {
    hide Events, Unsent, Get;
    var blocks := Get(message, "content").items;
    UnsentOthers(Closing(message), emitted);
    hide Closing;
    TailSplits(blocks, Closing(message), emitted, print_);
    DropFirst(MessageStart(start), Events(blocks, 0, print_), Closing(message));
  }

  lemma DropFirst(e: Event, a: seq<Event>, b: seq<Event>)
    ensures ([e] + a + b)[1..] == a + b
  {
  }

  lemma TailSplits(blocks: seq<Json>, closing: seq<Event>, emitted: nat, print_: Json -> string)
    requires emitted <= |blocks| && Unsent(closing, emitted) == closing
    ensures Events(blocks[..emitted], 0, print_) + Unsent(Events(blocks, 0, print_) + closing, emitted)
         == Events(blocks, 0, print_) + closing
  {
    hide Events, Unsent;
    var sent, new_ := Events(blocks[..emitted], 0, print_), Events(blocks[emitted..], emitted, print_);
    EventsSplit(blocks, emitted, 0, print_);
    UnsentConcat(sent + new_, closing, emitted);
    UnsentConcat(sent, new_, emitted);
    UnsentSent(blocks[..emitted], 0, emitted, print_);
    UnsentNew(blocks[emitted..], emitted, emitted, print_);
    assert [] + new_ == new_;
    assert sent + (new_ + closing) == sent + new_ + closing;
  }

  lemma {:induction false} UnsentOthers(events: seq<Event>, emitted: nat)
    requires forall k :: 0 <= k < |events| ==> !OfBlock(events[k])
    ensures Unsent(events, emitted) == events
  {
    if events != [] {
      UnsentOthers(events[1..], emitted);
      assert events == [events[0]] + events[1..];
    }
  }

  // The first `n` elements, or all of them.
  function Take<T>(s: seq<T>, n: nat): seq<T> {
    if n < |s| then s[..n] else s
  }

  // The client's side of a run: what was sent, and how many whole blocks that is.
  class Progress {
    var sent: seq<Event>
    var emitted: nat

    // Everything sent are the events of the first `emitted` blocks.
    ghost predicate InStep(content: seq<Json>, print_: Json -> string)
      reads this
    {
      emitted <= |content| && sent == Events(content[..emitted], 0, print_)
    }

    constructor ()
      ensures sent == [] && emitted == 0
    {
      sent, emitted := [], 0;
    }

    // Sends events one by one. The channel takes `room` more and then closes.
    method Send(events: seq<Event>, room: nat) returns (ok: bool)
      modifies this`sent
      ensures ok <==> |events| <= room
      ensures sent == old(sent) + Take(events, room)
    {
      for i := 0 to |events|
        invariant i <= room && sent == old(sent) + events[..i]
      {
        if i == room {
          return false;
        }
        sent := sent + [events[i]];
        assert events[..i + 1] == events[..i] + [events[i]];
      }
      assert events[..|events|] == events;
      ok := true;
    }

    // Sends what is new in `content`; the block count moves only when all of it went out.
    method Publish(content: seq<Json>, room: nat, print_: Json -> string) returns (ok: bool)
      requires InStep(content, print_)
      modifies this
      ensures ok <==> |Events(content, 0, print_)| - |old(sent)| <= room
      ensures sent == Take(Events(content, 0, print_), |old(sent)| + room)
      ensures ok ==> InStep(content, print_) && emitted == |content|
      ensures !ok ==> emitted == old(emitted)
    {
      hide Events, BlockEvents;
      EventsSplit(content, emitted, 0, print_);
      ghost var before := sent;
      var offset := emitted;
      var events := ContentEvents(content[offset..], offset, print_);
      TakeMore(before, events, room);
      ok := Send(events, room);
      if !ok {
        return;
      }
      emitted := |content|;
      assert content[..emitted] == content;
    }

    // The end of a successful run: the tail, as far as the channel takes it.
    method Finish(message: Json, start: Json, room: nat, print_: Json -> string) returns (ok: bool)
      requires Get(message, "content").Arr? && InStep(Get(message, "content").items, print_)
      modifies this`sent
      ensures ok <==> |Whole(message, print_)| - |old(sent)| <= room
      ensures sent == Take(Whole(message, print_), |old(sent)| + room)
    {
      hide Events, Tail, Take;
      TailIsTheRest(message, start, emitted, print_);
      TakeMore(sent, Tail(message, start, emitted, print_), room);
      ok := Send(Tail(message, start, emitted, print_), room);
    }
  }

  // All a client is to see of a successful run after the opening event.
  function Whole(message: Json, print_: Json -> string): seq<Event>
    requires Get(message, "content").Arr?
  {
    Events(Get(message, "content").items, 0, print_) + Closing(message)
  }

  lemma TakeMore<T>(before: seq<T>, more: seq<T>, n: nat)
    ensures before + Take(more, n) == Take(before + more, |before| + n)
  {
  }

  // ----- each block exactly once, in order -----

  function AtIndex(events: seq<Event>, index: nat): seq<Event> {
    if events == [] then []
    else (if OfBlock(events[0]) && events[0].index == index then [events[0]] else []) + AtIndex(events[1..], index)
  }

  lemma {:induction false} AtIndexConcat(a: seq<Event>, b: seq<Event>, index: nat)
    ensures AtIndex(a + b, index) == AtIndex(a, index) + AtIndex(b, index)
  {
    if a == [] {
      assert a + b == b;
    } else {
      assert (a + b)[0] == a[0] && (a + b)[1..] == a[1..] + b;
      AtIndexConcat(a[1..], b, index);
    }
  }

  lemma {:induction false} AtIndexOfOne(events: seq<Event>, i: nat, index: nat)
    requires forall k :: 0 <= k < |events| ==> OfBlock(events[k]) && events[k].index == i
    ensures AtIndex(events, index) == if i == index then events else []
  {
    if events != [] {
      AtIndexOfOne(events[1..], i, index);
      assert events == [events[0]] + events[1..];
    }
  }

  lemma NoneAtIndex(index: nat)
    ensures AtIndex([], index) == []
  {
  }

  // The events of index k are exactly those of block k.
  lemma {:induction false} EachBlockOnce(blocks: seq<Json>, offset: nat, index: nat, print_: Json -> string)
    ensures AtIndex(Events(blocks, offset, print_), index)
         == if offset <= index < offset + |blocks| then BlockEvents(blocks[index - offset], index, print_) else []
  {
    hide BlockEvents, AtIndex;
    if blocks == [] {
      NoneAtIndex(index);
    } else {
      AtIndexConcat(BlockEvents(blocks[0], offset, print_), Events(blocks[1..], offset + 1, print_), index);
      AtIndexOfOne(BlockEvents(blocks[0], offset, print_), offset, index);
      EachBlockOnce(blocks[1..], offset + 1, index, print_);
    }
  }

  predicate InOrder(events: seq<Event>, from: nat) {
    && (forall k :: 0 <= k < |events| ==> OfBlock(events[k]) && from <= events[k].index)
    && (forall k, l :: 0 <= k < l < |events| ==> events[k].index <= events[l].index)
  }

  lemma {:induction false} BlocksInOrder(blocks: seq<Json>, offset: nat, print_: Json -> string)
    ensures InOrder(Events(blocks, offset, print_), offset)
  {
    hide BlockEvents;
    if blocks != [] {
      BlocksInOrder(blocks[1..], offset + 1, print_);
    }
  }

  // ----- what a client rebuilds -----

  function Text(j: Json): string {
    if j.Str? then j.s else ""
  }

  function Applied(block: Json, d: Delta, parse: string -> Json): Json {
    if !block.Obj? then block
    else match d
      case TextDelta(t) => Obj(block.fields["text" := Str(Text(Get(block, "text")) + Text(t))])
      case InputDelta(p) => Obj(block.fields["input" := parse(p)])
      case ThinkingDelta(t) => Obj(block.fields["thinking" := Str(Text(Get(block, "thinking")) + Text(t))])
      case SignatureDelta(s) => Obj(block.fields["signature" := Str(Text(s))])
  }

  function Rebuilt(block: Json, deltas: seq<Delta>, parse: string -> Json): Json
    decreases |deltas|
  {
    if deltas == [] then block else Rebuilt(Applied(block, deltas[0], parse), deltas[1..], parse)
  }

  // The fields a block streams are there and are strings.
  predicate Streamable(block: Json) {
    if Kind(block) == Str("text") then Get(block, "text").Str?
    else if Kind(block) == Str("tool_use") || Kind(block) == Str("server_tool_use") then "input" in block.fields
    else if Kind(block) == Str("thinking") then Get(block, "thinking").Str? && Get(block, "signature").Str?
    else true
  }

  // Applying a block's deltas to its announcement gives the block back exactly for such blocks.
  lemma RebuildsExactly(block: Json, p: Printer)
    requires p.parse(p.print_(Get(block, "input"))) == Get(block, "input")
    ensures Rebuilt(StartOf(block), DeltasOf(block, p.print_), p.parse) == block <==> Streamable(block)
  {
    var start, deltas := StartOf(block), DeltasOf(block, p.print_);
    if Kind(block) == Str("text") {
      TextRebuilds(block, p);
    } else if Kind(block) == Str("tool_use") || Kind(block) == Str("server_tool_use") {
      InputRebuilds(block, p);
    } else if Kind(block) == Str("thinking") {
      ThinkingRebuilds(block, p);
    }
  }

  lemma OneDelta(block: Json, d: Delta, parse: string -> Json)
    ensures Rebuilt(block, [d], parse) == Applied(block, d, parse)
  {
    assert [d][1..] == [];
  }

  lemma TextRebuilds(block: Json, p: Printer)
    requires Kind(block) == Str("text")
    ensures Rebuilt(StartOf(block), DeltasOf(block, p.print_), p.parse) == block <==> Get(block, "text").Str?
  {
    OneDelta(StartOf(block), TextDelta(Get(block, "text")), p.parse);
    var r := Applied(StartOf(block), TextDelta(Get(block, "text")), p.parse);
    assert r == Obj(block.fields["text" := Str(Text(Get(block, "text")))]) by {
      assert "" + Text(Get(block, "text")) == Text(Get(block, "text"));
      assert block.fields["text" := Str("")]["text" := Str(Text(Get(block, "text")))]
          == block.fields["text" := Str(Text(Get(block, "text")))];
    }
    Overwritten(block, "text", Str(Text(Get(block, "text"))));
  }

  lemma InputRebuilds(block: Json, p: Printer)
    requires block.Obj? && StartOf(block) == Obj(block.fields["input" := Obj(map[])])
    requires DeltasOf(block, p.print_) == [InputDelta(p.print_(Get(block, "input")))]
    requires p.parse(p.print_(Get(block, "input"))) == Get(block, "input")
    ensures Rebuilt(StartOf(block), DeltasOf(block, p.print_), p.parse) == block <==> "input" in block.fields
  {
    OneDelta(StartOf(block), InputDelta(p.print_(Get(block, "input"))), p.parse);
    var r := Applied(StartOf(block), InputDelta(p.print_(Get(block, "input"))), p.parse);
    assert block.fields["input" := Obj(map[])]["input" := Get(block, "input")]
        == block.fields["input" := Get(block, "input")];
    Overwritten(block, "input", Get(block, "input"));
  }

  // Writing a field leaves an object as it was exactly when the field held that value.
  lemma Overwritten(block: Json, key: string, v: Json)
    requires block.Obj?
    ensures Obj(block.fields[key := v]) == block <==> key in block.fields && block.fields[key] == v
  {
    if key in block.fields && block.fields[key] == v {
      assert block.fields[key := v] == block.fields;
    }
  }

  lemma ThinkingRebuilds(block: Json, p: Printer)
    requires Kind(block) == Str("thinking")
    ensures Rebuilt(StartOf(block), DeltasOf(block, p.print_), p.parse) == block
        <==> Get(block, "thinking").Str? && Get(block, "signature").Str?
  {
    var thought := ThinkingDelta(Get(block, "thinking"));
    ThoughtApplied(block, p.parse);
    hide StartOf, Applied;
    if "signature" in block.fields {
      var signed := SignatureDelta(Get(block, "signature"));
      assert [thought, signed][1..] == [signed];
      OneDelta(Applied(StartOf(block), thought, p.parse), signed, p.parse);
      SignatureApplied(block, p.parse);
      TwoOverwritten(block, Text(Get(block, "thinking")), Text(Get(block, "signature")));
    } else {
      OneDelta(StartOf(block), thought, p.parse);
    }
  }

  lemma ThoughtApplied(block: Json, parse: string -> Json)
    requires Kind(block) == Str("thinking")
    ensures Applied(StartOf(block), ThinkingDelta(Get(block, "thinking")), parse)
         == Obj(block.fields["thinking" := Str(Text(Get(block, "thinking")))]["signature" := Str("")])
  {
    var f, t := block.fields, Text(Get(block, "thinking"));
    assert "thinking" != "signature";
    assert "" + t == t;
    assert f["thinking" := Str("")]["signature" := Str("")]["thinking" := Str(t)]
        == f["thinking" := Str(t)]["signature" := Str("")];
  }

  lemma SignatureApplied(block: Json, parse: string -> Json)
    requires block.Obj?
    ensures Applied(Obj(block.fields["thinking" := Str(Text(Get(block, "thinking")))]["signature" := Str("")]),
                    SignatureDelta(Get(block, "signature")), parse)
         == Obj(block.fields["thinking" := Str(Text(Get(block, "thinking")))]
                            ["signature" := Str(Text(Get(block, "signature")))])
  {
    hide Text;
    var f := block.fields["thinking" := Str(Text(Get(block, "thinking")))];
    assert f["signature" := Str("")]["signature" := Str(Text(Get(block, "signature")))]
        == f["signature" := Str(Text(Get(block, "signature")))];
  }

  lemma TwoOverwritten(block: Json, thought: string, signature: string)
    requires block.Obj? && "signature" in block.fields
    ensures Obj(block.fields["thinking" := Str(thought)]["signature" := Str(signature)]) == block
        <==> Get(block, "thinking") == Str(thought) && Get(block, "signature") == Str(signature)
  {
    var f := block.fields;
    var g := f["thinking" := Str(thought)]["signature" := Str(signature)];
    assert "thinking" != "signature";
    assert g["thinking"] == Str(thought) && g["signature"] == Str(signature);
    if Get(block, "thinking") == Str(thought) && Get(block, "signature") == Str(signature) {
      assert g == f;
    }
  }

  // ----- a client that follows the stream -----

  // What a client holds: the finished blocks, the one being received, what the closing delta said,
  // and whether the message has ended.
  datatype Client = Client(
    done: seq<Json>,
    open: Option<Json>,
    closing: Option<(Json, Json, Json)>,
    ended: bool)

  function NewClient(): Client {
    Client([], None, None, false)
  }

  // A block is started with the fields its deltas fill still empty.
  predicate StartsEmpty(block: Json) {
    && (Get(block, "type") == Str("text") ==> Get(block, "text") == Str(""))
    && (Get(block, "type") == Str("tool_use") || Get(block, "type") == Str("server_tool_use") ==>
          Get(block, "input") == Obj(map[]))
    && (Get(block, "type") == Str("thinking") ==>
          Get(block, "thinking") == Str("") && Get(block, "signature") == Str(""))
  }

  lemma StartIsEmpty(block: Json)
    ensures StartsEmpty(StartOf(block))
  {
    assert "thinking" != "signature";
    assert |"type"| == 4 && |"text"| == 4 && |"input"| == 5 && |"thinking"| == 8 && |"signature"| == 9;
    assert "type" != "text";
  }

  // One event, or None when it is out of place: a block must be started empty before its deltas,
  // stopped before the next, and come with its position; the closing delta follows the blocks.
  function Receive(c: Client, e: Event, parse: string -> Json): Option<Client> {
    match e
    case BlockStart(i, block) =>
      if c.open.None? && c.closing.None? && i == |c.done| && StartsEmpty(block)
      then Some(c.(open := Some(block))) else None
    case BlockDelta(i, d) =>
      if c.open.Some? && i == |c.done| then Some(c.(open := Some(Applied(c.open.value, d, parse)))) else None
    case BlockStop(i) =>
      if c.open.Some? && i == |c.done| then Some(c.(done := c.done + [c.open.value], open := None)) else None
    case MessageDelta(stop, sequence, usage) =>
      if c.open.None? && c.closing.None? then Some(c.(closing := Some((stop, sequence, usage)))) else None
    case MessageStop =>
      if c.closing.Some? && !c.ended then Some(c.(ended := true)) else None
    case MessageStart(_) => None
    case Failure => None
  }

  function ReceiveAll(c: Client, events: seq<Event>, parse: string -> Json): Option<Client>
    decreases |events|
  {
    if events == [] then Some(c)
    else match Receive(c, events[0], parse)
      case None => None
      case Some(next) => ReceiveAll(next, events[1..], parse)
  }

  lemma {:induction false} ReceiveConcat(c: Client, a: seq<Event>, b: seq<Event>, parse: string -> Json)
    requires ReceiveAll(c, a, parse).Some?
    ensures ReceiveAll(c, a + b, parse) == ReceiveAll(ReceiveAll(c, a, parse).value, b, parse)
    decreases |a|
  {
    hide Receive;
    if a == [] {
      assert a + b == b;
    } else {
      assert (a + b)[0] == a[0] && (a + b)[1..] == a[1..] + b;
      ReceiveConcat(Receive(c, a[0], parse).value, a[1..], b, parse);
    }
  }

  lemma {:induction false} ReceiveDeltas(c: Client, deltas: seq<Delta>, parse: string -> Json)
    requires c.open.Some?
    ensures ReceiveAll(c, DeltaEvents(deltas, |c.done|), parse)
         == Some(c.(open := Some(Rebuilt(c.open.value, deltas, parse))))
    decreases |deltas|
  {
    hide Applied, StartsEmpty;
    if deltas != [] {
      var events := DeltaEvents(deltas, |c.done|);
      assert events[0] == BlockDelta(|c.done|, deltas[0]) && events[1..] == DeltaEvents(deltas[1..], |c.done|);
      ReceiveDeltas(c.(open := Some(Applied(c.open.value, deltas[0], parse))), deltas[1..], parse);
    }
  }

  lemma ReceiveOne(c: Client, e: Event, parse: string -> Json)
    ensures ReceiveAll(c, [e], parse) == Receive(c, e, parse)
  {
    assert [e][1..] == [];
  }

  // The block a client has when the events of one are over.
  function Received(block: Json, p: Printer): Json {
    Rebuilt(StartOf(block), DeltasOf(block, p.print_), p.parse)
  }

  lemma {:induction false} ReceiveBlock(c: Client, block: Json, p: Printer)
    requires c.open.None? && c.closing.None?
    ensures ReceiveAll(c, BlockEvents(block, |c.done|, p.print_), p.parse)
         == Some(c.(done := c.done + [Received(block, p)]))
  {
    hide ReceiveAll, DeltaEvents, StartOf, DeltasOf, Rebuilt, StartsEmpty;
    StartIsEmpty(block);
    var n := |c.done|;
    var deltas := DeltaEvents(DeltasOf(block, p.print_), n);
    var started := c.(open := Some(StartOf(block)));
    ReceiveOne(c, BlockStart(n, StartOf(block)), p.parse);
    ReceiveDeltas(started, DeltasOf(block, p.print_), p.parse);
    ReceiveConcat(c, [BlockStart(n, StartOf(block))], deltas, p.parse);
    ReceiveConcat(c, [BlockStart(n, StartOf(block))] + deltas, [BlockStop(n)], p.parse);
    ReceiveOne(c.(open := Some(Received(block, p))), BlockStop(n), p.parse);
  }

  function AllReceived(blocks: seq<Json>, p: Printer): (r: seq<Json>)
    ensures |r| == |blocks| && forall i :: 0 <= i < |r| ==> r[i] == Received(blocks[i], p)
  {
    if blocks == [] then [] else [Received(blocks[0], p)] + AllReceived(blocks[1..], p)
  }

  lemma {:induction false} ReceiveBlocks(c: Client, blocks: seq<Json>, p: Printer)
    requires c.open.None? && c.closing.None?
    ensures ReceiveAll(c, Events(blocks, |c.done|, p.print_), p.parse)
         == Some(c.(done := c.done + AllReceived(blocks, p)))
    decreases |blocks|
  {
    hide Received, BlockEvents, Receive;
    if blocks == [] {
      assert c.done + [] == c.done;
    } else {
      var next := c.(done := c.done + [Received(blocks[0], p)]);
      ReceiveBlock(c, blocks[0], p);
      ReceiveBlocks(next, blocks[1..], p);
      hide ReceiveAll;
      ReceiveConcat(c, BlockEvents(blocks[0], |c.done|, p.print_), Events(blocks[1..], |c.done| + 1, p.print_),
                    p.parse);
      assert c.done + ([Received(blocks[0], p)] + AllReceived(blocks[1..], p))
          == c.done + [Received(blocks[0], p)] + AllReceived(blocks[1..], p);
    }
  }

  // A client that receives the whole of a message ends with its stop reason, stop sequence and usage,
  // and with as many blocks, each as it was exactly when it is streamable.
  lemma {:induction false} ClientRebuilds(message: Json, p: Printer)
    requires Get(message, "content").Arr?
    requires forall i :: 0 <= i < |Get(message, "content").items| ==> ReadsBack(Get(message, "content").items[i], p)
    ensures var blocks, r := Get(message, "content").items, ReceiveAll(NewClient(), Whole(message, p.print_), p.parse);
            && r.Some? && r.value.ended && r.value.open.None?
            && r.value.closing
               == Some((Get(message, "stop_reason"), Get(message, "stop_sequence"), Get(message, "usage")))
            && |r.value.done| == |blocks|
            && forall i :: 0 <= i < |blocks| ==> (r.value.done[i] == blocks[i] <==> Streamable(blocks[i]))
  {
    hide Events, ReceiveAll, AllReceived, Received, Streamable, Get;
    var blocks := Get(message, "content").items;
    var c := NewClient();
    ReceiveBlocks(c, blocks, p);
    assert c.done + AllReceived(blocks, p) == AllReceived(blocks, p);
    ReceiveConcat(c, Events(blocks, 0, p.print_), Closing(message), p.parse);
    ReceiveClosing(c.(done := AllReceived(blocks, p)), message, p.parse);
    forall i | 0 <= i < |blocks| ensures Received(blocks[i], p) == blocks[i] <==> Streamable(blocks[i]) {
      ReceivedIff(blocks[i], p);
    }
  }

  // Printing the block's input and reading it back gives it again.
  predicate ReadsBack(block: Json, p: Printer) {
    p.parse(p.print_(Get(block, "input"))) == Get(block, "input")
  }

  lemma ReceivedIff(block: Json, p: Printer)
    requires ReadsBack(block, p)
    ensures Received(block, p) == block <==> Streamable(block)
  {
    hide StartOf, DeltasOf, Rebuilt, Streamable;
    RebuildsExactly(block, p);
  }

  lemma ReceiveClosing(c: Client, message: Json, parse: string -> Json)
    requires c.open.None? && c.closing.None? && !c.ended
    ensures ReceiveAll(c, Closing(message), parse)
         == Some(c.(ended := true, closing :=
                      Some((Get(message, "stop_reason"), Get(message, "stop_sequence"), Get(message, "usage")))))
  {
    hide Get;
    var events := Closing(message);
    assert events[1..] == [MessageStop];
    ReceiveOne(Receive(c, events[0], parse).value, MessageStop, parse);
  }

  // Of a whole message the last event is its end, the one before says how it stopped, and all others
  // belong to blocks.
  lemma {:induction false} WholeIs(message: Json, print_: Json -> string)
    requires Get(message, "content").Arr?
    ensures var whole := Whole(message, print_);
            && |whole| >= 2 && whole[|whole| - 1] == MessageStop
            && whole[|whole| - 2]
               == MessageDelta(Get(message, "stop_reason"), Get(message, "stop_sequence"), Get(message, "usage"))
            && forall k :: 0 <= k < |whole| - 2 ==> OfBlock(whole[k])
  {
    hide Events, Get;
    BlocksInOrder(Get(message, "content").items, 0, print_);
  }
}
