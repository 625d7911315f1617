// The user question a request ends with.
module Questions {
  import opened JsonValues
  import opened BridgeHistory
  import R = Reminders
  import Snippet
  import opened Wrappers

  // Messages that clients append after the user's turn.
  predicate IsContext(m: Message) {
    m.role == "system" || m.role == "developer"
  }

  // The last message that is not context.
  function LastTurn(messages: seq<Message>): Option<Message> {
    if messages == [] then None
    else if IsContext(messages[|messages| - 1]) then LastTurn(messages[..|messages| - 1])
    else Some(messages[|messages| - 1])
  }

  function Stripped(text: string): Option<string> {
    R.Strip(text, R.ReminderTags(), 8)
  }

  // The stripped texts of text blocks; None when a block is of another kind or cannot be stripped.
  function BlockTexts(blocks: seq<Json>): Option<seq<string>> {
    if blocks == [] then Some([])
    else if Get(blocks[0], "type") != Str("text") || !Get(blocks[0], "text").Str? then None
    else match Stripped(Get(blocks[0], "text").s)
      case None => None
      case Some(t) =>
        match BlockTexts(blocks[1..])
        case None => None
        case Some(rest) => Some([t] + rest)
  }

  function Texts(content: Json): Option<seq<string>> {
    match content
    case Str(s) => (match Stripped(s) { case None => None case Some(t) => Some([t]) })
    case Arr(blocks) => if |blocks| <= 32 then BlockTexts(blocks) else None
    case _ => None
  }

  function NonEmpty(texts: seq<string>): seq<string> {
    if texts == [] then [] else (if texts[0] == "" then [] else [texts[0]]) + NonEmpty(texts[1..])
  }

  function Bytes(texts: seq<string>): nat {
    if texts == [] then 0 else |Snippet.Encode(texts[0])| + Bytes(texts[1..])
  }

  function Joined(texts: seq<string>): string {
    if texts == [] then "" else if |texts| == 1 then texts[0] else texts[0] + "\n" + Joined(texts[1..])
  }

  function Question(content: Json): Option<string> {
    match Texts(content)
    case None => None
    case Some(all) =>
      var texts := NonEmpty(all);
      if texts == [] || Bytes(texts) > 8192 then None else Some(Joined(texts))
  }

  function LatestQuestion(messages: seq<Message>): Option<string> {
    match LastTurn(messages)
    case None => None
    case Some(m) => if m.role == "user" then Question(m.content) else None
  }

  // Context messages after the question never change it.
  lemma {:induction false} ContextIgnored(messages: seq<Message>, context: seq<Message>)
    requires forall i :: 0 <= i < |context| ==> context[i].role == "system" || context[i].role == "developer"
    ensures LatestQuestion(messages + context) == LatestQuestion(messages)
  {
    assert forall i :: 0 <= i < |context| ==> IsContext(context[i]);
    hide Question, IsContext;
    LastTurnSkips(messages, context);
  }

  lemma {:induction false} LastTurnSkips(messages: seq<Message>, context: seq<Message>)
    requires forall i :: 0 <= i < |context| ==> IsContext(context[i])
    ensures LastTurn(messages + context) == LastTurn(messages)
  {
    hide IsContext;
    if context == [] {
      assert messages + context == messages;
    } else {
      var n := |context| - 1;
      var all := messages + context;
      assert all[|all| - 1] == context[n] && all[..|all| - 1] == messages + context[..n];
      LastTurnSkips(messages, context[..n]);
    }
  }

  // A turn of the assistant hides every earlier question.
  lemma AssistantHides(messages: seq<Message>, m: Message, context: seq<Message>)
    requires m.role != "system" && m.role != "developer" && m.role != "user"
    requires forall i :: 0 <= i < |context| ==> context[i].role == "system" || context[i].role == "developer"
    ensures LatestQuestion(messages + [m] + context) == None
  {
    assert !IsContext(m);
    hide Question, IsContext;
    ContextIgnored(messages + [m], context);
  }

  // Wrapping a clean question in at most seven reminders does not change it; more make it no
  // question at all.
  lemma {:induction false} WrappedQuestion(messages: seq<Message>, pre: seq<R.Piece>, w1: string, t: string,
                                           post: seq<R.Piece>, w2: string)
    requires R.AllWellFormed(pre, R.ReminderTags()) && R.AllWellFormed(post, R.ReminderTags())
    requires R.EdgesClean(t, R.ReminderTags()) && R.Text.Blank(w1) && R.Text.Blank(w2)
    ensures var g := R.ReminderTags();
            var wrapped := R.RenderAll(pre, g) + (w1 + (t + R.RenderAll(post, g)) + w2);
            LatestQuestion(messages + [Message("user", Str(wrapped))])
            == if |pre| + |post| <= 7 then LatestQuestion(messages + [Message("user", Str(t))]) else None
  {
    hide *;
    var g := R.ReminderTags();
    var wrapped := R.RenderAll(pre, g) + (w1 + (t + R.RenderAll(post, g)) + w2);
    R.SevenReminders(pre, w1, t, post, w2);
    R.CleanIsFixed(t, g, 8);
    UserAsks(messages, wrapped);
    UserAsks(messages, t);
  }

  lemma {:induction false} UserAsks(messages: seq<Message>, text: string)
    ensures LatestQuestion(messages + [Message("user", Str(text))])
         == match R.Strip(text, R.ReminderTags(), 8) {
              case None => None
              case Some(t) => if t == "" || |Snippet.Encode(t)| > 8192 then None else Some(t)
            }
  {
    hide R.Strip, R.ReminderTags, Snippet.Encode;
    var m := Message("user", Str(text));
    assert !IsContext(m) by {
      assert |"user"| == 4 && |"system"| == 6 && |"developer"| == 9;
    }
    assert LastTurn(messages + [m]) == Some(m);
    match R.Strip(text, R.ReminderTags(), 8) {
      case None =>
      case Some(t) => OneText(t);
    }
  }

  lemma OneText(t: string)
    ensures NonEmpty([t]) == if t == "" then [] else [t]
    ensures Bytes([t]) == |Snippet.Encode(t)| && Joined([t]) == t
  {
    hide Snippet.Encode;
    assert [t][1..] == [];
  }

  // ----- questions in several blocks -----

  // `wrapped` is the clean text `t` in at most seven reminders on either edge.
  ghost predicate Wraps(wrapped: string, t: string) {
    var g := R.ReminderTags();
    R.EdgesClean(t, g) && exists pre, w1, post, w2 :: IsWrapping(wrapped, pre, w1, t, post, w2)
  }

  predicate IsWrapping(wrapped: string, pre: seq<R.Piece>, w1: string, t: string, post: seq<R.Piece>, w2: string) {
    var g := R.ReminderTags();
    && R.AllWellFormed(pre, g) && R.AllWellFormed(post, g) && R.Text.Blank(w1) && R.Text.Blank(w2)
    && |pre| + |post| <= 7
    && wrapped == R.RenderAll(pre, g) + (w1 + (t + R.RenderAll(post, g)) + w2)
  }

  lemma {:induction false} WrapsStrips(wrapped: string, t: string)
    requires Wraps(wrapped, t)
    ensures Stripped(wrapped) == Stripped(t) == Some(t)
  {
    hide R.Strip, R.RenderAll, R.EdgesClean, R.AllWellFormed, R.ReminderTags, R.Text.Blank;
    var pre, w1, post, w2 :| IsWrapping(wrapped, pre, w1, t, post, w2);
    R.SevenReminders(pre, w1, t, post, w2);
    R.CleanIsFixed(t, R.ReminderTags(), 8);
  }

  predicate IsText(block: Json) {
    Get(block, "type") == Str("text") && Get(block, "text").Str?
  }

  // Block by block, the texts of `a` are those of `b` in reminders.
  ghost predicate WrapsAll(a: seq<Json>, b: seq<Json>) {
    |a| == |b| && forall i :: 0 <= i < |a| ==> WrapsBlock(a[i], b[i])
  }

  ghost predicate WrapsBlock(x: Json, y: Json) {
    IsText(x) && IsText(y) && Wraps(Get(x, "text").s, Get(y, "text").s)
  }

  lemma {:induction false} SameBlockTexts(a: seq<Json>, b: seq<Json>)
    requires WrapsAll(a, b)
    ensures BlockTexts(a) == BlockTexts(b)
  {
    hide Wraps, Stripped;
    if a != [] {
      assert WrapsBlock(a[0], b[0]);
      WrapsStrips(Get(a[0], "text").s, Get(b[0], "text").s);
      forall i | 0 <= i < |a[1..]| ensures WrapsBlock(a[1..][i], b[1..][i]) {
        assert WrapsBlock(a[i + 1], b[i + 1]);
      }
      SameBlockTexts(a[1..], b[1..]);
    }
  }

  // A question in text blocks, each wrapped in its own reminders, is the question without them.
  lemma {:induction false} WrappedBlocks(messages: seq<Message>, a: seq<Json>, b: seq<Json>)
    requires WrapsAll(a, b)
    ensures LatestQuestion(messages + [Message("user", Arr(a))]) == LatestQuestion(messages + [Message("user", Arr(b))])
  {
    hide BlockTexts, WrapsBlock, LatestQuestion;
    SameBlockTexts(a, b);
    UserTurn(messages, Arr(a));
    UserTurn(messages, Arr(b));
    assert Texts(Arr(a)) == Texts(Arr(b));
  }

  lemma UserTurn(messages: seq<Message>, content: Json)
    ensures LatestQuestion(messages + [Message("user", content)]) == Question(content)
  {
    hide Question;
    var m := Message("user", content);
    assert !IsContext(m) by {
      assert |"user"| == 4 && |"system"| == 6 && |"developer"| == 9;
    }
    assert LastTurn(messages + [m]) == Some(m);
  }

  // ----- when there is a question -----

  // Texts are joined by line ends.
  lemma {:induction false} JoinedConcat(a: seq<string>, b: seq<string>)
    requires a != [] && b != []
    ensures Joined(a + b) == Joined(a) + ['\n'] + Joined(b)
    ensures Joined([a[0]]) == a[0]
  {
    if |a| == 1 {
      assert (a + b)[1..] == b;
    } else {
      JoinedConcat(a[1..], b);
      assert (a + b)[1..] == a[1..] + b;
    }
  }

  // At most 32 blocks, all texts that can be stripped, or one such text.
  predicate HasParts(content: Json) {
    || (content.Str? && Stripped(content.s).Some?)
    || (content.Arr? && |content.items| <= 32
        && forall i :: 0 <= i < |content.items| ==>
             IsText(content.items[i]) && Stripped(Get(content.items[i], "text").s).Some?)
  }

  // The stripped texts.
  function Parts(content: Json): seq<string>
    requires HasParts(content)
  {
    if content.Str? then [Stripped(content.s).value]
    else seq(|content.items|, i requires 0 <= i < |content.items| => Stripped(Get(content.items[i], "text").s).value)
  }

  lemma {:induction false} BlockTextsIff(blocks: seq<Json>)
    ensures BlockTexts(blocks).Some?
        <==> forall i :: 0 <= i < |blocks| ==> IsText(blocks[i]) && Stripped(Get(blocks[i], "text").s).Some?
    ensures BlockTexts(blocks).Some? ==>
      && |BlockTexts(blocks).value| == |blocks|
      && forall i :: 0 <= i < |blocks| ==>
           IsText(blocks[i]) && Stripped(Get(blocks[i], "text").s) == Some(BlockTexts(blocks).value[i])
  {
    hide Stripped;
    if blocks != [] {
      BlockTextsIff(blocks[1..]);
      assert forall i :: 1 <= i < |blocks| ==> blocks[i] == blocks[1..][i - 1];
    }
  }

  lemma {:induction false} EmptyTexts(texts: seq<string>)
    ensures Bytes(NonEmpty(texts)) == Bytes(texts)
    ensures NonEmpty(texts) == [] <==> forall i :: 0 <= i < |texts| ==> texts[i] == ""
  {
    if texts != [] {
      EmptyTexts(texts[1..]);
      if texts[0] != "" {
        assert ([texts[0]] + NonEmpty(texts[1..]))[1..] == NonEmpty(texts[1..]);
        assert texts[0] == texts[0];
      } else {
        assert Snippet.Encode("") == [];
        assert [] + NonEmpty(texts[1..]) == NonEmpty(texts[1..]);
      }
      assert forall i :: 1 <= i < |texts| ==> texts[i] == texts[1..][i - 1];
    }
  }

  predicate Asks(content: Json) {
    && HasParts(content)
    && var parts := Parts(content);
       Bytes(parts) <= 8192 && exists i :: 0 <= i < |parts| && parts[i] != ""
  }

  function Asked(content: Json): string {
    if HasParts(content) then Joined(NonEmpty(Parts(content))) else ""
  }

  // A question is the texts that are left, joined by line ends: there is one exactly when the content
  // has such parts, one of them is not empty, and together they have at most 8192 bytes.
  lemma {:induction false} QuestionIff(content: Json)
    ensures Question(content) == if Asks(content) then Some(Asked(content)) else None
  {
    hide HasParts, Parts, Question, Texts, Bytes, NonEmpty, Joined, Stripped;
    TextsIff(content);
    QuestionOf(content);
    if HasParts(content) {
      EmptyTexts(Parts(content));
    }
  }

  lemma QuestionOf(content: Json)
    ensures Question(content)
         == match Texts(content)
            case None => None
            case Some(all) =>
              if NonEmpty(all) == [] || Bytes(NonEmpty(all)) > 8192 then None else Some(Joined(NonEmpty(all)))
  {
    hide Texts, Bytes, NonEmpty, Joined;
  }

  lemma TextsIff(content: Json)
    ensures Texts(content) == if HasParts(content) then Some(Parts(content)) else None
  {
    hide Stripped, BlockTexts, IsText, Get;
    if content.Arr? {
      BlockTextsIff(content.items);
      if HasParts(content) {
        var texts := BlockTexts(content.items).value;
        assert texts == Parts(content);
      }
    }
  }
}
