// A bridge run as a value: what it depends on, its rounds, and which outcome they lead to.
module BridgeLog {
  import opened BridgeHistory
  import opened BridgeLimits
  import opened JsonValues
  import opened Wrappers
  import BridgeStream
  import BridgeTurn
  import BridgeUsage

  function MaxRounds(): nat { 4 }

  function MaxBody(): nat { 8 * 1024 * 1024 }

  // What comes back for one upstream call, `elapsed` nanoseconds into the run; TimedOut when the
  // deadline of the whole run fires while waiting, Gone when the client leaves before that.
  // `message` is None when the body is not JSON.
  datatype Reply =
    | TimedOut
    | Gone
    | Reply(status: int, retryAfter: RetryAfter, now: int, elapsed: nat, length: nat, message: Option<Json>)

  // Everything the run depends on from outside. `reply` answers call number `retry` of a round,
  // `room` is how many events the client's channel takes in a round and `tailRoom` at the end; a
  // channel that takes no more in a round is closed, or `stalls` until the deadline fires. `newId`
  // gives generated ids, `identity` the replacement text of the identity display, `restore`
  // the search context, `size` the bytes of a serialized message.
  datatype Env = Env(
    reply: (nat, nat) -> Reply,
    room: nat -> nat,
    stalls: nat -> bool,
    tailRoom: nat,
    newId: nat -> string,
    text: Json -> string,
    size: Json -> nat,
    structured: bool,
    identity: (seq<Json>, Json) -> Option<string>,
    valid: (seq<Json>, Json) -> bool,
    restore: seq<Message> -> Option<seq<Message>>,
    countCall: bool,
    hasKeys: bool)

  datatype Sleep = Sleep(round: nat, retry: nat, delay: nat)

  // What upstream is asked: the history, the tools, and whether the tool choice is the request's own
  // or automatic.
  datatype Request = Request(messages: seq<Message>, tools: seq<Tool>, ownChoice: bool)

  // A round whose message was processed: what was asked, and the message that came back.
  datatype Round = Round(request: Request, length: nat, message: Json)

  datatype Reason = TooLong | NotJson | NoContent | EndedEarly | Disconnected | Schema | RoundLimit | NotRestored

  // Abandoned is a run that is dropped because the client left.
  datatype Outcome =
    | Success(message: Json)
    | UpstreamFailed(status: int)
    | Failed(reason: Reason)
    | Expired
    | Abandoned

  // `asked` rounds were sent upstream, the last with the request `last`; those whose message was
  // processed are in `log`.
  datatype Run = Run(
    outcome: Outcome,
    asked: nat,
    last: Request,
    log: seq<Round>,
    shown: seq<Json>,
    calls: nat,
    sleeps: seq<Sleep>,
    billed: nat)

  predicate IsSuccess(status: int) {
    200 <= status < 300
  }

  // ----- one round's upstream calls -----

  function DelayAfter(env: Env, round: nat, retry: nat): (r: Option<nat>)
    ensures r.Some? ==> retry < MaxRetries()
  {
    var r := env.reply(round, retry);
    if r.Reply? && round > 0 then RetryDelay(r.status, r.retryAfter, r.now, retry, r.elapsed) else None
  }

  // A continuation is called again as long as a retry is granted.
  function TriesFrom(env: Env, round: nat, retry: nat): (n: nat)
    requires retry <= MaxRetries()
    ensures retry < n <= MaxRetries() + 1
    ensures forall k :: retry <= k < n - 1 ==> DelayAfter(env, round, k).Some?
    ensures DelayAfter(env, round, n - 1).None?
    ensures round == 0 ==> n == retry + 1
    decreases MaxRetries() - retry
  {
    if DelayAfter(env, round, retry).Some? then TriesFrom(env, round, retry + 1) else retry + 1
  }

  function Tries(env: Env, round: nat): (n: nat)
    ensures 1 <= n <= MaxRetries() + 1 && (round == 0 ==> n == 1)
    ensures forall k :: 0 <= k < n - 1 ==> DelayAfter(env, round, k).Some?
    ensures DelayAfter(env, round, n - 1).None?
  {
    TriesFrom(env, round, 0)
  }

  // The reply a round goes on with.
  function Answer(env: Env, round: nat): Reply {
    env.reply(round, Tries(env, round) - 1)
  }

  function SleepsIn(env: Env, round: nat, n: nat): (r: seq<Sleep>)
    requires forall k :: 0 <= k < n ==> DelayAfter(env, round, k).Some?
    ensures |r| == n
    ensures forall k :: 0 <= k < n ==> r[k] == Sleep(round, k, DelayAfter(env, round, k).value)
  {
    if n == 0 then [] else SleepsIn(env, round, n - 1) + [Sleep(round, n - 1, DelayAfter(env, round, n - 1).value)]
  }

  function AllTries(env: Env, asked: nat): nat {
    if asked == 0 then 0 else AllTries(env, asked - 1) + Tries(env, asked - 1)
  }

  function AllSleeps(env: Env, asked: nat): seq<Sleep> {
    if asked == 0 then [] else AllSleeps(env, asked - 1) + SleepsIn(env, asked - 1, Tries(env, asked - 1) - 1)
  }

  // A sleep follows a 429 of a continuation, is as long as the header asks, and is over two seconds
  // before the deadline.
  predicate GoodSleep(s: Sleep, env: Env) {
    var r := env.reply(s.round, s.retry);
    r.Reply? && s.round > 0 && Grantable(r.status, r.retryAfter, r.now, s.retry, r.elapsed, s.delay)
  }

  lemma GrantedSleep(env: Env, round: nat, retry: nat)
    requires DelayAfter(env, round, retry).Some?
    ensures GoodSleep(Sleep(round, retry, DelayAfter(env, round, retry).value), env)
  {
    var r := env.reply(round, retry);
    GrantedIff(r.status, r.retryAfter, r.now, retry, r.elapsed, DelayAfter(env, round, retry).value);
  }

  // The reply a round goes on with is not one after which another sleep could be granted.
  lemma AnswerIsFinal(env: Env, round: nat, delay: nat)
    requires Answer(env, round).Reply?
    ensures var r := Answer(env, round);
            !(round > 0 && Grantable(r.status, r.retryAfter, r.now, Tries(env, round) - 1, r.elapsed, delay))
  {
    hide RetryDelay;
    var r := Answer(env, round);
    GrantedIff(r.status, r.retryAfter, r.now, Tries(env, round) - 1, r.elapsed, delay);
  }

  // One call for the first round and at most three for each other, each after the first preceded by
  // a granted sleep.
  lemma {:induction false} CallsBounded(env: Env, asked: nat)
    ensures AllTries(env, asked) == |AllSleeps(env, asked)| + asked
    ensures AllTries(env, asked) <= if asked == 0 then 0 else 3 * asked - 2
    ensures forall i :: 0 <= i < |AllSleeps(env, asked)| ==> GoodSleep(AllSleeps(env, asked)[i], env)
  {
    hide GoodSleep, DelayAfter;
    if asked > 0 {
      CallsBounded(env, asked - 1);
      var n := Tries(env, asked - 1) - 1;
      var last := SleepsIn(env, asked - 1, n);
      forall i | 0 <= i < n ensures GoodSleep(last[i], env) {
        GrantedSleep(env, asked - 1, i);
      }
    }
  }

  // ----- views of the rounds so far -----

  function Content(message: Json): seq<Json> {
    if Get(message, "content").Arr? then Get(message, "content").items else []
  }

  // Upstream ended the turn for another reason than a tool use or its natural end.
  predicate Terminal(message: Json) {
    var reason := Get(message, "stop_reason");
    reason != Str("tool_use") && reason != Str("end_turn")
  }

  // Only reserved tools were used: the bridge answers them and goes on.
  predicate Continues(message: Json) {
    && !Terminal(message)
    && BridgeTurn.AnyExecution(Content(message))
    && !BridgeTurn.AnyClientUse(Content(message))
  }

  function Appended(messages: seq<Message>, content: seq<Json>): seq<Message> {
    messages + [Assistant(content), Message("user", Arr(BridgeTurn.Feedback(content, |content|)))]
  }

  function Usages(log: seq<Round>): seq<Json> {
    if log == [] then [] else Usages(log[..|log| - 1]) + [Get(log[|log| - 1].message, "usage")]
  }

  // The reserved uses answered so far: the ids generated.
  function Answers(log: seq<Round>): nat {
    if log == [] then 0
    else
      var content := Content(log[|log| - 1].message);
      Answers(log[..|log| - 1]) + BridgeTurn.Executions(content, |content|)
  }

  // The blocks shown for the rounds of `log`.
  function ShownFor(log: seq<Round>, newId: nat -> string): seq<Json> {
    if log == [] then []
    else
      var content := Content(log[|log| - 1].message);
      ShownFor(log[..|log| - 1], newId) + BridgeTurn.Shown(content, |content|, newId, Answers(log[..|log| - 1]))
  }

  function BytesOf(log: seq<Round>): nat {
    if log == [] then 0 else BytesOf(log[..|log| - 1]) + log[|log| - 1].length
  }

  lemma PushViews(log: seq<Round>, round: Round, newId: nat -> string)
    ensures Usages(log + [round]) == Usages(log) + [Get(round.message, "usage")]
    ensures Answers(log + [round])
         == Answers(log) + BridgeTurn.Executions(Content(round.message), |Content(round.message)|)
    ensures ShownFor(log + [round], newId)
         == ShownFor(log, newId)
            + BridgeTurn.Shown(Content(round.message), |Content(round.message)|, newId, Answers(log))
    ensures BytesOf(log + [round]) == BytesOf(log) + round.length
  {
    hide BridgeTurn.Executions, BridgeTurn.Shown, Content, Get;
    assert (log + [round])[..|log|] == log;
  }

  lemma ReportedPush(us: seq<Json>, u: Json)
    ensures BridgeUsage.Reported(us + [u]) == BridgeUsage.Merge(BridgeUsage.Reported(us), u)
  {
    hide BridgeUsage.Merge;
    assert (us + [u])[..|us|] == us;
  }

  // ----- the final message -----

  // The identity display: the first text block gets the new text, later ones go, others stay.
  function WithText(content: seq<Json>, t: string, replaced: bool): seq<Json> {
    if content == [] then []
    else if Get(content[0], "type") != Str("text") then [content[0]] + WithText(content[1..], t, replaced)
    else if replaced then WithText(content[1..], t, true)
    else [Obj(content[0].fields["text" := Str(t)] - {"citations"})] + WithText(content[1..], t, true)
  }

  function Presented(content: seq<Json>, stop: Json, env: Env): seq<Json> {
    if !env.structured then content
    else match env.identity(content, stop)
      case None => content
      case Some(t) => WithText(content, t, false)
  }

  // The blocks that are not text.
  function Others(blocks: seq<Json>): seq<Json> {
    if blocks == [] then []
    else (if Get(blocks[0], "type") == Str("text") then [] else [blocks[0]]) + Others(blocks[1..])
  }

  lemma {:induction false} TextDropped(blocks: seq<Json>, t: string)
    ensures WithText(blocks, t, true) == Others(blocks)
  {
    if blocks != [] {
      TextDropped(blocks[1..], t);
    }
  }

  // A new text goes into the first text block, which loses its citations and nothing else; the other
  // text blocks go, and all other blocks stay in order.
  lemma {:induction false} TextReplaced(blocks: seq<Json>, k: nat, t: string)
    requires k <= |blocks| && forall i :: 0 <= i < k ==> Get(blocks[i], "type") != Str("text")
    requires k < |blocks| ==> Get(blocks[k], "type") == Str("text")
    ensures if k == |blocks| then WithText(blocks, t, false) == blocks
            else |WithText(blocks, t, false)| > k
                 && WithText(blocks, t, false)
                    == blocks[..k] + [WithText(blocks, t, false)[k]] + Others(blocks[k + 1..])
                 && Retexted(blocks[k], WithText(blocks, t, false)[k], t)
  {
    hide Others, Retexted;
    if blocks != [] {
      if k == 0 {
        RetextedIs(blocks[0], t);
        TextDropped(blocks[1..], t);
        assert blocks[..0] == [];
      } else {
        TextReplaced(blocks[1..], k - 1, t);
        assert blocks == [blocks[0]] + blocks[1..];
        if k < |blocks| {
          assert blocks[1..][k - 1] == blocks[k] && blocks[1..][k..] == blocks[k + 1..];
          assert blocks[..k] == [blocks[0]] + blocks[1..][..k - 1];
        }
      }
    }
  }

  predicate Retexted(before: Json, after: Json, t: string) {
    && Get(after, "text") == Str(t) && Get(after, "citations") == Null && after.Obj?
    && before.Obj? && after.fields.Keys == before.fields.Keys + {"text"} - {"citations"}
    && forall k :: k in after.fields && k != "text" ==> after.fields[k] == before.fields[k]
  }

  lemma RetextedIs(block: Json, t: string)
    requires Get(block, "type") == Str("text")
    ensures Retexted(block, Obj(block.fields["text" := Str(t)] - {"citations"}), t)
  {
    assert |"text"| == 4 && |"citations"| == 9;
  }

  // The final message: the whole presentation, the usage of all rounds, the client's stop reason.
  function FinalStop(message: Json): Json {
    if BridgeTurn.AnyExecution(Content(message)) && !Terminal(message)
    then Str(if BridgeTurn.AnyClientUse(Content(message)) then "tool_use" else "end_turn")
    else Get(message, "stop_reason")
  }

  function FinalMessage(message: Json, shown: seq<Json>, report: map<string, Json>, env: Env): Json {
    if !message.Obj? then message
    else
      var filled := message.fields["content" := Arr(Presented(shown, FinalStop(message), env))]["usage" := Obj(report)];
      Obj(if BridgeTurn.AnyExecution(Content(message)) && !Terminal(message)
          then filled["stop_reason" := FinalStop(message)] else filled)
  }

  // Every other field is upstream's.
  lemma FinalKeeps(message: Json, shown: seq<Json>, report: map<string, Json>, env: Env, key: string)
    requires key != "content" && key != "usage" && key != "stop_reason"
    ensures Get(FinalMessage(message, shown, report, env), key) == Get(message, key)
  {
    hide Presented, Terminal, BridgeTurn.AnyExecution, BridgeTurn.AnyClientUse, Content;
  }

  lemma FinalFields(message: Json, shown: seq<Json>, report: map<string, Json>, env: Env)
    requires message.Obj?
    ensures var f := FinalMessage(message, shown, report, env);
            && Get(f, "content") == Arr(Presented(shown, FinalStop(message), env))
            && Get(f, "usage") == Obj(report)
            && Get(f, "stop_reason") == FinalStop(message)
  {
    hide Presented, Terminal, BridgeTurn.AnyExecution, BridgeTurn.AnyClientUse, Content;
    assert "content" != "usage" && "content" != "stop_reason" && "usage" != "stop_reason";
  }

  // ----- which outcome the rounds lead to -----

  // The outcome of a reply that is not accepted as a round, `bytes` being those accepted before.
  function Refused(reply: Reply, bytes: nat): Option<Outcome> {
    if reply.TimedOut? then Some(Expired)
    else if reply.Gone? then Some(Abandoned)
    else if !IsSuccess(reply.status) then Some(UpstreamFailed(reply.status))
    else if reply.length > MaxBody() || bytes + reply.length > MaxBody() then Some(Failed(TooLong))
    else if reply.message.None? then Some(Failed(NotJson))
    else if !Get(reply.message.value, "content").Arr? then Some(Failed(NoContent))
    else if Terminal(reply.message.value) && BridgeTurn.AnyExecution(Content(reply.message.value)) then
      Some(Failed(EndedEarly))
    else None
  }

  // The client's channel did not take all of what the last round publishes.
  predicate CutShort(log: seq<Round>, env: Env, streamed: bool)
    requires log != []
  {
    streamed && |BridgeStream.Events(ShownFor(log, env.newId), 0, env.text)|
                - |BridgeStream.Events(ShownFor(log[..|log| - 1], env.newId), 0, env.text)| > env.room(|log| - 1)
  }

  predicate AnswerValid(log: seq<Round>, env: Env)
    requires log != []
  {
    var stop := FinalStop(log[|log| - 1].message);
    env.structured ==> env.valid(Presented(ShownFor(log, env.newId), stop, env), stop)
  }

  function Restored(log: seq<Round>, env: Env): Option<seq<Message>>
    requires log != []
  {
    env.restore(Appended(log[|log| - 1].request.messages, Content(log[|log| - 1].message)))
  }

  // The outcome after the last accepted round, unless the run goes on.
  function Closed(log: seq<Round>, env: Env, streamed: bool): Option<Outcome>
    requires log != []
  {
    var last := log[|log| - 1].message;
    if CutShort(log, env, streamed) then Some(if env.stalls(|log| - 1) then Expired else Failed(Disconnected))
    else if !Continues(last) then
      Some(if AnswerValid(log, env)
           then Success(FinalMessage(last, ShownFor(log, env.newId), BridgeUsage.Reported(Usages(log)), env))
           else Failed(Schema))
    else if |log| == MaxRounds() then Some(Failed(RoundLimit))
    else if Restored(log, env).None? then Some(Failed(NotRestored))
    else None
  }

  predicate GoesOn(log: seq<Round>, env: Env, streamed: bool) {
    log == [] || Closed(log, env, streamed).None?
  }

  // The history the next round is asked with: the last one with that round's content and feedback,
  // restored and normalized.
  function NextHistory(log: seq<Round>, messages: seq<Message>, env: Env): seq<Message> {
    if log == [] then messages
    else match Restored(log, env)
      case None => []
      case Some(history) => Normalized(history, env.text)
  }

  // What the next round is asked: the tools get what the searches so far leave them, and a forced
  // tool choice holds for the first round only.
  function NextRequest(log: seq<Round>, messages: seq<Message>, tools: seq<Tool>, env: Env): Request {
    Request(NextHistory(log, messages, env),
            CappedTools(tools, SearchLimits(tools), SearchesUsed(BridgeUsage.Reported(Usages(log)))),
            |log| == 0)
  }

  // Round n was asked because the rounds before it went on, with the request they leave, and it
  // holds the message and length of upstream's answer.
  ghost predicate RoundFollows(log: seq<Round>, n: nat, messages: seq<Message>, tools: seq<Tool>, env: Env,
                               streamed: bool)
    requires n < |log|
  {
    var before, answer := log[..n], Answer(env, n);
    && GoesOn(before, env, streamed)
    && log[n].request == NextRequest(before, messages, tools, env)
    && Refused(answer, BytesOf(before)).None?
    && answer.message == Some(log[n].message) && answer.length == log[n].length
  }

  ghost predicate Follows(log: seq<Round>, messages: seq<Message>, tools: seq<Tool>, env: Env, streamed: bool) {
    forall n :: 0 <= n < |log| ==> RoundFollows(log, n, messages, tools, env, streamed)
  }

  // The run ended as its rounds say: either the last round asked was refused, or it was accepted and
  // closed the run.
  ghost predicate EndsAs(run: Run, env: Env, streamed: bool) {
    if run.asked == |run.log| then run.log != [] && Closed(run.log, env, streamed) == Some(run.outcome)
    else
      && run.asked == |run.log| + 1
      && GoesOn(run.log, env, streamed)
      && Refused(Answer(env, |run.log|), BytesOf(run.log)) == Some(run.outcome)
  }

  // What a run is. `streamed` says whether rounds are published as they complete.
  ghost predicate Sound(run: Run, messages: seq<Message>, tools: seq<Tool>, env: Env, streamed: bool) {
    && Follows(run.log, messages, tools, env, streamed)
    && EndsAs(run, env, streamed)
    && run.last == NextRequest(run.log[..run.asked - 1], messages, tools, env)
    && run.shown == ShownFor(run.log, env.newId)
    && run.calls == AllTries(env, run.asked) && run.sleeps == AllSleeps(env, run.asked)
    && run.billed == (if run.outcome.Success? && env.countCall && env.hasKeys then 1 else 0)
  }

  // ----- the run is determined by what it depends on -----

  lemma {:induction false} LogsAgree(a: seq<Round>, b: seq<Round>, n: nat, messages: seq<Message>, tools: seq<Tool>,
                                     env: Env,
                                     streamed: bool)
    requires Follows(a, messages, tools, env, streamed) && Follows(b, messages, tools, env, streamed)
    requires n <= |a| && n <= |b|
    ensures a[..n] == b[..n]
  {
    hide GoesOn, NextRequest, Refused, BytesOf, Answer;
    if n > 0 {
      LogsAgree(a, b, n - 1, messages, tools, env, streamed);
      assert RoundFollows(a, n - 1, messages, tools, env, streamed);
      assert RoundFollows(b, n - 1, messages, tools, env, streamed);
      assert a[n - 1] == b[n - 1];
      assert a[..n] == a[..n - 1] + [a[n - 1]] && b[..n] == b[..n - 1] + [b[n - 1]];
    }
  }

  // A run does not stop where another with the same surroundings goes on.
  lemma NotShorter(a: Run, b: Run, messages: seq<Message>, tools: seq<Tool>, env: Env, streamed: bool)
    requires Sound(a, messages, tools, env, streamed) && Sound(b, messages, tools, env, streamed)
    ensures |a.log| >= |b.log|
  {
    hide Closed, Refused, AllTries, AllSleeps, ShownFor, Follows, Answer, BytesOf, NextRequest;
    var n := |a.log|;
    if n < |b.log| {
      LogsAgree(a.log, b.log, n, messages, tools, env, streamed);
      assert a.log[..n] == a.log;
      Passed(b.log, n, messages, tools, env, streamed);
    }
  }

  lemma Passed(log: seq<Round>, n: nat, messages: seq<Message>, tools: seq<Tool>, env: Env, streamed: bool)
    requires n < |log| && Follows(log, messages, tools, env, streamed)
    ensures GoesOn(log[..n], env, streamed) && Refused(Answer(env, n), BytesOf(log[..n])).None?
  {
    hide GoesOn, Refused, NextRequest, Answer;
    assert RoundFollows(log, n, messages, tools, env, streamed);
  }

  lemma RunDetermined(a: Run, b: Run, messages: seq<Message>, tools: seq<Tool>, env: Env, streamed: bool)
    requires Sound(a, messages, tools, env, streamed) && Sound(b, messages, tools, env, streamed)
    ensures a == b
  {
    hide Closed, Refused, AllTries, AllSleeps, ShownFor, Follows, Answer, BytesOf, NextRequest;
    NotShorter(a, b, messages, tools, env, streamed);
    NotShorter(b, a, messages, tools, env, streamed);
    LogsAgree(a.log, b.log, |a.log|, messages, tools, env, streamed);
    assert a.log[..|a.log|] == a.log && b.log[..|b.log|] == b.log;
  }

  // ----- bounds -----

  // Every run stays within four rounds and ten calls, its sleeps are good, and its bodies together
  // fit the limit.
  lemma RunBounds(run: Run, messages: seq<Message>, tools: seq<Tool>, env: Env, streamed: bool)
    requires Sound(run, messages, tools, env, streamed)
    ensures |run.log| <= run.asked <= 4 && run.asked >= 1
    ensures run.calls == |run.sleeps| + run.asked <= 10
    ensures forall i :: 0 <= i < |run.sleeps| ==> GoodSleep(run.sleeps[i], env)
    ensures BytesOf(run.log) <= 8_388_608
  {
    hide AllTries, AllSleeps, GoodSleep, ShownFor, RoundFollows, GoesOn, Refused, Closed, NextRequest;
    var n := |run.log|;
    if n > MaxRounds() {
      assert RoundFollows(run.log, MaxRounds(), messages, tools, env, streamed);
      FollowsBounds(run.log, MaxRounds(), messages, tools, env, streamed);
    }
    if n > 0 {
      assert RoundFollows(run.log, n - 1, messages, tools, env, streamed);
      FollowsBounds(run.log, n - 1, messages, tools, env, streamed);
      assert run.log[..n] == run.log;
      if run.asked == n + 1 {
        NoFifth(run.log, env, streamed);
      }
    }
    CallsBounded(env, run.asked);
  }

  lemma NoFifth(log: seq<Round>, env: Env, streamed: bool)
    requires GoesOn(log, env, streamed)
    ensures |log| != MaxRounds()
  {
    hide CutShort, Continues, AnswerValid, Restored, FinalMessage;
  }

  lemma FollowsBounds(log: seq<Round>, n: nat, messages: seq<Message>, tools: seq<Tool>, env: Env, streamed: bool)
    requires n < |log| && RoundFollows(log, n, messages, tools, env, streamed)
    ensures n != MaxRounds() && BytesOf(log[..n + 1]) <= MaxBody()
  {
    hide Answer, NextRequest, GoesOn, BytesOf;
    NoFifth(log[..n], env, streamed);
    assert log[..n + 1] == log[..n] + [log[n]];
    PushViews(log[..n], log[n], env.newId);
  }

  // ----- what a message says, by its fields -----

  predicate EndsNormally(m: Json) {
    Get(m, "stop_reason") == Str("tool_use") || Get(m, "stop_reason") == Str("end_turn")
  }

  predicate HasReserved(m: Json) {
    var content := Get(m, "content");
    content.Arr? && exists i :: 0 <= i < |content.items| && BridgeTurn.NamesReserved(content.items[i])
  }

  // A use of a tool that is not reserved.
  predicate HasClientUse(m: Json) {
    var content := Get(m, "content");
    content.Arr? && exists i :: 0 <= i < |content.items| && IsClientUse(content.items[i])
  }

  predicate IsClientUse(block: Json) {
    Get(block, "type") == Str("tool_use") && !BridgeTurn.NamesReserved(block)
  }

  // It uses reserved tools and no other: the bridge asks upstream again.
  predicate AsksForMore(m: Json) {
    EndsNormally(m) && HasReserved(m) && !HasClientUse(m)
  }

  lemma MessageMeans(m: Json)
    ensures Terminal(m) <==> !EndsNormally(m)
    ensures BridgeTurn.AnyExecution(Content(m)) <==> HasReserved(m)
    ensures BridgeTurn.AnyClientUse(Content(m)) <==> HasClientUse(m)
  {
    hide BridgeTurn.IsExecution, BridgeTurn.NamesReserved;
    var blocks := Content(m);
    forall i | 0 <= i < |blocks| ensures BridgeTurn.IsExecution(blocks[i]) <==> BridgeTurn.NamesReserved(blocks[i]) {
      BridgeTurn.ReservedIff(blocks[i]);
    }
    if BridgeTurn.AnyClientUse(blocks) {
      var i :| 0 <= i < |blocks| && BridgeTurn.IsUse(blocks[i]) && !BridgeTurn.IsExecution(blocks[i]);
      assert IsClientUse(blocks[i]);
    }
    if HasClientUse(m) {
      var i :| 0 <= i < |blocks| && IsClientUse(blocks[i]);
      assert BridgeTurn.IsUse(blocks[i]) && !BridgeTurn.IsExecution(blocks[i]);
    }
  }

  lemma MoreIff(m: Json)
    ensures Continues(m) <==> AsksForMore(m)
  {
    hide Terminal, EndsNormally, Content, HasReserved, HasClientUse, BridgeTurn.AnyExecution, BridgeTurn.AnyClientUse;
    MessageMeans(m);
  }

  // The stop reason a client is given: with answered reserved uses it says whether the client has a
  // tool to run; otherwise it is upstream's own.
  lemma StopMeans(m: Json)
    ensures FinalStop(m)
         == if EndsNormally(m) && HasReserved(m)
            then (if HasClientUse(m) then Str("tool_use") else Str("end_turn")) else Get(m, "stop_reason")
  {
    hide Terminal, EndsNormally, Content, HasReserved, HasClientUse, BridgeTurn.AnyExecution, BridgeTurn.AnyClientUse;
    MessageMeans(m);
  }

  // ----- each outcome, and exactly when it is the one -----

  // A reply within the limit of 8 MiB for one body and for all together.
  predicate Delivers(r: Reply, bytes: nat) {
    r.Reply? && 200 <= r.status <= 299 && bytes + r.length <= 8_388_608
  }

  predicate HasContent(r: Reply) {
    r.Reply? && r.message.Some? && Get(r.message.value, "content").Arr?
  }

  predicate EndsEarly(r: Reply) {
    HasContent(r) && !EndsNormally(r.message.value) && HasReserved(r.message.value)
  }

  // In terms of the last reply of the last round asked and of the bytes accepted before.
  lemma RefusedOutcomes(run: Run, messages: seq<Message>, tools: seq<Tool>, env: Env, streamed: bool)
    requires Sound(run, messages, tools, env, streamed)
    ensures |run.log| <= run.asked && run.asked >= 1
    ensures var r, bytes := Answer(env, run.asked - 1), BytesOf(run.log[..run.asked - 1]);
            && (run.outcome == Expired && run.asked != |run.log| <==> r.TimedOut?)
            && (run.outcome == Abandoned <==> r.Gone?)
            && (run.outcome.UpstreamFailed? <==> r.Reply? && !(200 <= r.status <= 299))
            && (run.outcome.UpstreamFailed? ==> run.outcome.status == r.status)
            && (run.outcome == Failed(TooLong) <==> r.Reply? && 200 <= r.status <= 299 && !Delivers(r, bytes))
            && (run.outcome == Failed(NotJson) <==> Delivers(r, bytes) && r.message.None?)
            && (run.outcome == Failed(NoContent) <==> Delivers(r, bytes) && r.message.Some? && !HasContent(r))
            && (run.outcome == Failed(EndedEarly) <==> Delivers(r, bytes) && EndsEarly(r))
            && (run.asked == |run.log| <==> Delivers(r, bytes) && HasContent(r) && !EndsEarly(r))
  {
    hide Answer, BytesOf, ShownFor, AllTries, AllSleeps, Terminal, Content, Follows, GoesOn, NextRequest, EndsNormally,
         HasReserved, BridgeTurn.AnyExecution;
    var r := Answer(env, run.asked - 1);
    if r.Reply? && r.message.Some? {
      MessageMeans(r.message.value);
    }
    if run.asked == |run.log| {
      Passed(run.log, run.asked - 1, messages, tools, env, streamed);
      ClosedKinds(run.log, env, streamed);
      hide Closed;
    } else {
      assert run.log[..run.asked - 1] == run.log;
    }
  }

  lemma ClosedKinds(log: seq<Round>, env: Env, streamed: bool)
    requires log != [] && Closed(log, env, streamed).Some?
    ensures var o := Closed(log, env, streamed).value;
            o.Success? || o in {Expired, Failed(Disconnected), Failed(Schema), Failed(RoundLimit), Failed(NotRestored)}
  {
    hide CutShort, Continues, AnswerValid, Restored, FinalMessage;
  }

  lemma RefusedKinds(r: Reply, bytes: nat)
    requires Refused(r, bytes).Some?
    ensures var o := Refused(r, bytes).value;
            !o.Success? && o !in {Failed(Disconnected), Failed(Schema), Failed(RoundLimit), Failed(NotRestored)}
  {
    hide Terminal, Content;
  }

  // In terms of the last round accepted, when that was the last one asked.
  lemma ClosedOutcomes(run: Run, messages: seq<Message>, tools: seq<Tool>, env: Env, streamed: bool)
    requires Sound(run, messages, tools, env, streamed)
    ensures var accepted := run.log != [] && run.asked == |run.log|;
            && (run.outcome == Failed(Disconnected) <==>
                  accepted && CutShort(run.log, env, streamed) && !env.stalls(|run.log| - 1))
            && (run.outcome == Expired && run.asked == |run.log| <==>
                  accepted && CutShort(run.log, env, streamed) && env.stalls(|run.log| - 1))
            && (run.outcome == Failed(Schema) <==>
                  accepted && !CutShort(run.log, env, streamed) && !AsksForMore(run.log[|run.log| - 1].message)
                  && !AnswerValid(run.log, env))
            && (run.outcome.Success? <==>
                  accepted && !CutShort(run.log, env, streamed) && !AsksForMore(run.log[|run.log| - 1].message)
                  && AnswerValid(run.log, env))
            && (run.outcome == Failed(RoundLimit) <==>
                  accepted && !CutShort(run.log, env, streamed) && AsksForMore(run.log[|run.log| - 1].message)
                  && |run.log| == 4)
            && (run.outcome == Failed(NotRestored) <==>
                  accepted && !CutShort(run.log, env, streamed) && AsksForMore(run.log[|run.log| - 1].message)
                  && |run.log| != 4 && Restored(run.log, env).None?)
  {
    hide CutShort, Continues, AnswerValid, Restored, FinalMessage, Answer, BytesOf, ShownFor, AllTries, AllSleeps,
         Follows, GoesOn, Refused, NextRequest, AsksForMore;
    if run.log != [] {
      MoreIff(run.log[|run.log| - 1].message);
    }
    if run.asked == |run.log| + 1 {
      RefusedKinds(Answer(env, |run.log|), BytesOf(run.log));
    }
  }
}
