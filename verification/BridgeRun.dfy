// A bridge run: at most four rounds against the upstream model, streamed as they complete.
module BridgeRun {
  import opened BridgeHistory
  import opened BridgeLimits
  import opened BridgeLog
  import opened JsonValues
  import opened Wrappers
  import BridgeStream
  import BridgeTurn
  import BridgeUsage

  // Calls upstream, waiting and retrying a rate-limited continuation.
  method CallUpstream(round: nat, env: Env) returns (reply: Reply, calls: nat, sleeps: seq<Sleep>)
    ensures reply == Answer(env, round)
    ensures calls == Tries(env, round) && sleeps == SleepsIn(env, round, calls - 1)
  {
    hide GoodSleep, RetryDelay;
    var retry: nat := 0;
    sleeps := [];
    while true
      invariant retry <= MaxRetries() && TriesFrom(env, round, retry) == Tries(env, round)
      invariant forall k :: 0 <= k < retry ==> DelayAfter(env, round, k).Some?
      invariant sleeps == SleepsIn(env, round, retry)
      decreases MaxRetries() - retry
    {
      reply := env.reply(round, retry);
      var delay := DelayAfter(env, round, retry);
      if delay.Some? {
        sleeps := sleeps + [Sleep(round, retry, delay.value)];
        retry := retry + 1;
      } else {
        return reply, retry + 1, sleeps;
      }
    }
  }

  // ----- what is known between rounds -----

  ghost predicate Recorded(log: seq<Round>, report: map<string, Json>, shown: seq<Json>, ids: nat, bytes: nat,
                           messages: seq<Message>, tools: seq<Tool>, env: Env, streamed: bool)
  {
    && Follows(log, messages, tools, env, streamed)
    && report == BridgeUsage.Reported(Usages(log))
    && shown == ShownFor(log, env.newId)
    && ids == Answers(log)
    && bytes == BytesOf(log)
  }

  lemma RecordedStart(messages: seq<Message>, tools: seq<Tool>, env: Env, streamed: bool)
    ensures Recorded([], map[], [], 0, 0, messages, tools, env, streamed)
    ensures GoesOn([], env, streamed) && NextHistory([], messages, env) == messages
    ensures AllTries(env, 0) == 0 && AllSleeps(env, 0) == []
  {
  }

  lemma RecordedViews(log: seq<Round>, report: map<string, Json>, shown: seq<Json>, ids: nat, bytes: nat,
                      messages: seq<Message>, tools: seq<Tool>, env: Env, streamed: bool)
    requires Recorded(log, report, shown, ids, bytes, messages, tools, env, streamed)
    ensures shown == ShownFor(log, env.newId) && report == BridgeUsage.Reported(Usages(log))
  {
    hide Follows, ShownFor, BridgeUsage.Reported;
  }

  lemma {:induction false} FollowsPush(log: seq<Round>, round: Round, messages: seq<Message>, tools: seq<Tool>,
                                       env: Env, streamed: bool)
    requires Follows(log, messages, tools, env, streamed)
    requires RoundFollows(log + [round], |log|, messages, tools, env, streamed)
    ensures Follows(log + [round], messages, tools, env, streamed)
  {
    hide GoesOn, NextRequest, Refused, Answer, BytesOf;
    var more := log + [round];
    forall n | 0 <= n < |more| ensures RoundFollows(more, n, messages, tools, env, streamed) {
      if n < |log| {
        assert RoundFollows(log, n, messages, tools, env, streamed);
        assert more[..n] == log[..n] && more[n] == log[n];
      }
    }
  }

  // Accepting the answer of the next round.
  lemma {:induction false} Accept(log: seq<Round>, round: Round, report: map<string, Json>, shown: seq<Json>, ids: nat,
                                  bytes: nat,
               messages: seq<Message>, tools: seq<Tool>, env: Env, streamed: bool)
    requires Recorded(log, report, shown, ids, bytes, messages, tools, env, streamed) && GoesOn(log, env, streamed)
    requires round.request == NextRequest(log, messages, tools, env)
    requires Refused(Answer(env, |log|), bytes).None?
    requires Answer(env, |log|).message == Some(round.message) && Answer(env, |log|).length == round.length
    ensures var content := Content(round.message);
            Recorded(log + [round], BridgeUsage.Merge(report, Get(round.message, "usage")),
                     shown + BridgeTurn.Shown(content, |content|, env.newId, ids),
                     ids + BridgeTurn.Executions(content, |content|), bytes + round.length,
                     messages, tools, env, streamed)
  {
    hide GoesOn, NextRequest, BridgeUsage.Reported, BridgeUsage.Merge, Refused, Answer, Follows, BytesOf,
         BridgeTurn.Shown, BridgeTurn.Executions, Content, Usages, Answers, ShownFor;
    assert (log + [round])[..|log|] == log;
    FollowsPush(log, round, messages, tools, env, streamed);
    PushViews(log, round, env.newId);
    ReportedPush(Usages(log), Get(round.message, "usage"));
  }

  // A run whose next answer is refused.
  lemma SoundRefused(outcome: Outcome, log: seq<Round>, report: map<string, Json>, shown: seq<Json>, ids: nat,
                     bytes: nat,
                     calls: nat, sleeps: seq<Sleep>, messages: seq<Message>, tools: seq<Tool>, env: Env, streamed: bool)
    requires Recorded(log, report, shown, ids, bytes, messages, tools, env, streamed) && GoesOn(log, env, streamed)
    requires Refused(Answer(env, |log|), bytes) == Some(outcome)
    requires calls == AllTries(env, |log| + 1) && sleeps == AllSleeps(env, |log| + 1)
    ensures Sound(Run(outcome, |log| + 1, NextRequest(log, messages, tools, env), log, shown, calls, sleeps, 0),
                  messages, tools, env, streamed)
    ensures !outcome.Success? && outcome != Failed(Disconnected)
  {
    hide Refused, Answer, BytesOf, ShownFor, AllTries, AllSleeps, Follows, GoesOn, NextRequest;
    RefusedKinds(Answer(env, |log|), bytes);
    assert log[..|log|] == log;
  }

  // A run that its last round closes.
  lemma {:induction false} SoundClosed(outcome: Outcome, log: seq<Round>, report: map<string, Json>, shown: seq<Json>,
                                       ids: nat, bytes: nat, calls: nat, sleeps: seq<Sleep>, billed: nat,
                                       messages: seq<Message>, tools: seq<Tool>, env: Env, streamed: bool)
    requires Recorded(log, report, shown, ids, bytes, messages, tools, env, streamed)
    requires log != [] && Closed(log, env, streamed) == Some(outcome)
    requires calls == AllTries(env, |log|) && sleeps == AllSleeps(env, |log|)
    requires billed == if outcome.Success? && env.countCall && env.hasKeys then 1 else 0
    ensures Sound(Run(outcome, |log|, log[|log| - 1].request, log, shown, calls, sleeps, billed),
                  messages, tools, env, streamed)
  {
    hide Closed, ShownFor, AllTries, AllSleeps, RoundFollows, NextRequest;
    LastRequest(log, |log| - 1, messages, tools, env, streamed);
  }

  lemma LastRequest(log: seq<Round>, n: nat, messages: seq<Message>, tools: seq<Tool>, env: Env, streamed: bool)
    requires n < |log| && Follows(log, messages, tools, env, streamed)
    ensures log[n].request == NextRequest(log[..n], messages, tools, env)
  {
    hide GoesOn, NextRequest, Refused, Answer, BytesOf;
    assert RoundFollows(log, n, messages, tools, env, streamed);
  }

  // The outcome when the channel does not take all of round `n`.
  function WhenCut(env: Env, n: nat): Outcome {
    if env.stalls(n) then Expired else Failed(Disconnected)
  }

  lemma NotSuccess(env: Env, n: nat)
    ensures !WhenCut(env, n).Success?
  {
  }

  lemma ClosedWhen(log: seq<Round>, env: Env, streamed: bool)
    requires log != []
    ensures var last := log[|log| - 1].message;
            if CutShort(log, env, streamed) then Closed(log, env, streamed) == Some(WhenCut(env, |log| - 1))
            else if !Continues(last) then Closed(log, env, streamed)
              == Some(if AnswerValid(log, env)
                      then Success(FinalMessage(last, ShownFor(log, env.newId), BridgeUsage.Reported(Usages(log)), env))
                      else Failed(Schema))
            else if |log| == 4 then Closed(log, env, streamed) == Some(Failed(RoundLimit))
            else if Restored(log, env).None? then Closed(log, env, streamed) == Some(Failed(NotRestored))
            else GoesOn(log, env, streamed)
  {
    hide CutShort, Continues, AnswerValid, Restored, FinalMessage;
  }

  lemma ContinuesWhen(message: Json)
    requires !(Terminal(message) && BridgeTurn.AnyExecution(Content(message)))
    ensures Continues(message) <==>
      BridgeTurn.AnyExecution(Content(message)) && !(!Terminal(message) && BridgeTurn.AnyClientUse(Content(message)))
  {
  }

  lemma IsObject(message: Json)
    requires Get(message, "content").Arr?
    ensures message.Obj? && Content(message) == Get(message, "content").items
  {
  }

  lemma AppendedIs(messages: seq<Message>, content: seq<Json>)
    ensures Appended(messages, content)
         == messages + [Assistant(content), Message("user", Arr(BridgeTurn.Feedback(content, |content|)))]
  {
  }

  lemma RestoredIs(log: seq<Round>, messages: seq<Message>, env: Env)
    requires log != []
    ensures var last := log[|log| - 1];
            Restored(log, env) == env.restore(Appended(last.request.messages, Content(last.message)))
    ensures Restored(log, env).Some? ==>
      NextHistory(log, messages, env) == Normalized(Restored(log, env).value, env.text)
  {
    hide Appended, Content;
  }

  lemma NextRequestIs(log: seq<Round>, messages: seq<Message>, tools: seq<Tool>, env: Env)
    ensures NextRequest(log, messages, tools, env)
         == Request(NextHistory(log, messages, env),
                    CappedTools(tools, SearchLimits(tools), SearchesUsed(BridgeUsage.Reported(Usages(log)))),
                    |log| == 0)
  {
  }

  lemma NextCalls(env: Env, round: nat)
    ensures AllTries(env, round + 1) == AllTries(env, round) + Tries(env, round)
    ensures AllSleeps(env, round + 1) == AllSleeps(env, round) + SleepsIn(env, round, Tries(env, round) - 1)
  {
  }

  // ----- streaming alongside -----

  // Everything shown so far has been sent.
  ghost predicate Streaming(p: BridgeStream.Progress, shown: seq<Json>, text: Json -> string)
    reads p
  {
    p.emitted == |shown| && p.sent == BridgeStream.Events(shown, 0, text)
  }

  lemma StreamingIsInStep(p: BridgeStream.Progress, shown: seq<Json>, text: Json -> string)
    requires Streaming(p, shown, text)
    ensures p.InStep(shown, text)
  {
    hide BridgeStream.Events;
    assert shown[..p.emitted] == shown;
  }

  // Publishes what a round adds, when the run is streamed.
  method PublishMore(p: BridgeStream.Progress?, ghost shown: seq<Json>, ghost added: seq<Json>, more: seq<Json>,
                     room: nat, text: Json -> string) returns (ok: bool)
    requires p != null ==> Streaming(p, shown, text)
    requires more == shown + added
    modifies p
    ensures ok <==> p == null
                    || |BridgeStream.Events(more, 0, text)| - |BridgeStream.Events(shown, 0, text)| <= room
    ensures p != null && ok ==> Streaming(p, more, text)
    ensures p != null && !ok ==>
      p.sent == BridgeStream.Take(BridgeStream.Events(more, 0, text), |BridgeStream.Events(shown, 0, text)| + room)
  {
    hide BridgeStream.Events;
    if p == null {
      return true;
    }
    assert more[..p.emitted] == shown;
    ok := p.Publish(more, room, text);
    if ok {
      assert more[..p.emitted] == more;
    }
  }

  // What the rounds of a streamed run sent: everything shown, or as much of the last round as the
  // channel took before it closed.
  function Published(run: Run, env: Env): seq<BridgeStream.Event> {
    var all := BridgeStream.Events(run.shown, 0, env.text);
    if run.asked == |run.log| && run.log != [] && CutShort(run.log, env, true) then
      BridgeStream.Take(all, |BridgeStream.Events(ShownFor(run.log[..|run.log| - 1], env.newId), 0, env.text)|
                             + env.room(|run.log| - 1))
    else all
  }

  // Closing a run whose last round does not continue: with the outcome its rounds call for.
  method Conclude(message: Json, shown: seq<Json>, report: map<string, Json>, env: Env, ghost log: seq<Round>,
                  ghost streamed: bool) returns (outcome: Outcome, billed: nat)
    requires log != [] && message == log[|log| - 1].message
    requires shown == ShownFor(log, env.newId) && report == BridgeUsage.Reported(Usages(log))
    requires !CutShort(log, env, streamed) && !Continues(message)
    ensures Closed(log, env, streamed) == Some(outcome)
    ensures billed == if outcome.Success? && env.countCall && env.hasKeys then 1 else 0
  {
    hide Presented, FinalStop, FinalMessage, ShownFor, Continues, CutShort, BridgeUsage.Reported, Usages, Restored;
    if env.structured && !env.valid(Presented(shown, FinalStop(message), env), FinalStop(message)) {
      return Failed(Schema), 0;
    }
    billed := if env.countCall && env.hasKeys then 1 else 0;
    outcome := Success(FinalMessage(message, shown, report, env));
  }

  // The history of the next round, unless restoring the search context fails.
  method NextPayload(history: seq<Message>, content: seq<Json>, feedback: seq<Json>, env: Env,
                     ghost log: seq<Round>, ghost messages: seq<Message>) returns (next: Option<seq<Message>>)
    requires log != [] && history == log[|log| - 1].request.messages && content == Content(log[|log| - 1].message)
    requires feedback == BridgeTurn.Feedback(content, |content|)
    ensures next.None? <==> Restored(log, env).None?
    ensures next.Some? ==> next.value == NextHistory(log, messages, env)
  {
    hide Normalized, Appended, Restored, Content, BridgeTurn.Feedback;
    AppendedIs(history, content);
    RestoredIs(log, messages, env);
    var restored := env.restore(history + [Assistant(content), Message("user", Arr(feedback))]);
    if restored.None? {
      return None;
    }
    var normalized := NormalizeHistory(restored.value, env.text);
    next := Some(normalized);
  }

  // ----- the loop -----

  // The first reason to refuse an answer before its blocks are looked at.
  method Screen(reply: Reply, bytes: nat) returns (outcome: Option<Outcome>)
    ensures outcome.Some? ==> Refused(reply, bytes) == outcome
    ensures outcome.None? ==>
      && reply.Reply? && reply.message.Some? && Get(reply.message.value, "content").Arr?
      && Refused(reply, bytes)
         == if Terminal(reply.message.value) && BridgeTurn.AnyExecution(Content(reply.message.value))
            then Some(Failed(EndedEarly)) else None
  {
    hide Terminal, Content, BridgeTurn.AnyExecution;
    if reply.TimedOut? {
      return Some(Expired);
    }
    if reply.Gone? {
      return Some(Abandoned);
    }
    if !IsSuccess(reply.status) {
      return Some(UpstreamFailed(reply.status));
    }
    if reply.length > MaxBody() || bytes + reply.length > MaxBody() {
      return Some(Failed(TooLong));
    }
    if reply.message.None? {
      return Some(Failed(NotJson));
    }
    if !Get(reply.message.value, "content").Arr? {
      return Some(Failed(NoContent));
    }
    outcome := None;
  }

  method RunRounds(messages: seq<Message>, tools: seq<Tool>, env: Env, progress: BridgeStream.Progress?)
    returns (run: Run)
    requires progress != null ==> progress.sent == [] && progress.emitted == 0 && !env.structured
    modifies progress
    ensures Sound(run, messages, tools, env, progress != null)
    ensures progress != null ==> progress.sent == Published(run, env)
    ensures progress != null && run.outcome.Success? ==> progress.InStep(run.shown, env.text)
  {
    hide *;
    ghost var streamed := progress != null;
    var history, ownChoice := messages, true;
    run := Run(Expired, 0, Request(history, tools, ownChoice), [], [], 0, [], 0);
    var log: seq<Round>, report: map<string, Json>, shown: seq<Json>, ids: nat, bytes: nat := [], map[], [], 0, 0;
    var calls: nat, sleeps: seq<Sleep> := 0, [];
    var limits := SearchLimits(tools);
    RecordedStart(messages, tools, env, streamed);
    if progress != null {
      StreamStart(progress, env.text);
    }
    for round := 0 to 4
      invariant |log| == round
      invariant Recorded(log, report, shown, ids, bytes, messages, tools, env, streamed)
      invariant GoesOn(log, env, streamed) && history == NextHistory(log, messages, env) && ownChoice == (round == 0)
      invariant calls == AllTries(env, round) && sleeps == AllSleeps(env, round)
      invariant progress != null ==> Streaming(progress, shown, env.text)
      invariant round == 4 ==> false
    {
      var roundTools := CapTools(tools, limits, SearchesUsed(report));
      var request := Request(history, roundTools, ownChoice);
      RecordedViews(log, report, shown, ids, bytes, messages, tools, env, streamed);
      NextRequestIs(log, messages, tools, env);
      var reply, tried, slept := CallUpstream(round, env);
      NextCalls(env, round);
      calls, sleeps := calls + tried, sleeps + slept;
      var refused := Screen(reply, bytes);
      if refused.Some? {
        SoundRefused(refused.value, log, report, shown, ids, bytes, calls, sleeps, messages, tools, env, streamed);
        run := Run(refused.value, round + 1, request, log, shown, calls, sleeps, 0);
        AllPublished(run, env, progress);
        return;
      }
      var message := reply.message.value;
      IsObject(message);
      var content := Get(message, "content").items;
      var turn := BridgeTurn.ProcessTurn(content, Terminal(message), shown, env.newId, ids);
      if turn.None? {
        SoundRefused(Failed(EndedEarly), log, report, shown, ids, bytes, calls, sleeps, messages, tools, env, streamed);
        run := Run(Failed(EndedEarly), round + 1, request, log, shown, calls, sleeps, 0);
        AllPublished(run, env, progress);
        return;
      }
      var feedback, more := turn.value.feedback, turn.value.shown;
      var completed := Round(request, reply.length, message);
      Accept(log, completed, report, shown, ids, bytes, messages, tools, env, streamed);
      ghost var before, added := log, BridgeTurn.Shown(content, |content|, env.newId, ids);
      report := BridgeUsage.AggregateUsage(report, Get(message, "usage"));
      log, ids, bytes := log + [completed], ids + |feedback|, bytes + reply.length;
      RecordedViews(log, report, more, ids, bytes, messages, tools, env, streamed);
      ClosedWhen(log, env, streamed);
      CutShortWhen(before, completed, shown, more, env, streamed);
      var ok := PublishMore(progress, shown, added, more, env.room(round), env.text);
      if !ok {
        var outcome := WhenCut(env, round);
        NotSuccess(env, round);
        SoundClosed(outcome, log, report, more, ids, bytes, calls, sleeps, 0, messages, tools, env, streamed);
        run := Run(outcome, round + 1, request, log, more, calls, sleeps, 0);
        CutOff(run, env, before, completed, shown);
        return;
      }
      shown := more;
      ContinuesWhen(message);
      if !turn.value.selected || turn.value.clientTools {
        RecordedViews(log, report, shown, ids, bytes, messages, tools, env, streamed);
        var outcome, billed := Conclude(message, shown, report, env, log, streamed);
        SoundClosed(outcome, log, report, shown, ids, bytes, calls, sleeps, billed, messages, tools, env, streamed);
        run := Run(outcome, round + 1, request, log, shown, calls, sleeps, billed);
        AllPublished(run, env, progress);
        return;
      }
      if round + 1 == 4 {
        SoundClosed(Failed(RoundLimit), log, report, shown, ids, bytes, calls, sleeps, 0, messages, tools, env,
                    streamed);
        run := Run(Failed(RoundLimit), round + 1, request, log, shown, calls, sleeps, 0);
        AllPublished(run, env, progress);
        return;
      }
      var next := NextPayload(history, content, feedback, env, log, messages);
      if next.None? {
        SoundClosed(Failed(NotRestored), log, report, shown, ids, bytes, calls, sleeps, 0, messages, tools, env,
                    streamed);
        run := Run(Failed(NotRestored), round + 1, request, log, shown, calls, sleeps, 0);
        AllPublished(run, env, progress);
        return;
      }
      history, ownChoice := next.value, false;
    }
    assert false;
  }

  lemma StreamStart(p: BridgeStream.Progress, text: Json -> string)
    requires p.sent == [] && p.emitted == 0
    ensures Streaming(p, [], text)
  {
  }

  lemma AllPublished(run: Run, env: Env, p: BridgeStream.Progress?)
    requires p != null ==> Streaming(p, run.shown, env.text)
    requires p != null && run.asked == |run.log| ==> run.log != [] && !CutShort(run.log, env, true)
    ensures p != null ==> p.sent == Published(run, env) && p.InStep(run.shown, env.text)
  {
    hide BridgeStream.Events, CutShort;
    if p != null {
      StreamingIsInStep(p, run.shown, env.text);
    }
  }

  lemma CutOff(run: Run, env: Env, before: seq<Round>, round: Round, shown: seq<Json>)
    requires run.asked == |run.log| && run.log == before + [round] && CutShort(run.log, env, true)
    requires shown == ShownFor(before, env.newId)
    ensures Published(run, env)
         == BridgeStream.Take(BridgeStream.Events(run.shown, 0, env.text),
                              |BridgeStream.Events(shown, 0, env.text)| + env.room(|before|))
  {
    hide BridgeStream.Events, BridgeStream.Take, ShownFor, CutShort;
    assert run.log[..|before|] == before;
  }

  lemma CutShortWhen(before: seq<Round>, round: Round, shown: seq<Json>, more: seq<Json>, env: Env, streamed: bool)
    requires shown == ShownFor(before, env.newId) && more == ShownFor(before + [round], env.newId)
    ensures CutShort(before + [round], env, streamed) <==>
      && streamed
      && |BridgeStream.Events(more, 0, env.text)| - |BridgeStream.Events(shown, 0, env.text)| > env.room(|before|)
  {
    hide BridgeStream.Events, ShownFor;
    assert (before + [round])[..|before|] == before;
  }

  lemma AnswerValidIs(log: seq<Round>, shown: seq<Json>, env: Env)
    requires log != [] && shown == ShownFor(log, env.newId)
    ensures var stop := FinalStop(log[|log| - 1].message);
            AnswerValid(log, env) <==> !env.structured || env.valid(Presented(shown, stop, env), stop)
  {
    hide ShownFor, Presented, FinalStop;
  }

  // ----- the streamed run -----

  // What the client saw before the end of the run; a structured answer is not streamed.
  function Streamed(run: Run, env: Env): seq<BridgeStream.Event> {
    if env.structured then [] else Published(run, env)
  }

  // The final message can be read back from its serialized form.
  predicate ReadBack(run: Run, env: Env) {
    run.outcome.Success? && env.size(run.outcome.message) <= MaxBody() && Get(run.outcome.message, "content").Arr?
  }

  predicate Left(run: Run) {
    run.outcome == Failed(Disconnected) || run.outcome == Abandoned
  }

  // What the client has when the run is over: as much of the message as its channel takes, or the
  // failure event when there is no message or it is too long to read back. A client that left gets
  // nothing more.
  function Delivered(run: Run, env: Env): seq<BridgeStream.Event> {
    var before := Streamed(run, env);
    if ReadBack(run, env) then
      BridgeStream.Take(BridgeStream.Whole(run.outcome.message, env.text), |before| + env.tailRoom)
    else if Left(run) then before
    else before + BridgeStream.Take([BridgeStream.Failure], env.tailRoom)
  }

  // The background work of a streamed request.
  method RunStreamed(messages: seq<Message>, tools: seq<Tool>, env: Env, start: Json)
    returns (p: BridgeStream.Progress, run: Run)
    ensures Sound(run, messages, tools, env, !env.structured)
    ensures p.sent == Delivered(run, env)
  {
    hide *;
    p := new BridgeStream.Progress();
    if env.structured {
      run := RunRounds(messages, tools, env, null);
      NothingSent(p, Content(if run.outcome.Success? then run.outcome.message else Null), env.text);
    } else {
      run := RunRounds(messages, tools, env, p);
      if run.outcome.Success? {
        UnstructuredContent(run, messages, tools, env, true);
      }
    }
    DeliveredIs(run, env);
    if run.outcome.Success? && env.size(run.outcome.message) <= MaxBody() {
      FinalContent(run, messages, tools, env, !env.structured);
      var _ := p.Finish(run.outcome.message, start, env.tailRoom, env.text);
    } else if run.outcome != Failed(Disconnected) && run.outcome != Abandoned {
      var _ := p.Send([BridgeStream.Failure], env.tailRoom);
    }
  }

  lemma DeliveredIs(run: Run, env: Env)
    ensures Streamed(run, env) == if env.structured then [] else Published(run, env)
    ensures ReadBack(run, env) <==>
      run.outcome.Success? && env.size(run.outcome.message) <= MaxBody() && Get(run.outcome.message, "content").Arr?
    ensures Delivered(run, env)
         == if ReadBack(run, env)
            then BridgeStream.Take(BridgeStream.Whole(run.outcome.message, env.text),
                                   |Streamed(run, env)| + env.tailRoom)
            else if run.outcome == Failed(Disconnected) || run.outcome == Abandoned then Streamed(run, env)
            else Streamed(run, env) + BridgeStream.Take([BridgeStream.Failure], env.tailRoom)
  {
    hide BridgeStream.Take, BridgeStream.Whole, Published, MaxBody;
  }

  lemma NothingSent(p: BridgeStream.Progress, content: seq<Json>, text: Json -> string)
    requires p.sent == [] && p.emitted == 0
    ensures p.InStep(content, text)
  {
    hide BridgeStream.BlockEvents;
  }

  lemma FinalContent(run: Run, messages: seq<Message>, tools: seq<Tool>, env: Env, streamed: bool)
    requires Sound(run, messages, tools, env, streamed) && run.outcome.Success?
    ensures run.log != [] && Get(run.outcome.message, "content").Arr?
    ensures Content(run.outcome.message) == Get(run.outcome.message, "content").items
         == Presented(run.shown, FinalStop(run.log[|run.log| - 1].message), env)
    ensures Get(run.outcome.message, "usage") == Obj(BridgeUsage.Reported(Usages(run.log)))
    ensures Get(run.outcome.message, "stop_reason") == FinalStop(run.log[|run.log| - 1].message)
  {
    hide *;
    ClosedOutcomes(run, messages, tools, env, streamed);
    SuccessMessage(run, messages, tools, env, streamed);
    LastIsObject(run.log, messages, tools, env, streamed);
    FinalFields(run.log[|run.log| - 1].message, run.shown, BridgeUsage.Reported(Usages(run.log)), env);
    ContentIs(run.outcome.message);
  }

  lemma ContentIs(message: Json)
    requires Get(message, "content").Arr?
    ensures Content(message) == Get(message, "content").items
  {
  }

  lemma SuccessMessage(run: Run, messages: seq<Message>, tools: seq<Tool>, env: Env, streamed: bool)
    requires Sound(run, messages, tools, env, streamed) && run.outcome.Success?
    ensures run.log != [] && Follows(run.log, messages, tools, env, streamed)
    ensures run.outcome.message
         == FinalMessage(run.log[|run.log| - 1].message, run.shown, BridgeUsage.Reported(Usages(run.log)), env)
  {
    hide Follows, CutShort, Continues, AnswerValid, Restored, FinalMessage, BridgeUsage.Reported, Answer, Refused,
         ShownFor;
    if run.asked != |run.log| {
      RefusedKinds(Answer(env, |run.log|), BytesOf(run.log));
    }
  }

  lemma LastIsObject(log: seq<Round>, messages: seq<Message>, tools: seq<Tool>, env: Env, streamed: bool)
    requires log != [] && Follows(log, messages, tools, env, streamed)
    ensures log[|log| - 1].message.Obj?
  {
    hide GoesOn, NextRequest, Answer, Terminal;
    assert RoundFollows(log, |log| - 1, messages, tools, env, streamed);
  }

  lemma UnstructuredContent(run: Run, messages: seq<Message>, tools: seq<Tool>, env: Env, streamed: bool)
    requires Sound(run, messages, tools, env, streamed) && run.outcome.Success? && !env.structured
    ensures Content(run.outcome.message) == run.shown
    ensures Get(run.outcome.message, "content") == Arr(run.shown)
  {
    hide Sound, FinalStop, Content;
    FinalContent(run, messages, tools, env, streamed);
  }

  // ----- when a client gets the whole answer -----

  // A successful run delivers the whole message, each block once and in order with the closing
  // events, exactly when the message can be read back and the channel takes the rest of it. When it
  // can, the client has a prefix in any case. The call is billed either way.
  lemma DeliveredInFullIff(run: Run, messages: seq<Message>, tools: seq<Tool>, env: Env)
    requires Sound(run, messages, tools, env, !env.structured) && run.outcome.Success?
    ensures Get(run.outcome.message, "content").Arr?
    ensures var whole := BridgeStream.Whole(run.outcome.message, env.text);
            && Streamed(run, env) <= whole
            && (env.size(run.outcome.message) <= MaxBody() ==> Delivered(run, env) <= whole)
            && (Delivered(run, env) == whole <==>
                  env.size(run.outcome.message) <= MaxBody() && |whole| - |Streamed(run, env)| <= env.tailRoom)
    ensures run.billed == if env.countCall && env.hasKeys then 1 else 0
  {
    hide *;
    FinalContent(run, messages, tools, env, !env.structured);
    if !env.structured {
      UnstructuredContent(run, messages, tools, env, true);
    }
    StreamedBefore(run, env);
    DeliveredIs(run, env);
    WholeEnds(run.outcome.message, env.text);
    Deliveries(Streamed(run, env), BridgeStream.Whole(run.outcome.message, env.text), env.tailRoom);
    BilledOnSuccess(run, messages, tools, env);
  }

  // The message a successful run ends with, in terms of the last answer upstream gave: its stop reason
  // unless reserved uses were answered, and every other field but content and usage as it was.
  lemma FinalMeans(run: Run, messages: seq<Message>, tools: seq<Tool>, env: Env, streamed: bool, key: string)
    requires Sound(run, messages, tools, env, streamed) && run.outcome.Success?
    ensures run.log != []
    ensures var last, final := run.log[|run.log| - 1].message, run.outcome.message;
            && Get(final, "stop_reason")
               == (if EndsNormally(last) && HasReserved(last)
                   then (if HasClientUse(last) then Str("tool_use") else Str("end_turn")) else Get(last, "stop_reason"))
            && (key != "content" && key != "usage" && key != "stop_reason" ==> Get(final, key) == Get(last, key))
            && (!env.structured ==> Get(final, "content") == Arr(run.shown))
  {
    hide *;
    FinalContent(run, messages, tools, env, streamed);
    SuccessMessage(run, messages, tools, env, streamed);
    StopMeans(run.log[|run.log| - 1].message);
    if key != "content" && key != "usage" && key != "stop_reason" {
      FinalKeeps(run.log[|run.log| - 1].message, run.shown, BridgeUsage.Reported(Usages(run.log)), env, key);
    }
    if !env.structured {
      UnstructuredContent(run, messages, tools, env, streamed);
    }
  }

  // A client that is sent the whole message of a successful run is told last that it ended, and
  // before that how it stopped; everything else it is sent belongs to blocks. Following the events it
  // ends with the message's stop reason, stop sequence, usage and blocks.
  lemma FullDelivery(run: Run, messages: seq<Message>, tools: seq<Tool>, env: Env, p: BridgeStream.Printer)
    requires Sound(run, messages, tools, env, !env.structured) && run.outcome.Success?
    requires Get(run.outcome.message, "content").Arr? && env.size(run.outcome.message) <= MaxBody()
    requires |BridgeStream.Whole(run.outcome.message, env.text)| - |Streamed(run, env)| <= env.tailRoom
    requires p.print_ == env.text
    requires forall i :: 0 <= i < |Get(run.outcome.message, "content").items| ==>
      BridgeStream.ReadsBack(Get(run.outcome.message, "content").items[i], p)
    ensures var sent, m := Delivered(run, env), run.outcome.message;
            && |sent| >= 2 && sent[|sent| - 1] == BridgeStream.MessageStop
            && sent[|sent| - 2]
               == BridgeStream.MessageDelta(Get(m, "stop_reason"), Get(m, "stop_sequence"), Get(m, "usage"))
            && forall k :: 0 <= k < |sent| - 2 ==> BridgeStream.OfBlock(sent[k])
    ensures var m := run.outcome.message;
            var client := BridgeStream.ReceiveAll(BridgeStream.NewClient(), Delivered(run, env), p.parse);
            && client.Some? && client.value.ended && client.value.open.None?
            && client.value.closing == Some((Get(m, "stop_reason"), Get(m, "stop_sequence"), Get(m, "usage")))
            && |client.value.done| == |Get(m, "content").items|
            && forall i :: 0 <= i < |client.value.done| ==>
                 var block := Get(m, "content").items[i];
                 client.value.done[i] == block <==> BridgeStream.Streamable(block)
  {
    hide *;
    DeliveredInFullIff(run, messages, tools, env);
    BridgeStream.WholeIs(run.outcome.message, env.text);
    BridgeStream.ClientRebuilds(run.outcome.message, p);
  }

  lemma BilledOnSuccess(run: Run, messages: seq<Message>, tools: seq<Tool>, env: Env)
    requires Sound(run, messages, tools, env, !env.structured) && run.outcome.Success?
    ensures run.billed == if env.countCall && env.hasKeys then 1 else 0
  {
    hide Follows, EndsAs, ShownFor, AllTries, AllSleeps;
  }

  lemma StreamedBefore(run: Run, env: Env)
    requires run.outcome.Success? && Get(run.outcome.message, "content").Arr?
    requires !env.structured ==> Get(run.outcome.message, "content") == Arr(run.shown)
    ensures |Streamed(run, env)| + 2 <= |BridgeStream.Whole(run.outcome.message, env.text)|
    ensures Streamed(run, env) <= BridgeStream.Whole(run.outcome.message, env.text)
  {
    hide BridgeStream.Events;
  }

  lemma WholeEnds(message: Json, text: Json -> string)
    requires Get(message, "content").Arr?
    ensures var whole := BridgeStream.Whole(message, text);
            whole != [] && whole[|whole| - 1] == BridgeStream.MessageStop
  {
    hide BridgeStream.Events;
  }

  lemma Deliveries(before: seq<BridgeStream.Event>, whole: seq<BridgeStream.Event>, room: nat)
    requires |before| < |whole| && before <= whole && whole[|whole| - 1] == BridgeStream.MessageStop
    ensures BridgeStream.Take(whole, |before| + room) <= whole
    ensures BridgeStream.Take(whole, |before| + room) == whole <==> |whole| - |before| <= room
    ensures before + BridgeStream.Take([BridgeStream.Failure], room) != whole
  {
    var failed := before + BridgeStream.Take([BridgeStream.Failure], room);
    if room > 0 {
      assert failed[|failed| - 1] == BridgeStream.Failure;
    } else {
      assert failed == before;
    }
  }

  // ----- an answer that is billed and not delivered -----

  function ReservedUse(): Json {
    Obj(map["type" := Str("tool_use"), "name" := Str("__kiro_server_bash_execution")])
  }

  // A round of a text, a use of a reserved tool and one of a tool of the client.
  function MixedMessage(text: string): Json {
    Obj(map["content" := Arr([Obj(map["type" := Str("text"), "text" := Str(text)]),
                              ReservedUse(),
                              Obj(map["type" := Str("tool_use"), "name" := Str("get_weather")])]),
            "stop_reason" := Str("tool_use")])
  }

  lemma {:induction false} EventsAtMost(blocks: seq<Json>, offset: nat, text: Json -> string)
    ensures |BridgeStream.Events(blocks, offset, text)| <= 4 * |blocks|
  {
    hide BridgeStream.BlockEvents;
    if blocks != [] {
      BlockEventsAtMost(blocks[0], offset, text);
      EventsAtMost(blocks[1..], offset + 1, text);
    }
  }

  lemma BlockEventsAtMost(block: Json, index: nat, text: Json -> string)
    ensures |BridgeStream.BlockEvents(block, index, text)| <= 4
  {
  }

  lemma {:induction false} ShownAtMost(blocks: seq<Json>, i: nat, newId: nat -> string, n: nat)
    requires i <= |blocks|
    ensures |BridgeTurn.Shown(blocks, i, newId, n)| <= 2 * i
  {
    hide BridgeTurn.IsExecution, BridgeTurn.CallOf, BridgeTurn.UnavailableOf;
    if i > 0 {
      ShownAtMost(blocks, i - 1, newId, n);
    }
  }

  lemma MixedCloses(m: Json, text: string)
    requires m == MixedMessage(text)
    ensures m.Obj? && Get(m, "content").Arr? && |Content(m)| == 3
    ensures !Terminal(m) && !Continues(m)
  {
    hide ReservedUse;
    assert "content" != "stop_reason";
    var uses := Content(m);
    assert "type" != "name";
    assert Get(uses[2], "type") == Str("tool_use") && Get(uses[2], "name") == Str("get_weather");
    assert |"get_weather"| == 11 && |"__kiro_server_bash_execution"| == 28
        && |"__kiro_server_text_editor_execution"| == 35;
    assert BridgeTurn.IsUse(uses[2]) && !BridgeTurn.IsExecution(uses[2]);
  }

  // What upstream answers a round at its first call, and the round this makes.
  lemma {:induction false} AcceptReply(log: seq<Round>, report: map<string, Json>, shown: seq<Json>, ids: nat,
                                       bytes: nat,
                                       m: Json, length: nat, messages: seq<Message>, tools: seq<Tool>, env: Env,
                                       streamed: bool) returns (round: Round)
    requires Recorded(log, report, shown, ids, bytes, messages, tools, env, streamed) && GoesOn(log, env, streamed)
    requires Get(m, "content").Arr? && !Terminal(m)
    requires env.reply(|log|, 0) == Reply(200, Missing, 0, 0, length, Some(m)) && bytes + length <= MaxBody()
    ensures round == Round(NextRequest(log, messages, tools, env), length, m)
    ensures Recorded(log + [round], BridgeUsage.Merge(report, Get(m, "usage")),
                     shown + BridgeTurn.Shown(Content(m), |Content(m)|, env.newId, ids),
                     ids + BridgeTurn.Executions(Content(m), |Content(m)|), bytes + length,
                     messages, tools, env, streamed)
  {
    hide *;
    round := Round(NextRequest(log, messages, tools, env), length, m);
    NotRefused(env, |log|, m, length, bytes);
    Accept(log, round, report, shown, ids, bytes, messages, tools, env, streamed);
  }

  lemma NotRefused(env: Env, round: nat, m: Json, length: nat, bytes: nat)
    requires Get(m, "content").Arr? && !Terminal(m)
    requires env.reply(round, 0) == Reply(200, Missing, 0, 0, length, Some(m)) && bytes + length <= MaxBody()
    ensures Refused(Answer(env, round), bytes).None?
    ensures Answer(env, round).message == Some(m) && Answer(env, round).length == length
  {
    hide Terminal, Content;
  }

  // Upstream's answer fits the body limit, and the message the bridge makes of it does not: the run
  // succeeds and is billed, and the client gets the blocks and a failure, but no end of message.
  lemma OversizedAnswer(messages: seq<Message>, tools: seq<Tool>, env: Env, text: string)
    requires !env.structured && env.countCall && env.hasKeys && env.room(0) >= 24
    requires env.size(MixedMessage(text)) <= MaxBody()
    requires env.reply(0, 0) == Reply(200, Missing, 0, 0, env.size(MixedMessage(text)), Some(MixedMessage(text)))
    requires env.size(FinalOfMixed(text, env)) > MaxBody()
    ensures exists run ::
      && Sound(run, messages, tools, env, true) && run.outcome == Success(FinalOfMixed(text, env)) && run.billed == 1
      && Get(run.outcome.message, "content").Arr?
      && Delivered(run, env) != BridgeStream.Whole(run.outcome.message, env.text)
  {
    hide *;
    var run := MixedRun(messages, tools, env, text);
    DeliveredInFullIff(run, messages, tools, env);
  }

  // The message a run of that one round ends with.
  function FinalOfMixed(text: string, env: Env): Json {
    var m := MixedMessage(text);
    FinalMessage(m, BridgeTurn.Shown(Content(m), |Content(m)|, env.newId, 0),
                 BridgeUsage.Merge(map[], Get(m, "usage")), env)
  }

  lemma FinalOfMixedIs(m: Json, text: string, env: Env)
    requires m == MixedMessage(text)
    ensures FinalOfMixed(text, env)
         == FinalMessage(m, [] + BridgeTurn.Shown(Content(m), |Content(m)|, env.newId, 0),
                         BridgeUsage.Merge(map[], Get(m, "usage")), env)
  {
    hide MixedMessage, Content, FinalMessage, BridgeTurn.Shown, BridgeUsage.Merge;
    var shown := BridgeTurn.Shown(Content(m), |Content(m)|, env.newId, 0);
    assert [] + shown == shown;
  }

  lemma {:induction false} MixedRun(messages: seq<Message>, tools: seq<Tool>, env: Env, text: string) returns (run: Run)
    requires !env.structured && env.countCall && env.hasKeys && env.room(0) >= 24
    requires env.size(MixedMessage(text)) <= MaxBody()
    requires env.reply(0, 0) == Reply(200, Missing, 0, 0, env.size(MixedMessage(text)), Some(MixedMessage(text)))
    ensures Sound(run, messages, tools, env, true) && run.outcome == Success(FinalOfMixed(text, env)) && run.billed == 1
  {
    hide *;
    var m := MixedMessage(text);
    MixedCloses(m, text);
    RecordedStart(messages, tools, env, true);
    var round := AcceptReply([], map[], [], 0, 0, m, env.size(m), messages, tools, env, true);
    var content := Content(m);
    var shown := [] + BridgeTurn.Shown(content, |content|, env.newId, 0);
    var report := BridgeUsage.Merge(map[], Get(m, "usage"));
    var ids := 0 + BridgeTurn.Executions(content, |content|);
    assert [] + [round] == [round];
    RecordedViews([round], report, shown, ids, 0 + env.size(m), messages, tools, env, true);
    ClosedWhen([round], env, true);
    AnswerValidIs([round], shown, env);
    ShownAtMost(content, |content|, env.newId, 0);
    EventsAtMost(shown, 0, env.text);
    RecordedViews([], map[], [], 0, 0, messages, tools, env, true);
    CutShortWhen([], round, [], shown, env, true);
    FinalOfMixedIs(m, text, env);
    var outcome := Success(FinalMessage(m, shown, report, env));
    SoundClosed(outcome, [round], report, shown, ids, 0 + env.size(m), AllTries(env, 1), AllSleeps(env, 1), 1,
                messages, tools, env, true);
    run := Run(outcome, 1, round.request, [round], shown, AllTries(env, 1), AllSleeps(env, 1), 1);
  }

  // ----- what a sound run means -----

  // The final message reports, at every path, the sum of what its rounds reported.
  lemma UsageIsSum(run: Run, messages: seq<Message>, tools: seq<Tool>, env: Env, streamed: bool, s: BridgeUsage.Shape,
                   path: seq<string>)
    requires Sound(run, messages, tools, env, streamed) && run.outcome.Success?
    requires BridgeUsage.AllFit(Usages(run.log), s) && BridgeUsage.NoOverflow(Usages(run.log), path)
    ensures BridgeUsage.AmountAt(Get(run.outcome.message, "usage"), path) == BridgeUsage.SumAt(Usages(run.log), path)
  {
    hide *;
    FinalContent(run, messages, tools, env, streamed);
    BridgeUsage.ReportIsPointwiseSum(Usages(run.log), s, path);
  }

  // Whatever the shapes: without negative numbers it does exactly when every merge keeps the sum.
  lemma UsageAddsUpIff(run: Run, messages: seq<Message>, tools: seq<Tool>, env: Env, streamed: bool, path: seq<string>)
    requires Sound(run, messages, tools, env, streamed) && run.outcome.Success?
    requires BridgeUsage.AllNonNegative(Usages(run.log))
    ensures BridgeUsage.AmountAt(Get(run.outcome.message, "usage"), path) == BridgeUsage.SumAt(Usages(run.log), path)
        <==> BridgeUsage.AllKeep(Usages(run.log), path)
  {
    hide *;
    FinalContent(run, messages, tools, env, streamed);
    BridgeUsage.ReportAddsUpIff(Usages(run.log), path);
  }

  lemma {:induction false} ShownNotReserved(log: seq<Round>, newId: nat -> string)
    ensures BridgeTurn.NoneReserved(ShownFor(log, newId))
  {
    hide BridgeTurn.Shown, Content, BridgeTurn.NamesReserved;
    if log != [] {
      var content := Content(log[|log| - 1].message);
      ShownNotReserved(log[..|log| - 1], newId);
      BridgeTurn.NoReservedShown(content, |content|, newId, Answers(log[..|log| - 1]));
    }
  }

  lemma {:induction false} WithTextNotReserved(content: seq<Json>, t: string, replaced: bool)
    requires BridgeTurn.NoneReserved(content)
    ensures BridgeTurn.NoneReserved(WithText(content, t, replaced))
  {
    hide BridgeTurn.NamesReserved;
    if content != [] {
      assert BridgeTurn.NoneReserved(content[1..]);
      WithTextNotReserved(content[1..], t, replaced || Get(content[0], "type") == Str("text"));
      if Get(content[0], "type") == Str("text") {
        TextNotReserved(content[0], t);
      }
    }
  }

  lemma TextNotReserved(block: Json, t: string)
    requires Get(block, "type") == Str("text")
    ensures !BridgeTurn.NamesReserved(Obj(block.fields["text" := Str(t)] - {"citations"}))
  {
    var r := Obj(block.fields["text" := Str(t)] - {"citations"});
    assert "type" != "text" && |"citations"| == 9 && |"type"| == 4;
    assert Get(r, "type") == Str("text");
    assert |"tool_use"| == 8;
  }

  // Whatever happens, the client sees no use of a reserved tool, streamed or buffered.
  lemma {:induction false} NoReservedVisible(run: Run, messages: seq<Message>, tools: seq<Tool>, env: Env,
                                             streamed: bool)
    requires Sound(run, messages, tools, env, streamed)
    ensures BridgeTurn.NoneReserved(run.shown)
    ensures run.outcome.Success? ==> BridgeTurn.NoneReserved(Content(run.outcome.message))
  {
    hide BridgeTurn.NoneReserved, Follows, GoodSleep, Continues, FinalStop, FinalMessage, WithText,
         BridgeUsage.Reported;
    ShownNotReserved(run.log, env.newId);
    if run.outcome.Success? {
      FinalContent(run, messages, tools, env, streamed);
      var stop := FinalStop(run.log[|run.log| - 1].message);
      if env.structured && env.identity(run.shown, stop).Some? {
        WithTextNotReserved(run.shown, env.identity(run.shown, stop).value, false);
      }
    }
  }

  // Some feedback answers the id of the use, as an error.
  ghost predicate HasAnswer(feedback: seq<Json>, block: Json) {
    exists k :: 0 <= k < |feedback| && AnswersUse(feedback[k], block)
  }

  predicate AnswersUse(feedback: Json, block: Json) {
    && Get(feedback, "type") == Str("tool_result") && Get(feedback, "tool_use_id") == Get(block, "id")
    && Get(feedback, "is_error") == Bool(true)
    && var text := Get(feedback, "content"); text.Str? && EndsWith(text.s, "No command was run.")
  }

  // The request of round n of a run, also of one that was refused.
  function RequestOf(run: Run, n: nat): Request
    requires n < run.asked <= |run.log| + 1
  {
    if n < |run.log| then run.log[n].request else run.last
  }

  lemma RequestFollows(run: Run, messages: seq<Message>, tools: seq<Tool>, env: Env, streamed: bool, n: nat)
    requires Sound(run, messages, tools, env, streamed) && n < run.asked
    ensures |run.log| <= run.asked <= |run.log| + 1
    ensures RequestOf(run, n) == NextRequest(run.log[..n], messages, tools, env) && GoesOn(run.log[..n], env, streamed)
  {
    hide Closed, Refused, AllTries, AllSleeps, ShownFor, RoundFollows, GoesOn, NextRequest;
    if n < |run.log| {
      LastRequest(run.log, n, messages, tools, env, streamed);
      Passed(run.log, n, messages, tools, env, streamed);
    } else {
      assert run.log[..n] == run.log;
    }
  }

  // Every round asked after another, refused or not, is asked with the old history, that round's
  // content and a message that answers each of its tool uses, restored and normalized, and with an
  // automatic tool choice.
  lemma {:induction false} ContinuedRoundPaired(run: Run, messages: seq<Message>, tools: seq<Tool>, env: Env,
                                                streamed: bool, n: nat, i: nat)
    requires Sound(run, messages, tools, env, streamed)
    requires n < |run.log| && n + 1 < run.asked <= |run.log| + 1
    requires i < |Content(run.log[n].message)| && BridgeTurn.IsUse(Content(run.log[n].message)[i])
    ensures var content := Content(run.log[n].message);
            var feedback := BridgeTurn.Feedback(content, |content|);
            var asked := RequestOf(run, n).messages + [Assistant(content), Message("user", Arr(feedback))];
            && env.restore(asked).Some?
            && RequestOf(run, n + 1).messages == Normalized(env.restore(asked).value, env.text)
            && !RequestOf(run, n + 1).ownChoice
            && HasAnswer(feedback, content[i])
  {
    hide Normalized, Content, Terminal, CappedTools, BridgeTurn.AnyClientUse, BridgeTurn.IsUse, BridgeTurn.FeedbackOf,
         BridgeTurn.Feedback, FinalMessage, CutShort, AnswerValid, AnswersUse, BridgeUsage.Reported, Usages, Sound;
    var content := Content(run.log[n].message);
    RequestFollows(run, messages, tools, env, streamed, n + 1);
    assert run.log[..n + 1][n] == run.log[n];
    BridgeTurn.FeedbackCovers(content, |content|, i);
    AnswersWhen(content[i]);
  }

  lemma AnswersWhen(block: Json)
    requires BridgeTurn.IsUse(block)
    ensures AnswersUse(BridgeTurn.FeedbackOf(block), block)
  {
    hide BridgeTurn.FeedbackOf, EndsWith;
    BridgeTurn.FeedbackNamesUse(block);
    BridgeTurn.FeedbackSays(block, Get(BridgeTurn.FeedbackOf(block), "content"));
  }

  // ----- searches over a whole run -----

  // Round n searched no more than the limit it was sent for tool `t`.
  predicate RoundHonours(round: Round, t: nat) {
    && t < |round.request.tools| && round.request.tools[t].maxUses.Some?
    && 0 <= Searches(Get(round.message, "usage")) <= round.request.tools[t].maxUses.value
  }

  predicate AllHonour(log: seq<Round>, t: nat) {
    forall k :: 0 <= k < |log| ==> RoundHonours(log[k], t)
  }

  // That is to search no more than the request's limit leaves of the searches reported before.
  lemma {:induction false} HonourIff(log: seq<Round>, n: nat, messages: seq<Message>, tools: seq<Tool>, env: Env,
                                     streamed: bool, t: nat, limit: int)
    requires n <= |log| && Follows(log, messages, tools, env, streamed)
    requires t < |tools| && LimitOf(SearchLimits(tools), tools[t].name) == Some(limit)
    ensures AllHonour(log[..n], t) <==> RoundsHonour(Usages(log[..n]), limit)
  {
    hide *;
    if n == 0 {
      assert log[..0] == [];
      HonourNone(t, limit);
    } else {
      HonourIff(log, n - 1, messages, tools, env, streamed, t, limit);
      assert log[..n] == log[..n - 1] + [log[n - 1]];
      LastRequest(log, n - 1, messages, tools, env, streamed);
      NextRequestIs(log[..n - 1], messages, tools, env);
      PushViews(log[..n - 1], log[n - 1], env.newId);
      var used := SearchesUsed(BridgeUsage.Reported(Usages(log[..n - 1])));
      HonoursWhen(log[n - 1], tools, t, limit, used);
      HonourPush(Usages(log[..n - 1]), Get(log[n - 1].message, "usage"), limit);
      AllHonourPush(log[..n - 1], log[n - 1], t);
    }
  }

  lemma HonourNone(t: nat, limit: int)
    ensures AllHonour([], t) && RoundsHonour(Usages([]), limit)
  {
  }

  lemma HonoursWhen(round: Round, tools: seq<Tool>, t: nat, limit: int, used: int)
    requires t < |tools| && LimitOf(SearchLimits(tools), tools[t].name) == Some(limit)
    requires round.request.tools == CappedTools(tools, SearchLimits(tools), used)
    ensures RoundHonours(round, t) <==> 0 <= Searches(Get(round.message, "usage")) <= Remaining(limit, used)
  {
    hide Searches, Get, Remaining, LimitOf, SearchLimits;
    assert round.request.tools[t] == Capped(tools[t], SearchLimits(tools), used);
  }

  lemma AllHonourPush(log: seq<Round>, round: Round, t: nat)
    ensures AllHonour(log + [round], t) <==> AllHonour(log, t) && RoundHonours(round, t)
  {
    hide RoundHonours;
    var more := log + [round];
    assert more[|log|] == round;
    assert forall k :: 0 <= k < |log| ==> more[k] == log[k];
  }

  // When each round honours the limit it is sent, the run's searches stay within the request's limit
  // unless a report loses the count, and within twice the limit in any case. The report of the run
  // counts them all exactly when no report loses the count.
  lemma {:induction false} RunWithinSearchLimit(run: Run, messages: seq<Message>, tools: seq<Tool>, env: Env,
                                                streamed: bool, t: nat, limit: int)
    requires Sound(run, messages, tools, env, streamed)
    requires t < |tools| && LimitOf(SearchLimits(tools), tools[t].name) == Some(limit) && I32Min() <= limit <= I32Max()
    requires AllHonour(run.log, t)
    ensures var us, allowed := Usages(run.log), if limit < 0 then 0 else limit;
            && 0 <= TotalSearches(us) <= 2 * allowed
            && (Forgotten(us) == 0 ==> TotalSearches(us) <= allowed)
            && (Searches(Obj(BridgeUsage.Reported(us))) == TotalSearches(us) <==> Forgotten(us) == 0)
  {
    hide *;
    RunRoundsFollow(run, messages, tools, env, streamed);
    RunBounds(run, messages, tools, env, streamed);
    assert run.log[..|run.log|] == run.log;
    HonourIff(run.log, |run.log|, messages, tools, env, streamed, t, limit);
    UsagesCount(run.log);
    FourRoundsSearchTwice(Usages(run.log), limit);
    CountedIff(Usages(run.log), limit);
    if Forgotten(Usages(run.log)) == 0 {
      SearchesWithinLimit(Usages(run.log), limit);
    }
  }

  lemma RunRoundsFollow(run: Run, messages: seq<Message>, tools: seq<Tool>, env: Env, streamed: bool)
    requires Sound(run, messages, tools, env, streamed)
    ensures Follows(run.log, messages, tools, env, streamed)
  {
    hide Follows, EndsAs, NextRequest, AllTries, AllSleeps, ShownFor;
  }

  lemma {:induction false} UsagesCount(log: seq<Round>)
    ensures |Usages(log)| == |log|
  {
    if log != [] {
      UsagesCount(log[..|log| - 1]);
    }
  }

  // ----- a run that searches twice its limit -----

  // A round that goes on because of a reserved tool, or the last one.
  function SearchMessage(report: Json, goesOn: bool): Json {
    Obj(map["content" := Arr(if goesOn then [ReservedUse()] else []),
            "stop_reason" := Str(if goesOn then "tool_use" else "end_turn"),
            "usage" := report])
  }

  lemma SearchMessageIs(m: Json, report: Json, goesOn: bool)
    requires m == SearchMessage(report, goesOn)
    ensures m.Obj? && Get(m, "content").Arr? && Get(m, "usage") == report
    ensures !Terminal(m) && (Continues(m) <==> goesOn)
  {
    assert "content" != "stop_reason" && "content" != "usage" && "stop_reason" != "usage" && "type" != "name";
    if goesOn {
      assert Content(m) == [ReservedUse()];
      var use := Content(m)[0];
      assert Get(use, "type") == Str("tool_use") && Get(use, "name") == Str("__kiro_server_bash_execution");
      assert BridgeTurn.IsExecution(use);
    }
  }

  function SearchReply(report: Json, goesOn: bool, length: nat): Reply {
    Reply(200, Missing, 0, 0, length, Some(SearchMessage(report, goesOn)))
  }

  // Upstream uses up the limit, then reports a null search section, and uses the limit up again.
  predicate SearchesTwice(env: Env, limit: int, length: nat) {
    && env.reply(0, 0) == SearchReply(SearchReport(limit), true, length)
    && env.reply(1, 0) == SearchReply(NullReport(), true, length)
    && env.reply(2, 0) == SearchReply(SearchReport(limit), false, length)
  }

  // Each round honours the limit it is sent, and the run searches twice the request's limit.
  lemma {:induction false} RunSearchesTwice(messages: seq<Message>, tools: seq<Tool>, env: Env, t: nat, limit: int,
                                            length: nat)
    requires t < |tools| && LimitOf(SearchLimits(tools), tools[t].name) == Some(limit) && 0 < limit <= I32Max()
    requires !env.structured && (forall h :: env.restore(h).Some?)
    requires SearchesTwice(env, limit, length) && 3 * length <= MaxBody()
    ensures exists run ::
      && Sound(run, messages, tools, env, false) && run.outcome.Success?
      && AllHonour(run.log, t) && TotalSearches(Usages(run.log)) == 2 * limit
  {
    hide *;
    var run := TwiceRun(messages, tools, env, limit, length);
    RunRoundsFollow(run, messages, tools, env, false);
    assert run.log[..|run.log|] == run.log;
    HonourIff(run.log, |run.log|, messages, tools, env, false, t, limit);
    TwiceTheLimit(limit);
  }

  lemma {:induction false} TwiceRun(messages: seq<Message>, tools: seq<Tool>, env: Env, limit: int, length: nat)
    returns (run: Run)
    requires !env.structured && (forall h :: env.restore(h).Some?)
    requires SearchesTwice(env, limit, length) && 3 * length <= MaxBody()
    ensures Sound(run, messages, tools, env, false) && run.outcome.Success?
    ensures Usages(run.log) == [SearchReport(limit), NullReport(), SearchReport(limit)]
  {
    hide *;
    TwiceReplies(env, limit, length);
    RecordedStart(messages, tools, env, false);
    var a, report, shown, ids, bytes :=
      NextSearch([], map[], [], 0, 0, SearchReport(limit), true, length, messages, tools, env);
    assert [] + [a] == [a];
    var b, report1, shown1, ids1, bytes1 :=
      NextSearch([a], report, shown, ids, bytes, NullReport(), true, length, messages, tools, env);
    assert [a] + [b] == [a, b];
    var c, report2, shown2, ids2, bytes2 :=
      NextSearch([a, b], report1, shown1, ids1, bytes1, SearchReport(limit), false, length, messages, tools, env);
    assert [a, b] + [c] == [a, b, c];
    PushViews([], a, env.newId);
    PushViews([a], b, env.newId);
    PushViews([a, b], c, env.newId);
    NoUsages();
    var log := [a, b, c];
    var outcome := Closed(log, env, false).value;
    var billed := if env.countCall && env.hasKeys then 1 else 0;
    SoundClosed(outcome, log, report2, shown2, ids2, bytes2, AllTries(env, 3), AllSleeps(env, 3), billed,
                messages, tools, env, false);
    run := Run(outcome, 3, log[|log| - 1].request, log, shown2, AllTries(env, 3), AllSleeps(env, 3), billed);
  }

  lemma NoUsages()
    ensures Usages([]) == []
  {
  }

  lemma TwiceReplies(env: Env, limit: int, length: nat)
    requires SearchesTwice(env, limit, length)
    ensures env.reply(0, 0) == SearchReply(SearchReport(limit), true, length)
    ensures env.reply(1, 0) == SearchReply(NullReport(), true, length)
    ensures env.reply(2, 0) == SearchReply(SearchReport(limit), false, length)
  {
    hide SearchReply, SearchReport, NullReport;
  }

  lemma SearchReplyIs(report: Json, goesOn: bool, length: nat)
    ensures SearchReply(report, goesOn, length)
         == Reply(200, Missing, 0, 0, length, Some(SearchMessage(report, goesOn)))
  {
    hide SearchMessage;
  }

  // One more such round, and whether the run goes on after it.
  lemma {:induction false} NextSearch(log: seq<Round>, report: map<string, Json>, shown: seq<Json>, ids: nat,
                                      bytes: nat,
                                      usage: Json, goesOn: bool, length: nat, messages: seq<Message>, tools: seq<Tool>,
                                      env: Env)
    returns (round: Round, nextReport: map<string, Json>, nextShown: seq<Json>, nextIds: nat, nextBytes: nat)
    requires Recorded(log, report, shown, ids, bytes, messages, tools, env, false) && GoesOn(log, env, false)
    requires !env.structured && (forall h :: env.restore(h).Some?)
    requires |log| < 3 && env.reply(|log|, 0) == SearchReply(usage, goesOn, length) && bytes + length <= MaxBody()
    ensures Recorded(log + [round], nextReport, nextShown, nextIds, nextBytes, messages, tools, env, false)
    ensures nextBytes == bytes + length && Get(round.message, "usage") == usage
    ensures if goesOn then GoesOn(log + [round], env, false)
            else Closed(log + [round], env, false).Some? && Closed(log + [round], env, false).value.Success?
  {
    hide *;
    var m := SearchMessage(usage, goesOn);
    SearchMessageIs(m, usage, goesOn);
    SearchReplyIs(usage, goesOn, length);
    round := AcceptReply(log, report, shown, ids, bytes, m, length, messages, tools, env, false);
    nextReport := BridgeUsage.Merge(report, Get(m, "usage"));
    nextShown := shown + BridgeTurn.Shown(Content(m), |Content(m)|, env.newId, ids);
    nextIds, nextBytes := ids + BridgeTurn.Executions(Content(m), |Content(m)|), bytes + length;
    var more := log + [round];
    ClosedWhen(more, env, false);
    NeverCut(more, env);
    AnswerValidIs(more, ShownFor(more, env.newId), env);
    RestoredIs(more, messages, env);
  }

  lemma NeverCut(log: seq<Round>, env: Env)
    requires log != []
    ensures !CutShort(log, env, false)
  {
  }
}
