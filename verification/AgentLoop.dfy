/**
 The model-driven agent loop. The environment of a run is a list of rounds: what is queued, what
 the provider answers and what the tools return between two requests, all of them arbitrary.
 */
module AgentLoop {
  import opened Contracts

  datatype ToolCall = ToolCall(id: string, name: string, arguments: Option<string>, errorCode: Option<string>)

  datatype ToolResult = ToolResult(callId: string, name: string, content: string, isError: bool)

  /** A chat message; an assistant message lists the ids of its tool calls. */
  datatype Message =
    | System(content: string)
    | User(content: string)
    | Assistant(content: string, calls: seq<string>)
    | Tool(callId: string, content: string)

  datatype Usage = Usage(
    requestId: string, model: string, stopReason: string,
    input: nat, output: nat, cacheCreation: nat, cacheRead: nat, latency: nat, retries: nat)

  datatype ModelTurn = ModelTurn(content: string, stopReason: string, toolCalls: seq<ToolCall>, usage: Usage,
      assistant: Message)

  /** An entry of the loop's own transcript. */
  datatype Entry =
    | Said(role: string, content: string)
    | Steered(content: string)
    | FollowedUp(content: string)
    | ToolEntry(result: ToolResult)

  datatype Output = Output(content: string, isError: bool)

  /**
   queuedSteering and queuedFollowUps arrive before the loop looks at its queues. The provider may
   fail, and the sink of the loop's events may raise when a turn starts or when its message has
   ended. The tools are interrupted if they are cancelled or one of their events raises.
   */
  datatype Round = Round(
    aborted: bool, queuedSteering: seq<string>, startRaises: bool, turn: Option<ModelTurn>, endRaises: bool,
    queuedFollowUps: seq<string>, outputs: nat -> Output, toolsInterrupted: bool)

  datatype State = State(
    messages: seq<Message>, transcript: seq<Entry>, steering: seq<string>, followUps: seq<string>,
    usage: Option<Usage>, toolCount: nat, turn: nat,
    requests: seq<seq<Message>>, turns: seq<ModelTurn>)   // histories: what was sent, what came back

  datatype Stop =
    | Finished(content: string, usage: Option<Usage>, turns: nat, toolCalls: nat)
    | Aborted | StartRaised | ProviderError | EndRaised(openCalls: bool)
    | ToolUseWithoutCalls | ExecutorMissing | ToolsInterrupted

  datatype Progress = Continue(s: State) | Done(stop: Stop, s: State) | Unfinished(s: State)

  const CONTINUE := "Continue the previous response."

  // ----- One round -----

  function Users(contents: seq<string>): seq<Message> {
    seq(|contents|, i requires 0 <= i < |contents| => User(contents[i]))
  }

  function SteeredEntries(contents: seq<string>): seq<Entry> {
    seq(|contents|, i requires 0 <= i < |contents| => Steered(contents[i]))
  }

  /** The first turn's usage as it is; afterwards counters add up and the identification is the newest. */
  function MergeUsage(current: Option<Usage>, incoming: Usage): Usage {
    if current.None? then incoming
    else
      var c := current.value;
      incoming.(input := c.input + incoming.input, output := c.output + incoming.output,
                cacheCreation := c.cacheCreation + incoming.cacheCreation,
                cacheRead := c.cacheRead + incoming.cacheRead,
                latency := c.latency + incoming.latency, retries := c.retries + incoming.retries)
  }

  function Invoke(call: ToolCall, output: Output): ToolResult {
    if call.errorCode.Some? then ToolResult(call.id, call.name, call.errorCode.value, true)
    else if call.arguments.None? then ToolResult(call.id, call.name, "tool_input_invalid", true)
    else ToolResult(call.id, call.name, output.content, output.isError)
  }

  /** Results come back in call order, whether the calls ran in parallel or not. */
  function Execute(calls: seq<ToolCall>, outputs: nat -> Output): seq<ToolResult> {
    seq(|calls|, i requires 0 <= i < |calls| => Invoke(calls[i], outputs(i)))
  }

  function ToolMessages(results: seq<ToolResult>): seq<Message> {
    seq(|results|, i requires 0 <= i < |results| => Tool(results[i].callId, results[i].content))
  }

  function ToolEntries(results: seq<ToolResult>): seq<Entry> {
    seq(|results|, i requires 0 <= i < |results| => ToolEntry(results[i]))
  }

  /** Queued steering becomes user messages. */
  function Steer(s: State, r: Round): State {
    var steering := s.steering + r.queuedSteering;
    s.(messages := s.messages + Users(steering), transcript := s.transcript + SteeredEntries(steering), steering := [])
  }

  /** Then the list is sent. */
  function Requested(s: State, r: Round): State {
    var steered := Steer(s, r);
    steered.(requests := s.requests + [steered.messages])
  }

  /** After a turn the assistant message joins the list. */
  function Answered(s: State, r: Round, t: ModelTurn): State {
    s.(usage := Some(MergeUsage(s.usage, t.usage)), messages := s.messages + [t.assistant],
       transcript := s.transcript + [Said("assistant", t.content)],
       followUps := s.followUps + r.queuedFollowUps, turns := s.turns + [t])
  }

  function React(s: State, t: ModelTurn, r: Round, hasExecutor: bool): Progress {
    if r.endRaises then Done(EndRaised(t.toolCalls != []), s)
    else if t.stopReason in {"stop", "end_turn"} && t.toolCalls == [] then
      if s.followUps != [] then
        var content := s.followUps[0];
        Continue(s.(followUps := s.followUps[1..], messages := s.messages + [User(content)],
                    transcript := s.transcript + [FollowedUp(content)]))
      else Done(Finished(t.content, s.usage, s.turn, s.toolCount), s)
    else if t.stopReason == "pause_turn" then
      Continue(s.(messages := s.messages + [User(CONTINUE)], transcript := s.transcript + [Said("user", CONTINUE)]))
    else if t.toolCalls == [] then Done(ToolUseWithoutCalls, s)
    else if !hasExecutor then Done(ExecutorMissing, s)
    else if r.toolsInterrupted then Done(ToolsInterrupted, s.(toolCount := s.toolCount + |t.toolCalls|))
    else
      var results := Execute(t.toolCalls, r.outputs);
      Continue(s.(toolCount := s.toolCount + |t.toolCalls|, messages := s.messages + ToolMessages(results),
                  transcript := s.transcript + ToolEntries(results)))
  }

  function OneRound(s: State, r: Round, hasExecutor: bool): Progress {
    var s0 := s.(turn := s.turn + 1);
    if r.aborted then Done(Aborted, s0)
    else if r.startRaises then Done(StartRaised, Steer(s0, r))
    else
      var s1 := Requested(s0, r);
      if r.turn.None? then Done(ProviderError, s1)
      else React(Answered(s1, r, r.turn.value), r.turn.value, r, hasExecutor)
  }

  function Play(s: State, rounds: seq<Round>, hasExecutor: bool): Progress
    decreases |rounds|
  {
    if rounds == [] then Unfinished(s)
    else
      var p := OneRound(s, rounds[0], hasExecutor);
      if p.Continue? then Play(p.s, rounds[1..], hasExecutor) else p
  }

  // ----- Pairing -----

  /** The k-th message after message i is the result of its k-th call. */
  predicate AnswersCall(ms: seq<Message>, i: nat, k: nat)
    requires i < |ms| && ms[i].Assistant? && k < |ms[i].calls|
  {
    i + 1 + k < |ms| && ms[i + 1 + k].Tool? && ms[i + 1 + k].callId == ms[i].calls[k]
  }

  /** An assistant message is followed at once by one tool message per call, in call order, and no more. */
  predicate AnsweredAt(ms: seq<Message>, i: nat)
    requires i < |ms|
  {
    ms[i].Assistant? ==>
      var calls := ms[i].calls;
      && i + |calls| < |ms| && (forall k :: 0 <= k < |calls| ==> AnswersCall(ms, i, k))
      && (i + 1 + |calls| < |ms| ==> !ms[i + 1 + |calls|].Tool?)
  }

  /** A tool message answers some earlier assistant message. */
  predicate OwnedAt(ms: seq<Message>, j: nat)
    requires j < |ms|
  {
    ms[j].Tool? ==> exists i :: 0 <= i < j && ms[i].Assistant? && j - i <= |ms[i].calls|
  }

  ghost predicate Paired(ms: seq<Message>) {
    (forall i :: 0 <= i < |ms| ==> AnsweredAt(ms, i)) && (forall j :: 0 <= j < |ms| ==> OwnedAt(ms, j))
  }

  lemma StartsWithoutResult(ms: seq<Message>)
    requires Paired(ms) && ms != []
    ensures !ms[0].Tool?
  {
    assert OwnedAt(ms, 0);
  }

  lemma ConcatAnswered(a: seq<Message>, b: seq<Message>, i: nat)
    requires Paired(a) && Paired(b) && i < |a + b|
    ensures AnsweredAt(a + b, i)
  {
    var ms := a + b;
    if b != [] {
      StartsWithoutResult(b);
    }
    if ms[i].Assistant? {
      var calls := ms[i].calls;
      if i < |a| {
        assert AnsweredAt(a, i) && a[i] == ms[i];
        forall k | 0 <= k < |calls| ensures AnswersCall(ms, i, k) {
          assert AnswersCall(a, i, k);
        }
      } else {
        var j := i - |a|;
        assert AnsweredAt(b, j) && b[j] == ms[i];
        forall k | 0 <= k < |calls| ensures AnswersCall(ms, i, k) {
          assert AnswersCall(b, j, k) && ms[i + 1 + k] == b[j + 1 + k];
        }
      }
    }
  }

  lemma ConcatOwned(a: seq<Message>, b: seq<Message>, j: nat)
    requires Paired(a) && Paired(b) && j < |a + b|
    ensures OwnedAt(a + b, j)
  {
    var ms := a + b;
    if ms[j].Tool? {
      if j < |a| {
        assert OwnedAt(a, j);
        var i :| 0 <= i < j && a[i].Assistant? && j - i <= |a[i].calls|;
        assert ms[i] == a[i];
      } else {
        assert OwnedAt(b, j - |a|);
        var i :| 0 <= i < j - |a| && b[i].Assistant? && j - |a| - i <= |b[i].calls|;
        assert ms[|a| + i] == b[i];
      }
    }
  }

  lemma PairedConcat(a: seq<Message>, b: seq<Message>)
    requires Paired(a) && Paired(b)
    ensures Paired(a + b)
  {
    forall i | 0 <= i < |a + b| ensures AnsweredAt(a + b, i) && OwnedAt(a + b, i) {
      ConcatAnswered(a, b, i);
      ConcatOwned(a, b, i);
    }
  }

  lemma PlainIsPaired(ms: seq<Message>)
    requires forall i :: 0 <= i < |ms| ==> ms[i].System? || ms[i].User? || (ms[i].Assistant? && ms[i].calls == [])
    ensures Paired(ms)
  {
  }

  /** The turn's message lists the calls the loop will execute. */
  predicate Consistent(t: ModelTurn) {
    && t.assistant.Assistant?
    && t.assistant.calls == seq(|t.toolCalls|, i requires 0 <= i < |t.toolCalls| => t.toolCalls[i].id)
  }

  lemma BlockIsPaired(t: ModelTurn, outputs: nat -> Output)
    requires Consistent(t)
    ensures Paired([t.assistant] + ToolMessages(Execute(t.toolCalls, outputs)))
  {
    var block := [t.assistant] + ToolMessages(Execute(t.toolCalls, outputs));
    forall k | 0 <= k < |t.toolCalls| ensures AnswersCall(block, 0, k) {
      assert block[1 + k] == ToolMessages(Execute(t.toolCalls, outputs))[k];
      var results := Execute(t.toolCalls, outputs);
      assert results[k] == Invoke(t.toolCalls[k], outputs(k));
    }
    forall i | 0 <= i < |block| ensures AnsweredAt(block, i) && OwnedAt(block, i) {
      assert block[0].Assistant?;
    }
  }

  lemma OpenEndIsUnpaired(ms: seq<Message>, t: ModelTurn)
    requires Consistent(t) && t.toolCalls != []
    ensures !Paired(ms + [t.assistant])
  {
    var all := ms + [t.assistant];
    assert all[|ms|] == t.assistant && !AnsweredAt(all, |ms|);
  }

  lemma OpenCallIsUnpaired(ms: seq<Message>, t: ModelTurn, content: string)
    requires Consistent(t) && t.toolCalls != []
    ensures !Paired(ms + [t.assistant] + [User(content)])
  {
    var all := ms + [t.assistant] + [User(content)];
    assert all[|ms|] == t.assistant && all[|ms| + 1 + 0] == User(content);
    assert !AnswersCall(all, |ms|, 0);
    assert !AnsweredAt(all, |ms|);
  }

  /**
   One round keeps the message list paired exactly when the provider does not pause a turn that
   carries tool calls: those calls would never be answered.
   */
  lemma RoundPairedIff(s: State, r: Round, hasExecutor: bool)
    requires Paired(s.messages) && OneRound(s, r, hasExecutor).Continue? && Consistent(r.turn.value)
    ensures Paired(OneRound(s, r, hasExecutor).s.messages)
       <==> !(r.turn.value.stopReason == "pause_turn" && r.turn.value.toolCalls != [])
    ensures OneRound(s, r, hasExecutor).s.requests == s.requests + [s.messages + Users(s.steering + r.queuedSteering)]
    ensures Paired(s.messages + Users(s.steering + r.queuedSteering))
  {
    hide Paired;
    var t := r.turn.value;
    var users := Users(s.steering + r.queuedSteering);
    PlainIsPaired(users);
    PairedConcat(s.messages, users);
    var sent := s.messages + users;
    if t.stopReason in {"stop", "end_turn"} && t.toolCalls == [] {
      var content := (s.followUps + r.queuedFollowUps)[0];
      PlainIsPaired([t.assistant, User(content)]);
      PairedConcat(sent, [t.assistant, User(content)]);
      assert sent + [t.assistant, User(content)] == sent + [t.assistant] + [User(content)];
    } else if t.stopReason == "pause_turn" {
      if t.toolCalls == [] {
        PlainIsPaired([t.assistant, User(CONTINUE)]);
        PairedConcat(sent, [t.assistant, User(CONTINUE)]);
        assert sent + [t.assistant, User(CONTINUE)] == sent + [t.assistant] + [User(CONTINUE)];
      } else {
        OpenCallIsUnpaired(sent, t, CONTINUE);
      }
    } else {
      var tools := ToolMessages(Execute(t.toolCalls, r.outputs));
      BlockIsPaired(t, r.outputs);
      PairedConcat(sent, [t.assistant] + tools);
      assert sent + ([t.assistant] + tools) == sent + [t.assistant] + tools;
    }
  }

  // ----- What one round leaves behind -----

  /**
   A round that got an answer: the old list, one user message per queued steering text, oldest first,
   the assistant message, and then what reacts to it. The transcript tells the same.
   */
  predicate Reaction(s: State, r: Round, s': State, more: seq<Message>, entries: seq<Entry>)
    requires r.turn.Some?
  {
    var texts := s.steering + r.queuedSteering;
    var n, m := |s.messages|, |s.transcript|;
    && n + |texts| < |s'.messages| && m + |texts| < |s'.transcript|
    && s'.messages[..n] == s.messages && s'.transcript[..m] == s.transcript
    && (forall k :: 0 <= k < |texts| ==>
          s'.messages[n + k] == User(texts[k]) && s'.transcript[m + k] == Steered(texts[k]))
    && s'.messages[n + |texts|] == r.turn.value.assistant
    && s'.transcript[m + |texts|] == Said("assistant", r.turn.value.content)
    && s'.messages[n + |texts| + 1..] == more && s'.transcript[m + |texts| + 1..] == entries
  }

  lemma ReactionOf(s: State, r: Round, s': State, more: seq<Message>, entries: seq<Entry>)
    requires r.turn.Some?
    requires s'.messages == s.messages + Users(s.steering + r.queuedSteering) + [r.turn.value.assistant] + more
    requires s'.transcript == s.transcript + SteeredEntries(s.steering + r.queuedSteering)
                  + [Said("assistant", r.turn.value.content)] + entries
    ensures Reaction(s, r, s', more, entries)
  {
    var texts := s.steering + r.queuedSteering;
    PartsOf(s.messages, Users(texts), r.turn.value.assistant, more);
    PartsOf(s.transcript, SteeredEntries(texts), Said("assistant", r.turn.value.content), entries);
  }

  lemma PartsOf<T>(a: seq<T>, b: seq<T>, x: T, c: seq<T>)
    ensures var all := a + b + [x] + c;
            && all[..|a|] == a && (forall k :: 0 <= k < |b| ==> all[|a| + k] == b[k])
            && all[|a| + |b|] == x && all[|a| + |b| + 1..] == c
  {
  }

  /**
   A round that goes on after tool calls: the k-th message after the assistant message answers the
   k-th call, with the call's own error code, with "tool_input_invalid" if it has no arguments, or
   with the output of that very call. The transcript says the same, under the call's name.
   */
  lemma CallsAreAnswered(s: State, r: Round, hasExecutor: bool) returns (more: seq<Message>, entries: seq<Entry>)
    requires OneRound(s, r, hasExecutor).Continue? && r.turn.value.toolCalls != []
    requires r.turn.value.stopReason != "pause_turn"
    ensures Reaction(s, r, OneRound(s, r, hasExecutor).s, more, entries)
    ensures var calls := r.turn.value.toolCalls;
            && |more| == |calls| == |entries|
            && forall k :: 0 <= k < |calls| ==>
                  var call, output := calls[k], r.outputs(k);
                  var content :=
                    if call.errorCode.Some? then call.errorCode.value
                    else if call.arguments.None? then "tool_input_invalid"
                    else output.content;
                  && more[k] == Tool(call.id, content)
                  && entries[k] == ToolEntry(ToolResult(call.id, call.name, content,
                        call.errorCode.Some? || call.arguments.None? || output.isError))
    ensures OneRound(s, r, hasExecutor).s.toolCount == s.toolCount + |r.turn.value.toolCalls|
    ensures OneRound(s, r, hasExecutor).s.followUps == s.followUps + r.queuedFollowUps
  {
    hide Users, SteeredEntries, MergeUsage, Reaction;
    var results := Execute(r.turn.value.toolCalls, r.outputs);
    more, entries := ToolMessages(results), ToolEntries(results);
    ReactionOf(s, r, OneRound(s, r, hasExecutor).s, more, entries);
  }

  /**
   The two other ways to go on: after an answer without calls the oldest follow-up is said, and after
   a pause the model is asked to continue.
   */
  lemma WordsAreAdded(s: State, r: Round, hasExecutor: bool)
    requires OneRound(s, r, hasExecutor).Continue?
    requires r.turn.value.toolCalls == [] || r.turn.value.stopReason == "pause_turn"
    ensures var s', queue := OneRound(s, r, hasExecutor).s, s.followUps + r.queuedFollowUps;
            if r.turn.value.stopReason == "pause_turn" then
              && s'.followUps == queue
              && Reaction(s, r, s', [User("Continue the previous response.")],
                    [Said("user", "Continue the previous response.")])
            else
              && r.turn.value.stopReason in {"stop", "end_turn"} && queue != [] && s'.followUps == queue[1..]
              && Reaction(s, r, s', [User(queue[0])], [FollowedUp(queue[0])])
    ensures OneRound(s, r, hasExecutor).s.toolCount == s.toolCount
  {
    hide Users, SteeredEntries, MergeUsage, Reaction;
    var s' := OneRound(s, r, hasExecutor).s;
    if r.turn.value.stopReason == "pause_turn" {
      ReactionOf(s, r, s', [User(CONTINUE)], [Said("user", CONTINUE)]);
    } else {
      var queue := s.followUps + r.queuedFollowUps;
      ReactionOf(s, r, s', [User(queue[0])], [FollowedUp(queue[0])]);
    }
  }

  /** Which event ends a run in a round, and what a finished run reports. */
  lemma RoundStops(s: State, r: Round, hasExecutor: bool)
    ensures var p, asked := OneRound(s, r, hasExecutor), !r.aborted && !r.startRaises;
            && (p.Done? && p.stop == Aborted <==> r.aborted)
            && (p.Done? && p.stop == StartRaised <==> !r.aborted && r.startRaises)
            && (p.Done? && p.stop == ProviderError <==> asked && r.turn.None?)
    ensures r.turn.Some? && !r.aborted && !r.startRaises ==>
              var p, t := OneRound(s, r, hasExecutor), r.turn.value;
              var ends := t.stopReason in {"stop", "end_turn"} && t.toolCalls == [];
              var calls := !r.endRaises && t.stopReason != "pause_turn" && t.toolCalls != [];
              && (p.Done? && p.stop.EndRaised? <==> r.endRaises)
              && (p.Done? && p.stop.EndRaised? ==> (p.stop.openCalls <==> t.toolCalls != []))
              && (p.Done? && p.stop.Finished? <==> !r.endRaises && ends && s.followUps + r.queuedFollowUps == [])
              && (p.Done? && p.stop.Finished? ==>
                    && p.stop.content == t.content && p.stop.usage == p.s.usage
                    && p.stop.turns == s.turn + 1 && p.stop.toolCalls == s.toolCount)
              && (p.Done? && p.stop == ToolUseWithoutCalls <==>
                    !r.endRaises && t.stopReason !in {"stop", "end_turn", "pause_turn"} && t.toolCalls == [])
              && (p.Done? && p.stop == ExecutorMissing <==> calls && !hasExecutor)
              && (p.Done? && p.stop == ToolsInterrupted <==> calls && hasExecutor && r.toolsInterrupted)
  {
    hide Users, SteeredEntries, MergeUsage, Execute, ToolMessages, ToolEntries;
  }

  // ----- The OpenAI adapter -----

  datatype RawCall = RawCall(id: string, providerName: string, arguments: Option<string>)

  /** Normalizes one provider reply: names are mapped back, and the stop reason says whether calls came. */
  function AdaptTurn(content: string, raw: seq<RawCall>, mapping: map<string, string>, usage: Usage): ModelTurn {
    var calls := seq(|raw|, i requires 0 <= i < |raw| =>
      var c := raw[i];
      if c.providerName in mapping then ToolCall(c.id, mapping[c.providerName], c.arguments, None)
      else ToolCall(c.id, c.providerName, c.arguments, Some("unknown_provider_tool")));
    ModelTurn(content, if calls != [] then "tool_calls" else "stop", calls, usage,
              Assistant(content, seq(|raw|, i requires 0 <= i < |raw| => raw[i].id)))
  }

  /** A turn as the adapter produces it. */
  predicate Adapted(t: ModelTurn) {
    Consistent(t) && t.stopReason == if t.toolCalls != [] then "tool_calls" else "stop"
  }

  /** The adapter lists every call of the reply in order and never pauses a turn. */
  lemma AdapterTurns(content: string, raw: seq<RawCall>, mapping: map<string, string>, usage: Usage)
    ensures var t := AdaptTurn(content, raw, mapping, usage);
            && Adapted(t) && t.stopReason != "pause_turn" && |t.toolCalls| == |raw|
            && t.content == content && t.usage == usage && t.assistant.content == content
            && forall i :: 0 <= i < |raw| ==>
                  var call, known := t.toolCalls[i], raw[i].providerName in mapping;
                  && call.id == raw[i].id && call.arguments == raw[i].arguments
                  && call.name == (if known then mapping[raw[i].providerName] else raw[i].providerName)
                  && call.errorCode == if known then None else Some("unknown_provider_tool")
  {
    var t := AdaptTurn(content, raw, mapping, usage);
    assert t.assistant.calls == seq(|t.toolCalls|, i requires 0 <= i < |t.toolCalls| => t.toolCalls[i].id);
  }

  /** The list the adapter sends: the loop's list behind a system message. */
  function Sent(request: seq<Message>, system: string): seq<Message> {
    if request == [] || !request[0].System? then [System(system)] + request else request
  }

  // ----- Whole runs -----

  function CountTools(ms: seq<Message>): nat {
    if ms == [] then 0 else CountTools(ms[..|ms| - 1]) + if ms[|ms| - 1].Tool? then 1 else 0
  }

  lemma {:induction false} CountConcat(a: seq<Message>, b: seq<Message>)
    ensures CountTools(a + b) == CountTools(a) + CountTools(b)
  {
    if b == [] {
      assert a + b == a;
    } else {
      assert (a + b)[..|a + b| - 1] == a + b[..|b| - 1];
      CountConcat(a, b[..|b| - 1]);
    }
  }

  lemma {:induction false} CountUniform(ms: seq<Message>, tools: bool)
    requires forall i :: 0 <= i < |ms| ==> (ms[i].Tool? <==> tools)
    ensures CountTools(ms) == if tools then |ms| else 0
  {
    if ms != [] {
      CountUniform(ms[..|ms| - 1], tools);
    }
  }

  function Merged(turns: seq<ModelTurn>): Option<Usage> {
    if turns == [] then None else Some(MergeUsage(Merged(turns[..|turns| - 1]), turns[|turns| - 1].usage))
  }

  function Total(turns: seq<ModelTurn>, field: Usage -> nat): nat {
    if turns == [] then 0 else Total(turns[..|turns| - 1], field) + field(turns[|turns| - 1].usage)
  }

  /** Merging turn by turn gives the sums of every counter and the identification of the last turn. */
  lemma {:induction false} MergedIsSum(turns: seq<ModelTurn>)
    requires turns != []
    ensures Merged(turns).Some? && var u := Merged(turns).value;
            && u.input == Total(turns, (x: Usage) => x.input) && u.output == Total(turns, (x: Usage) => x.output)
            && u.cacheCreation == Total(turns, (x: Usage) => x.cacheCreation)
                  && u.cacheRead == Total(turns, (x: Usage) => x.cacheRead)
            && u.latency == Total(turns, (x: Usage) => x.latency) && u.retries == Total(turns, (x: Usage) => x.retries)
            && var last := turns[|turns| - 1].usage;
            u.requestId == last.requestId && u.model == last.model && u.stopReason == last.stopReason
  {
    var init := turns[..|turns| - 1];
    if init == [] {
      assert Merged(turns) == Some(turns[|turns| - 1].usage);
    } else {
      MergedIsSum(init);
    }
  }

  /** What every iteration keeps; base is the number of tool messages before the run. */
  ghost predicate Good(s: State, base: nat) {
    && Paired(s.messages) && (forall i :: 0 <= i < |s.requests| ==> Paired(s.requests[i]))
    && s.turn == |s.requests| == |s.turns|
    && CountTools(s.messages) == base + s.toolCount
    && s.usage == Merged(s.turns)
  }

  predicate AllAdapted(rounds: seq<Round>) {
    forall i :: 0 <= i < |rounds| && rounds[i].turn.Some? ==> Adapted(rounds[i].turn.value)
  }

  lemma RequestCount(s: State, r: Round, t: ModelTurn)
    requires t.assistant.Assistant?
    ensures CountTools(Answered(Requested(s, r), r, t).messages) == CountTools(s.messages)
  {
    var users := Users(s.steering + r.queuedSteering);
    CountUniform(users, false);
    CountConcat(s.messages, users);
    CountUniform([t.assistant], false);
    CountConcat(s.messages + users, [t.assistant]);
  }

  lemma ReactCount(s: State, t: ModelTurn, r: Round, hasExecutor: bool)
    requires React(s, t, r, hasExecutor).Continue?
    ensures var s' := React(s, t, r, hasExecutor).s;
            CountTools(s'.messages) - CountTools(s.messages) == s'.toolCount - s.toolCount
  {
    hide CountTools;
    if t.stopReason in {"stop", "end_turn"} && t.toolCalls == [] {
      CountUniform([User(s.followUps[0])], false);
      CountConcat(s.messages, [User(s.followUps[0])]);
    } else if t.stopReason == "pause_turn" {
      CountUniform([User(CONTINUE)], false);
      CountConcat(s.messages, [User(CONTINUE)]);
    } else {
      var tools := ToolMessages(Execute(t.toolCalls, r.outputs));
      CountUniform(tools, true);
      CountConcat(s.messages, tools);
    }
  }

  /** What is known of a run at any point, whatever it did. */
  ghost predicate Outcome(p: Progress, base: nat) {
    && (forall i :: 0 <= i < |p.s.requests| ==> Paired(p.s.requests[i]))
    && (!p.Done? ==> Good(p.s, base))
    && (p.Done? ==>
          p.stop != ToolUseWithoutCalls
          && (Paired(p.s.messages) <==> p.stop !in {EndRaised(true), ExecutorMissing, ToolsInterrupted}))
    && (p.Done? && p.stop.Finished? ==>
          && p.stop.turns == |p.s.requests| == |p.s.turns| && p.s.followUps == []
          && CountTools(p.s.messages) == base + p.stop.toolCalls && p.stop.usage == Merged(p.s.turns))
  }

  lemma ReactOutcome(s: State, sent: seq<Message>, t: ModelTurn, r: Round, hasExecutor: bool, base: nat)
    requires Adapted(t) && Paired(sent) && s.messages == sent + [t.assistant]
    requires forall i :: 0 <= i < |s.requests| ==> Paired(s.requests[i])
    requires s.turn == |s.requests| == |s.turns| && CountTools(s.messages) == base + s.toolCount
              && s.usage == Merged(s.turns)
    ensures Outcome(React(s, t, r, hasExecutor), base)
  {
    hide Paired, CountTools, Merged, Consistent;
    ConsistentIsAssistant(t);
    if t.toolCalls == [] {
      NoCallsIsPlain(t);
      PlainIsPaired([t.assistant]);
      PairedConcat(sent, [t.assistant]);
      if s.followUps != [] && !r.endRaises {
        PlainIsPaired([User(s.followUps[0])]);
        PairedConcat(s.messages, [User(s.followUps[0])]);
        ReactCount(s, t, r, hasExecutor);
      }
    } else {
      OpenEndIsUnpaired(sent, t);
      if hasExecutor && !r.toolsInterrupted && !r.endRaises {
        var tools := ToolMessages(Execute(t.toolCalls, r.outputs));
        BlockIsPaired(t, r.outputs);
        PairedConcat(sent, [t.assistant] + tools);
        assert sent + ([t.assistant] + tools) == sent + [t.assistant] + tools;
        ReactCount(s, t, r, hasExecutor);
      }
    }
  }

  lemma ConsistentIsAssistant(t: ModelTurn)
    requires Consistent(t)
    ensures t.assistant.Assistant?
  {
  }

  lemma NoCallsIsPlain(t: ModelTurn)
    requires Consistent(t) && t.toolCalls == []
    ensures t.assistant.Assistant? && t.assistant.calls == []
  {
  }

  lemma UsersArePaired(ms: seq<Message>, contents: seq<string>)
    requires Paired(ms)
    ensures Paired(ms + Users(contents))
  {
    hide Paired;
    PlainIsPaired(Users(contents));
    PairedConcat(ms, Users(contents));
  }

  lemma MergedSnoc(turns: seq<ModelTurn>, t: ModelTurn)
    ensures Merged(turns + [t]) == Some(MergeUsage(Merged(turns), t.usage))
  {
    assert (turns + [t])[..|turns|] == turns;
  }

  lemma RoundOutcome(s: State, r: Round, hasExecutor: bool, base: nat)
    requires Good(s, base) && (r.turn.Some? ==> Adapted(r.turn.value))
    ensures Outcome(OneRound(s, r, hasExecutor), base)
  {
    hide Paired, CountTools, React, Consistent, Users, Merged;
    var users := Users(s.steering + r.queuedSteering);
    UsersArePaired(s.messages, s.steering + r.queuedSteering);
    if !r.aborted && !r.startRaises && r.turn.Some? {
      var t := r.turn.value;
      var s0 := s.(turn := s.turn + 1);
      ConsistentIsAssistant(t);
      RequestCount(s0, r, t);
      MergedSnoc(s.turns, t);
      ReactOutcome(Answered(Requested(s0, r), r, t), s.messages + users, t, r, hasExecutor, base);
    }
  }

  /**
   With the OpenAI adapter, from a paired list, every list that is sent is paired, whatever is
   queued and whatever the tools return. A finished run reports the number of requests, the number
   of tool messages it appended and the exact usage sums, and leaves no follow-up waiting. A stopped
   run leaves a paired list, from which the loop can be continued, exactly when it did not stop
   between the calls of a turn and their results.
   */
  lemma {:induction false} LoopKeepsProtocol(s: State, rounds: seq<Round>, hasExecutor: bool, base: nat)
    requires Good(s, base) && AllAdapted(rounds)
    ensures Outcome(Play(s, rounds, hasExecutor), base) && !Play(s, rounds, hasExecutor).Continue?
    decreases |rounds|
  {
    hide Paired, CountTools, OneRound, Merged, Adapted;
    if rounds != [] {
      RoundOutcome(s, rounds[0], hasExecutor, base);
      var p := OneRound(s, rounds[0], hasExecutor);
      assert forall i :: 0 <= i < |rounds[1..]| ==> rounds[1..][i] == rounds[i + 1];
      if p.Continue? {
        LoopKeepsProtocol(p.s, rounds[1..], hasExecutor, base);
      }
    }
  }

  /** The state a run starts in. */
  function Opening(messages: seq<Message>, transcript: seq<Entry>, steering: seq<string>, followUps: seq<string>,
      content: Option<string>): State {
    State(if content.Some? then messages + [User(content.value)] else messages,
          if content.Some? then transcript + [Said("user", content.value)] else transcript,
          steering, followUps, None, 0, 0, [], [])
  }

  lemma RunKeepsProtocol(messages: seq<Message>, transcript: seq<Entry>, steering: seq<string>, followUps: seq<string>,
                         content: Option<string>, rounds: seq<Round>, hasExecutor: bool)
    requires Paired(messages) && AllAdapted(rounds)
    ensures Outcome(Play(Opening(messages, transcript, steering, followUps, content), rounds, hasExecutor),
              CountTools(messages))
  {
    hide Paired, AllAdapted, Outcome, CountTools, Play;
    if content.Some? {
      PlainIsPaired([User(content.value)]);
      PairedConcat(messages, [User(content.value)]);
      CountUniform([User(content.value)], false);
      CountConcat(messages, [User(content.value)]);
    }
    LoopKeepsProtocol(Opening(messages, transcript, steering, followUps, content), rounds, hasExecutor,
        CountTools(messages));
  }

  /** The system message the adapter adds keeps a request paired. */
  lemma SentIsPaired(request: seq<Message>, system: string)
    requires Paired(request)
    ensures Paired(Sent(request, system))
    ensures var sent := Sent(request, system);
            if request != [] && request[0].System? then sent == request else sent == [System(system)] + request
  {
    if request == [] || !request[0].System? {
      PlainIsPaired([System(system)]);
      PairedConcat([System(system)], request);
    }
  }

  // ----- The loop object -----

  /** What a child keeps of its parent's list: neither tool results nor assistant messages with calls. */
  function Inherited(ms: seq<Message>): seq<Message> {
    if ms == [] then []
    else
      var last := ms[|ms| - 1];
      Inherited(ms[..|ms| - 1]) + if last.Tool? || (last.Assistant? && last.calls != []) then [] else [last]
  }

  /** The transcript is kept without its tool entries. */
  function InheritedEntries(entries: seq<Entry>): seq<Entry> {
    if entries == [] then []
    else
      var last := entries[|entries| - 1];
      InheritedEntries(entries[..|entries| - 1]) + if last.ToolEntry? then [] else [last]
  }

  /** Forking from any point of the parent, even in the middle of a tool exchange, starts paired. */
  lemma {:induction false} InheritedIsPaired(ms: seq<Message>)
    ensures Paired(Inherited(ms))
  {
    hide Paired;
    PlainIsPaired([]);
    if ms != [] {
      var last := ms[|ms| - 1];
      InheritedIsPaired(ms[..|ms| - 1]);
      assert Inherited(ms[..|ms| - 1]) + [] == Inherited(ms[..|ms| - 1]);
      if !(last.Tool? || (last.Assistant? && last.calls != [])) {
        PlainIsPaired([last]);
        PairedConcat(Inherited(ms[..|ms| - 1]), [last]);
      }
    }
  }

  /** Nothing else is dropped: every message that is no result and carries no calls is kept, in order. */
  lemma {:induction false} InheritedKeeps(ms: seq<Message>) returns (places: seq<nat>)
    ensures TakenFrom(Inherited(ms), ms, places)
    ensures forall i: nat :: i in places <==> i < |ms| && !ms[i].Tool? && !(ms[i].Assistant? && ms[i].calls != [])
  {
    hide TakenFrom;
    places := [];
    if ms == [] {
      TakenNone(ms);
    } else {
      var n := |ms| - 1;
      places := InheritedKeeps(ms[..n]);
      TakenSnoc(Inherited(ms[..n]), ms[..n], places, ms[n]);
      assert ms[..n] + [ms[n]] == ms && Inherited(ms[..n]) + [] == Inherited(ms[..n]);
      if !ms[n].Tool? && !(ms[n].Assistant? && ms[n].calls != []) { places := places + [n]; }
    }
  }

  /** The same for the transcript, which loses exactly its tool entries. */
  lemma {:induction false} InheritedEntriesKeep(entries: seq<Entry>) returns (places: seq<nat>)
    ensures TakenFrom(InheritedEntries(entries), entries, places)
    ensures forall i: nat :: i in places <==> i < |entries| && !entries[i].ToolEntry?
  {
    hide TakenFrom;
    places := [];
    if entries == [] {
      TakenNone(entries);
    } else {
      var n := |entries| - 1;
      places := InheritedEntriesKeep(entries[..n]);
      TakenSnoc(InheritedEntries(entries[..n]), entries[..n], places, entries[n]);
      assert entries[..n] + [entries[n]] == entries;
      assert InheritedEntries(entries[..n]) + [] == InheritedEntries(entries[..n]);
      if !entries[n].ToolEntry? { places := places + [n]; }
    }
  }

  class AgentLoop {
    const hasExecutor: bool
    var messages: seq<Message>
    var transcript: seq<Entry>
    var steering: seq<string>
    var followUps: seq<string>

    constructor (hasExecutor: bool)
      ensures messages == [] && transcript == [] && steering == [] && followUps == [] && this.hasExecutor == hasExecutor
    {
      this.hasExecutor := hasExecutor;
      messages, transcript, steering, followUps := [], [], [], [];
    }

    method InheritContext(parent: AgentLoop)
      requires parent != this
      modifies this`messages, this`transcript
      ensures messages == Inherited(parent.messages) && transcript == InheritedEntries(parent.transcript)
    {
      messages, transcript := [], [];
      var ms, entries := parent.messages, parent.transcript;
      for i := 0 to |ms|
        invariant messages == Inherited(ms[..i]) && transcript == []
      {
        assert ms[..i + 1][..i] == ms[..i];
        if !(ms[i].Tool? || (ms[i].Assistant? && ms[i].calls != [])) { messages := messages + [ms[i]]; }
      }
      assert ms[..|ms|] == ms;
      for i := 0 to |entries|
        invariant transcript == InheritedEntries(entries[..i]) && messages == Inherited(ms)
      {
        assert entries[..i + 1][..i] == entries[..i];
        if !entries[i].ToolEntry? { transcript := transcript + [entries[i]]; }
      }
      assert entries[..|entries|] == entries;
    }

    lemma Unfold(s: State, rounds: seq<Round>, n: nat)
      requires n < |rounds|
      ensures var p := OneRound(s, rounds[n], hasExecutor);
              Play(s, rounds[n..], hasExecutor) == if p.Continue? then Play(p.s, rounds[n + 1..], hasExecutor) else p
    {
      assert rounds[n..][0] == rounds[n] && rounds[n..][1..] == rounds[n + 1..];
    }

    lemma PlayedOut(s: State, rounds: seq<Round>)
      ensures Play(s, rounds[|rounds|..], hasExecutor) == Unfinished(s)
    {
    }

    lemma Stops(s: State, r: Round)
      ensures r.aborted ==> OneRound(s, r, hasExecutor) == Done(Aborted, s.(turn := s.turn + 1))
      ensures !r.aborted && r.startRaises ==>
                OneRound(s, r, hasExecutor) == Done(StartRaised, Steer(s.(turn := s.turn + 1), r))
      ensures !r.aborted && !r.startRaises && r.turn.None? ==>
                OneRound(s, r, hasExecutor) == Done(ProviderError, Requested(s.(turn := s.turn + 1), r))
    {
    }

    lemma Reacts(s: State, r: Round)
      requires !r.aborted && !r.startRaises && r.turn.Some?
      ensures var t := r.turn.value;
              OneRound(s, r, hasExecutor)
                  == React(Answered(Requested(s.(turn := s.turn + 1), r), r, t), t, r, hasExecutor)
    {
    }

    function Start(content: Option<string>): State
      reads this
    {
      Opening(messages, transcript, steering, followUps, content)
    }

    lemma StartIs(content: Option<string>)
      ensures Start(content)
           == State(messages + (if content.Some? then [User(content.value)] else []),
                    transcript + (if content.Some? then [Said("user", content.value)] else []),
                    steering, followUps, None, 0, 0, [], [])
    {
    }

    /** The object's fields with the locals of a run. */
    function Snapshot(usage: Option<Usage>, toolCount: nat, turn: nat, requests: seq<seq<Message>>,
        turns: seq<ModelTurn>): State
      reads this
    {
      State(messages, transcript, steering, followUps, usage, toolCount, turn, requests, turns)
    }

    predicate Holds(s: State)
      reads this
    {
      messages == s.messages && transcript == s.transcript && steering == s.steering && followUps == s.followUps
    }

    /** Runs until the loop stops or the given rounds are used up; the caller's message comes first if there is one. */
    method Run(content: Option<string>, rounds: seq<Round>) returns (p: Progress)
      modifies this
      ensures p == Play(old(Start(content)), rounds, hasExecutor) && Holds(p.s)
      ensures old(Start(content))
           == State(old(messages) + (if content.Some? then [User(content.value)] else []),
                    old(transcript) + (if content.Some? then [Said("user", content.value)] else []),
                    old(steering), old(followUps), None, 0, 0, [], [])
    {
      hide Play, OneRound, Users, SteeredEntries, MergeUsage, React, Start, Opening;
      StartIs(content);
      if content.Some? {
        messages := messages + [User(content.value)];
        transcript := transcript + [Said("user", content.value)];
      }
      var usage: Option<Usage>, toolCount: nat, turn: nat := None, 0, 0;
      var requests: seq<seq<Message>>, turns: seq<ModelTurn> := [], [];
      ghost var goal := Play(old(Start(content)), rounds, hasExecutor);
      assert old(Start(content)) == Snapshot(usage, toolCount, turn, requests, turns);
      for n := 0 to |rounds|
        invariant goal == Play(Snapshot(usage, toolCount, turn, requests, turns), rounds[n..], hasExecutor)
      {
        ghost var before := Snapshot(usage, toolCount, turn, requests, turns);
        var r := rounds[n];
        Unfold(before, rounds, n);
        Stops(before, r);
        turn := turn + 1;
        if r.aborted { return Done(Aborted, Snapshot(usage, toolCount, turn, requests, turns)); }
        steering := steering + r.queuedSteering;
        DrainSteering();
        if r.startRaises { return Done(StartRaised, Snapshot(usage, toolCount, turn, requests, turns)); }
        requests := requests + [messages];
        if r.turn.None? { return Done(ProviderError, Snapshot(usage, toolCount, turn, requests, turns)); }
        var t := r.turn.value;
        usage := Some(MergeUsage(usage, t.usage));
        messages := messages + [t.assistant];
        transcript := transcript + [Said("assistant", t.content)];
        turns := turns + [t];
        followUps := followUps + r.queuedFollowUps;
        assert Snapshot(usage, toolCount, turn, requests, turns) == Answered(Requested(before.(turn := turn), r), r, t);
        Reacts(before, r);
        p := Respond(t, r, usage, toolCount, turn, requests, turns);
        if !p.Continue? { return; }
        toolCount := p.s.toolCount;
      }
      PlayedOut(Snapshot(usage, toolCount, turn, requests, turns), rounds);
      return Unfinished(Snapshot(usage, toolCount, turn, requests, turns));
    }

    /** What follows a turn: the end of the run, a follow-up, a request to continue, or the tool calls. */
    method Respond(t: ModelTurn, r: Round, usage: Option<Usage>, toolCount: nat, turn: nat,
        requests: seq<seq<Message>>, turns: seq<ModelTurn>)
      returns (p: Progress)
      modifies this
      ensures p == React(old(Snapshot(usage, toolCount, turn, requests, turns)), t, r, hasExecutor)
      ensures Holds(p.s) && p.s == Snapshot(usage, p.s.toolCount, turn, requests, turns)
    {
      hide Execute, ToolMessages, ToolEntries;
      if r.endRaises { return Done(EndRaised(t.toolCalls != []), Snapshot(usage, toolCount, turn, requests, turns)); }
      if t.stopReason in {"stop", "end_turn"} && t.toolCalls == [] {
        if followUps == [] {
          return Done(Finished(t.content, usage, turn, toolCount), Snapshot(usage, toolCount, turn, requests, turns));
        }
        messages := messages + [User(followUps[0])];
        transcript := transcript + [FollowedUp(followUps[0])];
        followUps := followUps[1..];
        return Continue(Snapshot(usage, toolCount, turn, requests, turns));
      }
      if t.stopReason == "pause_turn" {
        messages := messages + [User(CONTINUE)];
        transcript := transcript + [Said("user", CONTINUE)];
        return Continue(Snapshot(usage, toolCount, turn, requests, turns));
      }
      if t.toolCalls == [] { return Done(ToolUseWithoutCalls, Snapshot(usage, toolCount, turn, requests, turns)); }
      if !hasExecutor { return Done(ExecutorMissing, Snapshot(usage, toolCount, turn, requests, turns)); }
      var count := toolCount + |t.toolCalls|;
      if r.toolsInterrupted { return Done(ToolsInterrupted, Snapshot(usage, count, turn, requests, turns)); }
      var results := Execute(t.toolCalls, r.outputs);
      messages := messages + ToolMessages(results);
      transcript := transcript + ToolEntries(results);
      return Continue(Snapshot(usage, count, turn, requests, turns));
    }

    /** Every queued steering text becomes a user message, oldest first. */
    method DrainSteering()
      modifies this`messages, this`transcript, this`steering
      ensures messages == old(messages) + Users(old(steering))
      ensures transcript == old(transcript) + SteeredEntries(old(steering)) && steering == []
    {
      ghost var k := 0;
      while steering != []
        invariant 0 <= k <= |old(steering)| && steering == old(steering)[k..]
        invariant messages == old(messages) + Users(old(steering)[..k])
        invariant transcript == old(transcript) + SteeredEntries(old(steering)[..k])
        decreases |steering|
      {
        messages := messages + [User(steering[0])];
        transcript := transcript + [Steered(steering[0])];
        assert Users(old(steering)[..k + 1]) == Users(old(steering)[..k]) + [User(old(steering)[k])];
        assert SteeredEntries(old(steering)[..k + 1])
            == SteeredEntries(old(steering)[..k]) + [Steered(old(steering)[k])];
        steering := steering[1..];
        k := k + 1;
      }
      assert old(steering)[..k] == old(steering);
    }
  }
}
