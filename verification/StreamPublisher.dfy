/**
 The publisher that turns raw deltas into growing snapshots of the decoded text. Publishing is
 throttled by a clock; the time of every call is an input.
 */
module StreamPublisher {
  import opened Contracts
  import opened StreamDecoder

  const THROTTLE := 0.08

  /** One published delta message. */
  datatype Snapshot = Snapshot(sequence: nat, text: Text, raw: Text)

  datatype State = State(raw: Text, published: Text, sequence: nat, lastPublish: real, snapshots: seq<Snapshot>)

  const START := State([], [], 0, 0.0, [])

  type Parser = Text -> Option<int>

  /** stored tells whether the store takes the message; if it raises, only the number is used up. */
  function Flushed(p: State, force: bool, now: real, stored: bool, parse: Parser): State {
    var visible := Visible(p.raw, parse);
    if visible == [] || visible == p.published then p
    else if !force && now - p.lastPublish < THROTTLE then p
    else if !stored then p.(sequence := p.sequence + 1)
    else State(p.raw, visible, p.sequence + 1, now, p.snapshots + [Snapshot(p.sequence + 1, visible, p.raw)])
  }

  /** What reaches the publisher: a text delta of the model, any other loop event, or a forced flush. */
  datatype Call = TextDelta(text: Text, now: real, stored: bool) | OtherEvent | ForcedFlush(now: real, stored: bool)

  function After(p: State, call: Call, parse: Parser): State {
    match call
    case TextDelta(text, now, stored) =>
      if text == [] then p else Flushed(p.(raw := p.raw + text), false, now, stored, parse)
    case OtherEvent => p
    case ForcedFlush(now, stored) => Flushed(p, true, now, stored, parse)
  }

  class ChatStreamPublisher {
    const parse: Parser
    var raw: Text
    var published: Text
    var sequence: nat
    var lastPublish: real
    var snapshots: seq<Snapshot>

    constructor (parse: Parser)
      ensures Value() == START && this.parse == parse
    {
      this.parse := parse;
      raw, published, sequence, lastPublish, snapshots := [], [], 0, 0.0, [];
    }

    function Value(): State
      reads this
    {
      State(raw, published, sequence, lastPublish, snapshots)
    }

    method Handle(event: Option<Text>, now: real, stored: bool) returns (raised: bool)
      modifies this
      ensures Value()
                == After(old(Value()), if event.Some? then TextDelta(event.value, now, stored) else OtherEvent, parse)
      ensures raised ==> !stored && sequence == old(sequence) + 1
    {
      if event.None? { return false; }
      if event.value == [] { return false; }
      raw := raw + event.value;
      raised := Flush(false, now, stored);
    }

    /** The number is taken before the store is called, what was published and when only afterwards. */
    method Flush(force: bool, now: real, stored: bool) returns (raised: bool)
      modifies this
      ensures Value() == Flushed(old(Value()), force, now, stored, parse)
      ensures raised <==> !stored && sequence == old(sequence) + 1
    {
      var visible := StreamingJsonText(raw, parse);
      if visible == [] || visible == published { return false; }
      if !force && now - lastPublish < THROTTLE { return false; }
      sequence := sequence + 1;
      if !stored { return true; }
      snapshots := snapshots + [Snapshot(sequence, visible, raw)];
      published := visible;
      lastPublish := now;
      return false;
    }
  }

  /** Snapshots are numbered upwards, decode what had been received, and grow strictly. */
  ghost predicate Chain(p: State, parse: Parser) {
    && p.published == (if p.snapshots == [] then [] else p.snapshots[|p.snapshots| - 1].text)
    && (forall i :: 0 <= i < |p.snapshots| ==>
          && 1 <= p.snapshots[i].sequence <= p.sequence && p.snapshots[i].raw <= p.raw
          && p.snapshots[i].text == Visible(p.snapshots[i].raw, parse) && p.snapshots[i].text != [])
    && (forall i, j :: 0 <= i < j < |p.snapshots| ==>
          p.snapshots[i].text < p.snapshots[j].text && p.snapshots[i].sequence < p.snapshots[j].sequence)
  }

  /** No number is missing. */
  ghost predicate Gapless(p: State) {
    p.sequence == |p.snapshots| && forall i :: 0 <= i < |p.snapshots| ==> p.snapshots[i].sequence == i + 1
  }

  lemma PublishedIsPrefix(p: State, parse: Parser)
    requires Chain(p, parse)
    ensures p.published <= Visible(p.raw, parse)
  {
    hide Visible;
    if p.snapshots != [] {
      VisibleMonotone(p.snapshots[|p.snapshots| - 1].raw, p.raw, parse);
    }
  }

  lemma FlushKeepsChain(p: State, force: bool, now: real, stored: bool, parse: Parser)
    requires Chain(p, parse)
    ensures Chain(Flushed(p, force, now, stored, parse), parse)
    ensures stored && Gapless(p) ==> Gapless(Flushed(p, force, now, stored, parse))
    ensures force && stored && Visible(p.raw, parse) != [] ==>
              var s := Flushed(p, force, now, stored, parse).snapshots;
              s != [] && s[|s| - 1].text == Visible(p.raw, parse)
  {
    hide Visible;
    PublishedIsPrefix(p, parse);
    var q := Flushed(p, force, now, stored, parse);
    if q.snapshots != p.snapshots {
      var n := |p.snapshots|;
      assert p.published < q.snapshots[n].text;
      forall i | 0 <= i < n ensures p.snapshots[i].text < q.snapshots[n].text {
        assert p.snapshots[i].text <= p.snapshots[n - 1].text;
      }
    }
  }

  lemma MoreRaw(p: State, text: Text, parse: Parser)
    requires Chain(p, parse)
    ensures Chain(p.(raw := p.raw + text), parse)
  {
    hide Visible;
  }

  /** The state after a sequence of calls. */
  function Play(calls: seq<Call>, parse: Parser): State {
    if calls == [] then START else After(Play(calls[..|calls| - 1], parse), calls[|calls| - 1], parse)
  }

  function Received(calls: seq<Call>): Text {
    if calls == [] then []
    else
      var last := calls[|calls| - 1];
      Received(calls[..|calls| - 1]) + if last.TextDelta? then last.text else []
  }

  predicate AllStored(calls: seq<Call>) {
    forall i :: 0 <= i < |calls| && !calls[i].OtherEvent? ==> calls[i].stored
  }

  /**
   However the reply is split into deltas, however the clock throttles and whichever messages the
   store refuses, the snapshots are a strictly growing chain of decodings of what had been received;
   right after a forced flush that is stored the last one decodes everything received, if that shows
   any text. Their numbers have no gap if the store never refuses.
   */
  lemma {:induction false} SnapshotsGrow(calls: seq<Call>, parse: Parser)
    ensures Chain(Play(calls, parse), parse) && Play(calls, parse).raw == Received(calls)
    ensures AllStored(calls) ==> Gapless(Play(calls, parse))
    ensures calls != [] && calls[|calls| - 1].ForcedFlush? && calls[|calls| - 1].stored
              && Visible(Received(calls), parse) != [] ==>
              var s := Play(calls, parse).snapshots;
              s != [] && s[|s| - 1].text == Visible(Received(calls), parse)
  {
    hide Visible, Chain, Gapless, Flushed;
    if calls == [] {
      StartChain(parse);
    } else {
      var init, last := calls[..|calls| - 1], calls[|calls| - 1];
      SnapshotsGrow(init, parse);
      assert AllStored(calls) ==> AllStored(init);
      var p := Play(init, parse);
      match last
      case TextDelta(text, now, stored) =>
        if text != [] {
          MoreRaw(p, text, parse);
          SameNumbers(p, p.(raw := p.raw + text));
          FlushKeepsChain(p.(raw := p.raw + text), false, now, stored, parse);
          FlushKeepsRaw(p.(raw := p.raw + text), false, now, stored, parse);
        }
      case OtherEvent =>
      case ForcedFlush(now, stored) =>
        FlushKeepsChain(p, true, now, stored, parse);
        FlushKeepsRaw(p, true, now, stored, parse);
    }
  }

  lemma FlushKeepsRaw(p: State, force: bool, now: real, stored: bool, parse: Parser)
    ensures Flushed(p, force, now, stored, parse).raw == p.raw
  {
  }

  lemma SameNumbers(p: State, q: State)
    requires p.snapshots == q.snapshots && p.sequence == q.sequence
    ensures Gapless(p) <==> Gapless(q)
  {
  }

  lemma StartChain(parse: Parser)
    ensures Chain(START, parse) && Gapless(START)
  {
  }

  // ----- The throttle -----

  /** The time of the last call that added a snapshot, or zero if none has. */
  function LastPublishedAt(calls: seq<Call>, parse: Parser): real {
    if calls == [] then 0.0
    else
      var init, last := calls[..|calls| - 1], calls[|calls| - 1];
      if |Play(init, parse).snapshots| < |Play(calls, parse).snapshots| && !last.OtherEvent? then last.now
      else LastPublishedAt(init, parse)
  }

  lemma ClockMoves(p: State, call: Call, parse: Parser)
    ensures var q := After(p, call, parse);
            if |p.snapshots| < |q.snapshots| then !call.OtherEvent? && q.lastPublish == call.now
            else q.lastPublish == p.lastPublish
  {
    hide Visible;
  }

  lemma {:induction false} ClockIsLastPublished(calls: seq<Call>, parse: Parser)
    ensures Play(calls, parse).lastPublish == LastPublishedAt(calls, parse)
  {
    if calls != [] {
      hide After;
      ClockIsLastPublished(calls[..|calls| - 1], parse);
      ClockMoves(Play(calls[..|calls| - 1], parse), calls[|calls| - 1], parse);
    }
  }

  lemma OneCall(p: State, call: Call, parse: Parser)
    ensures var q := After(p, call, parse);
            var due := call.ForcedFlush? || (call.TextDelta? && call.text != [] && call.now - p.lastPublish >= 0.08);
            var offered := due && Visible(q.raw, parse) != [] && Visible(q.raw, parse) != p.published;
            && q.sequence == p.sequence + (if offered then 1 else 0)
            && q.snapshots == p.snapshots
                + (if offered && call.stored then [Snapshot(p.sequence + 1, Visible(q.raw, parse), q.raw)] else [])
  {
    hide Visible;
  }

  /**
   After any calls, a nonempty text delta adds a snapshot if and only if the text that is visible with it is new
   and not empty, at least 0.08 seconds have passed since the last snapshot, and the store takes it.
   The snapshot holds the next number, the visible text and everything received. A forced flush does
   not look at the clock.
   */
  lemma PublishesIff(calls: seq<Call>, call: Call, parse: Parser)
    ensures var p, q := Play(calls, parse), Play(calls + [call], parse);
            var raw := Received(calls + [call]);
            var shown := if p.snapshots == [] then [] else p.snapshots[|p.snapshots| - 1].text;
            var due := call.ForcedFlush?
                || (call.TextDelta? && call.text != [] && call.now - LastPublishedAt(calls, parse) >= 0.08);
            var offered := due && Visible(raw, parse) != [] && Visible(raw, parse) != shown;
            && q.sequence == p.sequence + (if offered then 1 else 0)
            && q.snapshots == p.snapshots
                + (if offered && call.stored then [Snapshot(p.sequence + 1, Visible(raw, parse), raw)] else [])
  {
    hide Visible, Gapless, After, LastPublishedAt, Received;
    SnapshotsGrow(calls, parse);
    SnapshotsGrow(calls + [call], parse);
    ClockIsLastPublished(calls, parse);
    assert (calls + [call])[..|calls|] == calls;
    OneCall(Play(calls, parse), call, parse);
  }
}
