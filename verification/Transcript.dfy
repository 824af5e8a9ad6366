/**
 The transcript of one conversation: idempotent appends to a cached list, and a write-behind flush
 task that snapshots the list under the conversation lock and replaces the file. Each action below
 is one critical section of that lock, or an event outside it.
 */
module Transcript {
  import opened Contracts

  datatype Message = Message(id: nat, sourceId: string, kind: string, content: string)

  datatype Draft = Draft(sourceId: string, kind: string, content: string)

  /** Failed is a task that ended with a write error and is still registered. */
  datatype FlushTask = NoTask | Waiting | Writing(snapshot: seq<Message>) | Failed

  datatype State = State(cache: Option<seq<Message>>, file: seq<Message>, flush: FlushTask)

  /** The list as a reader sees it: the cache, loaded from the file on first use. */
  function Messages(s: State): seq<Message> {
    if s.cache.Some? then s.cache.value else s.file
  }

  function Highest(messages: seq<Message>): (m: nat)
    ensures forall i :: 0 <= i < |messages| ==> messages[i].id <= m
    ensures m == 0 || exists i :: 0 <= i < |messages| && messages[i].id == m
  {
    if messages == [] then 0
    else
      var last := |messages| - 1;
      var m := Highest(messages[..last]);
      assert forall i :: 0 <= i < last ==> messages[..last][i] == messages[i];
      if m <= messages[last].id then messages[last].id else m
  }

  predicate HasSource(messages: seq<Message>, sourceId: string) {
    exists m :: m in messages && m.sourceId == sourceId
  }

  function Added(messages: seq<Message>, d: Draft): seq<Message> {
    messages + [Message(Highest(messages) + 1, d.sourceId, d.kind, d.content)]
  }

  // ----- Critical sections -----

  function AppendTo(s: State, d: Draft): State
    requires !s.flush.Writing?
  {
    var messages := Messages(s);
    if HasSource(messages, d.sourceId) then s.(cache := Some(messages))
    else s.(cache := Some(Added(messages, d)), flush := Waiting)
  }

  /** The flush task takes the lock and its snapshot; it keeps the lock while it writes. */
  function TakeSnapshot(s: State): State
    requires s.flush.Waiting?
  {
    State(Some(Messages(s)), s.file, Writing(Messages(s)))
  }

  /** The file is replaced; the task ends if nothing was appended since, and otherwise goes round again. */
  function FinishWrite(s: State): State
    requires s.flush.Writing?
  {
    State(s.cache, s.flush.snapshot, if Messages(s) == s.flush.snapshot then NoTask else Waiting)
  }

  function FailWrite(s: State): State
    requires s.flush.Writing?
  {
    s.(flush := Failed)
  }

  function Crashed(s: State, replaced: bool): State {
    State(None, if s.flush.Writing? && replaced then s.flush.snapshot else s.file, NoTask)
  }

  datatype Action =
    | Append(draft: Draft)
    | List
    | Snapshot
    | WriteDone
    | WriteError
    | Crash(replaced: bool)   // replaced: the atomic rename of a running write had already happened

  /** An action whose lock is taken, or whose task is not in that phase, waits: the state stays. */
  function Next(s: State, a: Action): State {
    match a
    case Append(d) => if s.flush.Writing? then s else AppendTo(s, d)
    case List => if s.flush.Writing? then s else s.(cache := Some(Messages(s)))
    case Snapshot => if s.flush.Waiting? then TakeSnapshot(s) else s
    case WriteDone => if s.flush.Writing? then FinishWrite(s) else s
    case WriteError => if s.flush.Writing? then FailWrite(s) else s
    case Crash(replaced) => Crashed(s, replaced)
  }

  function Run(file: seq<Message>, actions: seq<Action>): State {
    if actions == [] then State(None, file, NoTask)
    else Next(Run(file, actions[..|actions| - 1]), actions[|actions| - 1])
  }

  // ----- The invariant -----

  /** Ids increase strictly and every source id appears once. */
  ghost predicate WellFormed(messages: seq<Message>) {
    && (forall i, j :: 0 <= i < j < |messages| ==> messages[i].id < messages[j].id)
    && (forall i, j :: 0 <= i < j < |messages| ==> messages[i].sourceId != messages[j].sourceId)
  }

  /** The file is a prefix of the list, and behind it exactly while a flush task is registered. */
  ghost predicate Inv(s: State) {
    && WellFormed(Messages(s)) && s.file <= Messages(s)
    && (s.file == Messages(s) <==> s.flush.NoTask?)
    && (s.flush.Writing? ==> s.cache == Some(s.flush.snapshot))
  }

  lemma AddedWellFormed(messages: seq<Message>, d: Draft)
    requires WellFormed(messages) && !HasSource(messages, d.sourceId)
    ensures WellFormed(Added(messages, d))
  {
    assert forall i :: 0 <= i < |messages| ==> messages[i] in messages;
  }

  /** The file never loses a message, not even by a crash in the middle of a write. */
  lemma NextKeeps(s: State, a: Action)
    requires Inv(s)
    ensures Inv(Next(s, a)) && s.file <= Next(s, a).file
    ensures !a.Crash? ==> Messages(s) <= Messages(Next(s, a))
  {
    if a.Append? && !HasSource(Messages(s), a.draft.sourceId) {
      AddedWellFormed(Messages(s), a.draft);
      hide WellFormed, Highest;
    } else {
      PrefixWellFormed(Messages(s), s.file);
      hide WellFormed, HasSource, Added;
    }
  }

  lemma PrefixWellFormed(messages: seq<Message>, prefix: seq<Message>)
    requires WellFormed(messages) && prefix <= messages
    ensures WellFormed(prefix)
  {
    assert forall i :: 0 <= i < |prefix| ==> prefix[i] == messages[i];
  }

  lemma {:induction false} TranscriptInvariant(file: seq<Message>, actions: seq<Action>)
    requires WellFormed(file)
    ensures Inv(Run(file, actions)) && file <= Run(file, actions).file
  {
    hide Inv, Next, WellFormed;
    if actions == [] {
      EmptyRun(file);
    } else {
      var init := actions[..|actions| - 1];
      TranscriptInvariant(file, init);
      NextKeeps(Run(file, init), actions[|actions| - 1]);
    }
  }

  lemma EmptyRun(file: seq<Message>)
    requires WellFormed(file)
    ensures Inv(Run(file, []))
  {
  }

  // ----- What the list becomes -----

  /**
   An append of a new source id adds one message at the end, with the draft's fields and the id after
   that of the last message, or 1, and registers a flush. A known source id changes nothing.
   */
  lemma AppendOutcome(file: seq<Message>, actions: seq<Action>, d: Draft)
    requires WellFormed(file) && !Run(file, actions).flush.Writing?
    ensures var s, s' := Run(file, actions), Run(file, actions + [Append(d)]);
            var before, now := Messages(s), Messages(s');
            && s'.file == s.file
            && if exists i :: 0 <= i < |before| && before[i].sourceId == d.sourceId then
                 now == before && s'.flush == s.flush
               else
                 var id := if before == [] then 1 else before[|before| - 1].id + 1;
                 now == before + [Message(id, d.sourceId, d.kind, d.content)] && s'.flush == Waiting
  {
    hide Next, Inv;
    TranscriptInvariant(file, actions);
    assert (actions + [Append(d)])[..|actions|] == actions;
    AppendedTo(Run(file, actions), d);
    hide Run;
  }

  lemma AppendedTo(s: State, d: Draft)
    requires Inv(s) && !s.flush.Writing?
    ensures var s' := Next(s, Append(d));
            var before, now := Messages(s), Messages(s');
            && s'.file == s.file
            && if exists i :: 0 <= i < |before| && before[i].sourceId == d.sourceId then
                 now == before && s'.flush == s.flush
               else
                 var id := if before == [] then 1 else before[|before| - 1].id + 1;
                 now == before + [Message(id, d.sourceId, d.kind, d.content)] && s'.flush == Waiting
  {
    var before := Messages(s);
    HighestIsLast(before);
    KnownSource(before, d.sourceId);
    hide Highest, WellFormed, HasSource;
  }

  lemma KnownSource(messages: seq<Message>, sourceId: string)
    ensures HasSource(messages, sourceId) <==> exists i :: 0 <= i < |messages| && messages[i].sourceId == sourceId
  {
    if i :| 0 <= i < |messages| && messages[i].sourceId == sourceId {
      assert messages[i] in messages;
    }
  }

  lemma HighestIsLast(messages: seq<Message>)
    requires WellFormed(messages)
    ensures Highest(messages) == if messages == [] then 0 else messages[|messages| - 1].id
  {
  }

  /** After a restart the list is what the file holds: that of a running write if its rename had happened. */
  lemma RestartOutcome(file: seq<Message>, actions: seq<Action>, replaced: bool)
    requires WellFormed(file)
    ensures var s, s' := Run(file, actions), Run(file, actions + [Crash(replaced)]);
            && s'.flush == NoTask && Messages(s') == s'.file
            && s'.file == if s.flush.Writing? && replaced then Messages(s) else s.file
  {
    TranscriptInvariant(file, actions);
    assert (actions + [Crash(replaced)])[..|actions|] == actions;
    hide Run, WellFormed;
  }

  // ----- Durability -----

  /** What awaiting the registered flush task does when nothing is appended meanwhile. */
  function Drained(s: State): State {
    if s.flush.Waiting? then FinishWrite(TakeSnapshot(s))
    else if s.flush.Writing? then FinishWrite(s)
    else s
  }

  predicate Fails(s: State, a: Action) {
    a.WriteError? && s.flush.Writing?
  }

  /** A restart, or an append of a new source id, which registers a new task. */
  predicate Revives(s: State, a: Action) {
    a.Crash? || (a.Append? && !HasSource(Messages(s), a.draft.sourceId))
  }

  lemma FailedStep(s: State, a: Action)
    ensures Next(s, a).flush.Failed? <==> Fails(s, a) || (s.flush.Failed? && !Revives(s, a))
  {
    hide Added, HasSource;
  }

  /** The write at index k failed and nothing after it revived the flushing. */
  ghost predicate StrandedAt(file: seq<Message>, actions: seq<Action>, k: nat) {
    && k < |actions| && Fails(Run(file, actions[..k]), actions[k])
    && forall j :: k < j < |actions| ==> !Revives(Run(file, actions[..j]), actions[j])
  }

  /** Some write failed, and since then nothing has revived the flushing. */
  ghost predicate Stranded(file: seq<Message>, actions: seq<Action>) {
    exists k: nat :: StrandedAt(file, actions, k)
  }

  lemma StrandedAtSnoc(file: seq<Message>, init: seq<Action>, a: Action, k: nat)
    requires k < |init|
    ensures StrandedAt(file, init + [a], k) <==> StrandedAt(file, init, k) && !Revives(Run(file, init), a)
  {
    hide Run, Fails, Revives;
    var all, n := init + [a], |init|;
    assert all[..n] == init && all[n] == a;
    assert forall j :: 0 <= j < n ==> all[..j] == init[..j] && all[j] == init[j];
  }

  lemma StrandedSnoc(file: seq<Message>, init: seq<Action>, a: Action)
    ensures Stranded(file, init + [a]) <==>
              Fails(Run(file, init), a) || (Stranded(file, init) && !Revives(Run(file, init), a))
  {
    hide Run, Fails, Revives, StrandedAt;
    var n := |init|;
    forall k: nat | k < n
      ensures StrandedAt(file, init + [a], k) <==> StrandedAt(file, init, k) && !Revives(Run(file, init), a)
    {
      StrandedAtSnoc(file, init, a, k);
    }
    StrandedLast(file, init, a);
    if Stranded(file, init + [a]) {
      var k: nat :| StrandedAt(file, init + [a], k);
      assert k <= n by { WithinRun(file, init + [a], k); }
    }
    if Stranded(file, init) {
      var k: nat :| StrandedAt(file, init, k);
      assert k < n by { WithinRun(file, init, k); }
    }
  }

  lemma WithinRun(file: seq<Message>, actions: seq<Action>, k: nat)
    requires StrandedAt(file, actions, k)
    ensures k < |actions|
  {
  }

  lemma StrandedLast(file: seq<Message>, init: seq<Action>, a: Action)
    ensures StrandedAt(file, init + [a], |init|) <==> Fails(Run(file, init), a)
  {
    hide Run, Fails, Revives;
    assert (init + [a])[..|init|] == init;
  }

  lemma {:induction false} FailedIffStranded(file: seq<Message>, actions: seq<Action>)
    ensures Run(file, actions).flush.Failed? <==> Stranded(file, actions)
  {
    if actions != [] {
      hide Next, Stranded, Fails, Revives;
      var init, a := actions[..|actions| - 1], actions[|actions| - 1];
      assert init + [a] == actions;
      FailedIffStranded(file, init);
      StrandedSnoc(file, init, a);
      FailedStep(Run(file, init), a);
    }
  }

  /**
   Flushing makes the file equal to the list exactly when no failed write is still unrevived; it
   never changes the list, in which ids increase and source ids are unique. After a stranding write
   error it does nothing at all.
   */
  lemma FlushIsDurable(file: seq<Message>, actions: seq<Action>)
    requires WellFormed(file)
    ensures var s := Run(file, actions);
            && (Drained(s).file == Messages(s) <==> !Stranded(file, actions))
            && Messages(Drained(s)) == Messages(s) && WellFormed(Messages(s))
            && (Stranded(file, actions) ==> Drained(s) == s && s.file < Messages(s))
  {
    TranscriptInvariant(file, actions);
    FailedIffStranded(file, actions);
    hide WellFormed, Run, Stranded;
  }

  method FindBySource(messages: seq<Message>, sourceId: string) returns (id: Option<nat>)
    ensures id.Some? <==> HasSource(messages, sourceId)
    ensures id.Some? ==> exists m :: m in messages && m.id == id.value && m.sourceId == sourceId
  {
    for i := 0 to |messages|
      invariant forall k :: 0 <= k < i ==> messages[k].sourceId != sourceId
    {
      if messages[i].sourceId == sourceId {
        assert messages[i] in messages;
        return Some(messages[i].id);
      }
    }
    return None;
  }

  method HighestId(messages: seq<Message>) returns (highest: nat)
    ensures highest == Highest(messages)
  {
    highest := 0;
    for i := 0 to |messages|
      invariant highest == Highest(messages[..i])
    {
      assert messages[..i + 1][..i] == messages[..i];
      if highest < messages[i].id { highest := messages[i].id; }
    }
    assert messages[..|messages|] == messages;
  }

  // ----- The store -----

  class JsonConversationStore {
    var cache: Option<seq<Message>>
    var file: seq<Message>
    var flush: FlushTask

    constructor (file: seq<Message>)
      ensures Value() == State(None, file, NoTask)
    {
      cache, this.file, flush := None, file, NoTask;
    }

    function Value(): State
      reads this
    {
      State(cache, file, flush)
    }

    /** Loads the transcript on first use. */
    method Load() returns (messages: seq<Message>)
      modifies this`cache
      ensures messages == Messages(old(Value())) && cache == Some(messages)
    {
      if cache.None? { cache := Some(file); }
      messages := cache.value;
    }

    method AppendMessage(d: Draft) returns (id: nat)
      requires !flush.Writing?
      modifies this
      ensures Value() == AppendTo(old(Value()), d)
      ensures exists m :: m in Messages(Value()) && m.id == id && m.sourceId == d.sourceId
      ensures HasSource(Messages(old(Value())), d.sourceId) ==>
                exists m :: m in Messages(old(Value())) && m.id == id && m.sourceId == d.sourceId
    {
      hide Highest;
      var messages := Load();
      var existing := FindBySource(messages, d.sourceId);
      if existing.Some? { return existing.value; }
      var highest := HighestId(messages);
      var message := Message(highest + 1, d.sourceId, d.kind, d.content);
      cache := Some(messages + [message]);
      if !flush.Waiting? { flush := Waiting; }
      assert message in Messages(Value());
      return message.id;
    }

    method ListMessages(after: nat, limit: nat, excluded: set<string>) returns (rows: seq<Message>)
      requires !flush.Writing?
      modifies this`cache
      ensures rows == Listed(Messages(old(Value())), after, limit, excluded)
      ensures Value() == Next(old(Value()), List)
    {
      var messages := Load();
      rows := [];
      for i := 0 to |messages|
        invariant rows == Selected(messages[..i], after, excluded)
      {
        assert messages[..i + 1][..i] == messages[..i];
        if messages[i].id > after && messages[i].kind !in excluded { rows := rows + [messages[i]]; }
      }
      assert messages[..|messages|] == messages;
      if |rows| > limit { rows := rows[..limit]; }
    }

    method BeginFlush()
      requires flush.Waiting?
      modifies this
      ensures Value() == TakeSnapshot(old(Value()))
    {
      var messages := Load();
      flush := Writing(messages);
    }

    method EndFlush()
      requires flush.Writing?
      modifies this
      ensures Value() == FinishWrite(old(Value()))
    {
      var snapshot := flush.snapshot;
      var current := if cache.Some? then cache.value else file;
      file := snapshot;
      flush := if current == snapshot then NoTask else Waiting;
    }
  }

  // ----- Listing -----

  function Selected(messages: seq<Message>, after: nat, excluded: set<string>): seq<Message> {
    if messages == [] then []
    else
      var last := messages[|messages| - 1];
      Selected(messages[..|messages| - 1], after, excluded)
      + if last.id > after && last.kind !in excluded then [last] else []
  }

  function Listed(messages: seq<Message>, after: nat, limit: nat, excluded: set<string>): seq<Message> {
    var rows := Selected(messages, after, excluded);
    if |rows| <= limit then rows else rows[..limit]
  }

  lemma {:induction false} SelectedRows(messages: seq<Message>, after: nat, excluded: set<string>)
    returns (places: seq<nat>)
    ensures TakenFrom(Selected(messages, after, excluded), messages, places)
    ensures forall i: nat :: i in places <==>
              i < |messages| && messages[i].id > after && messages[i].kind !in excluded
  {
    hide TakenFrom;
    places := [];
    if messages == [] {
      TakenNone(messages);
    } else {
      var n := |messages| - 1;
      places := SelectedRows(messages[..n], after, excluded);
      TakenSnoc(Selected(messages[..n], after, excluded), messages[..n], places, messages[n]);
      assert messages[..n] + [messages[n]] == messages;
      assert Selected(messages[..n], after, excluded) + [] == Selected(messages[..n], after, excluded);
      if messages[n].id > after && messages[n].kind !in excluded { places := places + [n]; }
    }
  }

  /**
   A listing holds messages above the cursor whose kind is not excluded, in order and at most limit of
   them; one that is missing comes after all of these, and only if the limit is reached.
   */
  lemma ListedRows(messages: seq<Message>, after: nat, limit: nat, excluded: set<string>) returns (places: seq<nat>)
    ensures TakenFrom(Listed(messages, after, limit, excluded), messages, places) && |places| <= limit
    ensures forall i :: i in places ==> messages[i].id > after && messages[i].kind !in excluded
    ensures forall i :: 0 <= i < |messages| && messages[i].id > after && messages[i].kind !in excluded ==>
              i in places || (|places| == limit && forall p :: p in places ==> p < i)
  {
    var all := SelectedRows(messages, after, excluded);
    places := if |all| <= limit then all else all[..limit];
    assert forall k :: 0 <= k < |places| ==> places[k] == all[k];
  }
}
