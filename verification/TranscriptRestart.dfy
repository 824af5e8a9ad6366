/**
 The transcript store and its stream together, across restarts of the server. A restart loses the
 part of the list that was not written, closes the connection, and may give the lost ids to other
 messages; the client keeps its cursor and what it has handled.
 */
module TranscriptRestart {
  import opened Contracts
  import opened Transcript
  import S = TranscriptStream

  datatype World = World(store: State, link: S.Link, client: nat, handled: seq<Message>)

  /** Critical sections and crashes of the store, or steps of the delivery; rows enter only through the store. */
  datatype Event = Stored(write: Action) | Delivered(step: S.Action)

  /** What the stream sees: the list of the store. */
  function View(w: World): S.World {
    S.World(Messages(w.store), w.link, w.client, w.handled)
  }

  /** A poll waits while the store writes; a crash takes the connection with it. */
  function Next(after: nat, w: World, e: Event): World {
    match e
    case Stored(a) => w.(store := Transcript.Next(w.store, a), link := if a.Crash? then S.Down else w.link)
    case Delivered(a) =>
      if a.Store? || (a.Poll? && w.store.flush.Writing?) then w
      else
        var v := S.Next(after, View(w), a);
        World(if a.Poll? then Transcript.Next(w.store, List) else w.store, v.link, v.client, v.handled)
  }

  function Run(after: nat, file: seq<Message>, events: seq<Event>): World {
    if events == [] then World(State(None, file, NoTask), S.Down, after, [])
    else Next(after, Run(after, file, events[..|events| - 1]), events[|events| - 1])
  }

  ghost predicate HonestRun(after: nat, file: seq<Message>, events: seq<Event>) {
    forall i :: 0 <= i < |events| && events[i].Delivered? ==>
      S.Honest(after, View(Run(after, file, events[..i])), events[i].step)
  }

  /** The client has handled exactly the rows up to its cursor, in order. */
  predicate Exact(after: nat, w: World) {
    w.handled == S.Between(Messages(w.store), after, w.client)
  }

  /** A crash after which the transcript does not reach the cursor of a client that has handled something. */
  predicate Loses(after: nat, w: World, e: Event) {
    && e.Stored? && e.write.Crash? && after < w.client
    && Highest(Crashed(w.store, e.write.replaced).file) < w.client
  }

  ghost predicate NothingLost(after: nat, file: seq<Message>, events: seq<Event>) {
    forall i :: 0 <= i < |events| ==> !Loses(after, Run(after, file, events[..i]), events[i])
  }

  ghost predicate Inv(after: nat, w: World) {
    Transcript.Inv(w.store) && S.Inv(after, View(w))
  }

  /** The list after a step of the store: as it was, with one new message, or cut down to what was written. */
  lemma StoreEffect(s: State, a: Action)
    requires Transcript.Inv(s)
    ensures Transcript.Inv(Transcript.Next(s, a))
    ensures !a.Crash? ==>
              || Messages(Transcript.Next(s, a)) == Messages(s)
              || (&& a.Append? && !HasSource(Messages(s), a.draft.sourceId)
                  && Messages(Transcript.Next(s, a)) == Added(Messages(s), a.draft))
    ensures a.Crash? ==> Messages(Transcript.Next(s, a)) == Crashed(s, a.replaced).file <= Messages(s)
  {
    NextKeeps(s, a);
    hide WellFormed, HasSource, Added;
  }

  lemma StoredKeeps(after: nat, w: World, a: Action)
    requires Inv(after, w) && !Loses(after, w, Stored(a))
    ensures Inv(after, Next(after, w, Stored(a)))
  {
    hide WellFormed, HasSource, Added, Highest, S.Inv, Transcript.Inv, Crashed, Transcript.Next;
    StoreEffect(w.store, a);
    if a.Crash? {
      CrashKeeps(after, w, Messages(Transcript.Next(w.store, a)));
    } else if Messages(Transcript.Next(w.store, a)) != Messages(w.store) {
      S.StoreKeeps(after, View(w), a.draft);
    }
  }

  /** Cutting the list behind the client's cursor changes nothing for the client. */
  lemma CrashKeeps(after: nat, w: World, rows: seq<Message>)
    requires S.Inv(after, View(w)) && rows <= Messages(w.store)
    requires after < w.client ==> w.client <= Highest(rows)
    ensures S.Inv(after, S.World(rows, S.Down, w.client, w.handled))
  {
    var all := Messages(w.store);
    PrefixWellFormed(all, rows);
    HighestIsLast(rows);
    hide WellFormed, S.Between, Highest, S.HasId;
    if after < w.client {
      CutBetween(all, rows, after, w.client);
      HasIdInPrefix(all, rows, w.client);
    } else {
      S.EmptyBetween(all, after, w.client);
      S.EmptyBetween(rows, after, w.client);
    }
  }

  lemma {:induction false} CutBetween(all: seq<Message>, rows: seq<Message>, low: nat, high: nat)
    requires WellFormed(all) && rows <= all && rows != [] && high <= rows[|rows| - 1].id
    ensures S.Between(all, low, high) == S.Between(rows, low, high)
  {
    hide WellFormed, S.Between;
    if rows == all {
    } else {
      S.LastIsHighest(all);
      assert rows[|rows| - 1] in all[..|all| - 1] by { assert all[..|all| - 1][|rows| - 1] == rows[|rows| - 1]; }
      S.BetweenOfLast(all, low, high);
      CutBetween(all[..|all| - 1], rows, low, high);
    }
  }

  lemma HasIdInPrefix(all: seq<Message>, rows: seq<Message>, id: nat)
    requires WellFormed(all) && rows <= all && rows != [] && S.HasId(all, id) && id <= rows[|rows| - 1].id
    ensures S.HasId(rows, id)
  {
    var m :| m in all && m.id == id;
    var i :| 0 <= i < |all| && all[i] == m;
    assert forall j :: |rows| <= j < |all| ==> all[|rows| - 1].id < all[j].id;
    assert rows[i] == m;
  }

  lemma DeliveredKeeps(after: nat, w: World, a: S.Action)
    requires Inv(after, w) && S.Honest(after, View(w), a)
    ensures Inv(after, Next(after, w, Delivered(a)))
  {
    hide S.Inv, Transcript.Inv, S.Next, Transcript.Next;
    StoreEffect(w.store, List);
    if !a.Store? {
      S.NextKeeps(after, View(w), a);
      RowsStay(after, View(w), a);
      var w' := Next(after, w, Delivered(a));
      assert !(a.Poll? && w.store.flush.Writing?) ==> View(w') == S.Next(after, View(w), a);
    }
  }

  lemma RowsStay(after: nat, v: S.World, a: S.Action)
    requires !a.Store?
    ensures S.Next(after, v, a).rows == v.rows
  {
    hide Listed;
  }

  lemma NextKeepsAll(after: nat, w: World, e: Event)
    requires Inv(after, w) && !Loses(after, w, e) && (e.Delivered? ==> S.Honest(after, View(w), e.step))
    ensures Inv(after, Next(after, w, e))
  {
    hide Inv, Next, Loses;
    match e
    case Stored(a) => StoredKeeps(after, w, a);
    case Delivered(a) => DeliveredKeeps(after, w, a);
  }

  /** A lossy restart leaves the client with a row, its last one, that is not in the transcript. */
  lemma LossBreaks(after: nat, w: World, e: Event)
    requires Inv(after, w) && Loses(after, w, e)
    ensures !Exact(after, Next(after, w, e))
  {
    hide WellFormed;
    var rows := Messages(Next(after, w, e).store);
    assert rows == Crashed(w.store, e.write.replaced).file;
    LastHandled(after, View(w));
    var m :| m in w.handled && m.id == w.client;
    MembersBelow(rows);
    assert m !in S.Between(rows, after, w.client);
  }

  lemma MembersBelow(rows: seq<Message>)
    ensures forall m :: m in rows ==> m.id <= Highest(rows)
  {
  }

  lemma LastHandled(after: nat, v: S.World)
    requires S.Inv(after, v) && after < v.client
    ensures exists m :: m in v.handled && m.id == v.client
  {
    var m :| m in v.rows && m.id == v.client;
    InBetween(v.rows, after, v.client, m);
  }

  lemma {:induction false} InBetween(rows: seq<Message>, low: nat, high: nat, m: Message)
    requires m in rows && low < m.id <= high
    ensures m in S.Between(rows, low, high)
  {
    var last := |rows| - 1;
    if m != rows[last] {
      var i :| 0 <= i < |rows| && rows[i] == m;
      assert rows[..last][i] == m;
      InBetween(rows[..last], low, high, m);
    }
  }

  lemma {:induction false} RestartReachable(after: nat, file: seq<Message>, events: seq<Event>)
    requires WellFormed(file) && HonestRun(after, file, events) && NothingLost(after, file, events)
    ensures Inv(after, Run(after, file, events))
  {
    hide Inv, Next, Loses, WellFormed, S.Honest;
    if events == [] {
      RestartBegins(after, file);
    } else {
      var init, e := events[..|events| - 1], events[|events| - 1];
      assert forall i :: 0 <= i < |init| ==> init[..i] == events[..i] && init[i] == events[i];
      RestartReachable(after, file, init);
      NextKeepsAll(after, Run(after, file, init), e);
    }
  }

  lemma RestartBegins(after: nat, file: seq<Message>)
    requires WellFormed(file)
    ensures Inv(after, Run(after, file, []))
  {
    S.EmptyBetween(file, after, after);
  }

  lemma InvIsExact(after: nat, w: World)
    requires Inv(after, w)
    ensures Exact(after, w)
  {
  }

  lemma HonestPrefix(after: nat, file: seq<Message>, events: seq<Event>, k: nat)
    requires HonestRun(after, file, events) && k <= |events|
    ensures HonestRun(after, file, events[..k])
  {
    hide Run, S.Honest;
    assert forall i :: 0 <= i < k ==> events[..k][..i] == events[..i] && events[..k][i] == events[i];
  }

  /** The first lossy restart of a run that has one. */
  lemma {:induction false} FirstLoss(after: nat, file: seq<Message>, events: seq<Event>) returns (k: nat)
    requires !NothingLost(after, file, events)
    ensures k < |events| && Loses(after, Run(after, file, events[..k]), events[k])
              && NothingLost(after, file, events[..k])
  {
    hide Run, Loses;
    var init := events[..|events| - 1];
    assert forall i :: 0 <= i < |init| ==> init[..i] == events[..i] && init[i] == events[i];
    if NothingLost(after, file, init) {
      k := |events| - 1;
    } else {
      k := FirstLoss(after, file, init);
      assert init[..k] == events[..k];
    }
  }

  /**
   Delivery is exactly once and in order at every moment of a run, restarts included, if and only if
   no restart cuts the transcript below the cursor of a client that has handled something.
   */
  lemma ExactlyOnceIffNothingLost(after: nat, file: seq<Message>, events: seq<Event>)
    requires WellFormed(file) && HonestRun(after, file, events)
    ensures NothingLost(after, file, events) <==>
              forall k :: 0 <= k <= |events| ==> Exact(after, Run(after, file, events[..k]))
  {
    hide Run, Inv, Next, Loses, Exact, WellFormed, HonestRun;
    if NothingLost(after, file, events) {
      forall k | 0 <= k <= |events| ensures Exact(after, Run(after, file, events[..k])) {
        HonestPrefix(after, file, events, k);
        assert forall i :: 0 <= i < k ==> events[..k][..i] == events[..i] && events[..k][i] == events[i];
        RestartReachable(after, file, events[..k]);
        InvIsExact(after, Run(after, file, events[..k]));
      }
    } else {
      var k := FirstLoss(after, file, events);
      HonestPrefix(after, file, events, k);
      RestartReachable(after, file, events[..k]);
      LossBreaks(after, Run(after, file, events[..k]), events[k]);
      RestartSnoc(after, file, events, k);
      assert !Exact(after, Run(after, file, events[..k + 1]));
    }
  }

  lemma RestartSnoc(after: nat, file: seq<Message>, events: seq<Event>, k: nat)
    requires k < |events|
    ensures Run(after, file, events[..k + 1]) == Next(after, Run(after, file, events[..k]), events[k])
  {
    hide Next;
    assert events[..k + 1][..k] == events[..k];
  }

  /** After a lossy restart the next message gets an id the client is already past, so it drops the row unseen. */
  lemma ReissuedIsDropped(after: nat, w: World, e: Event, d: Draft)
    requires Inv(after, w) && Loses(after, w, e)
    ensures var w' := Next(after, w, e);
            var rows := Added(Messages(w'.store), d);
            var v := S.World(rows, w'.link, w'.client, w'.handled);
            S.Handled(v, rows[|rows| - 1]) == v
  {
    hide Highest;
  }
}
