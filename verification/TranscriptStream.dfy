/**
 Delivery of a transcript to a browser: the server polls the store after its cursor and sends one
 event per row; the connection may drop, losing what was still under way; the browser reconnects
 and names the last event it received; the client ignores rows at or below its own cursor.
 */
module TranscriptStream {
  import opened Contracts
  import opened Transcript

  const BATCH := 500

  /**
   One connection. received is the highest id that came over it, at first its resume point; wire
   holds what the server has sent and the browser has not received.
   */
  datatype Link = Down | Up(cursor: nat, received: nat, wire: seq<Message>)

  datatype World = World(rows: seq<Message>, link: Link, client: nat, handled: seq<Message>)

  datatype Action =
    | Store(draft: Draft)
    | Poll
    | Receive
    | Disconnect
    | Connect(lastEventId: Option<int>)   // None: no header, or one that is not a number

  /** The server's resume rule; after is the cursor in the URL, which reconnecting does not change. */
  function ResumeAfter(after: nat, lastEventId: Option<int>): nat {
    if lastEventId.Some? && lastEventId.value > after then lastEventId.value else after
  }

  /** The client's handler of one message event. */
  function Handled(w: World, m: Message): World {
    if m.id <= w.client then w else w.(client := m.id, handled := w.handled + [m])
  }

  function Next(after: nat, w: World, a: Action): World {
    match a
    case Store(d) => if HasSource(w.rows, d.sourceId) then w else w.(rows := Added(w.rows, d))
    case Poll =>
      if w.link.Down? then w
      else
        var batch := Listed(w.rows, w.link.cursor, BATCH, {});
        if batch == [] then w
        else w.(link := Up(batch[|batch| - 1].id, w.link.received, w.link.wire + batch))
    case Receive =>
      if w.link.Down? || w.link.wire == [] then w
      else
        var m := w.link.wire[0];
        Handled(w, m).(link := Up(w.link.cursor, m.id, w.link.wire[1..]))
    case Disconnect => w.(link := Down)
    case Connect(header) =>
      if w.link.Up? then w
      else
        var start := ResumeAfter(after, header);
        w.(link := Up(start, start, []))
  }

  function Run(after: nat, rows: seq<Message>, actions: seq<Action>): World {
    if actions == [] then World(rows, Down, after, [])
    else Next(after, Run(after, rows, actions[..|actions| - 1]), actions[|actions| - 1])
  }

  /** The header names nothing the client has not handled yet; it may be missing or old. */
  predicate Honest(after: nat, w: World, a: Action) {
    a.Connect? && a.lastEventId.Some? ==> a.lastEventId.value <= w.client
  }

  ghost predicate HonestRun(after: nat, rows: seq<Message>, actions: seq<Action>) {
    forall i :: 0 <= i < |actions| ==> Honest(after, Run(after, rows, actions[..i]), actions[i])
  }

  // ----- Rows between two ids -----

  function Between(rows: seq<Message>, low: nat, high: nat): (r: seq<Message>)
    ensures forall m :: m in r ==> m in rows && low < m.id <= high
  {
    if rows == [] then []
    else
      var last := rows[|rows| - 1];
      Between(rows[..|rows| - 1], low, high) + if low < last.id <= high then [last] else []
  }

  lemma BetweenOfLast(rows: seq<Message>, low: nat, high: nat)
    ensures rows == [] ==> Between(rows, low, high) == []
    ensures rows != [] ==>
              var last := rows[|rows| - 1];
              Between(rows, low, high)
              == Between(rows[..|rows| - 1], low, high) + if low < last.id <= high then [last] else []
  {
  }

  /** All rows above an id: what an endless stream starting there would show. */
  function Above(rows: seq<Message>, low: nat): seq<Message> {
    Selected(rows, low, {})
  }

  lemma {:induction false} AboveIsBetween(rows: seq<Message>, low: nat, high: nat)
    requires forall m :: m in rows ==> m.id <= high
    ensures Above(rows, low) == Between(rows, low, high)
  {
    if rows != [] {
      AboveIsBetween(rows[..|rows| - 1], low, high);
    }
  }

  lemma AboveUpToHighest(rows: seq<Message>, low: nat, high: nat)
    requires Highest(rows) <= high
    ensures Above(rows, low) == Between(rows, low, high)
  {
    hide Above, Between;
    AboveIsBetween(rows, low, high);
  }

  lemma {:induction false} EmptyBetween(rows: seq<Message>, low: nat, high: nat)
    requires forall m :: m in rows ==> !(low < m.id <= high)
    ensures Between(rows, low, high) == []
  {
    if rows != [] {
      assert forall m :: m in rows[..|rows| - 1] ==> m in rows;
      EmptyBetween(rows[..|rows| - 1], low, high);
    }
  }

  /** With increasing ids, consecutive ranges join. */
  lemma LastIsHighest(rows: seq<Message>)
    requires WellFormed(rows) && rows != []
    ensures forall m :: m in rows[..|rows| - 1] ==> m.id < rows[|rows| - 1].id
    ensures WellFormed(rows[..|rows| - 1])
  {
    PrefixWellFormed(rows, rows[..|rows| - 1]);
  }

  lemma {:induction false} JoinBetween(rows: seq<Message>, a: nat, b: nat, c: nat)
    requires WellFormed(rows) && a <= b <= c
    ensures Between(rows, a, b) + Between(rows, b, c) == Between(rows, a, c)
  {
    hide WellFormed, Between;
    BetweenOfLast(rows, a, b);
    BetweenOfLast(rows, b, c);
    BetweenOfLast(rows, a, c);
    if rows != [] {
      var init, last := rows[..|rows| - 1], rows[|rows| - 1];
      LastIsHighest(rows);
      JoinBetween(init, a, b, c);
      if last.id <= b {
        EmptyBetween(init, b, c);
      }
    }
  }

  lemma {:induction false} SplitAt(rows: seq<Message>, low: nat, high: nat, k: nat)
    requires WellFormed(rows) && k < |Between(rows, low, high)|
    ensures var r := Between(rows, low, high);
            r[..k + 1] == Between(rows, low, r[k].id)
  {
    hide WellFormed, Between;
    BetweenOfLast(rows, low, high);
    if rows != [] {
      var init, last := rows[..|rows| - 1], rows[|rows| - 1];
      LastIsHighest(rows);
      var r, q := Between(rows, low, high), Between(init, low, high);
      BetweenOfLast(rows, low, r[k].id);
      if k < |q| {
        SplitAt(init, low, high, k);
        assert r[k] == q[k] && q[k] in init && q[k].id < last.id;
        assert r[..k + 1] == q[..k + 1];
      } else {
        assert r == q + [last] && k == |q|;
        CapBetween(init, low, high, last.id);
      }
    }
  }

  lemma {:induction false} CapBetween(rows: seq<Message>, low: nat, a: nat, b: nat)
    requires forall m :: m in rows ==> (m.id <= a <==> m.id <= b)
    ensures Between(rows, low, a) == Between(rows, low, b)
  {
    if rows != [] {
      assert forall m :: m in rows[..|rows| - 1] ==> m in rows;
      CapBetween(rows[..|rows| - 1], low, a, b);
    }
  }

  // ----- The invariant -----

  predicate HasId(rows: seq<Message>, id: nat) {
    exists m :: m in rows && m.id == id
  }

  lemma HasIdAppend(rows: seq<Message>, n: Message, id: nat)
    ensures HasId(rows, id) ==> HasId(rows + [n], id)
    ensures HasId(rows, id) && (forall m :: m in rows ==> m.id < n.id) ==> id < n.id
  {
  }

  /**
   The client has handled exactly the rows in (after, client]. The wire holds exactly the rows in
   (received, cursor], and everything up to received is behind the client.
   */
  ghost predicate Inv(after: nat, w: World) {
    && WellFormed(w.rows) && after <= w.client
    && w.handled == Between(w.rows, after, w.client)
    && (w.client == after || HasId(w.rows, w.client))
    && (w.link.Up? ==>
          && w.link.received <= w.client && w.link.received <= w.link.cursor
          && w.link.wire == Between(w.rows, w.link.received, w.link.cursor)
          && (w.link.cursor == w.link.received || HasId(w.rows, w.link.cursor)))
  }

  lemma BetweenAppend(rows: seq<Message>, n: Message, low: nat, high: nat)
    ensures high < n.id || high <= low ==> Between(rows + [n], low, high) == Between(rows, low, high)
  {
    assert (rows + [n])[..|rows|] == rows;
  }

  lemma StoreKeeps(after: nat, w: World, d: Draft)
    requires Inv(after, w) && !HasSource(w.rows, d.sourceId)
    ensures Inv(after, w.(rows := Added(w.rows, d)))
  {
    AddedWellFormed(w.rows, d);
    hide WellFormed, HasSource, Between, HasId, Highest;
    var n := Added(w.rows, d)[|w.rows|];
    assert forall m :: m in w.rows ==> m.id < n.id;
    HasIdAppend(w.rows, n, w.client);
    BetweenAppend(w.rows, n, after, w.client);
    if w.link.Up? {
      HasIdAppend(w.rows, n, w.link.cursor);
      BetweenAppend(w.rows, n, w.link.received, w.link.cursor);
    }
  }

  lemma ListedIsPrefix(rows: seq<Message>, cursor: nat, batch: seq<Message>)
    requires batch == Listed(rows, cursor, BATCH, {})
    ensures batch <= Above(rows, cursor) && (batch == [] <==> Above(rows, cursor) == [])
  {
    hide Selected;
  }

  lemma ListedIsBetween(rows: seq<Message>, cursor: nat, batch: seq<Message>)
    requires WellFormed(rows) && batch == Listed(rows, cursor, BATCH, {}) && batch != []
    ensures var last := batch[|batch| - 1];
            batch == Between(rows, cursor, last.id) && cursor < last.id && HasId(rows, last.id)
  {
    hide WellFormed, Between, Above, Highest;
    var top := Highest(rows);
    AboveUpToHighest(rows, cursor, top);
    ListedIsPrefix(rows, cursor, batch);
    var all := Between(rows, cursor, top);
    SplitAt(rows, cursor, top, |batch| - 1);
    assert batch == all[..|batch|];
    assert batch[|batch| - 1] in all;
  }

  lemma PollKeeps(after: nat, w: World)
    requires Inv(after, w) && w.link.Up?
    ensures Inv(after, Next(after, w, Poll))
  {
    hide WellFormed, Listed, Between, HasId;
    var batch := Listed(w.rows, w.link.cursor, BATCH, {});
    if batch != [] {
      ListedIsBetween(w.rows, w.link.cursor, batch);
      JoinBetween(w.rows, w.link.received, w.link.cursor, batch[|batch| - 1].id);
    }
  }

  lemma {:induction false} FirstOfBetween(rows: seq<Message>, low: nat, high: nat)
    requires WellFormed(rows) && Between(rows, low, high) != []
    ensures var r := Between(rows, low, high);
            && r[0] in rows && low < r[0].id <= high
            && Between(rows, low, r[0].id) == [r[0]] && r[1..] == Between(rows, r[0].id, high)
  {
    var r := Between(rows, low, high);
    assert r[0] in r;
    SplitAt(rows, low, high, 0);
    assert r[..1] == [r[0]];
    JoinBetween(rows, low, r[0].id, high);
  }

  /** The next row on the wire is either behind the client or the very next row it misses. */
  lemma ReceiveKeeps(after: nat, w: World)
    requires Inv(after, w) && w.link.Up? && w.link.wire != []
    ensures Inv(after, Next(after, w, Receive))
  {
    hide WellFormed, Between;
    var m := w.link.wire[0];
    FirstOfBetween(w.rows, w.link.received, w.link.cursor);
    if w.client < m.id {
      JoinBetween(w.rows, after, w.client, m.id);
      JoinBetween(w.rows, w.link.received, w.client, m.id);
      Singleton(w.rows, w.link.received, w.client, m);
    }
  }

  lemma Singleton(rows: seq<Message>, low: nat, mid: nat, m: Message)
    requires low <= mid < m.id && m in rows && Between(rows, low, m.id) == [m]
    requires Between(rows, low, mid) + Between(rows, mid, m.id) == Between(rows, low, m.id)
    ensures Between(rows, mid, m.id) == [m]
  {
    var a, b := Between(rows, low, mid), Between(rows, mid, m.id);
    assert m !in a;
    EmptyOrAll(a, b, m);
  }

  lemma EmptyOrAll(a: seq<Message>, b: seq<Message>, m: Message)
    requires a + b == [m]
    ensures (a == [] && b == [m]) || (a == [m] && b == [])
  {
    if |a| == 0 {
      assert a + b == b;
    } else {
      assert (a + b)[..|a|] == a && |b| == 0;
    }
  }

  lemma NextKeeps(after: nat, w: World, a: Action)
    requires Inv(after, w) && Honest(after, w, a)
    ensures Inv(after, Next(after, w, a))
  {
    match a
    case Store(d) => if !HasSource(w.rows, d.sourceId) { StoreKeeps(after, w, d); }
    case Poll => if w.link.Up? { PollKeeps(after, w); }
    case Receive => if w.link.Up? && w.link.wire != [] { ReceiveKeeps(after, w); }
    case Disconnect =>
    case Connect(header) =>
      var start := ResumeAfter(after, header);
      EmptyBetween(w.rows, start, start);
  }

  lemma {:induction false} Reachable(after: nat, rows: seq<Message>, actions: seq<Action>)
    requires WellFormed(rows) && HonestRun(after, rows, actions)
    ensures Inv(after, Run(after, rows, actions))
  {
    hide Inv, Next, Honest, WellFormed;
    if actions == [] {
      InitOk(after, rows);
    } else {
      var last := |actions| - 1;
      var init := actions[..last];
      assert forall i :: 0 <= i < last ==> init[..i] == actions[..i];
      Reachable(after, rows, init);
      NextKeeps(after, Run(after, rows, init), actions[last]);
    }
  }

  lemma InitOk(after: nat, rows: seq<Message>)
    requires WellFormed(rows)
    ensures Inv(after, Run(after, rows, []))
  {
    EmptyBetween(rows, after, after);
  }

  // ----- Exactly once, in order -----

  /**
   Whatever is appended, polled, lost and resent, the client has handled exactly the rows up to its
   cursor: a prefix of the transcript above its initial cursor, in order and without repeats.
   */
  lemma ExactlyOnce(after: nat, rows: seq<Message>, actions: seq<Action>)
    requires WellFormed(rows) && HonestRun(after, rows, actions)
    ensures var w := Run(after, rows, actions);
            && w.handled == Between(w.rows, after, w.client)
            && w.handled <= Above(w.rows, after)
            && forall i, j :: 0 <= i < j < |w.handled| ==> w.handled[i].id < w.handled[j].id
  {
    Reachable(after, rows, actions);
    var w := Run(after, rows, actions);
    hide HonestRun, Run;
    hide Highest, Above, Between;
    var top := if Highest(w.rows) < w.client then w.client else Highest(w.rows);
    AboveUpToHighest(w.rows, after, top);
    JoinBetween(w.rows, after, w.client, top);
    BetweenIncreases(w.rows, after, w.client);
  }

  lemma {:induction false} BetweenIncreases(rows: seq<Message>, low: nat, high: nat)
    requires WellFormed(rows)
    ensures forall i, j :: 0 <= i < j < |Between(rows, low, high)| ==>
              Between(rows, low, high)[i].id < Between(rows, low, high)[j].id
  {
    if rows != [] {
      var init, last := rows[..|rows| - 1], rows[|rows| - 1];
      PrefixWellFormed(rows, init);
      BetweenIncreases(init, low, high);
      forall m | m in Between(init, low, high) ensures m.id < last.id {
        assert m in init;
      }
    }
  }

  /** A connection that has nothing left to send and nothing on the wire has delivered everything. */
  lemma CaughtUp(after: nat, rows: seq<Message>, actions: seq<Action>)
    requires WellFormed(rows) && HonestRun(after, rows, actions)
    requires var w := Run(after, rows, actions);
             w.link.Up? && w.link.wire == [] && Listed(w.rows, w.link.cursor, BATCH, {}) == []
    ensures Run(after, rows, actions).handled == Above(Run(after, rows, actions).rows, after)
  {
    hide HonestRun, Run, Inv;
    Reachable(after, rows, actions);
    IdleIsComplete(after, Run(after, rows, actions));
  }

  lemma IdleIsComplete(after: nat, w: World)
    requires Inv(after, w) && w.link.Up? && w.link.wire == [] && Listed(w.rows, w.link.cursor, BATCH, {}) == []
    ensures w.handled == Above(w.rows, after)
  {
    hide WellFormed, Highest, Above, Between, Listed;
    var top := if Highest(w.rows) < w.link.cursor then w.link.cursor else Highest(w.rows);
    var high := if top < w.client then w.client else top;
    AboveUpToHighest(w.rows, after, high);
    AboveUpToHighest(w.rows, w.link.cursor, high);
    ListedIsPrefix(w.rows, w.link.cursor, []);
    JoinBetween(w.rows, w.link.received, w.link.cursor, high);
    JoinBetween(w.rows, w.link.received, w.client, high);
    JoinBetween(w.rows, after, w.client, high);
  }

  /**
   A poll sends rows above the connection's cursor, in order and at most 500 of them; a row that is
   missing comes after all of these, and only if there were 500.
   */
  lemma PollSends(after: nat, w: World) returns (places: seq<nat>)
    requires w.link.Up?
    ensures var w' := Next(after, w, Poll);
            && w' == w.(link := w'.link) && w'.link.Up? && w'.link.received == w.link.received
            && w.link.wire <= w'.link.wire
            && TakenFrom(w'.link.wire[|w.link.wire|..], w.rows, places) && |places| <= 500
            && w'.link.cursor == (if places == [] then w.link.cursor else w.rows[places[|places| - 1]].id)
    ensures forall i :: i in places ==> w.rows[i].id > w.link.cursor
    ensures forall i :: 0 <= i < |w.rows| && w.rows[i].id > w.link.cursor ==>
              i in places || (|places| == 500 && forall p :: p in places ==> p < i)
  {
    hide Listed;
    places := ListedRows(w.rows, w.link.cursor, 500, {});
    var w' := Next(after, w, Poll);
    assert w'.link.wire[|w.link.wire|..] == Listed(w.rows, w.link.cursor, 500, {});
  }

  /** A new connection starts at the header if that is above the cursor in the URL, otherwise at that cursor. */
  lemma ConnectStarts(after: nat, w: World, header: Option<int>)
    requires w.link.Down?
    ensures var w' := Next(after, w, Connect(header));
            && w' == w.(link := w'.link) && w'.link.Up? && w'.link.wire == []
            && w'.link.received == w'.link.cursor && after <= w'.link.cursor
            && (header.Some? ==> header.value <= w'.link.cursor)
            && (w'.link.cursor == after || header == Some(w'.link.cursor))
  {
  }

  /**
   A resume point above the client's cursor is harmless exactly when the transcript has no row in
   between: otherwise the next row the client handles is not the next one it misses.
   */
  lemma ResumeTooHighIff(after: nat, w: World, header: nat)
    requires Inv(after, w) && w.link.Down? && w.client < header && Above(w.rows, header) != []
    ensures var sent := Next(after, Next(after, w, Connect(Some(header))), Poll);
            var got := Next(after, sent, Receive);
            && |got.handled| == |w.handled| + 1
            && (got.handled <= Above(w.rows, after) <==> Between(w.rows, w.client, header) == [])
  {
    hide Above, Between, Listed, WellFormed;
    assert after <= w.client && ResumeAfter(after, Some(header)) == header;
    hide Inv;
    RowsWellFormed(after, w);
    var first := FirstAfter(w.rows, header);
    var gap, rest := SplitAbove(after, w, header);
    assert rest[0] == first;
    FirstHandled(after, w, header, first);
    GapOrPrefix(w.handled, gap, rest);
  }

  lemma RowsWellFormed(after: nat, w: World)
    requires Inv(after, w)
    ensures WellFormed(w.rows)
  {
  }

  /** What a client handles first after it reconnected above its own cursor. */
  lemma FirstHandled(after: nat, w: World, header: int, first: Message)
    requires w.link.Down? && w.client < ResumeAfter(after, Some(header)) < first.id
    requires var batch := Listed(w.rows, ResumeAfter(after, Some(header)), BATCH, {}); batch != [] && batch[0] == first
    ensures Next(after, Next(after, Next(after, w, Connect(Some(header))), Poll), Receive).handled
              == w.handled + [first]
  {
    hide Listed;
  }

  lemma GapOrPrefix(handled: seq<Message>, gap: seq<Message>, rest: seq<Message>)
    requires rest != [] && forall i :: 0 <= i < |gap| ==> gap[i].id < rest[0].id
    ensures handled + [rest[0]] <= handled + gap + rest <==> gap == []
  {
    if gap != [] {
      assert (handled + gap + rest)[|handled|] == gap[0];
      assert (handled + [rest[0]])[|handled|] == rest[0];
    } else {
      assert handled + gap + rest == handled + [rest[0]] + rest[1..];
    }
  }

  /** The first row a fresh connection sends. */
  lemma FirstAfter(rows: seq<Message>, start: nat) returns (first: Message)
    requires WellFormed(rows) && Above(rows, start) != []
    ensures first == Above(rows, start)[0] && start < first.id
    ensures Listed(rows, start, BATCH, {}) != [] && Listed(rows, start, BATCH, {})[0] == first
  {
    hide Highest, WellFormed, Above, Between, Listed;
    first := Above(rows, start)[0];
    var top := Highest(rows);
    AboveUpToHighest(rows, start, top);
    ListedIsPrefix(rows, start, Listed(rows, start, BATCH, {}));
    assert first in Between(rows, start, top);
  }

  /** What lies above the initial cursor: the handled rows, those up to a later id, and those above it. */
  lemma SplitAbove(after: nat, w: World, start: nat) returns (gap: seq<Message>, rest: seq<Message>)
    requires Inv(after, w) && w.client <= start
    ensures gap == Between(w.rows, w.client, start) && rest == Above(w.rows, start)
    ensures Above(w.rows, after) == w.handled + gap + rest
    ensures forall i :: 0 <= i < |gap| ==> gap[i].id <= start
  {
    hide Highest, WellFormed, Above, Between;
    var top := if Highest(w.rows) < start then start else Highest(w.rows);
    AboveUpToHighest(w.rows, start, top);
    AboveUpToHighest(w.rows, after, top);
    JoinBetween(w.rows, after, w.client, start);
    JoinBetween(w.rows, after, start, top);
    gap, rest := Between(w.rows, w.client, start), Above(w.rows, start);
    assert forall i :: 0 <= i < |gap| ==> gap[i] in gap;
  }
}
