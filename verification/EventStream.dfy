/** Runs of one broker and one reconnecting client: what the client's callback sees. */
module EventStream {
  import opened Broker

  /** An open stream: its subscription, and the events written to it but not yet handled. */
  datatype Connection = Closed | Open(sub: nat, wire: seq<Event>)

  /** `feed` is everything ever published; `lossy` records a full buffer or a gap beyond the history. */
  datatype System = System(broker: State, feed: seq<Event>, link: Connection, client: Client, lossy: bool)

  datatype Step =
    | Publish(body: int)     // a job publishes an event
    | Connect                // the client (re)opens the stream with its last event id
    | Pump                   // the handler goroutine writes one buffered event to the stream
    | Deliver                // the browser hands one event to the client
    | Disconnect             // the stream breaks; what is on it is lost
    | Unsubscribe(sub: nat)  // the server drops a subscription

  function Start(stored: nat): System {
    System(EMPTY, [], Closed, Client(stored, [], []), false)
  }

  predicate BufferFull(s: System) {
    s.link.Open? && s.link.sub in s.broker.subs && |s.broker.subs[s.link.sub]| >= BUFFER
  }

  predicate GapTooLong(s: System) {
    s.client.calls != [] && s.broker.published > s.client.last + HISTORY
  }

  function Apply(s: System, step: Step): System {
    match step
    case Publish(body) =>
      var b := Published(s.broker, body);
      s.(broker := b, feed := s.feed + [Event(b.published, body)], lossy := s.lossy || BufferFull(s))
    case Connect =>
      s.(broker := Subscribed(s.broker), link := Open(s.broker.next, Replay(s.broker, s.client.last)),
         lossy := s.lossy || GapTooLong(s))
    case Pump =>
      if s.link.Open? && s.link.sub in s.broker.subs && s.broker.subs[s.link.sub] != [] then
        var channel := s.broker.subs[s.link.sub];
        s.(broker := s.broker.(subs := s.broker.subs[s.link.sub := channel[1..]]),
           link := s.link.(wire := s.link.wire + [channel[0]]))
      else s
    case Deliver =>
      if s.link.Open? && s.link.wire != [] then
        s.(link := s.link.(wire := s.link.wire[1..]), client := Handled(s.client, s.link.wire[0]))
      else s
    case Disconnect => s.(link := Closed)
    case Unsubscribe(sub) => s.(broker := s.broker.(subs := s.broker.subs - {sub}))
  }

  function Run(stored: nat, steps: seq<Step>): System {
    if steps == [] then Start(stored) else Apply(Run(stored, steps[..|steps| - 1]), steps[|steps| - 1])
  }

  predicate Subscriber(s: System) {
    s.link.Open? && s.link.sub in s.broker.subs
  }

  /** Callbacks fired, then what the open stream will still bring. */
  function Stream(s: System): seq<Event> {
    s.client.calls
    + (if s.link.Open? then s.link.wire else [])
    + (if Subscriber(s) then s.broker.subs[s.link.sub] else [])
  }

  predicate Ascending(es: seq<Event>) {
    forall i, j :: 0 <= i < j < |es| ==> es[i].number < es[j].number
  }

  predicate Consecutive(es: seq<Event>) {
    forall i :: 0 <= i < |es| ==> es[i].number == es[0].number + i
  }

  predicate Genuine(feed: seq<Event>, es: seq<Event>) {
    forall i :: 0 <= i < |es| ==> 1 <= es[i].number <= |feed| && feed[es[i].number - 1] == es[i]
  }

  predicate FeedInv(s: System) {
    && s.broker.published == |s.feed|
    && s.broker.history == LastOf(s.feed, HISTORY)
    && Numbered(s.feed)
    && (forall sub :: sub in s.broker.subs ==> sub < s.broker.next)
    && (s.link.Open? ==> s.link.sub < s.broker.next)
  }

  predicate ClientInv(c: Client) {
    && (c.calls != [] ==> c.last == c.calls[|c.calls| - 1].number)
    && forall n :: n in c.seen ==> exists i :: 0 <= i < |c.calls| && c.calls[i].number == n
  }

  /** `exact`: nothing was lost; `live`: the stream still receives what is published. */
  predicate Good(feed: seq<Event>, all: seq<Event>, exact: bool, live: bool) {
    && Genuine(feed, all) && Ascending(all)
    && (exact ==> Consecutive(all) && (live && all != [] ==> all[|all| - 1].number == |feed|))
  }

  predicate Inv(s: System) {
    FeedInv(s) && ClientInv(s.client) && Good(s.feed, Stream(s), !s.lossy, Subscriber(s))
  }

  lemma GoodPrefix(feed: seq<Event>, all: seq<Event>, exact: bool, live: bool, k: nat)
    requires Good(feed, all, exact, live) && k <= |all|
    ensures Good(feed, all[..k], exact, false)
  {
  }

  lemma GoodGrows(feed: seq<Event>, all: seq<Event>, exact: bool, e: Event)
    requires Good(feed, all, exact, true) && e.number == |feed| + 1
    ensures Good(feed + [e], all + [e], exact, true)
  {
  }

  lemma GoodMisses(feed: seq<Event>, all: seq<Event>, exact: bool, live: bool, e: Event)
    requires Good(feed, all, exact, live)
    ensures Good(feed + [e], all, exact, false)
  {
  }

  predicate Numbered(feed: seq<Event>) {
    forall i :: 0 <= i < |feed| ==> feed[i].number == i + 1
  }

  lemma JoinGenuine(feed: seq<Event>, a: seq<Event>, b: seq<Event>)
    requires Genuine(feed, a) && Genuine(feed, b)
    ensures Genuine(feed, a + b)
  {
  }

  lemma JoinAscending(a: seq<Event>, b: seq<Event>)
    requires Ascending(a) && Ascending(b)
    requires forall i, j :: 0 <= i < |a| && 0 <= j < |b| ==> a[i].number < b[j].number
    ensures Ascending(a + b)
  {
  }

  lemma JoinConsecutive(a: seq<Event>, b: seq<Event>)
    requires Consecutive(a) && Consecutive(b)
    requires a != [] && b != [] ==> b[0].number == a[|a| - 1].number + 1
    ensures Consecutive(a + b)
  {
  }

  /** Callbacks so far, then the feed from position `from`: unbroken when it starts where they ended. */
  lemma GoodReplay(feed: seq<Event>, calls: seq<Event>, from: nat, exact: bool, exact': bool)
    requires Numbered(feed) && Good(feed, calls, exact, false) && from <= |feed|
    requires calls != [] ==> calls[|calls| - 1].number <= from
    requires exact' ==> exact && (calls != [] ==> calls[|calls| - 1].number == from)
    ensures Good(feed, calls + feed[from..], exact', true)
  {
    var tail := feed[from..];
    TailIsGood(feed, from);
    forall i, j | 0 <= i < |calls| && 0 <= j < |tail| ensures calls[i].number < tail[j].number {
      assert calls[i].number <= calls[|calls| - 1].number;
    }
    JoinGenuine(feed, calls, tail);
    JoinAscending(calls, tail);
    if exact' {
      JoinConsecutive(calls, tail);
    }
  }

  lemma NumberedInARow(es: seq<Event>, first: nat)
    requires forall i :: 0 <= i < |es| ==> es[i].number == first + i
    ensures Ascending(es) && Consecutive(es)
  {
  }

  lemma TailIsGood(feed: seq<Event>, from: nat)
    requires Numbered(feed) && from <= |feed|
    ensures var tail := feed[from..];
            && Genuine(feed, tail) && Ascending(tail) && Consecutive(tail)
            && forall i :: 0 <= i < |tail| ==> tail[i].number == from + i + 1
  {
    var tail := feed[from..];
    forall i | 0 <= i < |tail| ensures tail[i] == feed[from + i] && tail[i].number == from + i + 1 {
    }
    NumberedInARow(tail, from + 1);
  }

  /** On consecutively numbered events, the filter is a suffix. */
  lemma {:induction false} AfterIsSuffix(h: seq<Event>, first: nat, last: nat)
    requires forall i :: 0 <= i < |h| ==> h[i].number == first + i
    ensures After(h, last) == if last < first then h else if last - first < |h| then h[last - first + 1..] else []
  {
    if h != [] {
      AfterIsSuffix(h[..|h| - 1], first, last);
      assert h == h[..|h| - 1] + [h[|h| - 1]];
    }
  }

  /** The replay for a readable id, given the whole feed. */
  lemma ReplayFromFeed(s: System, last: nat)
    requires FeedInv(s) && last > 0
    ensures var kept := if |s.feed| > HISTORY then |s.feed| - HISTORY else 0;
            var from := if last < kept then kept else last;
            Replay(s.broker, last) == if from <= |s.feed| then s.feed[from..] else []
  {
    var kept := if |s.feed| > HISTORY then |s.feed| - HISTORY else 0;
    assert s.broker.history == s.feed[kept..];
    AfterIsSuffix(s.broker.history, kept + 1, last);
  }

  lemma PublishKeepsFeed(s: System, body: int)
    requires FeedInv(s)
    ensures FeedInv(Apply(s, Publish(body)))
  {
  }

  lemma PublishKeepsInv(s: System, body: int)
    requires Inv(s)
    ensures Inv(Apply(s, Publish(body)))
  {
    var s' := Apply(s, Publish(body));
    var e := Event(s.broker.published + 1, body);
    PublishKeepsFeed(s, body);
    GoodMisses(s.feed, Stream(s), !s.lossy, Subscriber(s), e);
    if Subscriber(s) && !BufferFull(s) {
      GoodGrows(s.feed, Stream(s), !s.lossy, e);
      assert Stream(s') == Stream(s) + [e];
    } else {
      assert Stream(s') == Stream(s);
    }
  }

  lemma ReplayIsGood(s: System)
    requires FeedInv(s) && ClientInv(s.client) && Good(s.feed, s.client.calls, !s.lossy, false)
    ensures Good(s.feed, s.client.calls + Replay(s.broker, s.client.last), !s.lossy && !GapTooLong(s), true)
  {
    var calls, last := s.client.calls, s.client.last;
    var kept := if |s.feed| > HISTORY then |s.feed| - HISTORY else 0;
    if last == 0 || last > |s.feed| {
      assert calls == [] && Replay(s.broker, last) == [] by {
        if last > 0 { ReplayFromFeed(s, last); }
      }
    } else {
      ReplayFromFeed(s, last);
      GoodReplay(s.feed, calls, if last < kept then kept else last, !s.lossy, !s.lossy && !GapTooLong(s));
    }
  }

  lemma ConnectKeepsInv(s: System)
    requires Inv(s)
    ensures Inv(Apply(s, Connect))
  {
    var s' := Apply(s, Connect);
    var calls := s.client.calls;
    assert Stream(s') == calls + Replay(s.broker, s.client.last);
    GoodPrefix(s.feed, Stream(s), !s.lossy, Subscriber(s), |calls|);
    assert Stream(s)[..|calls|] == calls;
    ReplayIsGood(s);
  }

  lemma HandledKeepsClient(c: Client, e: Event)
    requires ClientInv(c) && e.number !in c.seen
    ensures ClientInv(Handled(c, e))
  {
    var c' := Handled(c, e);
    forall m | m in c'.seen ensures exists i :: 0 <= i < |c'.calls| && c'.calls[i].number == m {
      if m in c.seen {
        var i :| 0 <= i < |c.calls| && c.calls[i].number == m;
        assert c'.calls[i] == c.calls[i];
      } else {
        assert c'.calls[|c.calls|] == e;
      }
    }
  }

  lemma NextIsUnseen(c: Client, all: seq<Event>)
    requires ClientInv(c) && Ascending(all) && |c.calls| < |all| && all[..|c.calls|] == c.calls
    ensures all[|c.calls|].number !in c.seen
  {
    assert forall i :: 0 <= i < |c.calls| ==> c.calls[i] == all[i];
  }

  lemma DeliverKeepsInv(s: System)
    requires Inv(s)
    ensures Inv(Apply(s, Deliver))
  {
    if s.link.Open? && s.link.wire != [] {
      var s' := Apply(s, Deliver);
      var e := s.link.wire[0];
      NextIsUnseen(s.client, Stream(s));
      HandledKeepsClient(s.client, e);
      DeliverMoves(s);
    }
  }

  lemma Shift(x: seq<Event>, w: seq<Event>, c: seq<Event>)
    requires c != []
    ensures x + (w + [c[0]]) + c[1..] == x + w + c
  {
  }

  /** Moving an event along the pipeline does not change the stream. */
  lemma PumpMoves(s: System)
    requires Subscriber(s) && s.broker.subs[s.link.sub] != []
    ensures Stream(Apply(s, Pump)) == Stream(s)
  {
    Shift(s.client.calls, s.link.wire, s.broker.subs[s.link.sub]);
  }

  lemma DeliverMoves(s: System)
    requires s.link.Open? && s.link.wire != [] && s.link.wire[0].number !in s.client.seen
    ensures Stream(Apply(s, Deliver)) == Stream(s)
  {
    var calls, wire := s.client.calls, s.link.wire;
    assert calls + [wire[0]] + wire[1..] == calls + wire;
  }

  lemma StreamCut(s: System, step: Step)
    requires step.Disconnect? || step.Unsubscribe?
    ensures |Stream(Apply(s, step))| <= |Stream(s)| && Stream(Apply(s, step)) == Stream(s)[..|Stream(Apply(s, step))|]
  {
  }

  lemma PumpKeepsInv(s: System)
    requires Inv(s)
    ensures Inv(Apply(s, Pump))
  {
    if Subscriber(s) && s.broker.subs[s.link.sub] != [] {
      PumpMoves(s);
    }
  }

  lemma CutKeepsInv(s: System, step: Step)
    requires Inv(s) && (step.Disconnect? || step.Unsubscribe?)
    ensures Inv(Apply(s, step))
  {
    var n := |Stream(Apply(s, step))|;
    StreamCut(s, step);
    GoodPrefix(s.feed, Stream(s), !s.lossy, Subscriber(s), n);
  }

  lemma {:induction false} RunKeepsInv(stored: nat, steps: seq<Step>)
    ensures Inv(Run(stored, steps))
  {
    if steps != [] {
      var s, step := Run(stored, steps[..|steps| - 1]), steps[|steps| - 1];
      RunKeepsInv(stored, steps[..|steps| - 1]);
      match step
      case Publish(body) => PublishKeepsInv(s, body);
      case Connect => ConnectKeepsInv(s);
      case Deliver => DeliverKeepsInv(s);
      case Pump => PumpKeepsInv(s);
      case _ => CutKeepsInv(s, step);
    }
  }

  lemma GoodIsSlice(feed: seq<Event>, es: seq<Event>)
    requires Good(feed, es, true, false) && es != []
    ensures 1 <= es[0].number && es[0].number - 1 + |es| <= |feed|
    ensures es == feed[es[0].number - 1..es[0].number - 1 + |es|]
  {
    assert es[|es| - 1].number == es[0].number + |es| - 1;
  }

  /** Whatever is lost, callbacks are genuine events in strictly increasing order. */
  lemma CallbacksInOrder(stored: nat, steps: seq<Step>)
    ensures var s := Run(stored, steps);
            Ascending(s.client.calls) && Genuine(s.feed, s.client.calls)
  {
    RunKeepsInv(stored, steps);
    var s := Run(stored, steps);
    GoodPrefix(s.feed, Stream(s), !s.lossy, Subscriber(s), |s.client.calls|);
    assert Stream(s)[..|s.client.calls|] == s.client.calls;
  }

  /** With no full buffer and no gap beyond the history, callbacks are an unbroken stretch of what was published. */
  lemma CallbacksExactlyOnce(stored: nat, steps: seq<Step>)
    requires !Run(stored, steps).lossy && Run(stored, steps).client.calls != []
    ensures var s := Run(stored, steps);
            var first := s.client.calls[0].number - 1;
            && 0 <= first && first + |s.client.calls| <= |s.feed|
            && s.client.calls == s.feed[first..first + |s.client.calls|]
  {
    RunKeepsInv(stored, steps);
    var s := Run(stored, steps);
    GoodPrefix(s.feed, Stream(s), !s.lossy, Subscriber(s), |s.client.calls|);
    assert Stream(s)[..|s.client.calls|] == s.client.calls;
    GoodIsSlice(s.feed, s.client.calls);
  }

  /** And a subscribed client with nothing left in flight has seen everything up to now. */
  lemma CaughtUp(stored: nat, steps: seq<Step>)
    requires var s := Run(stored, steps);
             !s.lossy && s.client.calls != [] && Subscriber(s) && Stream(s) == s.client.calls
    ensures var s := Run(stored, steps);
            1 <= s.client.calls[0].number <= |s.feed| && s.client.calls == s.feed[s.client.calls[0].number - 1..]
  {
    RunKeepsInv(stored, steps);
    CallbacksExactlyOnce(stored, steps);
  }
}
