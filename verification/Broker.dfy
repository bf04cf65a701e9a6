/**
 The in-memory event broker and the browser client that reconnects to it. The broker numbers
 events, keeps a bounded history and offers each event to bounded subscriber buffers; the client
 asks for what came after the last event it handled.
 */
module Broker {
  import opened Text

  const HISTORY: nat := 1024
  const BUFFER: nat := 32
  const MAX_SEEN: nat := 250

  /** The event with id `EventId(number)`. */
  datatype Event = Event(number: nat, body: int)

  datatype State = State(next: nat, published: nat, history: seq<Event>, subs: map<nat, seq<Event>>)

  const EMPTY: State := State(0, 0, [], map[])

  function EventId(n: nat): string {
    "evt-" + Decimal(n)
  }

  /** `parseEventID`: trim, drop the prefix, read an unsigned 64-bit decimal; 0 for anything else. */
  function ParseEventId(value: string): nat {
    var t := TrimSpace(value);
    var digits := if IsPrefix("evt-", t) then t[4..] else t;
    if digits != "" && AllDigits(digits) && DecimalValue(digits) < 0x1_0000_0000_0000_0000 then DecimalValue(digits) else 0
  }

  /** Published ids read back as the event's number. */
  lemma EventIdRoundTrip(n: nat)
    requires n < 0x1_0000_0000_0000_0000
    ensures ParseEventId(EventId(n)) == n
  {
    var id := EventId(n);
    assert id[|id| - 1] == Decimal(n)[|Decimal(n)| - 1];
    TrimSpaceUnchanged(id);
    assert id[4..] == Decimal(n);
    DecimalRoundTrip(n);
  }

  /** `value` is `digits` after an optional prefix, between blanks. */
  ghost predicate Spells(value: string, digits: string) {
    exists left, right :: Blank(left) && Blank(right)
      && (value == left + ("evt-" + digits) + right || value == left + digits + right)
  }

  /** Only a text that spells a number is read as one; everything else, the missing id of a first connection included, is 0. */
  lemma OnlyNumbersAreRead(value: string)
    ensures ParseEventId(value) != 0 ==>
              exists digits :: digits != "" && AllDigits(digits) && DecimalValue(digits) == ParseEventId(value) && Spells(value, digits)
    ensures Blank(value) ==> ParseEventId(value) == 0
  {
    var left, right := TrimSpaceSplits(value);
    var t := TrimSpace(value);
    if ParseEventId(value) != 0 {
      var digits := if IsPrefix("evt-", t) then t[4..] else t;
      assert IsPrefix("evt-", t) ==> t == "evt-" + digits;
      assert Spells(value, digits);
    }
    if Blank(value) {
      BlankTrimsToNothing(value);
    }
  }

  /** A non-blocking send into a buffered channel. */
  function Offer(channel: seq<Event>, e: Event): seq<Event> {
    if |channel| < BUFFER then channel + [e] else channel
  }

  function LastOf(h: seq<Event>, n: nat): seq<Event> {
    if |h| > n then h[|h| - n..] else h
  }

  function Published(b: State, body: int): State {
    var e := Event(b.published + 1, body);
    State(b.next, b.published + 1, LastOf(b.history + [e], HISTORY), map s | s in b.subs :: Offer(b.subs[s], e))
  }

  /** The events numbered after `last`, in order. */
  function After(h: seq<Event>, last: nat): seq<Event> {
    if h == [] then []
    else After(h[..|h| - 1], last) + if h[|h| - 1].number > last then [h[|h| - 1]] else []
  }

  /** What a new subscriber is replayed; an unreadable or missing id asks for nothing. */
  function Replay(b: State, last: nat): seq<Event> {
    if last == 0 then [] else After(b.history, last)
  }

  function Subscribed(b: State): State {
    b.(next := b.next + 1, subs := b.subs[b.next := []])
  }

  class Server {
    var next: nat
    var eventID: nat
    var history: seq<Event>
    var subs: map<nat, seq<Event>>

    ghost function View(): State
      reads this
    {
      State(next, eventID, history, subs)
    }

    constructor ()
      ensures View() == EMPTY
    {
      next, eventID, history, subs := 0, 0, [], map[];
    }

    method Publish(body: int)
      modifies this
      ensures View() == Published(old(View()), body)
      ensures var e := Event(old(eventID) + 1, body);
              && eventID == e.number
              && history == (if |old(history)| < 1024 then old(history) else old(history)[|old(history)| - 1023..]) + [e]
              && subs.Keys == old(subs).Keys
              && forall s :: s in subs ==> subs[s] == if |old(subs)[s]| < 32 then old(subs)[s] + [e] else old(subs)[s]
    {
      eventID := eventID + 1;
      var e := Event(eventID, body);
      history := history + [e];
      if |history| > HISTORY {
        history := history[|history| - HISTORY..];
      }
      var before := subs;
      var done, todo := map[], before.Keys;
      while todo != {}
        invariant todo <= before.Keys
        invariant done == map s | s in before && s !in todo :: Offer(before[s], e)
      {
        var s :| s in todo;
        var channel := before[s];
        if |channel| < BUFFER {
          channel := channel + [e];
        }
        done, todo := done[s := channel], todo - {s};
      }
      subs := done;
    }

    method EventsAfter(lastID: string) returns (result: seq<Event>)
      ensures result == Replay(View(), ParseEventId(lastID))
    {
      var last := ParseEventId(lastID);
      result := [];
      if last == 0 {
        return;
      }
      for i := 0 to |history|
        invariant result == After(history[..i], last)
      {
        assert history[..i + 1][..i] == history[..i];
        if history[i].number > last {
          result := result + [history[i]];
        }
      }
      assert history[..|history|] == history;
    }

    method SubscribeAfter(lastID: string) returns (id: nat, replay: seq<Event>)
      modifies this
      ensures id == old(next) && View() == Subscribed(old(View()))
      ensures replay == Replay(old(View()), ParseEventId(lastID))
    {
      id := next;
      next := next + 1;
      subs := subs[id := []];
      replay := EventsAfter(lastID);
    }

    method Unsubscribe(id: nat)
      modifies this`subs
      ensures subs == old(subs) - {id}
    {
      subs := subs - {id};
    }
  }

  /** The client's memory: last handled id, recently seen ids in insertion order, and callbacks fired. */
  datatype Client = Client(last: nat, seen: seq<nat>, calls: seq<Event>)

  function Remembered(seen: seq<nat>, n: nat): seq<nat> {
    var grown := seen + [n];
    if |grown| > MAX_SEEN then grown[1..] else grown
  }

  function Handled(c: Client, e: Event): Client {
    if e.number in c.seen then c
    else Client(e.number, Remembered(c.seen, e.number), c.calls + [e])
  }

  class JobEvents {
    var lastEventId: nat
    var seen: seq<nat>
    var calls: seq<Event>

    ghost function View(): Client
      reads this
    {
      Client(lastEventId, seen, calls)
    }

    /** `stored` is the id kept by the browser session, 0 when there is none. */
    constructor (stored: nat)
      ensures View() == Client(stored, [], [])
    {
      lastEventId, seen, calls := stored, [], [];
    }

    method HandleEvent(e: Event)
      modifies this
      ensures View() == Handled(old(View()), e)
      ensures e.number in old(seen) ==> View() == old(View())
      ensures e.number !in old(seen) ==>
                && lastEventId == e.number && calls == old(calls) + [e] && e.number in seen
                && |seen| == if |old(seen)| >= 250 then |old(seen)| else |old(seen)| + 1
    {
      if e.number in seen {
        return;
      }
      seen := seen + [e.number];
      if |seen| > MAX_SEEN {
        seen := seen[1..];
      }
      assert seen[|seen| - 1] == e.number;
      lastEventId := e.number;
      calls := calls + [e];
    }
  }
}
