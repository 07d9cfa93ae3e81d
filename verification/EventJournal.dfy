/**
 What a chat session has published, counted up from 1: what is still held of it for the bytes it may take, and who is told of
 each event as it comes. The weight of an event, the length of its serialised form, is given to `Publish`.
 */
module EventJournal {
  import opened Numbers

  type Body = string

  datatype Event = Event(seq_: nat, body: Body)

  datatype Entry = Entry(event: Event, weight: nat)

  ghost function EventsOf(entries: seq<Entry>): (r: seq<Event>)
    ensures |r| == |entries|
  {
    seq(|entries|, i requires 0 <= i < |entries| => entries[i].event)
  }

  ghost function Weight(entries: seq<Entry>): nat {
    if entries == [] then 0 else entries[0].weight + Weight(entries[1..])
  }

  lemma {:induction false} WeightOfMore(entries: seq<Entry>, e: Entry)
    ensures Weight(entries + [e]) == Weight(entries) + e.weight
  {
    if entries == [] {
      assert entries + [e] == [e];
    } else {
      assert (entries + [e])[1..] == entries[1..] + [e];
      WeightOfMore(entries[1..], e);
    }
  }

  lemma {:induction false} LongerWeighsMore(entries: seq<Entry>, i: nat, j: nat)
    requires i <= j <= |entries|
    ensures Weight(entries[j..]) <= Weight(entries[i..])
    decreases j - i
  {
    if i < j {
      assert entries[i..][1..] == entries[i + 1..];
      LongerWeighsMore(entries, i + 1, j);
    }
  }

  /** Numbered from `first` on without a gap. */
  ghost predicate NumberedFrom(entries: seq<Entry>, first: nat) {
    forall k :: 0 <= k < |entries| ==> entries[k].event.seq_ == first + k
  }

  /** One event more, the newest of those dropped, would not fit beside the ring. */
  ghost predicate NoRoomBack(dropped: seq<Entry>, ring: seq<Entry>, budget: nat) {
    dropped != [] ==> dropped[|dropped| - 1].weight + Weight(ring) > budget
  }

  /** The ring fits, or is the newest event alone, and nothing was dropped that had room. */
  ghost predicate Kept(dropped: seq<Entry>, ring: seq<Entry>, budget: nat) {
    && (Weight(ring) <= budget || |ring| == 1)
    && (dropped != [] ==> ring != []) && NoRoomBack(dropped, ring, budget)
  }

  /** The ring is the longest suffix of the history that fits the budget, or the newest event when that alone does not. */
  ghost predicate LongestThatFits(ring: seq<Entry>, history: seq<Entry>, budget: nat) {
    && |ring| <= |history| && ring == history[|history| - |ring|..]
    && (history != [] ==> ring != [])
    && (Weight(ring) <= budget || |ring| == 1)
    && (forall k :: 0 <= k < |history| - |ring| ==> Weight(history[k..]) > budget)
  }

  lemma KeptIsLongest(dropped: seq<Entry>, ring: seq<Entry>, budget: nat)
    requires Kept(dropped, ring, budget)
    ensures LongestThatFits(ring, dropped + ring, budget)
  {
    var history := dropped + ring;
    forall k | 0 <= k < |dropped| ensures Weight(history[k..]) > budget {
      var last := |dropped| - 1;
      assert history[last..] == [dropped[last]] + ring;
      assert history[last..][1..] == ring;
      LongerWeighsMore(history, k, last);
    }
  }

  /** No two rings meet the description, so it says all there is to say about what is held. */
  lemma LongestIsUnique(ring: seq<Entry>, other: seq<Entry>, history: seq<Entry>, budget: nat)
    requires LongestThatFits(ring, history, budget) && LongestThatFits(other, history, budget)
    ensures ring == other
  {
  }

  /** The remembered events after `seq_`. */
  function After(ring: seq<Entry>, seq_: nat): seq<Event> {
    if ring == [] then []
    else if ring[0].event.seq_ > seq_ then [ring[0].event] + After(ring[1..], seq_)
    else After(ring[1..], seq_)
  }

  /** The first event a listener gets: the one after `seq_`, or the oldest held when that is gone, or the next one published. */
  ghost function FirstOwed(start: nat, published: nat, seq_: nat): (first: nat) {
    Max(start, Min(seq_, published))
  }

  lemma {:induction false} AfterIsASuffix(history: seq<Entry>, start: nat, seq_: nat)
    requires NumberedFrom(history, 1) && start <= |history|
    ensures FirstOwed(start, |history|, seq_) <= |history|
    ensures After(history[start..], seq_) == EventsOf(history[FirstOwed(start, |history|, seq_)..])
    decreases |history| - start
  {
    if start < |history| {
      var ring := history[start..];
      assert ring[1..] == history[start + 1..];
      AfterIsASuffix(history, start + 1, seq_);
      if ring[0].event.seq_ > seq_ {
        assert EventsOf(history[start..]) == [history[start].event] + EventsOf(history[start + 1..]);
      }
    }
  }

  lemma RingAfterIsASuffix(dropped: seq<Entry>, ring: seq<Entry>, seq_: nat)
    requires NumberedFrom(dropped, 1) && NumberedFrom(ring, |dropped| + 1)
    ensures var history := dropped + ring;
            var first := FirstOwed(|dropped|, |history|, seq_);
            first <= |history| && After(ring, seq_) == EventsOf(history[first..])
  {
    var history := dropped + ring;
    assert history[|dropped|..] == ring;
    AfterIsASuffix(history, |dropped|, seq_);
  }

  // ------------------------------------------------------------------ the journal

  type ListenerId = nat

  /**
   One subscription: a listener under a token, and what it has been handed since. `first` and `backlog` record where it
   joined. A listener that subscribes twice has two of them.
   */
  class Attachment {
    const token: nat
    const listener: ListenerId
    var received: seq<Event>
    ghost const first: nat
    ghost const backlog: seq<Event>

    constructor (token: nat, listener: ListenerId, ghost owed: nat, ghost events: seq<Event>)
      ensures this.token == token && this.listener == listener && received == [] && first == owed && backlog == events
    {
      this.token, this.listener, received := token, listener, [];
      first, backlog := owed, events;
    }

    /** What it has been given in all. */
    ghost function Given(): seq<Event>
      reads this
    {
      backlog + received
    }

    /** Everything since it was attached, backlog then live: the history from `first` on, in order, none missing or repeated. */
    ghost predicate Follows(history: seq<Entry>)
      reads this
    {
      first <= |history| && Given() == EventsOf(history[first..])
    }

    method Hand(event: Event)
      modifies this`received
      ensures received == old(received) + [event]
    {
      received := received + [event];
    }
  }

  lemma StillFollows(a: Attachment, before: seq<Event>, history: seq<Entry>, entry: Entry)
    requires a.first <= |history| && a.backlog + before == EventsOf(history[a.first..])
    requires a.received == before + [entry.event]
    ensures a.Follows(history + [entry])
  {
    assert (history + [entry])[a.first..] == history[a.first..] + [entry];
    assert EventsOf(history[a.first..] + [entry]) == EventsOf(history[a.first..]) + [entry.event];
  }

  ghost function SetOf(all: seq<Attachment>): set<Attachment> {
    set k | 0 <= k < |all| :: all[k]
  }

  class Journal {
    var nextSeq: nat
    var ring: seq<Entry>
    var heldBytes: nat
    const budget: nat
    var listeners: seq<Attachment>
    /** The events no longer held. */
    ghost var dropped: seq<Entry>

    /** Every event ever published. */
    ghost function History(): seq<Entry>
      reads this
    {
      dropped + ring
    }

    ghost function Listening(): set<Attachment>
      reads this
    {
      SetOf(listeners)
    }

    /** What a listener that names the last event it has is given at once. */
    function Backlog(afterSeq: nat): seq<Event>
      reads this
    {
      After(ring, afterSeq)
    }

    ghost predicate Sound()
      reads this
    {
      && Counted() && Kept(dropped, ring, budget)
      && Distinct(listeners)
    }

    /** Sequence numbers and held bytes agree with what is held. */
    ghost predicate Counted()
      reads this
    {
      && nextSeq == |dropped| + |ring| + 1
      && NumberedFrom(dropped, 1) && NumberedFrom(ring, |dropped| + 1)
      && heldBytes == Weight(ring)
    }

    ghost predicate Valid()
      reads this, Listening()
    {
      && Sound()
      && forall k :: 0 <= k < |listeners| ==> listeners[k].Follows(History())
    }

    constructor (budgetBytes: nat)
      ensures Valid() && History() == [] && ring == [] && listeners == [] && budget == budgetBytes
    {
      nextSeq, ring, heldBytes, budget, listeners, dropped := 1, [], 0, budgetBytes, [], [];
    }

    /** Keep the event, and drop the oldest ones while the rest is over the budget. */
    method Remember(event: Event, weight: nat)
      requires Sound() && event.seq_ == nextSeq
      modifies this`ring, this`heldBytes, this`dropped, this`nextSeq
      ensures Sound() && History() == old(History()) + [Entry(event, weight)]
    {
      Keep(Entry(event, weight));
      Evict();
    }

    method Keep(entry: Entry)
      requires Sound() && entry.event.seq_ == nextSeq
      modifies this`ring, this`heldBytes, this`nextSeq
      ensures Counted() && ring != [] && NoRoomBack(dropped, ring, budget)
      ensures History() == old(History()) + [entry]
    {
      WeightOfMore(ring, entry);
      nextSeq, ring, heldBytes := nextSeq + 1, ring + [entry], heldBytes + entry.weight;
      assert dropped + (old(ring) + [entry]) == (dropped + old(ring)) + [entry];
    }

    method Evict()
      requires Counted() && ring != [] && NoRoomBack(dropped, ring, budget)
      modifies this`ring, this`heldBytes, this`dropped
      ensures Counted() && Kept(dropped, ring, budget) && History() == old(History())
    {
      while heldBytes > budget && |ring| > 1
        invariant Counted() && ring != [] && NoRoomBack(dropped, ring, budget)
        invariant History() == old(History())
        decreases |ring|
      {
        DropOldest();
      }
    }

    method DropOldest()
      requires Counted() && heldBytes > budget && ring != []
      modifies this`ring, this`heldBytes, this`dropped
      ensures Counted() && ring == old(ring)[1..] && NoRoomBack(dropped, ring, budget) && History() == old(History())
    {
      assert (dropped + [ring[0]]) + ring[1..] == dropped + ring;
      heldBytes := heldBytes - ring[0].weight;
      dropped, ring := dropped + [ring[0]], ring[1..];
    }

    /** The next event of the session, kept and told to all who follow it. */
    method Publish(body: Body, weight: nat) returns (event: Event)
      requires Valid()
      modifies this, Listening()
      ensures Valid() && listeners == old(listeners)
      ensures event == Event(old(nextSeq), body) && History() == old(History()) + [Entry(event, weight)]
      ensures LongestThatFits(ring, History(), budget) && heldBytes == Weight(ring)
      ensures forall k :: 0 <= k < |listeners| ==> listeners[k].received == old(listeners[k].received) + [event]
    {
      event := Event(nextSeq, body);
      Remember(event, weight);
      KeptIsLongest(dropped, ring, budget);
      Announce(event);
      forall k | 0 <= k < |listeners| ensures listeners[k].Follows(History()) {
        StillFollows(listeners[k], old(listeners[k].received), old(History()), Entry(event, weight));
      }
    }

    /** A new subscription: the listener is given what is held after `afterSeq`, and every event from here on. */
    method Attach(token: nat, listener: ListenerId, afterSeq: nat) returns (backlog: seq<Event>)
      requires Valid()
      modifies this`listeners
      ensures Valid() && |listeners| == |old(listeners)| + 1 && listeners[..|old(listeners)|] == old(listeners)
      ensures backlog == Backlog(afterSeq)
      ensures var a := listeners[|old(listeners)|];
              && fresh(a) && a.token == token && a.listener == listener && a.received == [] && a.backlog == backlog
              && a.first == FirstOwed(|dropped|, |History()|, afterSeq) <= |History()|
              && backlog == EventsOf(History()[a.first..])
    {
      backlog := After(ring, afterSeq);
      RingAfterIsASuffix(dropped, ring, afterSeq);
      ghost var owed := FirstOwed(|dropped|, |History()|, afterSeq);
      var a := new Attachment(token, listener, owed, backlog);
      assert backlog + a.received == backlog;
      listeners := listeners + [a];
    }

    /** The subscriptions under `token` are told nothing more. */
    method Detach(token: nat)
      requires Valid()
      modifies this`listeners
      ensures Valid() && Listening() <= old(Listening())
      ensures Retains(listeners, old(listeners), token)
    {
      listeners := Retain(listeners, token);
      RetainRetains(old(listeners), token);
      RetainedWereThere(listeners, old(listeners), token);
    }

    /** Every listener, which follow nothing from here on. */
    method TakeListeners() returns (taken: seq<ListenerId>)
      requires Valid()
      modifies this`listeners
      ensures Valid() && listeners == [] && |taken| == |old(listeners)|
      ensures forall k :: 0 <= k < |taken| ==> taken[k] == old(listeners[k]).listener
    {
      taken := seq(|listeners|, i requires 0 <= i < |listeners| reads this => listeners[i].listener);
      listeners := [];
    }

    method Announce(event: Event)
      requires Distinct(listeners)
      modifies Listening()`received
      ensures forall k :: 0 <= k < |listeners| ==> listeners[k].received == old(listeners[k].received) + [event]
    {
      for i := 0 to |listeners|
        invariant forall k :: 0 <= k < i ==> listeners[k].received == old(listeners[k].received) + [event]
        invariant forall k :: i <= k < |listeners| ==> listeners[k].received == old(listeners[k].received)
      {
        listeners[i].Hand(event);
      }
    }
  }

  ghost predicate Distinct(all: seq<Attachment>) {
    forall j, k :: 0 <= j < k < |all| ==> all[j] != all[k]
  }

  /** `at` says where in `all` each of `kept` comes from, in the same order. */
  ghost predicate Picks(kept: seq<Attachment>, all: seq<Attachment>, at: seq<int>) {
    && |at| == |kept|
    && (forall i :: 0 <= i < |at| ==> 0 <= at[i] < |all| && kept[i] == all[at[i]])
    && (forall i, j :: 0 <= i < j < |at| ==> at[i] < at[j])
  }

  /** `kept` is `all` without the entries of `token`, in the order they had. */
  ghost predicate Retains(kept: seq<Attachment>, all: seq<Attachment>, token: nat) {
    && (forall a | a in kept :: a.token != token)
    && (forall a | a in all :: a.token != token ==> a in kept)
    && (exists at: seq<int> :: Picks(kept, all, at))
  }

  function Retain(all: seq<Attachment>, token: nat): seq<Attachment> {
    if all == [] then []
    else
      var kept := Retain(all[..|all| - 1], token);
      if all[|all| - 1].token != token then kept + [all[|all| - 1]] else kept
  }

  lemma {:induction false} RetainRetains(all: seq<Attachment>, token: nat)
    ensures Retains(Retain(all, token), all, token)
  {
    if all == [] {
      RetainsNone(token);
    } else {
      var front, last := all[..|all| - 1], all[|all| - 1];
      assert all == front + [last];
      var kept := Retain(front, token);
      assert Retain(all, token) == if last.token != token then kept + [last] else kept;
      RetainRetains(front, token);
      RetainsOneMore(kept, front, token, last);
    }
  }

  lemma RetainsNone(token: nat)
    ensures Retains([], [], token)
  {
    assert Picks([], [], []);
  }

  lemma RetainsOneMore(kept: seq<Attachment>, all: seq<Attachment>, token: nat, next: Attachment)
    requires Retains(kept, all, token)
    ensures Retains(if next.token != token then kept + [next] else kept, all + [next], token)
  {
    var at: seq<int> :| Picks(kept, all, at);
    PicksOneMore(kept, all, at, next);
  }

  lemma PicksOneMore(kept: seq<Attachment>, all: seq<Attachment>, at: seq<int>, next: Attachment)
    requires Picks(kept, all, at)
    ensures Picks(kept, all + [next], at) && Picks(kept + [next], all + [next], at + [|all|])
  {
  }

  /** Nothing is kept that was not there, and nothing twice that was there once. */
  lemma RetainedWereThere(kept: seq<Attachment>, all: seq<Attachment>, token: nat)
    requires Retains(kept, all, token)
    ensures SetOf(kept) <= SetOf(all)
    ensures Distinct(all) ==> Distinct(kept)
  {
    var at: seq<int> :| Picks(kept, all, at);
    forall k | 0 <= k < |kept| ensures kept[k] in SetOf(all) {
      assert kept[k] == all[at[k]];
    }
  }

  /**
   Reconnecting with the number of the last event seen. A subscription that had followed the session up to event
   `seen`, together with the backlog of a new one that names it, is the whole history from where the first joined
   exactly when none of the events since has been evicted; otherwise just the evicted ones are missing.
   */
  lemma ReconnectingContinues(journal: Journal, a: Attachment, seen: nat)
    requires journal.Valid() && seen <= |journal.History()| && a.Follows(journal.History()[..seen])
    ensures journal.Backlog(seen) == EventsOf(journal.History()[Max(|journal.dropped|, seen)..])
    ensures a.Given() + journal.Backlog(seen) == EventsOf(journal.History()[a.first..]) <==> |journal.dropped| <= seen
  {
    var history := journal.History();
    RingAfterIsASuffix(journal.dropped, journal.ring, seen);
    var again := Max(|journal.dropped|, seen);
    assert history[..seen][a.first..] == history[a.first..seen];
    if again == seen {
      assert history[a.first..seen] + history[seen..] == history[a.first..];
    } else {
      assert |a.Given() + journal.Backlog(seen)| < |EventsOf(history[a.first..])|;
    }
  }
}
