/**
 The in-process publish/subscribe bus: bounded queues, one per subscriber, fed from other threads
 through enqueues scheduled on the subscriber's loop, and a latch per topic for late subscribers.
 */
module EventBus {
  import opened Wrappers

  type Topic = string
  type Payload = string

  datatype Item = Item(topic: Topic, payload: Payload)

  // An enqueue scheduled on a subscriber's loop and not yet run.
  datatype Posting = Posting(item: Item, latch: bool)

  // A subscriber's queue. An unsubscribed one still receives what was scheduled before.
  datatype Inbox = Inbox(prefix: Topic, subscribed: bool, queue: seq<Item>, scheduled: seq<Posting>)

  // The latched items stand in the order their topics were first latched.
  datatype Bus = Bus(latched: seq<Item>, inboxes: seq<Inbox>)

  // Queues are named by the order of their subscription.
  datatype Event =
    | Subscribed(prefix: Topic)
    | Unsubscribed(prefix: Topic, q: nat)
    | Published(item: Item, latch: bool)
    | Unlatched(prefix: Topic)
    | Enqueued(q: nat)
    | Taken(q: nat)

  // Equal, or longer by whole path segments.
  predicate TopicMatches(topic: Topic, prefix: Topic) {
    topic == prefix || prefix + "/" <= topic
  }

  // The parts of a path between its slashes.
  function Parts(path: Topic): (parts: seq<string>)
    ensures parts != []
  {
    if path == "" then [""]
    else
      var rest := Parts(path[1..]);
      if path[0] == '/' then [""] + rest else [[path[0]] + rest[0]] + rest[1..]
  }

  function Joined(parts: seq<string>): Topic
    requires parts != []
  {
    if |parts| == 1 then parts[0] else parts[0] + "/" + Joined(parts[1..])
  }

  lemma {:induction false} PartsJoined(path: Topic)
    ensures Joined(Parts(path)) == path
  {
    if path != "" {
      PartsJoined(path[1..]);
    }
  }

  lemma {:induction false} PartsOfLonger(path: Topic, more: Topic)
    ensures Parts(path + "/" + more) == Parts(path) + Parts(more)
  {
    var longer := path + "/" + more;
    if path == "" {
      assert longer[1..] == more;
    } else {
      assert longer[1..] == path[1..] + "/" + more;
      PartsOfLonger(path[1..], more);
    }
  }

  lemma {:induction false} JoinedOfConcat(a: seq<string>, b: seq<string>)
    requires a != [] && b != []
    ensures Joined(a + b) == Joined(a) + "/" + Joined(b)
  {
    if |a| > 1 {
      assert (a + b)[1..] == a[1..] + b;
      JoinedOfConcat(a[1..], b);
    }
  }

  // A topic is under a prefix exactly if its path begins with the whole parts of the prefix.
  lemma {:induction false} MatchesByParts(topic: Topic, prefix: Topic)
    ensures TopicMatches(topic, prefix) <==> Parts(prefix) <= Parts(topic)
  {
    if prefix + "/" <= topic {
      PartsOfLonger(prefix, topic[|prefix| + 1..]);
      assert topic == prefix + "/" + topic[|prefix| + 1..];
    }
    if Parts(prefix) <= Parts(topic) {
      var rest := Parts(topic)[|Parts(prefix)|..];
      PartsJoined(topic);
      PartsJoined(prefix);
      assert Parts(topic) == Parts(prefix) + rest;
      if rest != [] {
        JoinedOfConcat(Parts(prefix), rest);
      } else {
        assert Parts(topic) == Parts(prefix);
      }
    }
  }

  // ---------- The latch ----------

  function Latch(latched: seq<Item>, item: Item): seq<Item> {
    if latched == [] then [item]
    else if latched[0].topic == item.topic then [item] + latched[1..]
    else [latched[0]] + Latch(latched[1..], item)
  }

  function LatchedValue(latched: seq<Item>, topic: Topic): Option<Payload> {
    if latched == [] then None
    else if latched[0].topic == topic then Some(latched[0].payload)
    else LatchedValue(latched[1..], topic)
  }

  function Matching(latched: seq<Item>, prefix: Topic): seq<Item> {
    if latched == [] then []
    else Matching(latched[..|latched| - 1], prefix)
         + if TopicMatches(Last(latched).topic, prefix) then [Last(latched)] else []
  }

  function Unmatched(latched: seq<Item>, prefix: Topic): seq<Item> {
    if latched == [] then []
    else Unmatched(latched[..|latched| - 1], prefix)
         + if TopicMatches(Last(latched).topic, prefix) then [] else [Last(latched)]
  }

  // ---------- One step ----------

  // The latched items a new subscriber starts with, as many as its queue holds.
  function Snapshot(latched: seq<Item>, prefix: Topic, maxsize: nat): seq<Item> {
    var matching := Matching(latched, prefix);
    if |matching| <= maxsize then matching else matching[..maxsize]
  }

  predicate Receives(inbox: Inbox, topic: Topic) {
    inbox.subscribed && TopicMatches(topic, inbox.prefix)
  }

  function Scheduled(inbox: Inbox, posting: Posting): Inbox {
    if Receives(inbox, posting.item.topic) then inbox.(scheduled := inbox.scheduled + [posting]) else inbox
  }

  function ScheduledAll(inboxes: seq<Inbox>, posting: Posting): seq<Inbox> {
    seq(|inboxes|, i requires 0 <= i < |inboxes| => Scheduled(inboxes[i], posting))
  }

  // Room or not: a latched item evicts the oldest, any other is dropped.
  function Offered(queue: seq<Item>, posting: Posting, maxsize: nat): seq<Item>
    requires maxsize > 0
  {
    if |queue| < maxsize then queue + [posting.item]
    else if posting.latch then queue[1..] + [posting.item]
    else queue
  }

  function EnqueuedNext(inbox: Inbox, maxsize: nat): Inbox
    requires maxsize > 0
  {
    if inbox.scheduled == [] then inbox
    else inbox.(queue := Offered(inbox.queue, inbox.scheduled[0], maxsize), scheduled := inbox.scheduled[1..])
  }

  function TakenNext(inbox: Inbox): Inbox {
    if inbox.queue == [] then inbox else inbox.(queue := inbox.queue[1..])
  }

  function Next(bus: Bus, e: Event, maxsize: nat): Bus
    requires maxsize > 0
  {
    match e
    case Subscribed(prefix) =>
      bus.(inboxes := bus.inboxes + [Inbox(prefix, true, Snapshot(bus.latched, prefix, maxsize), [])])
    case Unsubscribed(prefix, q) =>
      if q < |bus.inboxes| && bus.inboxes[q].prefix == prefix
      then bus.(inboxes := bus.inboxes[q := bus.inboxes[q].(subscribed := false)]) else bus
    case Published(item, latch) =>
      Bus(if latch then Latch(bus.latched, item) else bus.latched, ScheduledAll(bus.inboxes, Posting(item, latch)))
    case Unlatched(prefix) => bus.(latched := Unmatched(bus.latched, prefix))
    case Enqueued(q) =>
      if q < |bus.inboxes| then bus.(inboxes := bus.inboxes[q := EnqueuedNext(bus.inboxes[q], maxsize)]) else bus
    case Taken(q) =>
      if q < |bus.inboxes| then bus.(inboxes := bus.inboxes[q := TakenNext(bus.inboxes[q])]) else bus
  }

  function After(bus: Bus, events: seq<Event>, maxsize: nat): Bus
    requires maxsize > 0
    decreases |events|
  {
    if events == [] then bus else After(Next(bus, events[0], maxsize), events[1..], maxsize)
  }

  const EMPTY_BUS: Bus := Bus([], [])

  lemma {:induction false} QueuesStayAll(bus: Bus, events: seq<Event>, maxsize: nat)
    requires maxsize > 0
    ensures |bus.inboxes| <= |After(bus, events, maxsize).inboxes|
    decreases |events|
  {
    if events != [] {
      QueuesStayAll(Next(bus, events[0], maxsize), events[1..], maxsize);
    }
  }

  // ---------- The bus ----------

  class EventBus {
    const maxsize: nat
    var latched: seq<Item>
    var inboxes: seq<Inbox>

    ghost function State(): Bus
      reads this
    {
      Bus(latched, inboxes)
    }

    constructor (maxsize: nat)
      requires maxsize > 0
      ensures State() == EMPTY_BUS && this.maxsize == maxsize
    {
      this.maxsize := maxsize;
      latched, inboxes := [], [];
    }

    method Subscribe(prefix: Topic) returns (q: nat)
      requires maxsize > 0
      modifies this
      ensures q == |old(inboxes)| && State() == Next(old(State()), Subscribed(prefix), maxsize)
    {
      q := |inboxes|;
      var queue: seq<Item> := [];
      var i := 0;
      while i < |latched|
        invariant latched == old(latched) && inboxes == old(inboxes)
        invariant i <= |latched| && |queue| <= maxsize
        invariant queue == Matching(latched[..i], prefix)
      {
        assert latched[..i + 1][..i] == latched[..i];
        if TopicMatches(latched[i].topic, prefix) {
          if |queue| == maxsize {
            break;
          }
          queue := queue + [latched[i]];
        }
        i := i + 1;
      }
      SnapshotReached(latched, prefix, maxsize, i);
      inboxes := inboxes + [Inbox(prefix, true, queue, [])];
    }

    method Unsubscribe(prefix: Topic, q: nat)
      requires maxsize > 0
      modifies this
      ensures State() == Next(old(State()), Unsubscribed(prefix, q), maxsize)
    {
      if q < |inboxes| && inboxes[q].prefix == prefix {
        inboxes := inboxes[q := inboxes[q].(subscribed := false)];
      }
    }

    method Publish(topic: Topic, payload: Payload, latch: bool)
      requires maxsize > 0
      modifies this
      ensures State() == Next(old(State()), Published(Item(topic, payload), latch), maxsize)
    {
      var item := Item(topic, payload);
      if latch {
        latched := Latch(latched, item);
      }
      for i := 0 to |inboxes|
        invariant |inboxes| == |old(inboxes)|
        invariant latched == if latch then Latch(old(latched), item) else old(latched)
        invariant forall k :: 0 <= k < |inboxes| ==>
          inboxes[k] == if k < i then Scheduled(old(inboxes)[k], Posting(item, latch)) else old(inboxes)[k]
      {
        if inboxes[i].subscribed && TopicMatches(topic, inboxes[i].prefix) {
          inboxes := inboxes[i := inboxes[i].(scheduled := inboxes[i].scheduled + [Posting(item, latch)])];
        }
      }
      assert inboxes == ScheduledAll(old(inboxes), Posting(item, latch));
    }

    method Unlatch(prefix: Topic)
      requires maxsize > 0
      modifies this
      ensures State() == Next(old(State()), Unlatched(prefix), maxsize)
    {
      var kept: seq<Item> := [];
      for i := 0 to |latched|
        invariant latched == old(latched) && inboxes == old(inboxes)
        invariant kept == Unmatched(latched[..i], prefix)
      {
        assert latched[..i + 1][..i] == latched[..i];
        if !TopicMatches(latched[i].topic, prefix) {
          kept := kept + [latched[i]];
        }
      }
      assert latched[..|latched|] == latched;
      latched := kept;
    }

    // Runs the oldest enqueue scheduled for the queue.
    method Enqueue(q: nat)
      requires maxsize > 0 && q < |inboxes|
      modifies this
      ensures State() == Next(old(State()), Enqueued(q), maxsize)
    {
      var inbox := inboxes[q];
      if inbox.scheduled == [] {
        return;
      }
      var posting, queue := inbox.scheduled[0], inbox.queue;
      if |queue| < maxsize {
        queue := queue + [posting.item];
      } else if posting.latch {
        queue := queue[1..];
        queue := queue + [posting.item];
      }
      inboxes := inboxes[q := inbox.(queue := queue, scheduled := inbox.scheduled[1..])];
    }

    method Take(q: nat) returns (item: Option<Item>)
      requires maxsize > 0 && q < |inboxes|
      modifies this
      ensures State() == Next(old(State()), Taken(q), maxsize)
      ensures item == if old(inboxes)[q].queue == [] then None else Some(old(inboxes)[q].queue[0])
    {
      item := None;
      if inboxes[q].queue != [] {
        item := Some(inboxes[q].queue[0]);
        inboxes := inboxes[q := inboxes[q].(queue := inboxes[q].queue[1..])];
      }
    }
  }

  lemma {:induction false} MatchingPrefix(latched: seq<Item>, prefix: Topic, i: nat)
    requires i <= |latched|
    ensures Matching(latched[..i], prefix) <= Matching(latched, prefix)
    ensures i < |latched| && TopicMatches(latched[i].topic, prefix) ==>
              |Matching(latched[..i], prefix)| < |Matching(latched, prefix)|
  {
    if i == |latched| {
      assert latched[..i] == latched;
    } else {
      var earlier := latched[..|latched| - 1];
      assert earlier[..i] == latched[..i];
      MatchingPrefix(earlier, prefix, i);
    }
  }

  // Stopping at a match that finds the queue full, or at the end, leaves the snapshot.
  lemma {:induction false} SnapshotReached(latched: seq<Item>, prefix: Topic, maxsize: nat, i: nat)
    requires i <= |latched| && |Matching(latched[..i], prefix)| <= maxsize
    requires i < |latched| ==> TopicMatches(latched[i].topic, prefix) && |Matching(latched[..i], prefix)| == maxsize
    ensures Matching(latched[..i], prefix) == Snapshot(latched, prefix, maxsize)
  {
    MatchingPrefix(latched, prefix, i);
    if i == |latched| {
      assert latched[..i] == latched;
    }
  }

  // ---------- The latch over a run ----------

  // What the events leave latched for a topic that held `first` before them.
  function LastLatched(first: Option<Payload>, events: seq<Event>, topic: Topic): Option<Payload> {
    if events == [] then first
    else
      var e := Last(events);
      if e.Published? && e.latch && e.item.topic == topic then Some(e.item.payload)
      else if e.Unlatched? && TopicMatches(topic, e.prefix) then None
      else LastLatched(first, events[..|events| - 1], topic)
  }

  lemma {:induction false} LatchSets(latched: seq<Item>, item: Item, topic: Topic)
    ensures LatchedValue(Latch(latched, item), topic) ==
            if topic == item.topic then Some(item.payload) else LatchedValue(latched, topic)
  {
    if latched != [] && latched[0].topic != item.topic {
      LatchSets(latched[1..], item, topic);
    }
  }

  function Topics(latched: seq<Item>): seq<Topic> {
    if latched == [] then [] else [latched[0].topic] + Topics(latched[1..])
  }

  // A topic keeps the place it was first latched at.
  lemma {:induction false} LatchKeepsPlace(latched: seq<Item>, item: Item)
    ensures Topics(Latch(latched, item)) ==
            if item.topic in Topics(latched) then Topics(latched) else Topics(latched) + [item.topic]
  {
    if latched == [] {
      assert [item][1..] == [];
    } else {
      var front, rest := [latched[0]], latched[1..];
      LatchKeepsPlace(rest, item);
      assert ([item] + rest)[1..] == rest && (front + Latch(rest, item))[1..] == Latch(rest, item);
    }
  }

  lemma {:induction false} ValueOfConcat(a: seq<Item>, item: Item, topic: Topic)
    ensures LatchedValue(a + [item], topic) ==
            if LatchedValue(a, topic).Some? then LatchedValue(a, topic)
            else if item.topic == topic then Some(item.payload) else None
  {
    if a != [] {
      assert (a + [item])[1..] == a[1..] + [item];
      ValueOfConcat(a[1..], item, topic);
    }
  }

  lemma {:induction false} UnlatchClears(latched: seq<Item>, prefix: Topic, topic: Topic)
    ensures LatchedValue(Unmatched(latched, prefix), topic) ==
            if TopicMatches(topic, prefix) then None else LatchedValue(latched, topic)
  {
    if latched != [] {
      var earlier := latched[..|latched| - 1];
      UnlatchClears(earlier, prefix, topic);
      assert latched == earlier + [Last(latched)];
      ValueOfConcat(earlier, Last(latched), topic);
      ValueOfConcat(Unmatched(earlier, prefix), Last(latched), topic);
      assert Unmatched(earlier, prefix) + [] == Unmatched(earlier, prefix);
    }
  }

  lemma {:induction false} NextLatched(bus: Bus, e: Event, maxsize: nat, topic: Topic)
    requires maxsize > 0
    ensures LatchedValue(Next(bus, e, maxsize).latched, topic) == LastLatched(LatchedValue(bus.latched, topic), [e], topic)
  {
    if e.Published? && e.latch {
      LatchSets(bus.latched, e.item, topic);
    } else if e.Unlatched? {
      UnlatchClears(bus.latched, e.prefix, topic);
    }
  }

  lemma {:induction false} LastLatchedConcat(first: Option<Payload>, e: Event, events: seq<Event>, topic: Topic)
    ensures LastLatched(first, [e] + events, topic) == LastLatched(LastLatched(first, [e], topic), events, topic)
  {
    if events == [] {
      assert [e] + events == [e];
    } else {
      var all := [e] + events;
      assert Last(all) == Last(events) && all[..|all| - 1] == [e] + events[..|events| - 1];
      LastLatchedConcat(first, e, events[..|events| - 1], topic);
    }
  }

  // A topic holds the value last published to it with the latch on, unless it was unlatched since.
  lemma {:induction false} LatchHoldsNewest(bus: Bus, events: seq<Event>, maxsize: nat, topic: Topic)
    requires maxsize > 0
    ensures LatchedValue(After(bus, events, maxsize).latched, topic) ==
            LastLatched(LatchedValue(bus.latched, topic), events, topic)
    decreases |events|
  {
    if events != [] {
      NextLatched(bus, events[0], maxsize, topic);
      LatchHoldsNewest(Next(bus, events[0], maxsize), events[1..], maxsize, topic);
      LastLatchedConcat(LatchedValue(bus.latched, topic), events[0], events[1..], topic);
      assert [events[0]] + events[1..] == events;
    }
  }

  // ---------- Queues over a run ----------

  ghost predicate Bounded(bus: Bus, maxsize: nat) {
    forall q :: 0 <= q < |bus.inboxes| ==> |bus.inboxes[q].queue| <= maxsize
  }

  // No queue ever exceeds its bound.
  lemma {:induction false} QueuesStayBounded(bus: Bus, events: seq<Event>, maxsize: nat)
    requires maxsize > 0 && Bounded(bus, maxsize)
    ensures Bounded(After(bus, events, maxsize), maxsize)
    decreases |events|
  {
    if events != [] {
      QueuesStayBounded(Next(bus, events[0], maxsize), events[1..], maxsize);
    }
  }

  // What queue q hands its consumer during the events.
  function TakenFrom(bus: Bus, events: seq<Event>, maxsize: nat, q: nat): seq<Item>
    requires maxsize > 0 && q < |bus.inboxes|
    decreases |events|
  {
    if events == [] then []
    else
      (if events[0] == Taken(q) && bus.inboxes[q].queue != [] then [bus.inboxes[q].queue[0]] else [])
      + TakenFrom(Next(bus, events[0], maxsize), events[1..], maxsize, q)
  }

  // What the event itself publishes to the queue.
  function PostedNow(inbox: Inbox, e: Event): seq<Posting> {
    if e.Published? && Receives(inbox, e.item.topic) then [Posting(e.item, e.latch)] else []
  }

  // What is published to queue q during the events, in order.
  function PostedTo(bus: Bus, events: seq<Event>, maxsize: nat, q: nat): seq<Posting>
    requires maxsize > 0 && q < |bus.inboxes|
    decreases |events|
  {
    if events == [] then []
    else
      PostedNow(bus.inboxes[q], events[0]) + PostedTo(Next(bus, events[0], maxsize), events[1..], maxsize, q)
  }

  function Items(postings: seq<Posting>): seq<Item> {
    seq(|postings|, i requires 0 <= i < |postings| => postings[i].item)
  }

  // The first list is what is left of the second after dropping some of its elements.
  predicate Subsequence(a: seq<Item>, b: seq<Item>)
    decreases |b|
  {
    || a == []
    || (b != [] && (|| (a[0] == b[0] && Subsequence(a[1..], b[1..]))
                    || Subsequence(a, b[1..])))
  }

  lemma {:induction false} SubsequenceOfSelf(a: seq<Item>)
    ensures Subsequence(a, a)
  {
    if a != [] {
      SubsequenceOfSelf(a[1..]);
    }
  }

  lemma {:induction false} SubsequenceOfLonger(a: seq<Item>, front: seq<Item>, x: Item, back: seq<Item>)
    requires Subsequence(a, front + back)
    ensures Subsequence(a, front + [x] + back)
    decreases |front|
  {
    var b, longer := front + back, front + [x] + back;
    if front == [] {
      assert longer[1..] == b;
    } else if a != [] {
      assert b[1..] == front[1..] + back && longer[1..] == front[1..] + [x] + back;
      if a[0] == b[0] && Subsequence(a[1..], b[1..]) {
        SubsequenceOfLonger(a[1..], front[1..], x, back);
      } else {
        SubsequenceOfLonger(a, front[1..], x, back);
      }
    }
  }

  // What lies before queue q: its queue, then everything scheduled and yet to be published.
  function Ahead(bus: Bus, events: seq<Event>, maxsize: nat, q: nat): seq<Posting>
    requires maxsize > 0 && q < |bus.inboxes|
  {
    bus.inboxes[q].scheduled + PostedTo(bus, events, maxsize, q)
  }

  // What one event does to a queue that exists.
  function InboxNext(inbox: Inbox, e: Event, q: nat, maxsize: nat): Inbox
    requires maxsize > 0
  {
    match e
    case Unsubscribed(prefix, p) => if p == q && inbox.prefix == prefix then inbox.(subscribed := false) else inbox
    case Published(item, latch) => Scheduled(inbox, Posting(item, latch))
    case Enqueued(p) => if p == q then EnqueuedNext(inbox, maxsize) else inbox
    case Taken(p) => if p == q then TakenNext(inbox) else inbox
    case _ => inbox
  }

  lemma {:induction false} ScheduledStep(inbox: Inbox, e: Event, q: nat, maxsize: nat, later: seq<Posting>)
    requires maxsize > 0
    ensures var ahead := inbox.scheduled + (PostedNow(inbox, e) + later);
            InboxNext(inbox, e, q, maxsize).scheduled + later ==
            if e == Enqueued(q) && inbox.scheduled != [] then ahead[1..] else ahead
  {}

  // How the first event changes what lies ahead of a queue.
  lemma {:induction false} AheadStep(bus: Bus, events: seq<Event>, maxsize: nat, q: nat)
    requires maxsize > 0 && q < |bus.inboxes| && events != []
    ensures |bus.inboxes| <= |Next(bus, events[0], maxsize).inboxes|
    ensures Next(bus, events[0], maxsize).inboxes[q] == InboxNext(bus.inboxes[q], events[0], q, maxsize)
    ensures Ahead(Next(bus, events[0], maxsize), events[1..], maxsize, q) ==
            if events[0] == Enqueued(q) && bus.inboxes[q].scheduled != []
            then Ahead(bus, events, maxsize, q)[1..] else Ahead(bus, events, maxsize, q)
  {
    ScheduledStep(bus.inboxes[q], events[0], q, maxsize, PostedTo(Next(bus, events[0], maxsize), events[1..], maxsize, q));
  }

  // What a consumer has taken or still finds queued.
  function Seen(bus: Bus, events: seq<Event>, maxsize: nat, q: nat): seq<Item>
    requires maxsize > 0 && q < |bus.inboxes|
  {
    QueuesStayAll(bus, events, maxsize);
    TakenFrom(bus, events, maxsize, q) + After(bus, events, maxsize).inboxes[q].queue
  }

  // What is still scheduled for the queue after the events.
  function Waiting(bus: Bus, events: seq<Event>, maxsize: nat, q: nat): seq<Posting>
    requires maxsize > 0 && q < |bus.inboxes|
  {
    QueuesStayAll(bus, events, maxsize);
    After(bus, events, maxsize).inboxes[q].scheduled
  }

  lemma {:induction false} AtTheEnd(bus: Bus, maxsize: nat, q: nat)
    requires maxsize > 0 && q < |bus.inboxes|
    ensures Seen(bus, [], maxsize, q) == bus.inboxes[q].queue
    ensures Waiting(bus, [], maxsize, q) == bus.inboxes[q].scheduled == Ahead(bus, [], maxsize, q)
  {}

  predicate RunsEnqueue(bus: Bus, e: Event, q: nat)
    requires q < |bus.inboxes|
  {
    e == Enqueued(q) && bus.inboxes[q].scheduled != []
  }

  predicate RunsTake(bus: Bus, e: Event, q: nat)
    requires q < |bus.inboxes|
  {
    e == Taken(q) && bus.inboxes[q].queue != []
  }

  lemma {:induction false} SeenStep(bus: Bus, events: seq<Event>, maxsize: nat, q: nat)
    requires maxsize > 0 && q < |bus.inboxes| && events != []
    ensures |bus.inboxes| <= |Next(bus, events[0], maxsize).inboxes|
    ensures var seen := Seen(Next(bus, events[0], maxsize), events[1..], maxsize, q);
            Seen(bus, events, maxsize, q) ==
            if RunsTake(bus, events[0], q) then [bus.inboxes[q].queue[0]] + seen else seen
    ensures Waiting(bus, events, maxsize, q) == Waiting(Next(bus, events[0], maxsize), events[1..], maxsize, q)
  {}

  // One event: it runs the next enqueue, hands out the oldest item, or leaves both ends alone.
  lemma {:induction false} QueueStep(bus: Bus, events: seq<Event>, maxsize: nat, q: nat)
    requires maxsize > 0 && q < |bus.inboxes| && events != []
    ensures |bus.inboxes| <= |Next(bus, events[0], maxsize).inboxes|
    ensures var next, rest := Next(bus, events[0], maxsize), events[1..];
            var ahead, queue := Ahead(bus, events, maxsize, q), bus.inboxes[q].queue;
            if RunsEnqueue(bus, events[0], q) then
              && ahead != [] && Ahead(next, rest, maxsize, q) == ahead[1..]
              && next.inboxes[q].queue == Offered(queue, ahead[0], maxsize)
              && Seen(bus, events, maxsize, q) == Seen(next, rest, maxsize, q)
            else if RunsTake(bus, events[0], q) then
              && Ahead(next, rest, maxsize, q) == ahead
              && next.inboxes[q].queue == queue[1..]
              && Seen(bus, events, maxsize, q) == [queue[0]] + Seen(next, rest, maxsize, q)
            else
              && Ahead(next, rest, maxsize, q) == ahead
              && next.inboxes[q].queue == queue
              && Seen(bus, events, maxsize, q) == Seen(next, rest, maxsize, q)
    ensures Waiting(bus, events, maxsize, q) == Waiting(Next(bus, events[0], maxsize), events[1..], maxsize, q)
  {
    AheadStep(bus, events, maxsize, q);
    SeenStep(bus, events, maxsize, q);
    if RunsEnqueue(bus, events[0], q) {
      assert Ahead(bus, events, maxsize, q)[0] == bus.inboxes[q].scheduled[0];
    }
  }

  // One enqueue takes nothing new into what may still be delivered, and keeps its order.
  lemma {:induction false} OfferedIsSubsequence(a: seq<Item>, queue: seq<Item>, ahead: seq<Posting>, maxsize: nat)
    requires maxsize > 0 && ahead != []
    requires Subsequence(a, Offered(queue, ahead[0], maxsize) + Items(ahead[1..]))
    ensures Subsequence(a, queue + Items(ahead))
  {
    var item, later := ahead[0].item, Items(ahead[1..]);
    assert queue + Items(ahead) == queue + [item] + later;
    if |queue| >= maxsize {
      if ahead[0].latch {
        assert (queue + [item] + later)[1..] == queue[1..] + [item] + later;
      } else {
        SubsequenceOfLonger(a, queue, item, later);
      }
    }
  }

  // What a consumer gets is a subsequence of its queue, then what was scheduled for it, then what is
  // published to it, in that order, whatever interleaves.
  lemma {:induction false} DeliveredInOrder(bus: Bus, events: seq<Event>, maxsize: nat, q: nat)
    requires maxsize > 0 && q < |bus.inboxes|
    ensures Subsequence(Seen(bus, events, maxsize, q), bus.inboxes[q].queue + Items(Ahead(bus, events, maxsize, q)))
    decreases |events|
  {
    var queue, ahead := bus.inboxes[q].queue, Ahead(bus, events, maxsize, q);
    if events == [] {
      AtTheEnd(bus, maxsize, q);
      KeptIsSubsequence(queue, Items(ahead));
    } else {
      var next, rest := Next(bus, events[0], maxsize), events[1..];
      QueueStep(bus, events, maxsize, q);
      DeliveredInOrder(next, rest, maxsize, q);
      if RunsEnqueue(bus, events[0], q) {
        OfferedIsSubsequence(Seen(next, rest, maxsize, q), queue, ahead, maxsize);
      } else if RunsTake(bus, events[0], q) {
        TakingIsSubsequence(Seen(next, rest, maxsize, q), queue, Items(ahead));
      }
    }
  }

  lemma {:induction false} KeptIsSubsequence(kept: seq<Item>, back: seq<Item>)
    ensures Subsequence(kept, kept + back)
  {
    if kept != [] {
      assert (kept + back)[1..] == kept[1..] + back;
      KeptIsSubsequence(kept[1..], back);
    }
  }

  lemma {:induction false} TakingIsSubsequence(a: seq<Item>, queue: seq<Item>, back: seq<Item>)
    requires queue != [] && Subsequence(a, queue[1..] + back)
    ensures Subsequence([queue[0]] + a, queue + back)
  {
    assert (queue + back)[1..] == queue[1..] + back;
    assert ([queue[0]] + a)[1..] == a;
  }

  // A new subscriber sees a subsequence of its snapshot followed by what is published to it later.
  lemma {:induction false} SubscriberSeesInOrder(bus: Bus, prefix: Topic, events: seq<Event>, maxsize: nat)
    requires maxsize > 0
    ensures var subscribed, q := Next(bus, Subscribed(prefix), maxsize), |bus.inboxes|;
            Subsequence(Seen(subscribed, events, maxsize, q),
                        Snapshot(bus.latched, prefix, maxsize) + Items(PostedTo(subscribed, events, maxsize, q)))
  {
    var subscribed, q := Next(bus, Subscribed(prefix), maxsize), |bus.inboxes|;
    DeliveredInOrder(subscribed, events, maxsize, q);
    assert Ahead(subscribed, events, maxsize, q) == PostedTo(subscribed, events, maxsize, q);
  }

  // ---------- What a subscription is sent ----------

  // What the events publish on the topics under a prefix.
  function PublishedUnder(events: seq<Event>, prefix: Topic): seq<Posting> {
    if events == [] then []
    else (if events[0].Published? && Parts(prefix) <= Parts(events[0].item.topic)
          then [Posting(events[0].item, events[0].latch)] else [])
         + PublishedUnder(events[1..], prefix)
  }

  // Until it unsubscribes, a subscriber is posted exactly what is published under its prefix; afterwards
  // nothing more.
  lemma {:induction false} PostedIsPublished(bus: Bus, events: seq<Event>, maxsize: nat, q: nat)
    requires maxsize > 0 && q < |bus.inboxes|
    ensures !bus.inboxes[q].subscribed ==> PostedTo(bus, events, maxsize, q) == []
    ensures bus.inboxes[q].subscribed && Unsubscribed(bus.inboxes[q].prefix, q) !in events ==>
              PostedTo(bus, events, maxsize, q) == PublishedUnder(events, bus.inboxes[q].prefix)
    decreases |events|
  {
    if events != [] {
      var next := Next(bus, events[0], maxsize);
      if events[0].Published? {
        MatchesByParts(events[0].item.topic, bus.inboxes[q].prefix);
      }
      PostedIsPublished(next, events[1..], maxsize, q);
    }
  }

  lemma {:induction false} LaterToo(a: seq<Item>, b: seq<Item>, x: Item)
    requires Subsequence(a, b)
    ensures Subsequence(a, b + [x]) && Subsequence(a + [x], b + [x])
  {
    if b == [] {
      assert a == [] && b + [x] == [x] && a + [x] == [x] && [x][1..] == [];
    } else {
      assert (b + [x])[1..] == b[1..] + [x];
      if a != [] && a[0] == b[0] && Subsequence(a[1..], b[1..]) {
        LaterToo(a[1..], b[1..], x);
        assert (a + [x])[1..] == a[1..] + [x];
      } else {
        LaterToo(a, b[1..], x);
      }
    }
  }

  lemma {:induction false} MatchingInOrder(latched: seq<Item>, prefix: Topic)
    ensures Subsequence(Matching(latched, prefix), latched)
  {
    if latched != [] {
      var earlier, last: Item := latched[..|latched| - 1], Last(latched);
      MatchingInOrder(earlier, prefix);
      LaterToo(Matching(earlier, prefix), earlier, last);
      assert latched == earlier + [last];
      if !TopicMatches(last.topic, prefix) {
        assert Matching(earlier, prefix) + [] == Matching(earlier, prefix);
      }
    }
  }

  lemma {:induction false} MatchingIs(latched: seq<Item>, prefix: Topic)
    ensures forall item :: item in Matching(latched, prefix) <==> item in latched && Parts(prefix) <= Parts(item.topic)
  {
    if latched != [] {
      MatchingIs(latched[..|latched| - 1], prefix);
      MatchesByParts(Last(latched).topic, prefix);
      assert latched == latched[..|latched| - 1] + [Last(latched)];
    }
  }

  // A new subscriber starts with the latched values under its prefix, in the order they were latched: all of
  // them if its queue has the room, else the first.
  lemma {:induction false} SnapshotIs(bus: Bus, prefix: Topic, maxsize: nat)
    requires maxsize > 0
    ensures var queue, all := Last(Next(bus, Subscribed(prefix), maxsize).inboxes).queue, Matching(bus.latched, prefix);
            && |queue| <= maxsize && queue <= all && (|queue| < maxsize ==> queue == all)
            && Subsequence(all, bus.latched)
            && forall item :: item in all <==> item in bus.latched && Parts(prefix) <= Parts(item.topic)
  {
    MatchingIs(bus.latched, prefix);
    MatchingInOrder(bus.latched, prefix);
  }

  // ---------- Eviction ----------

  predicate NoneLatched(postings: seq<Posting>) {
    forall i :: 0 <= i < |postings| ==> !postings[i].latch
  }

  function LatchedIn(postings: seq<Posting>): nat {
    if postings == [] then 0 else (if postings[0].latch then 1 else 0) + LatchedIn(postings[1..])
  }

  // The consumer sees the queued items in order and before any other, all but at most so many of them.
  ghost predicate SeesAllBut(queue: seq<Item>, seen: seq<Item>, lost: int) {
    exists n :: 0 <= n <= |seen| && n >= |queue| - lost && Subsequence(seen[..n], queue)
  }

  lemma {:induction false} OfOneItem(a: seq<Item>, x: Item)
    requires Subsequence(a, [x])
    ensures |a| <= 1
  {
    assert [x][1..] == [];
    assert a != [] ==> Subsequence(a[1..], []) || Subsequence(a, []);
  }

  lemma {:induction false} WithoutLast(a: seq<Item>, b: seq<Item>, x: Item)
    requires a != [] && Subsequence(a, b + [x])
    ensures Subsequence(a[..|a| - 1], b)
  {
    if b == [] {
      assert b + [x] == [x];
      OfOneItem(a, x);
    } else if |a| > 1 {
      assert (b + [x])[0] == b[0] && (b + [x])[1..] == b[1..] + [x];
      if a[0] == b[0] && Subsequence(a[1..], b[1..] + [x]) {
        WithoutLast(a[1..], b[1..], x);
        assert a[1..][..|a| - 2] == a[..|a| - 1][1..];
      } else {
        WithoutLast(a, b[1..], x);
      }
    }
  }

  lemma {:induction false} KeptIsSeen(queue: seq<Item>, kept: seq<Item>, x: Item, seen: seq<Item>, n: nat)
    requires kept == queue || (queue != [] && kept == queue[1..])
    requires n <= |seen| && Subsequence(seen[..n], kept + [x])
    ensures SeesAllBut(queue, seen, |queue| - if n > 0 then n - 1 else 0)
  {
    if n > 0 {
      WithoutLast(seen[..n], kept, x);
      assert seen[..n][..n - 1] == seen[..n - 1];
      assert Subsequence(seen[..n - 1], queue);
    } else {
      assert Subsequence(seen[..0], queue);
    }
  }

  // One enqueue costs the consumer at most one queued item, and none unless it is latched.
  lemma {:induction false} OfferCostsOne(queue: seq<Item>, posting: Posting, maxsize: nat, seen: seq<Item>, lost: int)
    requires maxsize > 0 && SeesAllBut(Offered(queue, posting, maxsize), seen, lost)
    ensures SeesAllBut(queue, seen, lost + if posting.latch then 1 else 0)
  {
    var offered := Offered(queue, posting, maxsize);
    var n :| 0 <= n <= |seen| && n >= |offered| - lost && Subsequence(seen[..n], offered);
    if |queue| < maxsize {
      KeptIsSeen(queue, queue, posting.item, seen, n);
    } else if posting.latch {
      assert offered == queue[1..] + [posting.item];
      KeptIsSeen(queue, queue[1..], posting.item, seen, n);
    }
  }

  lemma {:induction false} TakeSeesFirst(queue: seq<Item>, seen: seq<Item>, lost: int)
    requires queue != [] && SeesAllBut(queue[1..], seen, lost)
    ensures SeesAllBut(queue, [queue[0]] + seen, lost)
  {
    var n :| 0 <= n <= |seen| && n >= |queue[1..]| - lost && Subsequence(seen[..n], queue[1..]);
    var whole := [queue[0]] + seen;
    assert whole[..n + 1][1..] == seen[..n];
    assert Subsequence(whole[..n + 1], queue);
  }

  // The consumer sees all of its queue first, in order, but for at most as many items as latched postings
  // were enqueued meanwhile.
  lemma {:induction false} EachLatchedEvictsAtMostOne(bus: Bus, events: seq<Event>, maxsize: nat, q: nat)
    requires maxsize > 0 && q < |bus.inboxes|
    ensures SeesAllBut(bus.inboxes[q].queue, Seen(bus, events, maxsize, q),
                       LatchedIn(Ahead(bus, events, maxsize, q)) - LatchedIn(Waiting(bus, events, maxsize, q)))
    decreases |events|
  {
    var queue, ahead := bus.inboxes[q].queue, Ahead(bus, events, maxsize, q);
    if events == [] {
      AtTheEnd(bus, maxsize, q);
      SubsequenceOfSelf(queue);
      assert queue[..|queue|] == queue;
    } else {
      var next, rest := Next(bus, events[0], maxsize), events[1..];
      var lost := LatchedIn(Ahead(next, rest, maxsize, q)) - LatchedIn(Waiting(next, rest, maxsize, q));
      QueueStep(bus, events, maxsize, q);
      EachLatchedEvictsAtMostOne(next, rest, maxsize, q);
      if RunsEnqueue(bus, events[0], q) {
        OfferCostsOne(queue, ahead[0], maxsize, Seen(next, rest, maxsize, q), lost);
      } else if RunsTake(bus, events[0], q) {
        TakeSeesFirst(queue, Seen(next, rest, maxsize, q), lost);
      }
    }
  }

  lemma {:induction false} NoneIsLatched(postings: seq<Posting>)
    requires NoneLatched(postings)
    ensures LatchedIn(postings) == 0
  {
    if postings != [] {
      NoneIsLatched(postings[1..]);
    }
  }

  lemma {:induction false} SubsequenceIsShorter(a: seq<Item>, b: seq<Item>)
    requires Subsequence(a, b)
    ensures |a| <= |b| && (|a| == |b| ==> a == b)
  {
    if a != [] && b != [] {
      if a[0] == b[0] && Subsequence(a[1..], b[1..]) {
        SubsequenceIsShorter(a[1..], b[1..]);
        assert a == [a[0]] + a[1..] && b == [b[0]] + b[1..];
      } else {
        SubsequenceIsShorter(a, b[1..]);
      }
    }
  }

  // As long as nothing latched comes, nothing is evicted: the consumer sees all of its queue first, and
  // then only later items.
  lemma {:induction false} DiscreteNeverEvicts(bus: Bus, events: seq<Event>, maxsize: nat, q: nat)
    requires maxsize > 0 && q < |bus.inboxes| && NoneLatched(Ahead(bus, events, maxsize, q))
    ensures bus.inboxes[q].queue <= Seen(bus, events, maxsize, q)
  {
    var queue, seen := bus.inboxes[q].queue, Seen(bus, events, maxsize, q);
    EachLatchedEvictsAtMostOne(bus, events, maxsize, q);
    NoneIsLatched(Ahead(bus, events, maxsize, q));
    var n :| 0 <= n <= |seen| && n >= |queue| && Subsequence(seen[..n], queue);
    SubsequenceIsShorter(seen[..n], queue);
  }

  lemma {:induction false} OfferedLast(queue: seq<Item>, posting: Posting, maxsize: nat, seen: seq<Item>)
    requires maxsize > 0 && posting.latch && Offered(queue, posting, maxsize) <= seen
    ensures Offered(queue, posting, maxsize) != [] && Last(Offered(queue, posting, maxsize)) == posting.item
    ensures posting.item in seen
  {}

  // A latched posting gets through: once it and everything before it has been enqueued, the consumer
  // has taken it or still finds it queued, unless a later latched one may have evicted it.
  lemma {:induction false} FreshestGetsThrough(bus: Bus, events: seq<Event>, maxsize: nat, q: nat, i: nat)
    requires maxsize > 0 && q < |bus.inboxes|
    requires var ahead := Ahead(bus, events, maxsize, q);
             && i < |ahead| && ahead[i].latch && NoneLatched(ahead[i + 1..])
             && |Waiting(bus, events, maxsize, q)| < |ahead| - i
    ensures Ahead(bus, events, maxsize, q)[i].item in Seen(bus, events, maxsize, q)
    decreases |events|
  {
    var ahead := Ahead(bus, events, maxsize, q);
    if events == [] {
      AtTheEnd(bus, maxsize, q);
    } else {
      var next, rest := Next(bus, events[0], maxsize), events[1..];
      QueueStep(bus, events, maxsize, q);
      if RunsEnqueue(bus, events[0], q) {
        if i == 0 {
          DiscreteNeverEvicts(next, rest, maxsize, q);
          OfferedLast(bus.inboxes[q].queue, ahead[0], maxsize, Seen(next, rest, maxsize, q));
        } else {
          assert ahead[1..][i - 1] == ahead[i] && ahead[1..][i..] == ahead[i + 1..];
          FreshestGetsThrough(next, rest, maxsize, q, i - 1);
        }
      } else {
        FreshestGetsThrough(next, rest, maxsize, q, i);
      }
    }
  }

  lemma {:induction false} NothingMoreComes(bus: Bus, events: seq<Event>, maxsize: nat, q: nat)
    requires maxsize > 0 && q < |bus.inboxes| && Ahead(bus, events, maxsize, q) == []
    ensures Seen(bus, events, maxsize, q) == bus.inboxes[q].queue
    decreases |events|
  {
    if events == [] {
      AtTheEnd(bus, maxsize, q);
    } else {
      QueueStep(bus, events, maxsize, q);
      NothingMoreComes(Next(bus, events[0], maxsize), events[1..], maxsize, q);
    }
  }
  ghost predicate EndsOnNewest(seen: seq<Item>, ahead: seq<Posting>) {
    seen != [] && ahead != [] && Last(seen) == Last(ahead).item
  }

  lemma {:induction false} EndsBehind(seen: seq<Item>, first: Item, ahead: seq<Posting>)
    requires EndsOnNewest(seen, ahead)
    ensures EndsOnNewest([first] + seen, ahead)
  {}

  lemma {:induction false} EndsOnOnly(queue: seq<Item>, posting: Posting, maxsize: nat)
    requires maxsize > 0 && posting.latch
    ensures EndsOnNewest(Offered(queue, posting, maxsize), [posting])
  {}

  // One event, and not the enqueue of the last posting ahead: what holds of the end before it holds after.
  lemma {:induction false} EndStays(bus: Bus, events: seq<Event>, maxsize: nat, q: nat)
    requires maxsize > 0 && q < |bus.inboxes| && events != [] && Ahead(bus, events, maxsize, q) != []
    requires !(RunsEnqueue(bus, events[0], q) && |Ahead(bus, events, maxsize, q)| == 1)
    ensures var next, rest := Next(bus, events[0], maxsize), events[1..];
            && q < |next.inboxes| && Ahead(next, rest, maxsize, q) != []
            && Last(Ahead(next, rest, maxsize, q)) == Last(Ahead(bus, events, maxsize, q))
            && Waiting(next, rest, maxsize, q) == Waiting(bus, events, maxsize, q)
            && (EndsOnNewest(Seen(next, rest, maxsize, q), Ahead(next, rest, maxsize, q)) ==>
                  EndsOnNewest(Seen(bus, events, maxsize, q), Ahead(bus, events, maxsize, q)))
  {
    var seen, ahead := Seen(Next(bus, events[0], maxsize), events[1..], maxsize, q), Ahead(bus, events, maxsize, q);
    QueueStep(bus, events, maxsize, q);
    if RunsEnqueue(bus, events[0], q) {
      assert Last(ahead[1..]) == Last(ahead);
    } else if RunsTake(bus, events[0], q) && EndsOnNewest(seen, ahead) {
      EndsBehind(seen, bus.inboxes[q].queue[0], ahead);
    }
  }

  lemma {:induction false} OnlyOneAhead(bus: Bus, events: seq<Event>, maxsize: nat, q: nat)
    requires maxsize > 0 && q < |bus.inboxes| && events != [] && |Ahead(bus, events, maxsize, q)| == 1
    requires RunsEnqueue(bus, events[0], q) && Ahead(bus, events, maxsize, q)[0].latch
    ensures EndsOnNewest(Seen(bus, events, maxsize, q), Ahead(bus, events, maxsize, q))
  {
    var ahead := Ahead(bus, events, maxsize, q);
    QueueStep(bus, events, maxsize, q);
    NothingMoreComes(Next(bus, events[0], maxsize), events[1..], maxsize, q);
    EndsOnOnly(bus.inboxes[q].queue, ahead[0], maxsize);
    assert ahead == [ahead[0]];
  }

  // When the newest posting is latched and everything has been enqueued, it is what the consumer sees last.
  lemma {:induction false} NewestLatchedIsLast(bus: Bus, events: seq<Event>, maxsize: nat, q: nat)
    requires maxsize > 0 && q < |bus.inboxes|
    requires var ahead := Ahead(bus, events, maxsize, q);
             ahead != [] && Last(ahead).latch && Waiting(bus, events, maxsize, q) == []
    ensures EndsOnNewest(Seen(bus, events, maxsize, q), Ahead(bus, events, maxsize, q))
    decreases |events|
  {
    if events == [] {
      AtTheEnd(bus, maxsize, q);
    } else if RunsEnqueue(bus, events[0], q) && |Ahead(bus, events, maxsize, q)| == 1 {
      OnlyOneAhead(bus, events, maxsize, q);
    } else {
      EndStays(bus, events, maxsize, q);
      NewestLatchedIsLast(Next(bus, events[0], maxsize), events[1..], maxsize, q);
    }
  }
}
