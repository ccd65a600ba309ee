/**
  The publish/subscribe broker as interleaved steps of its loop, the goroutines it starts for every
  published message, and the context that shuts it down.
 */
module Brokers {

  type Chan = nat

  /**
    The loop waits in its select, or waits for the goroutines that still have to hand the message to
    their channels.
   */
  datatype Loop<M> = Selecting | Publishing(msg: M, waiting: set<Chan>) | Stopped

  /**
    `received` is what the reader of each channel got.  History: `log` holds everything published,
    `joined` and `left` the length of the log when a channel was subscribed and unsubscribed.
   */
  datatype State<M> = State(
    loop: Loop<M>,
    subs: set<Chan>,
    closed: set<Chan>,
    done: bool,
    received: map<Chan, seq<M>>,
    log: seq<M>,
    joined: map<Chan, nat>,
    left: map<Chan, nat>
  )

  datatype Event<M> =
    | Subscribe(ch: Chan)
    | Unsubscribe(ch: Chan)
    | Publish(msg: M)
    | HandOver(ch: Chan)
    | Abandon(ch: Chan)
    | EndPublish
    | Shutdown
    | Stop

  /** Callers subscribe a channel they just made, and unsubscribe a channel at most once. */
  predicate Enabled<M>(s: State<M>, e: Event<M>) {
    match e
    case Subscribe(ch) => s.loop.Selecting? && ch !in s.joined
    case Unsubscribe(ch) => s.loop.Selecting? && ch in s.joined && ch !in s.left
    case Publish(_) => s.loop.Selecting?
    case HandOver(ch) => s.loop.Publishing? && ch in s.loop.waiting && ch in s.received
    case Abandon(ch) => s.loop.Publishing? && ch in s.loop.waiting && s.done
    case EndPublish => s.loop.Publishing? && s.loop.waiting == {}
    case Shutdown => true
    case Stop => s.loop.Selecting? && s.done
  }

  function Apply<M>(s: State<M>, e: Event<M>): State<M>
    requires Enabled(s, e)
  {
    match e
    case Subscribe(ch) => s.(subs := s.subs + {ch}, received := s.received[ch := []], joined := s.joined[ch := |s.log|])
    case Unsubscribe(ch) => s.(subs := s.subs - {ch}, closed := s.closed + {ch}, left := s.left[ch := |s.log|])
    case Publish(msg) => s.(loop := Publishing(msg, s.subs), log := s.log + [msg])
    case HandOver(ch) =>
      s.(loop := s.loop.(waiting := s.loop.waiting - {ch}), received := s.received[ch := s.received[ch] + [s.loop.msg]])
    case Abandon(ch) => s.(loop := s.loop.(waiting := s.loop.waiting - {ch}))
    case EndPublish => s.(loop := Selecting)
    case Shutdown => s.(done := true)
    case Stop => s.(loop := Stopped, closed := s.closed + s.subs)
  }

  function Begin<M>(): State<M> {
    State(Selecting, {}, {}, false, map[], [], map[], map[])
  }

  // ----- invariant

  /** Channels come from subscriptions; closed ones have been unsubscribed, or the broker has stopped. */
  ghost predicate ChannelsOk<M>(s: State<M>) {
    && s.subs <= s.joined.Keys && s.joined.Keys == s.received.Keys && s.left.Keys <= s.joined.Keys
    && s.subs !! s.left.Keys
    && (if s.loop.Stopped? then s.closed == s.left.Keys + s.subs else s.closed == s.left.Keys)
    && (s.loop.Publishing? ==> s.loop.waiting <= s.subs && s.log != [] && s.log[|s.log| - 1] == s.loop.msg)
    && (s.loop.Stopped? ==> s.done)
  }

  /** Where the part of the log meant for a channel ends. */
  function End<M>(s: State<M>, ch: Chan): nat {
    if ch in s.left then s.left[ch] else |s.log|
  }

  /** The channel has received exactly its part of the log, except for a message still being handed over. */
  ghost predicate ReceivedOk<M>(s: State<M>, ch: Chan)
    requires ch in s.joined && ch in s.received
  {
    var end := End(s, ch);
    && s.joined[ch] <= end <= |s.log|
    && if s.loop.Publishing? && ch in s.loop.waiting
       then s.joined[ch] < end && s.received[ch] == s.log[s.joined[ch]..end - 1]
       else s.received[ch] == s.log[s.joined[ch]..end]
  }

  ghost predicate Inv<M>(s: State<M>) {
    && ChannelsOk(s)
    && (!s.done ==> forall ch :: ch in s.joined ==> ReceivedOk(s, ch))
  }

  lemma HandOverReceived<M>(s: State<M>, ch: Chan, other: Chan)
    requires ChannelsOk(s) && Enabled(s, HandOver(ch)) && other in s.joined && ReceivedOk(s, other)
    ensures ReceivedOk(Apply(s, HandOver(ch)), other)
  {
    if other == ch {
      var a, b := s.joined[ch], |s.log|;
      assert s.log[a..b] == s.log[a..b - 1] + [s.log[b - 1]];
    }
  }

  lemma PublishReceived<M>(s: State<M>, msg: M, ch: Chan)
    requires ChannelsOk(s) && s.loop.Selecting? && ch in s.joined && ReceivedOk(s, ch)
    requires ch in s.subs || ch in s.left
    ensures ReceivedOk(Apply(s, Publish(msg)), ch)
  {
    var log' := s.log + [msg];
    assert log'[s.joined[ch]..End(s, ch)] == s.log[s.joined[ch]..End(s, ch)];
  }

  /** Until the broker stops, every channel is subscribed or has been unsubscribed. */
  ghost predicate Accounted<M>(s: State<M>) {
    s.joined.Keys == s.subs + s.left.Keys
  }

  lemma StepKeepsChannels<M>(s: State<M>, e: Event<M>)
    requires ChannelsOk(s) && Accounted(s) && Enabled(s, e)
    ensures ChannelsOk(Apply(s, e)) && Accounted(Apply(s, e))
  {
  }

  lemma StepKeepsReceived<M>(s: State<M>, e: Event<M>, ch: Chan)
    requires ChannelsOk(s) && Accounted(s) && Enabled(s, e) && !Apply(s, e).done && ch in Apply(s, e).joined
    requires forall c :: c in s.joined ==> ReceivedOk(s, c)
    ensures ch in Apply(s, e).received && ReceivedOk(Apply(s, e), ch)
  {
    match e
    case Publish(msg) => PublishReceived(s, msg, ch);
    case HandOver(c) => HandOverReceived(s, c, ch);
    case _ =>
  }

  lemma StepKeepsInv<M>(s: State<M>, e: Event<M>)
    requires Inv(s) && Accounted(s) && Enabled(s, e)
    ensures Inv(Apply(s, e)) && Accounted(Apply(s, e))
  {
    StepKeepsChannels(s, e);
    var s' := Apply(s, e);
    if !s'.done {
      forall ch | ch in s'.joined
        ensures ReceivedOk(s', ch)
      {
        StepKeepsReceived(s, e, ch);
      }
    }
  }

  predicate Runs<M>(s: State<M>, events: seq<Event<M>>)
    decreases |events|
  {
    events == [] || (Enabled(s, events[0]) && Runs(Apply(s, events[0]), events[1..]))
  }

  function Run<M>(s: State<M>, events: seq<Event<M>>): State<M>
    requires Runs(s, events)
    decreases |events|
  {
    if events == [] then s else Run(Apply(s, events[0]), events[1..])
  }

  lemma {:induction false} RunKeepsInv<M>(s: State<M>, events: seq<Event<M>>)
    requires Inv(s) && Accounted(s) && Runs(s, events)
    ensures Inv(Run(s, events)) && Accounted(Run(s, events))
    decreases |events|
  {
    if events != [] {
      StepKeepsInv(s, events[0]);
      RunKeepsInv(Apply(s, events[0]), events[1..]);
    }
  }

  // ----- what every interleaving guarantees

  /**
    Before shutdown each subscriber has received a prefix of its part of the log, and all of it
    whenever the broker is idle.
   */
  lemma SubscriberSeesItsSlice<M>(events: seq<Event<M>>, ch: Chan)
    requires Runs(Begin(), events)
    requires !Run(Begin(), events).done && ch in Run(Begin(), events).joined
    ensures var s := Run(Begin(), events);
            && ch in s.received && s.joined[ch] <= End(s, ch) <= |s.log|
            && s.received[ch] <= s.log[s.joined[ch]..End(s, ch)]
            && (s.loop.Selecting? ==> s.received[ch] == s.log[s.joined[ch]..End(s, ch)])
  {
    RunKeepsInv(Begin(), events);
    var s := Run(Begin(), events);
    assert ReceivedOk(s, ch);
  }

  // ----- the history in terms of the events

  /** The messages published, in order. */
  function Published<M>(events: seq<Event<M>>): seq<M> {
    if events == [] then []
    else
      var last := events[|events| - 1];
      Published(events[..|events| - 1]) + if last.Publish? then [last.msg] else []
  }

  lemma {:induction false} RunSnoc<M>(s: State<M>, events: seq<Event<M>>)
    requires Runs(s, events) && events != []
    ensures var before, last := events[..|events| - 1], events[|events| - 1];
            Runs(s, before) && Enabled(Run(s, before), last) && Run(s, events) == Apply(Run(s, before), last)
    decreases |events|
  {
    if |events| > 1 {
      RunSnoc(Apply(s, events[0]), events[1..]);
      assert events[..|events| - 1][1..] == events[1..][..|events| - 2];
    } else {
      assert events[..0] == [] && events[1..] == [];
    }
  }

  /** The k-th event subscribed, or unsubscribed, the channel. */
  ghost predicate JoinedAt<M>(events: seq<Event<M>>, k: nat, ch: Chan) {
    k < |events| && events[k] == Subscribe(ch)
  }

  ghost predicate LeftAt<M>(events: seq<Event<M>>, k: nat, ch: Chan) {
    k < |events| && events[k] == Unsubscribe(ch)
  }

  /** The log is what was published, and a channel's part of it begins and ends with its subscription. */
  ghost predicate HistoryOk<M>(s: State<M>, events: seq<Event<M>>, ch: Chan) {
    && s.log == Published(events)
    && (ch in s.joined <==> exists k: nat :: JoinedAt(events, k, ch))
    && (ch in s.left <==> exists k: nat :: LeftAt(events, k, ch))
    && (forall k: nat :: JoinedAt(events, k, ch) ==> s.joined[ch] == |Published(events[..k])|)
    && (forall k: nat :: LeftAt(events, k, ch) ==> s.left[ch] == |Published(events[..k])|)
  }

  lemma HistoryStep<M>(s: State<M>, before: seq<Event<M>>, e: Event<M>, ch: Chan)
    requires HistoryOk(s, before, ch) && Enabled(s, e)
    ensures HistoryOk(Apply(s, e), before + [e], ch)
  {
    var s', events, n := Apply(s, e), before + [e], |before|;
    assert events[..n] == before;
    forall k: nat
      ensures JoinedAt(events, k, ch) <==> JoinedAt(before, k, ch) || (k == n && e == Subscribe(ch))
      ensures LeftAt(events, k, ch) <==> LeftAt(before, k, ch) || (k == n && e == Unsubscribe(ch))
      ensures k <= n ==> events[..k] == before[..k]
    {
    }
    assert e == Subscribe(ch) ==> JoinedAt(events, n, ch);
    assert e == Unsubscribe(ch) ==> LeftAt(events, n, ch);
  }

  lemma {:induction false} RunHistory<M>(events: seq<Event<M>>, ch: Chan)
    requires Runs(Begin(), events)
    ensures HistoryOk(Run(Begin(), events), events, ch)
    decreases |events|
  {
    if events != [] {
      var before := events[..|events| - 1];
      RunSnoc(Begin(), events);
      RunHistory(before, ch);
      HistoryStep(Run(Begin(), before), before, events[|events| - 1], ch);
      assert before + [events[|events| - 1]] == events;
    }
  }

  /**
    In terms of the events alone: a subscriber that has not left has received, whenever the broker is
    idle before shutdown, exactly what was published since it subscribed.
   */
  lemma SubscriberSeesPublished<M>(events: seq<Event<M>>, k: nat, ch: Chan)
    requires Runs(Begin(), events) && k < |events| && events[k] == Subscribe(ch)
    requires Run(Begin(), events).loop.Selecting? && !Run(Begin(), events).done
    requires forall i: nat :: i < |events| ==> events[i] != Unsubscribe(ch)
    ensures var s := Run(Begin(), events);
            && ch in s.received && |Published(events[..k])| <= |Published(events)|
            && s.received[ch] == Published(events)[|Published(events[..k])|..]
  {
    RunHistory(events, ch);
    assert JoinedAt(events, k, ch);
    SubscriberSeesItsSlice(events, ch);
  }

  /**
    Whatever the broker is handing over, it can be handed over: then the broker is idle and every
    channel waiting has the message.
   */
  lemma {:induction false} HandOverCanFinish<M>(s: State<M>) returns (events: seq<Event<M>>)
    requires ChannelsOk(s) && s.loop.Publishing?
    ensures Runs(s, events) && Run(s, events).loop.Selecting?
    ensures forall ch :: ch in s.loop.waiting ==>
              && ch in s.received && ch in Run(s, events).received
              && Run(s, events).received[ch] == s.received[ch] + [s.loop.msg]
    ensures forall ch :: ch in s.received && ch !in s.loop.waiting ==>
              ch in Run(s, events).received && Run(s, events).received[ch] == s.received[ch]
    decreases s.loop.waiting
  {
    if s.loop.waiting == {} {
      events := [EndPublish];
      assert events[1..] == [];
    } else {
      var ch :| ch in s.loop.waiting;
      var e := HandOver(ch);
      var rest := HandOverCanFinish(Apply(s, e));
      events := [e] + rest;
      assert events[1..] == rest;
    }
  }

  /** The broker is shut down from the first Shutdown on, and not before. */
  lemma {:induction false} DoneIff<M>(events: seq<Event<M>>)
    requires Runs(Begin(), events)
    ensures Run(Begin(), events).done <==> Shutdown in events
    decreases |events|
  {
    if events != [] {
      var before := events[..|events| - 1];
      RunSnoc(Begin(), events);
      DoneIff(before);
      assert events == before + [events[|events| - 1]];
    }
  }

  /** After a shutdown the broker can stop, and then every channel ever subscribed is closed. */
  lemma {:induction false} ShutdownCanStop<M>(s: State<M>) returns (events: seq<Event<M>>)
    requires ChannelsOk(s) && Accounted(s) && s.done
    ensures Runs(s, events) && Run(s, events).loop.Stopped? && Run(s, events).closed == s.joined.Keys
    decreases if s.loop.Publishing? then 1 else 0, if s.loop.Publishing? then s.loop.waiting else {}
  {
    if s.loop.Stopped? {
      return [];
    }
    var e;
    if s.loop.Selecting? {
      e := Stop;
    } else if s.loop.waiting == {} {
      e := EndPublish;
    } else {
      var ch :| ch in s.loop.waiting;
      e := Abandon(ch);
    }
    StepKeepsChannels(s, e);
    if e.Stop? {
      events := [e];
      assert events[1..] == [];
    } else {
      var rest := ShutdownCanStop(Apply(s, e));
      events := [e] + rest;
      assert events[1..] == rest;
    }
  }

  /** No run, shutdown included, closes a channel twice or sends to a closed channel. */
  lemma ChannelsClosedOnce<M>(events: seq<Event<M>>, e: Event<M>)
    requires Runs(Begin(), events) && Enabled(Run(Begin(), events), e)
    ensures var s := Run(Begin(), events);
            && (e.Unsubscribe? ==> e.ch !in s.closed)
            && (e.Stop? ==> s.subs !! s.closed)
            && (e.HandOver? ==> e.ch !in s.closed)
  {
    RunKeepsInv(Begin(), events);
  }
}
