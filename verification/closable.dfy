/**
 * `createClosableSubject`: a sink Subject wrapped in a shared, ref-counted
 * subscription (rxjs `multicast(subject)` + `refCount()`). The first consumer
 * connects to the sink; when the shared subscription is torn down -- the
 * last consumer leaves, or the sink stops while connected -- `onClose` runs.
 * Consumers receive only what is emitted while they are subscribed. The
 * relay subject `temp` outlives a teardown by the last consumer, so a later
 * consumer reconnects; once a terminal event has passed through it, it
 * stays stopped and later consumers only get that event from it.
 */
module Closable {
  import opened JsValue
  import opened Wrappers
  import opened Seqs

  datatype Event = OnNext(value: Value) | OnError(error: Value) | OnComplete {
    predicate IsTerminal() {
      !OnNext?
    }
  }

  /**
   * Idle: never connected. Connected: the shared subscription is live.
   * Released: the last consumer left; the relay subject is still open.
   * Finished: a terminal event passed through a live connection, so the
   * relay subject has stopped and no consumer ever connects again.
   */
  datatype Phase = Idle | Connected | Released | Finished

  datatype Subject = Subject(
    phase: Phase,
    subscribers: seq<nat>,        // current consumers, in subscription order
    nextSubscriber: nat,
    stopped: Option<Event>,       // the sink's terminal event, once it has stopped
    seen: map<nat, seq<Event>>,   // what every consumer ever subscribed has received
    connections: nat,             // times the shared subscription was established
    closeCalls: nat)              // times `onClose` has run

  /** Values, then at most one terminal event, which is last. */
  predicate WellFormedLog(log: seq<Event>) {
    forall i :: 0 <= i < |log| - 1 ==> log[i].OnNext?
  }

  predicate Open(log: seq<Event>) {
    forall i :: 0 <= i < |log| ==> log[i].OnNext?
  }

  predicate Valid(s: Subject) {
    && (forall x :: x in s.subscribers ==> x in s.seen && Open(s.seen[x]))
    && Distinct(s.subscribers)
    && (forall k :: k in s.seen ==> k < s.nextSubscriber && WellFormedLog(s.seen[k]))
    && (s.phase == Connected <==> |s.subscribers| > 0)
    && (s.phase == Connected ==> s.stopped.None?)
    && (s.phase == Finished ==> s.stopped.Some?)
    && (s.stopped.Some? ==> s.stopped.value.IsTerminal())
    && s.closeCalls + (if s.phase == Connected then 1 else 0) == s.connections
  }

  function Create(): (s: Subject)
    ensures Valid(s) && s.phase == Idle && s.stopped.None? && s.closeCalls == 0
  {
    Subject(Idle, [], 0, None, map[], 0, 0)
  }

  datatype Subscribed = Subscribed(subject: Subject, id: nat, fired: bool)

  /**
   * A consumer subscribes. It is given no earlier values: it gets nothing when
   * the sink is still open, and only the terminal event when it has stopped.
   * Unless the relay subject has stopped, a consumer arriving while nobody
   * is connected connects; when the sink has stopped by then -- before the
   * first connection or after the last consumer left -- the connection
   * receives the terminal event and tears down at once, running `onClose`.
   */
  function Subscribe(s: Subject): (r: Subscribed)
    requires Valid(s)
    ensures Valid(r.subject)
    ensures r.id == s.nextSubscriber && r.id !in s.seen
    ensures r.subject.seen == s.seen[r.id := if s.stopped.Some? then [s.stopped.value] else []]
    ensures r.fired <==> s.stopped.Some? && s.phase != Finished
    ensures r.subject.closeCalls == s.closeCalls + (if r.fired then 1 else 0)
    ensures r.subject.connections == s.connections + (if s.phase == Connected || s.phase == Finished then 0 else 1)
    ensures r.subject.phase == if s.stopped.Some? then Finished else Connected
    ensures s.stopped.None? <==> r.id in r.subject.subscribers
    ensures r.subject.stopped == s.stopped
  {
    var id := s.nextSubscriber;
    if s.stopped.Some? then
      var seen := s.seen[id := [s.stopped.value]];
      if s.phase != Finished then
        Subscribed(s.(phase := Finished, nextSubscriber := id + 1, seen := seen,
                      connections := s.connections + 1, closeCalls := s.closeCalls + 1), id, true)
      else
        Subscribed(s.(nextSubscriber := id + 1, seen := seen), id, false)
    else
      assert id !in s.subscribers;
      DistinctSnoc(s.subscribers, id);
      var connections := if s.phase == Connected then s.connections else s.connections + 1;
      Subscribed(s.(phase := Connected, subscribers := s.subscribers + [id], nextSubscriber := id + 1,
                    seen := s.seen[id := []], connections := connections), id, false)
  }

  datatype Changed = Changed(subject: Subject, fired: bool)

  /** A consumer leaves; `onClose` runs exactly when it was the last one. */
  function Unsubscribe(s: Subject, id: nat): (r: Changed)
    requires Valid(s)
    ensures Valid(r.subject)
    ensures r.fired <==> id in s.subscribers && |s.subscribers| == 1
    ensures r.subject.closeCalls == s.closeCalls + (if r.fired then 1 else 0)
    ensures id !in r.subject.subscribers
    ensures forall x :: x in r.subject.subscribers <==> x in s.subscribers && x != id
    ensures r.subject.seen == s.seen && r.subject.stopped == s.stopped
    ensures id !in s.subscribers ==> r == Changed(s, false)
    ensures r.subject.phase == if r.fired then Released else s.phase
    ensures r.subject.connections == s.connections
  {
    if id !in s.subscribers then Changed(s, false)
    else
      var rest := Without(s.subscribers, id);
      if |rest| == 0 then
        Changed(s.(phase := Released, subscribers := [], closeCalls := s.closeCalls + 1), true)
      else
        Changed(s.(subscribers := rest), false)
  }

  /** Appends `e` to the log of every current consumer. */
  function Deliver(seen: map<nat, seq<Event>>, to: seq<nat>, e: Event): (r: map<nat, seq<Event>>)
    ensures r.Keys == seen.Keys
    ensures forall k :: k in seen ==> r[k] == if k in to then seen[k] + [e] else seen[k]
  {
    map k | k in seen :: if k in to then seen[k] + [e] else seen[k]
  }

  /**
   * The owner pushes an event into the sink. A stopped sink ignores it; a
   * terminal event stops the sink, detaches every consumer and, if the
   * shared subscription was live, runs `onClose`.
   */
  function Emit(s: Subject, e: Event): (r: Changed)
    requires Valid(s)
    ensures Valid(r.subject)
    ensures s.stopped.Some? ==> r == Changed(s, false)
    ensures r.subject.seen.Keys == s.seen.Keys
    ensures s.stopped.None? ==>
      forall k :: k in s.seen ==> r.subject.seen[k] == if k in s.subscribers then s.seen[k] + [e] else s.seen[k]
    ensures r.fired <==> s.stopped.None? && e.IsTerminal() && s.phase == Connected
    ensures r.subject.closeCalls == s.closeCalls + (if r.fired then 1 else 0)
    ensures s.stopped.None? && e.IsTerminal() ==> r.subject.stopped == Some(e) && r.subject.subscribers == []
    ensures s.stopped.None? && !e.IsTerminal() ==> r.subject.stopped.None? && r.subject.subscribers == s.subscribers
    ensures r.subject.nextSubscriber == s.nextSubscriber
    ensures r.subject.phase == if r.fired then Finished else s.phase
    ensures r.subject.connections == s.connections
  {
    if s.stopped.Some? then Changed(s, false)
    else
      var seen := Deliver(s.seen, s.subscribers, e);
      if !e.IsTerminal() then Changed(s.(seen := seen), false)
      else if s.phase == Connected then
        Changed(s.(phase := Finished, subscribers := [], stopped := Some(e), seen := seen,
                   closeCalls := s.closeCalls + 1), true)
      else
        Changed(s.(subscribers := [], stopped := Some(e), seen := seen), false)
  }

  /** The events up to and including the first terminal one. */
  function UpToTerminal(es: seq<Event>): (r: seq<Event>)
    ensures WellFormedLog(r)
    ensures |r| <= |es|
  {
    if |es| == 0 then []
    else if es[0].IsTerminal() then [es[0]]
    else [es[0]] + UpToTerminal(es[1..])
  }

  /** Emits a sequence of events in order. */
  function EmitAll(s: Subject, es: seq<Event>): (r: Subject)
    requires Valid(s)
    ensures Valid(r)
    decreases |es|
  {
    if |es| == 0 then s else EmitAll(Emit(s, es[0]).subject, es[1..])
  }

  /**
   * A consumer that stays subscribed receives exactly the events emitted
   * from then on, in order, up to and including the first terminal event:
   * nothing is replayed, nothing is lost and nothing follows the terminal.
   */
  lemma {:induction false} ConsumerSeesEmissionsOnce(s: Subject, id: nat, es: seq<Event>)
    requires Valid(s)
    requires id in s.subscribers
    ensures id in EmitAll(s, es).seen
    ensures EmitAll(s, es).seen[id] == s.seen[id] + UpToTerminal(es)
    decreases |es|
  {
    if |es| > 0 {
      var s1 := Emit(s, es[0]).subject;
      EmitReachesSubscriber(s, id, es[0]);
      assert EmitAll(s, es) == EmitAll(s1, es[1..]);
      if es[0].IsTerminal() {
        StoppedIgnoresAll(s1, es[1..]);
        assert UpToTerminal(es) == [es[0]];
      } else {
        ConsumerSeesEmissionsOnce(s1, id, es[1..]);
        assert UpToTerminal(es) == [es[0]] + UpToTerminal(es[1..]);
        assert s.seen[id] + [es[0]] + UpToTerminal(es[1..]) == s.seen[id] + ([es[0]] + UpToTerminal(es[1..]));
      }
    } else {
      assert EmitAll(s, es) == s && UpToTerminal(es) == [];
      assert s.seen[id] + [] == s.seen[id];
    }
  }

  /** One emission reaches a current consumer; it stays subscribed unless the event was terminal. */
  lemma EmitReachesSubscriber(s: Subject, id: nat, e: Event)
    requires Valid(s) && id in s.subscribers
    ensures var s1 := Emit(s, e).subject;
      && Valid(s1) && id in s1.seen && s1.seen[id] == s.seen[id] + [e]
      && (e.IsTerminal() ==> s1.stopped.Some?)
      && (!e.IsTerminal() ==> id in s1.subscribers)
  {
  }

  /** Once the sink has stopped, emitting changes nothing. */
  lemma {:induction false} StoppedIgnoresAll(s: Subject, es: seq<Event>)
    requires Valid(s) && s.stopped.Some?
    ensures EmitAll(s, es) == s
    decreases |es|
  {
    if |es| > 0 {
      StoppedIgnoresAll(Emit(s, es[0]).subject, es[1..]);
    }
  }

  /** With two consumers, the first leaving keeps the stream open; the second leaving closes it once. */
  lemma RefCountedClose()
    ensures
      var a := Subscribe(Create());
      var b := Subscribe(a.subject);
      var u1 := Unsubscribe(b.subject, a.id);
      var u2 := Unsubscribe(u1.subject, b.id);
      !u1.fired && u1.subject.closeCalls == 0 && u2.fired && u2.subject.closeCalls == 1
  {
  }

  /**
   * The last consumer leaving releases the relay subject without stopping
   * it; when the sink stops while nobody is connected, the next consumer
   * reconnects, receives the terminal event and runs `onClose` a second time.
   * After that the relay subject has stopped, and a third consumer only
   * receives the terminal event from it.
   */
  lemma ReconnectAfterReleaseCloses()
    ensures
      var a := Subscribe(Create());
      var u := Unsubscribe(a.subject, a.id);
      var e := Emit(u.subject, OnComplete);
      var b := Subscribe(e.subject);
      var c := Subscribe(b.subject);
      && u.fired && !e.fired && b.fired && !c.fired
      && b.subject.seen[b.id] == [OnComplete] && c.subject.seen[c.id] == [OnComplete]
      && c.subject.closeCalls == 2 && c.subject.connections == 2
  {
  }

  /** Every connection is torn down at most once: `onClose` never runs more often than the stream connected. */
  lemma CloseAtMostOncePerConnection(s: Subject)
    requires Valid(s)
    ensures s.closeCalls <= s.connections
    ensures s.phase != Connected ==> s.closeCalls == s.connections
  {
  }
}
