/**
 * `RpcCommunicator`, the calling endpoint. Every call gets a fresh channel
 * id and a closable stream; observable arguments become "out" channels the
 * caller feeds; messages from the adapter settle or feed the call streams.
 * Every operation returns the new state and the objects it posted, in order.
 */
module Caller {
  import opened JsValue
  import opened Wrappers
  import opened Seqs
  import opened Messages
  import WireFormat
  import WireErrors
  import Closable

  const DestroyedMessage := "RpcCommunicator channel destroyed"

  datatype Caller = Caller(
    rev: Revision,
    processor: WireFormat.Processor,
    handles: map<nat, Closable.Subject>,  // the stream of every call ever issued, by channel id
    callChannels: seq<nat>,               // keys of the `callChannels` map, in insertion order
    outSubscriptions: seq<nat>,           // keys of the `outSubscriptions` map, in insertion order
    nextCallChannelId: nat,
    nextOutChannelId: nat,
    listening: bool)                      // the port's message handler is still installed

  datatype Step = Step(caller: Caller, posts: seq<Post>)

  /** A call channel still in the map has a sink that has not stopped and was not released by its last consumer. */
  predicate Live(s: Closable.Subject) {
    s.stopped.None? && s.phase != Closable.Released
  }

  ghost predicate Valid(c: Caller) {
    && (forall id: nat :: id in c.handles <==> id < c.nextCallChannelId)
    && (forall id :: id in c.handles ==> Closable.Valid(c.handles[id]))
    && Distinct(c.callChannels)
    && (forall id :: id in c.callChannels ==> id in c.handles && Live(c.handles[id]))
    && Distinct(c.outSubscriptions)
    && (forall id :: id in c.outSubscriptions ==> id < c.nextOutChannelId)
  }

  /** The constructor: nothing issued, the handler installed. */
  function Create(rev: Revision, processor: WireFormat.Processor): (c: Caller)
    ensures Valid(c) && c.listening
    ensures c.callChannels == [] && c.outSubscriptions == [] && c.handles == map[]
  {
    Caller(rev, processor, map[], [], [], 0, 0, true)
  }

  // ---------------------------------------------------------------- calls

  /** The number of observable arguments. */
  function CountStreams(args: seq<Value>): (n: nat)
    ensures n <= |args|
  {
    if |args| == 0 then 0 else (if args[0].Stream? then 1 else 0) + CountStreams(args[1..])
  }

  /** No observable argument is counted exactly when there is none. */
  lemma {:induction false} CountStreamsZero(args: seq<Value>)
    ensures CountStreams(args) == 0 <==> forall i :: 0 <= i < |args| ==> !args[i].Stream?
  {
    if |args| > 0 {
      CountStreamsZero(args[1..]);
      assert forall i :: 1 <= i < |args| ==> args[1..][i - 1] == args[i];
    }
  }

  datatype OutChannels = OutChannels(args: seq<Value>, slots: seq<Option<nat>>)

  /**
   * `extractOutChannelsForArgs`: every observable argument is replaced by
   * `undefined` and its slot records the out-channel id it was given;
   * `OutChannelSlots` says which.
   */
  function ExtractOutChannels(args: seq<Value>, nextOut: nat): (r: OutChannels)
    ensures |r.args| == |args| && |r.slots| == |args|
    decreases |args|
  {
    if |args| == 0 then OutChannels([], [])
    else
      var here := args[0].Stream?;
      var rest := ExtractOutChannels(args[1..], if here then nextOut + 1 else nextOut);
      OutChannels([if here then Undefined else args[0]] + rest.args, [if here then Some(nextOut) else None] + rest.slots)
  }

  /** Every observable argument is replaced by `undefined`; the others are sent as they are. */
  lemma {:induction false} OutChannelArgs(args: seq<Value>, nextOut: nat)
    ensures var r := ExtractOutChannels(args, nextOut);
      forall i :: 0 <= i < |args| ==> r.args[i] == if args[i].Stream? then Undefined else args[i]
    decreases |args|
  {
    if |args| > 0 {
      var here := args[0].Stream?;
      var next := if here then nextOut + 1 else nextOut;
      OutChannelArgs(args[1..], next);
      var rest := ExtractOutChannels(args[1..], next);
      assert ExtractOutChannels(args, nextOut).args == [if here then Undefined else args[0]] + rest.args;
      assert forall i :: 1 <= i < |args| ==> args[1..][i - 1] == args[i];
    }
  }

  /**
   * An observable argument's slot holds the counter's value plus the number
   * of observables before it; every other slot is empty.
   */
  lemma {:induction false} OutChannelSlots(args: seq<Value>, nextOut: nat, i: nat)
    requires i < |args|
    ensures ExtractOutChannels(args, nextOut).slots[i]
         == if args[i].Stream? then Some(nextOut + CountStreams(args[..i])) else None
    decreases i
  {
    var here := args[0].Stream?;
    var next := if here then nextOut + 1 else nextOut;
    var rest := ExtractOutChannels(args[1..], next);
    assert ExtractOutChannels(args, nextOut).slots == [if here then Some(nextOut) else None] + rest.slots;
    if i == 0 {
      assert args[..0] == [];
    } else {
      OutChannelSlots(args[1..], next, i - 1);
      assert args[..i][1..] == args[1..][..i - 1];
      assert CountStreams(args[..i]) == (if here then 1 else 0) + CountStreams(args[1..][..i - 1]);
      assert ExtractOutChannels(args, nextOut).slots[i] == rest.slots[i - 1];
      assert args[1..][i - 1] == args[i];
    }
  }

  lemma {:induction false} CountStreamsSnoc(args: seq<Value>, i: nat)
    requires i < |args|
    ensures CountStreams(args[..i + 1]) == CountStreams(args[..i]) + if args[i].Stream? then 1 else 0
    decreases i
  {
    if i > 0 {
      assert args[..i + 1][1..] == args[1..][..i];
      assert args[..i][1..] == args[1..][..i - 1];
      CountStreamsSnoc(args[1..], i - 1);
    }
  }

  lemma {:induction false} CountStreamsMonotone(args: seq<Value>, i: nat, j: nat)
    requires i <= j <= |args|
    ensures CountStreams(args[..i]) <= CountStreams(args[..j])
    ensures i < j && args[i].Stream? ==> CountStreams(args[..i]) < CountStreams(args[..j])
    decreases j - i
  {
    if i < j {
      CountStreamsSnoc(args, i);
      CountStreamsMonotone(args, i + 1, j);
    }
  }

  /**
   * The out-channel ids handed out by one call are fresh (at least the
   * previous counter), strictly increasing from left to right and below
   * the new counter: no two observable arguments share a channel.
   */
  lemma OutChannelIdsFreshAndOrdered(args: seq<Value>, nextOut: nat, i: nat, j: nat)
    requires i < j < |args| && args[i].Stream? && args[j].Stream?
    ensures var r := ExtractOutChannels(args, nextOut);
      && r.slots[i].Some? && r.slots[j].Some?
      && nextOut <= r.slots[i].value < r.slots[j].value < nextOut + CountStreams(args)
  {
    OutChannelSlots(args, nextOut, i);
    OutChannelSlots(args, nextOut, j);
    CountStreamsMonotone(args, i, j);
    CountStreamsMonotone(args, j, |args|);
    assert args[..|args|] == args;
  }

  lemma DistinctAppendRange(xs: seq<nat>, lo: nat, hi: nat)
    requires lo <= hi && Distinct(xs) && forall x :: x in xs ==> x < lo
    ensures Distinct(xs + Range(lo, hi))
    ensures forall x :: x in xs + Range(lo, hi) ==> x < hi
  {
    var ys := xs + Range(lo, hi);
    forall i, j | 0 <= i < j < |ys|
      ensures ys[i] != ys[j]
    {
      if i < |xs| && j >= |xs| {
        assert ys[i] in xs;
      }
    }
  }

  /** The id list a CALL carries: absent unless some argument is an observable. */
  function ChannelArgs(args: seq<Value>, nextOut: nat): Option<seq<Option<nat>>> {
    if CountStreams(args) == 0 then None else Some(ExtractOutChannels(args, nextOut).slots)
  }

  datatype Issued = Issued(caller: Caller, posts: seq<Post>, id: nat)

  /**
   * The bookkeeping of `call`: the observable arguments are subscribed as
   * new out channels and a fresh closable stream is registered under the
   * next call channel id.
   */
  function Register(c: Caller, args: seq<Value>): (r: Caller)
    requires Valid(c)
    ensures Valid(r)
    ensures c.nextCallChannelId !in c.handles
    ensures r.nextCallChannelId == c.nextCallChannelId + 1
    ensures r.handles == c.handles[c.nextCallChannelId := Closable.Create()]
    ensures r.callChannels == c.callChannels + [c.nextCallChannelId]
    ensures r.nextOutChannelId == c.nextOutChannelId + CountStreams(args)
    ensures r.outSubscriptions == c.outSubscriptions + Range(c.nextOutChannelId, r.nextOutChannelId)
    ensures r.listening == c.listening && r.rev == c.rev && r.processor == c.processor
  {
    var nextOut := c.nextOutChannelId + CountStreams(args);
    var id := c.nextCallChannelId;
    DistinctAppendRange(c.outSubscriptions, c.nextOutChannelId, nextOut);
    assert id !in c.callChannels;
    DistinctSnoc(c.callChannels, id);
    c.(handles := c.handles[id := Closable.Create()],
       callChannels := c.callChannels + [id],
       outSubscriptions := c.outSubscriptions + Range(c.nextOutChannelId, nextOut),
       nextCallChannelId := id + 1,
       nextOutChannelId := nextOut)
  }

  /**
   * `call`: registers the call (see `Register`) and posts one CALL on the
   * fresh channel. The adapter reads the CALL back with the processed
   * arguments and, in the sandbox revision, the out-channel ids; in the
   * core revision the ids are sent under a name the adapter does not read.
   */
  function Call(c: Caller, name: string, args: seq<Value>): (r: Issued)
    requires Valid(c)
    ensures Valid(r.caller)
    ensures r.id == c.nextCallChannelId && r.id !in c.handles
    ensures r.caller == Register(c, args)
    ensures r.caller.handles == c.handles[r.id := Closable.Create()]
    ensures r.caller.callChannels == c.callChannels + [r.id]
    ensures |r.posts| == 1 && r.posts[0].message.code == Some(Code(CALL)) && r.posts[0].message.channelId == Some(r.id)
  {
    var out := ExtractOutChannels(args, c.nextOutChannelId);
    var wired := WireFormat.ToWire(c.processor, out.args);
    var id := c.nextCallChannelId;
    var call := Message.Call(id, name, wired.args, ChannelArgs(args, c.nextOutChannelId));
    Issued(Register(c, args), [Post(Encode(c.rev, call), WireFormat.Transfer(c.rev, wired.transfer))], id)
  }

  /**
   * What the adapter reads out of a call's one post: the method name, the
   * processed arguments and, in the sandbox revision, the out-channel ids;
   * in the core revision the ids are sent under a name the adapter does not
   * read. The transfer list goes with it.
   */
  lemma CallReachesAdapter(c: Caller, name: string, args: seq<Value>)
    requires Valid(c)
    ensures var r := Call(c, name, args);
      var wired := WireFormat.ToWire(c.processor, ExtractOutChannels(args, c.nextOutChannelId).args);
      && Decode(c.rev, r.posts[0].message)
         == Some(Message.Call(r.id, name, wired.args,
                              if c.rev == Sandbox then ChannelArgs(args, c.nextOutChannelId) else None))
      && r.posts[0].transfer == WireFormat.Transfer(c.rev, wired.transfer)
  {
    var wired := WireFormat.ToWire(c.processor, ExtractOutChannels(args, c.nextOutChannelId).args);
    var call := Message.Call(c.nextCallChannelId, name, wired.args, ChannelArgs(args, c.nextOutChannelId));
    SandboxRoundTrip(call);
    CoreRoundTripLosesStreamArgs(call);
  }

  /** The caller after one call per argument list, in order (`Call(c, name, args).caller` is `Register(c, args)`). */
  function CallAll(c: Caller, calls: seq<seq<Value>>): (r: Caller)
    requires Valid(c)
    ensures Valid(r)
    decreases |calls|
  {
    if |calls| == 0 then c else CallAll(Register(c, calls[0]), calls[1..])
  }

  /** Consecutive calls get consecutive channel ids, so no two calls ever share a channel. */
  lemma {:induction false} CallIdsConsecutive(c: Caller, calls: seq<seq<Value>>)
    requires Valid(c)
    ensures CallAll(c, calls).nextCallChannelId == c.nextCallChannelId + |calls|
    ensures CallAll(c, calls).callChannels == c.callChannels + Range(c.nextCallChannelId, c.nextCallChannelId + |calls|)
    decreases |calls|
  {
    var n := c.nextCallChannelId;
    if |calls| == 0 {
      assert Range(n, n) == [];
      assert c.callChannels + [] == c.callChannels;
    } else {
      var c1 := Register(c, calls[0]);
      CallIdsConsecutive(c1, calls[1..]);
      AppendRangeFront(c.callChannels, n, n + |calls|);
    }
  }

  // ------------------------------------------------------- handle consumers

  datatype Joined = Joined(caller: Caller, posts: seq<Post>, consumer: nat)

  /**
   * A consumer subscribes to a call's stream (`subscribe`, or the first
   * `then`/`catch`). It sees nothing earlier; after the call settled it sees
   * only the terminal event, and if nobody had subscribed before, the
   * stream connects and closes at once, posting a CLOSE.
   */
  function SubscribeHandle(c: Caller, id: nat): (r: Joined)
    requires Valid(c) && id < c.nextCallChannelId
    ensures Valid(r.caller)
    ensures var s := c.handles[id];
      && id in r.caller.handles
      && r.caller.handles == c.handles[id := r.caller.handles[id]]
      && r.consumer !in s.seen
      && r.caller.handles[id].seen == s.seen[r.consumer := if s.stopped.Some? then [s.stopped.value] else []]
      && (s.stopped.None? <==> r.consumer in r.caller.handles[id].subscribers)
      && r.posts == if s.stopped.Some? && s.phase != Closable.Finished then [WireFormat.Plain(c.rev, Close(id))] else []
    ensures r.caller.callChannels == c.callChannels && r.caller.outSubscriptions == c.outSubscriptions
    ensures r.caller.nextCallChannelId == c.nextCallChannelId && r.caller.listening == c.listening
    ensures r.caller.rev == c.rev && r.caller.processor == c.processor
  {
    var joined := Closable.Subscribe(c.handles[id]);
    var open := if joined.fired then Without(c.callChannels, id) else c.callChannels;
    var posts := if joined.fired then [WireFormat.Plain(c.rev, Close(id))] else [];
    Joined(c.(handles := c.handles[id := joined.subject], callChannels := open), posts, joined.id)
  }

  /**
   * A consumer unsubscribes. When it was the last one the shared
   * subscription is torn down: a CLOSE is posted and the channel leaves the
   * map, so later answers on it are ignored.
   */
  function UnsubscribeHandle(c: Caller, id: nat, consumer: nat): (r: Step)
    requires Valid(c) && id < c.nextCallChannelId
    ensures Valid(r.caller)
    ensures var s := c.handles[id];
      var last := consumer in s.subscribers && |s.subscribers| == 1;
      && r.posts == (if last then [WireFormat.Plain(c.rev, Close(id))] else [])
      && r.caller.callChannels == (if last then Without(c.callChannels, id) else c.callChannels)
      && id in r.caller.handles
      && consumer !in r.caller.handles[id].subscribers
      && r.caller.handles[id].seen == s.seen
    ensures r.caller.handles.Keys == c.handles.Keys
    ensures r.caller.outSubscriptions == c.outSubscriptions && r.caller.listening == c.listening
    ensures r.caller.rev == c.rev && r.caller.processor == c.processor
  {
    var left := Closable.Unsubscribe(c.handles[id], consumer);
    var open := if left.fired then Without(c.callChannels, id) else c.callChannels;
    var posts := if left.fired then [WireFormat.Plain(c.rev, Close(id))] else [];
    Step(c.(handles := c.handles[id := left.subject], callChannels := open), posts)
  }

  // ------------------------------------------------------ incoming messages

  /** The events an answer on an open call channel pushes into the call's sink, in order. */
  function Settlement(rev: Revision, m: Message): seq<Closable.Event> {
    match m
    case Resolve(_, data) => [Closable.OnNext(data), Closable.OnComplete]
    case Next(_, data) => [Closable.OnNext(data)]
    case Error(_, data) => [Closable.OnError(WireFormat.FromWireError(rev, data))]
    case Complete(_) => [Closable.OnComplete]
    case _ => []
  }

  /** Whether an answer ends the call: everything but NEXT does. */
  predicate Settles(m: Message) {
    m.Resolve? || m.Error? || m.Complete?
  }

  /** Pushes an answer's events into a live call sink. */
  function Settle(rev: Revision, s: Closable.Subject, m: Message): (r: Closable.Changed)
    requires Closable.Valid(s) && Live(s)
    requires m.Resolve? || m.Next? || m.Error? || m.Complete?
    ensures Closable.Valid(r.subject)
    ensures r.subject.seen.Keys == s.seen.Keys
    ensures forall k :: k in s.seen ==>
      r.subject.seen[k] == if k in s.subscribers then s.seen[k] + Settlement(rev, m) else s.seen[k]
    ensures Settles(m) ==> r.subject.stopped.Some? && r.subject.subscribers == []
    ensures !Settles(m) ==> Live(r.subject) && r.subject.subscribers == s.subscribers
    ensures r.fired <==> Settles(m) && s.phase == Closable.Connected
    ensures r.subject.nextSubscriber == s.nextSubscriber
    ensures s.phase != Closable.Connected ==> r.subject.phase == s.phase
    ensures Settles(m) ==> r.subject.stopped == Some(Settlement(rev, m)[|Settlement(rev, m)| - 1])
  {
    match m
    case Resolve(_, data) =>
      var a := Closable.Emit(s, Closable.OnNext(data));
      var b := Closable.Emit(a.subject, Closable.OnComplete);
      ValueThenCompletion(s, data);
      Closable.Changed(b.subject, b.fired)
    case Next(_, data) => Closable.Emit(s, Closable.OnNext(data))
    case Error(_, data) => Closable.Emit(s, Closable.OnError(WireFormat.FromWireError(rev, data)))
    case Complete(_) => Closable.Emit(s, Closable.OnComplete)
  }

  /** A RESOLVE emits the value and then the completion: every consumer gets both, and the sink stops. */
  lemma ValueThenCompletion(s: Closable.Subject, data: Value)
    requires Closable.Valid(s) && Live(s)
    ensures var a := Closable.Emit(s, Closable.OnNext(data));
      var b := Closable.Emit(a.subject, Closable.OnComplete);
      && b.subject.seen.Keys == s.seen.Keys
      && (forall k :: k in s.seen ==>
            b.subject.seen[k] == if k in s.subscribers then s.seen[k] + [Closable.OnNext(data), Closable.OnComplete] else s.seen[k])
      && b.subject.stopped.Some? && b.subject.subscribers == []
      && (b.fired <==> s.phase == Closable.Connected)
      && b.subject.nextSubscriber == s.nextSubscriber
      && b.subject.stopped == Some(Closable.OnComplete)
      && (s.phase != Closable.Connected ==> b.subject.phase == s.phase)
  {
    var a := Closable.Emit(s, Closable.OnNext(data));
    var b := Closable.Emit(a.subject, Closable.OnComplete);
    forall k | k in s.seen
      ensures b.subject.seen[k] == if k in s.subscribers then s.seen[k] + [Closable.OnNext(data), Closable.OnComplete] else s.seen[k]
    {
      if k in s.subscribers {
        assert a.subject.seen[k] == s.seen[k] + [Closable.OnNext(data)];
        assert s.seen[k] + [Closable.OnNext(data)] + [Closable.OnComplete] == s.seen[k] + [Closable.OnNext(data), Closable.OnComplete];
      }
    }
  }

  /** The id of a call channel still in the map, if the message names one. */
  predicate IsOpen(c: Caller, id: int) {
    id >= 0 && id as nat in c.callChannels
  }

  /**
   * `onMessage`: a CLOSE stops feeding an out channel; an answer on an open
   * call channel is pushed to its consumers, and RESOLVE, ERROR and COMPLETE
   * take the channel out of the map; everything else is ignored. A CLOSE is
   * posted back when an answer tears the shared subscription down.
   * `ReceiveClose` and `ReceiveAnswer` state the two cases that change
   * something.
   */
  function Receive(c: Caller, w: WireMessage): (r: Step)
    requires Valid(c)
    ensures Valid(r.caller)
    ensures r.caller.nextCallChannelId == c.nextCallChannelId && r.caller.nextOutChannelId == c.nextOutChannelId
    ensures r.caller.listening == c.listening && r.caller.handles.Keys == c.handles.Keys
    ensures r.caller.rev == c.rev && r.caller.processor == c.processor
    ensures forall x :: x in r.caller.callChannels ==> x in c.callChannels
    ensures forall x :: x in r.caller.outSubscriptions ==> x in c.outSubscriptions
    ensures r.caller != c || r.posts != [] ==>
      && c.listening && Decode(c.rev, w).Some?
      && (Decode(c.rev, w).value.Close? || (IsOpen(c, Decode(c.rev, w).value.channelId) && |Settlement(c.rev, Decode(c.rev, w).value)| > 0))
  {
    if !c.listening then Step(c, [])
    else match Decode(c.rev, w)
      case None => Step(c, [])
      case Some(m) =>
        if m.Close? then
          var out := if m.channelId < 0 then c.outSubscriptions else Without(c.outSubscriptions, m.channelId as nat);
          Step(c.(outSubscriptions := out), [])
        else if !IsOpen(c, m.channelId) || |Settlement(c.rev, m)| == 0 then Step(c, [])
        else
          var id := m.channelId as nat;
          var settled := Settle(c.rev, c.handles[id], m);
          var open := if Settles(m) then Without(c.callChannels, id) else c.callChannels;
          var posts := if settled.fired then [WireFormat.Plain(c.rev, Close(id))] else [];
          Step(c.(handles := c.handles[id := settled.subject], callChannels := open), posts)
  }

  /** A CLOSE from the adapter only drops the out subscription it names. */
  lemma ReceiveClose(c: Caller, w: WireMessage)
    requires Valid(c) && c.listening && Decode(c.rev, w).Some? && Decode(c.rev, w).value.Close?
    ensures var r := Receive(c, w);
      && r.caller == c.(outSubscriptions := r.caller.outSubscriptions)
      && Decode(c.rev, w).value.channelId !in r.caller.outSubscriptions
      && r.posts == []
  {
  }

  /**
   * An answer on an open call channel: every current consumer receives the
   * answer's events; RESOLVE, ERROR and COMPLETE take the channel out of
   * the map (and detach every consumer), posting a CLOSE when the shared
   * subscription was live; NEXT keeps the channel and its consumers.
   */
  lemma ReceiveAnswer(c: Caller, w: WireMessage)
    requires Valid(c) && c.listening && Decode(c.rev, w).Some?
    requires var m := Decode(c.rev, w).value;
      !m.Close? && IsOpen(c, m.channelId) && |Settlement(c.rev, m)| > 0
    ensures var m := Decode(c.rev, w).value;
      var r := Receive(c, w);
      var id := m.channelId as nat;
      var s := c.handles[id];
      && r.caller.outSubscriptions == c.outSubscriptions
      && id in r.caller.handles
      && (forall k :: k in s.subscribers ==>
            k in r.caller.handles[id].seen && r.caller.handles[id].seen[k] == s.seen[k] + Settlement(c.rev, m))
      && (Settles(m) <==> id !in r.caller.callChannels)
      && r.caller.callChannels == (if Settles(m) then Without(c.callChannels, id) else c.callChannels)
      && (!Settles(m) ==> r.caller.handles[id].subscribers == s.subscribers)
      && (Settles(m) ==> r.caller.handles[id].stopped == Some(Settlement(c.rev, m)[|Settlement(c.rev, m)| - 1]))
      && (s.phase != Closable.Connected ==> r.caller.handles[id].phase == s.phase)
      && r.posts == (if Settles(m) && s.phase == Closable.Connected then [WireFormat.Plain(c.rev, Close(id))] else [])
  {
  }

  /** Anything but a CLOSE or an answer on an open call channel changes nothing and posts nothing. */
  lemma ReceiveIgnores(c: Caller, w: WireMessage)
    requires Valid(c)
    requires !c.listening || Decode(c.rev, w).None? ||
      (var m := Decode(c.rev, w).value; !m.Close? && !(IsOpen(c, m.channelId) && |Settlement(c.rev, m)| > 0))
    ensures Receive(c, w) == Step(c, [])
  {
  }

  // ---------------------------------------------------------- out channels

  /**
   * The observable behind out channel `id` emits `e`. While the channel is
   * subscribed, the event is posted on it (an error as its transferable
   * record) and a terminal event ends the subscription; afterwards, or after
   * the adapter closed the channel, events are no longer forwarded.
   */
  function ArgSourceEvent(c: Caller, id: nat, e: Closable.Event): (r: Step)
    requires Valid(c)
    ensures Valid(r.caller)
    ensures id !in c.outSubscriptions ==> r == Step(c, [])
    ensures id in c.outSubscriptions ==>
      && |r.posts| == 1
      && Decode(c.rev, r.posts[0].message) == Some(
           match e
           case OnNext(v) => Next(id, v)
           case OnError(err) => Error(id, WireErrors.ExtractTransferableError(err))
           case OnComplete => Complete(id))
      && (e.IsTerminal() <==> id !in r.caller.outSubscriptions)
    ensures r.caller == c.(outSubscriptions := r.caller.outSubscriptions)
  {
    if id !in c.outSubscriptions then Step(c, [])
    else
      var m := match e
        case OnNext(v) => Next(id, v)
        case OnError(err) => Error(id, WireErrors.ExtractTransferableError(err))
        case OnComplete => Complete(id);
      SandboxRoundTrip(m);
      CoreRoundTripLosesStreamArgs(m);
      var out := if e.IsTerminal() then Without(c.outSubscriptions, id) else c.outSubscriptions;
      Step(c.(outSubscriptions := out), [WireFormat.Plain(c.rev, m)])
  }

  // --------------------------------------------------------------- destroy

  function DestroyedError(): Value {
    ErrorObj(DestroyedMessage, Undefined)
  }

  /** The ids among `ids` whose shared subscription is live: those whose teardown posts a CLOSE. */
  function ConnectedAmong(handles: map<nat, Closable.Subject>, ids: seq<nat>): (r: seq<nat>)
    requires forall id :: id in ids ==> id in handles
    ensures forall x :: x in r <==> x in ids && handles[x].phase == Closable.Connected
  {
    if |ids| == 0 then []
    else
      (if handles[ids[0]].phase == Closable.Connected then [ids[0]] else []) + ConnectedAmong(handles, ids[1..])
  }

  /** The CLOSE notices for `ids`, in order. */
  function CloseNotices(rev: Revision, ids: seq<nat>): (r: seq<Post>)
    ensures |r| == |ids|
    ensures forall i :: 0 <= i < |ids| ==> r[i] == WireFormat.Plain(rev, Close(ids[i]))
  {
    if |ids| == 0 then [] else [WireFormat.Plain(rev, Close(ids[0]))] + CloseNotices(rev, ids[1..])
  }

  lemma CloseNoticesCons(rev: Revision, fired: bool, id: nat, tail: seq<nat>)
    ensures (if fired then [WireFormat.Plain(rev, Close(id))] else []) + CloseNotices(rev, tail)
         == CloseNotices(rev, (if fired then [id] else []) + tail)
  {
    if fired {
      assert ([id] + tail)[1..] == tail;
    } else {
      assert [] + tail == tail;
    }
  }

  /** `after` is `before` errored by destroy: stopped with the destroy error, which every consumer received last. */
  ghost predicate ErroredByDestroy(before: Closable.Subject, after: Closable.Subject) {
    && Closable.Valid(after)
    && after.stopped == Some(Closable.OnError(DestroyedError()))
    && after.seen.Keys == before.seen.Keys
    && (forall k :: k in before.subscribers ==>
          k in after.seen && after.seen[k] == before.seen[k] + [Closable.OnError(DestroyedError())])
  }

  datatype Errored = Errored(handles: map<nat, Closable.Subject>, posts: seq<Post>)

  /** Errors every sink in `ids`, in order, posting a CLOSE for each live shared subscription it tears down. */
  function ErrorChannels(rev: Revision, handles: map<nat, Closable.Subject>, ids: seq<nat>): (r: Errored)
    requires Distinct(ids)
    requires forall id :: id in ids ==> id in handles && Closable.Valid(handles[id]) && Live(handles[id])
    ensures r.handles.Keys == handles.Keys
    ensures forall id :: id in handles && id !in ids ==> r.handles[id] == handles[id]
    ensures forall id :: id in ids ==> ErroredByDestroy(handles[id], r.handles[id])
    decreases |ids|
  {
    if |ids| == 0 then Errored(handles, [])
    else
      var id := ids[0];
      assert id in ids && Live(handles[id]);
      var e := Closable.Emit(handles[id], Closable.OnError(DestroyedError()));
      DistinctTail(ids);
      var rest := ErrorChannels(rev, handles[id := e.subject], ids[1..]);
      assert rest.handles[id] == e.subject;
      assert ErroredByDestroy(handles[id], rest.handles[id]);
      assert forall x :: x in ids ==> x == id || x in ids[1..];
      var mine := if e.fired then [WireFormat.Plain(rev, Close(id))] else [];
      Errored(rest.handles, mine + rest.posts)
  }

  /** The CLOSE notices come out in channel order, one per sink whose shared subscription was live. */
  lemma {:induction false} ErrorChannelsPosts(rev: Revision, handles: map<nat, Closable.Subject>, ids: seq<nat>)
    requires Distinct(ids)
    requires forall id :: id in ids ==> id in handles && Closable.Valid(handles[id]) && Live(handles[id])
    ensures ErrorChannels(rev, handles, ids).posts == CloseNotices(rev, ConnectedAmong(handles, ids))
    decreases |ids|
  {
    if |ids| > 0 {
      var id := ids[0];
      var e := Closable.Emit(handles[id], Closable.OnError(DestroyedError()));
      DistinctTail(ids);
      ErrorChannelsPosts(rev, handles[id := e.subject], ids[1..]);
      assert forall x :: x in ids[1..] ==> x in ids && x != id;
      ConnectedAmongUnaffected(handles, id, e.subject, ids[1..]);
      var tail := ConnectedAmong(handles, ids[1..]);
      assert e.fired <==> handles[id].phase == Closable.Connected;
      assert ConnectedAmong(handles, ids) == (if e.fired then [id] else []) + tail;
      CloseNoticesCons(rev, e.fired, id, tail);
    }
  }

  lemma {:induction false} ConnectedAmongUnaffected(handles: map<nat, Closable.Subject>, id: nat, s: Closable.Subject, ids: seq<nat>)
    requires forall x :: x in ids ==> x in handles && x != id
    ensures ConnectedAmong(handles[id := s], ids) == ConnectedAmong(handles, ids)
    decreases |ids|
  {
    if |ids| > 0 {
      assert forall x :: x in ids[1..] ==> x in ids;
      ConnectedAmongUnaffected(handles, id, s, ids[1..]);
    }
  }

  /**
   * `destroy`: the handler is removed, every out subscription is dropped,
   * and every call still open is errored with "RpcCommunicator channel
   * destroyed", posting a CLOSE for each one some consumer was subscribed to.
   */
  function Destroy(c: Caller): (r: Step)
    requires Valid(c)
    ensures Valid(r.caller)
    ensures !r.caller.listening && r.caller.callChannels == [] && r.caller.outSubscriptions == []
    ensures r.caller.handles.Keys == c.handles.Keys && r.caller.nextCallChannelId == c.nextCallChannelId
    ensures forall id :: id in c.handles && id !in c.callChannels ==> r.caller.handles[id] == c.handles[id]
    ensures forall id :: id in c.callChannels ==> id in r.caller.handles && ErroredByDestroy(c.handles[id], r.caller.handles[id])
    ensures r.posts == CloseNotices(c.rev, ConnectedAmong(c.handles, c.callChannels))
  {
    var errored := ErrorChannels(c.rev, c.handles, c.callChannels);
    ErrorChannelsPosts(c.rev, c.handles, c.callChannels);
    Step(c.(handles := errored.handles, callChannels := [], outSubscriptions := [], listening := false), errored.posts)
  }

  // ------------------------------------------------------------- properties

  /** Once destroyed, the caller ignores every message. */
  lemma DestroyedIgnoresMessages(c: Caller, w: WireMessage)
    requires Valid(c)
    ensures var d := Destroy(c).caller;
      Receive(d, w) == Step(d, [])
  {
  }

  /**
   * After an answer that settles a call, a second answer on the same
   * channel changes nothing and posts nothing: every consumer sees exactly
   * one terminal event.
   */
  lemma SettledCallIgnoresLaterAnswers(c: Caller, w1: WireMessage, w2: WireMessage)
    requires Valid(c) && c.listening
    requires Decode(c.rev, w1).Some? && Settles(Decode(c.rev, w1).value)
    requires IsOpen(c, Decode(c.rev, w1).value.channelId)
    requires Decode(c.rev, w2).Some? && !Decode(c.rev, w2).value.Close?
    requires Decode(c.rev, w2).value.channelId == Decode(c.rev, w1).value.channelId
    ensures var c1 := Receive(c, w1).caller;
      Receive(c1, w2) == Step(c1, [])
  {
    var c1 := Receive(c, w1).caller;
    assert !IsOpen(c1, Decode(c.rev, w1).value.channelId);
  }
}
