/**
 * The two endpoints connected: what the caller posts is what the adapter
 * receives and the other way round. Each lemma follows one exchange
 * through both state machines.
 */
module Scenarios {
  import opened JsValue
  import opened Wrappers
  import opened Messages
  import WireFormat
  import WireErrors
  import Closable
  import Caller
  import Adapter
  import Seqs

  /** An implementation whose `echo` answers with its first argument. */
  function EchoImpl(): map<string, Adapter.Member> {
    map["echo" := Adapter.Method(args => if |args| > 0 then Adapter.Returned(args[0]) else Adapter.Returned(Undefined))]
  }

  /** An implementation whose `fail` returns a promise rejected with `e`. */
  function FailImpl(e: Value): map<string, Adapter.Member> {
    map["fail" := Adapter.Method(_ => Adapter.Rejects(e))]
  }

  /** An implementation whose `count` returns an observable. */
  function StreamImpl(): map<string, Adapter.Member> {
    map["count" := Adapter.Method(_ => Adapter.Returned(Stream(0)))]
  }

  /** The caller's state after its first call: one open call channel, 0, with a fresh stream. */
  lemma FirstIssued(rev: Revision, name: string, args: seq<Value>)
    ensures var issued := Caller.Call(Caller.Create(rev, WireFormat.Noop), name, args);
      && issued.id == 0
      && Caller.Valid(issued.caller) && issued.caller.rev == rev && issued.caller.listening
      && issued.caller.callChannels == [0] && 0 in issued.caller.handles
      && issued.caller.handles[0] == Closable.Create()
  {
  }

  /** The caller's first call, on channel 0 and without observable arguments, as the adapter reads it. */
  lemma FirstPlainCall(rev: Revision, name: string, args: seq<Value>)
    requires forall i :: 0 <= i < |args| ==> !args[i].Stream?
    ensures var issued := Caller.Call(Caller.Create(rev, WireFormat.Noop), name, args);
      && issued.id == 0
      && Decode(rev, issued.posts[0].message) == Some(Call(0, name, args, None))
  {
    var c0 := Caller.Create(rev, WireFormat.Noop);
    Caller.CallReachesAdapter(c0, name, args);
    Caller.CountStreamsZero(args);
    var out := Caller.ExtractOutChannels(args, 0);
    Caller.OutChannelArgs(args, 0);
    assert out.args == args;
  }

  /** Right after its first call, the caller has one consumer subscribed to call 0, which has seen nothing. */
  lemma FirstConsumer(rev: Revision, name: string, args: seq<Value>)
    ensures var issued := Caller.Call(Caller.Create(rev, WireFormat.Noop), name, args);
      var joined := Caller.SubscribeHandle(issued.caller, issued.id);
      && issued.id == 0 && joined.posts == []
      && Caller.Valid(joined.caller) && joined.caller.rev == rev && joined.caller.listening
      && joined.caller.callChannels == [0] && 0 in joined.caller.handles
      && joined.consumer in joined.caller.handles[0].subscribers
      && joined.caller.handles[0].seen[joined.consumer] == []
  {
    var issued := Caller.Call(Caller.Create(rev, WireFormat.Noop), name, args);
    assert issued.caller.callChannels == [0] && issued.caller.handles[0] == Closable.Create();
  }

  /** A fresh adapter answers a decoded call by running the member: `echo` of a plain value resolves with it. */
  lemma EchoAnswered(rev: Revision, v: Value, w: WireMessage)
    requires !v.Stream? && Decode(rev, w) == Some(Call(0, "echo", [v], None))
    ensures var served := Adapter.Receive(Adapter.Create(rev), EchoImpl(), w);
      && served.posts == [WireFormat.Plain(rev, Resolve(0, v))]
      && served.adapter == Adapter.Create(rev)
  {
    var a0 := Adapter.Create(rev);
    assert Adapter.Run(EchoImpl(), "echo", [v]) == Adapter.Returned(v);
    assert Adapter.Receive(a0, EchoImpl(), w) == Adapter.HandleCall(a0, EchoImpl(), 0, "echo", [v], None);
  }

  /** `fail` answers with ERROR carrying the rejection's transferable record. */
  lemma FailAnswered(rev: Revision, e: Value, w: WireMessage)
    requires Decode(rev, w) == Some(Call(0, "fail", [], None))
    ensures var served := Adapter.Receive(Adapter.Create(rev), FailImpl(e), w);
      served.posts == [WireFormat.Plain(rev, Error(0, WireErrors.ExtractTransferableError(e)))]
  {
    var a0 := Adapter.Create(rev);
    assert Adapter.Run(FailImpl(e), "fail", []) == Adapter.Rejects(e);
    assert Adapter.Receive(a0, FailImpl(e), w) == Adapter.HandleCall(a0, FailImpl(e), 0, "fail", [], None);
  }

  /** An answer on call 0 reaches a consumer subscribed to it; one that settles the call also posts CLOSE back. */
  lemma AnswerDelivered(c: Caller.Caller, consumer: nat, w: WireMessage, m: Message)
    requires Caller.Valid(c) && c.listening && 0 in c.callChannels
    requires consumer in c.handles[0].subscribers
    requires Decode(c.rev, w) == Some(m) && m.channelId == 0 && (m.Resolve? || m.Next? || m.Error? || m.Complete?)
    ensures var answered := Caller.Receive(c, w);
      && 0 in answered.caller.handles
      && consumer in answered.caller.handles[0].seen
      && answered.caller.handles[0].seen[consumer] == c.handles[0].seen[consumer] + Caller.Settlement(c.rev, m)
      && answered.posts == (if Caller.Settles(m) then [WireFormat.Plain(c.rev, Close(0))] else [])
      && answered.caller.callChannels == (if Caller.Settles(m) then Seqs.Without(c.callChannels, 0) else c.callChannels)
      && (!Caller.Settles(m) ==> consumer in answered.caller.handles[0].subscribers)
      && Caller.Valid(answered.caller) && answered.caller.listening && answered.caller.rev == c.rev
  {
    assert c.handles[0].phase == Closable.Connected;
    Caller.ReceiveAnswer(c, w);
  }

  /** The CLOSE that follows a settled call finds no relay and changes nothing at the adapter. */
  lemma LateCloseIgnored(a: Adapter.Adapter, impl: map<string, Adapter.Member>, id: nat)
    requires Adapter.Valid(a) && a.listening && id as int !in a.callOut
    ensures Adapter.Receive(a, impl, WireFormat.Plain(a.rev, Close(id)).message) == Adapter.Step(a, [], None)
  {
    SandboxRoundTrip(Close(id));
    CoreRoundTripLosesStreamArgs(Close(id));
  }

  /**
   * A call whose method answers a plain value: the awaiting consumer gets
   * that value and the completion, the caller sends CLOSE back as its
   * shared subscription ends, and the adapter ignores that CLOSE.
   */
  lemma EchoRoundTrip(rev: Revision, v: Value)
    requires !v.Stream?
    ensures
      var issued := Caller.Call(Caller.Create(rev, WireFormat.Noop), "echo", [v]);
      var joined := Caller.SubscribeHandle(issued.caller, issued.id);
      var served := Adapter.Receive(Adapter.Create(rev), EchoImpl(), issued.posts[0].message);
      && served.posts == [WireFormat.Plain(rev, Resolve(0, v))]
      && var answered := Caller.Receive(joined.caller, served.posts[0].message);
      && 0 in answered.caller.handles && joined.consumer in answered.caller.handles[0].seen
      && answered.caller.handles[0].seen[joined.consumer] == [Closable.OnNext(v), Closable.OnComplete]
      && answered.posts == [WireFormat.Plain(rev, Close(0))]
      && Adapter.Receive(served.adapter, EchoImpl(), answered.posts[0].message) == Adapter.Step(served.adapter, [], None)
  {
    var issued := Caller.Call(Caller.Create(rev, WireFormat.Noop), "echo", [v]);
    FirstPlainCall(rev, "echo", [v]);
    FirstConsumer(rev, "echo", [v]);
    var joined := Caller.SubscribeHandle(issued.caller, issued.id);
    EchoAnswered(rev, v, issued.posts[0].message);
    var served := Adapter.Receive(Adapter.Create(rev), EchoImpl(), issued.posts[0].message);
    SandboxRoundTrip(Resolve(0, v));
    CoreRoundTripLosesStreamArgs(Resolve(0, v));
    AnswerDelivered(joined.caller, joined.consumer, served.posts[0].message, Resolve(0, v));
    LateCloseIgnored(served.adapter, EchoImpl(), 0);
  }

  /** A consumer of a call whose promise rejects with `e` sees one error: `e`'s record as the caller reads it back. */
  lemma RejectionDelivered(rev: Revision, e: Value)
    ensures
      var issued := Caller.Call(Caller.Create(rev, WireFormat.Noop), "fail", []);
      var joined := Caller.SubscribeHandle(issued.caller, issued.id);
      var served := Adapter.Receive(Adapter.Create(rev), FailImpl(e), issued.posts[0].message);
      && |served.posts| == 1
      && var answered := Caller.Receive(joined.caller, served.posts[0].message);
      && 0 in answered.caller.handles && joined.consumer in answered.caller.handles[0].seen
      && answered.caller.handles[0].seen[joined.consumer]
         == [Closable.OnError(WireFormat.FromWireError(rev, WireErrors.ExtractTransferableError(e)))]
  {
    var issued := Caller.Call(Caller.Create(rev, WireFormat.Noop), "fail", []);
    FirstPlainCall(rev, "fail", []);
    FirstConsumer(rev, "fail", []);
    var joined := Caller.SubscribeHandle(issued.caller, issued.id);
    FailAnswered(rev, e, issued.posts[0].message);
    var served := Adapter.Receive(Adapter.Create(rev), FailImpl(e), issued.posts[0].message);
    var record := WireErrors.ExtractTransferableError(e);
    SandboxRoundTrip(Error(0, record));
    CoreRoundTripLosesStreamArgs(Error(0, record));
    AnswerDelivered(joined.caller, joined.consumer, served.posts[0].message, Error(0, record));
  }

  /**
   * A call whose promise rejects with an `Error`: the sandbox revision
   * hands the consumer a new `Error` whose message carries the
   * "(in worker) " prefix; the core revision hands over the bare record.
   */
  lemma RejectionReachesConsumer(rev: Revision, message: string)
    ensures
      var error := WireFormat.FromWireError(rev, WireErrors.ExtractTransferableError(ErrorObj(message, Undefined)));
      && (rev == Sandbox ==> error == ErrorObj(WireErrors.RemotePrefix + message, Undefined))
      && (rev == Core ==> error == Obj(map["message" := Str(message), "stack" := Undefined]))
  {
    WireErrors.RebuildAfterExtractError(message, Undefined);
  }

  /**
   * An observable argument in the sandbox revision: the CALL names out
   * channel 0, the adapter opens sink 0 for it, and a value the caller's
   * observable emits arrives in that sink.
   */
  lemma SandboxStreamArgumentArrives(v: Value)
    ensures
      var issued := Caller.Call(Caller.Create(Sandbox, WireFormat.Noop), "count", [Stream(5)]);
      var served := Adapter.Receive(Adapter.Create(Sandbox), StreamImpl(), issued.posts[0].message);
      var fed := Caller.ArgSourceEvent(issued.caller, 0, Closable.OnNext(v));
      && issued.caller.outSubscriptions == [0]
      && 0 in served.adapter.argIn
      && |fed.posts| == 1
      && var got := Adapter.Receive(served.adapter, StreamImpl(), fed.posts[0].message);
      && 0 in got.adapter.sinks && got.adapter.sinks[0] == [Closable.OnNext(v)]
  {
    var issued := Caller.Call(Caller.Create(Sandbox, WireFormat.Noop), "count", [Stream(5)]);
    StreamCallIssued();
    StreamCallServed(issued.posts[0].message);
    var served := Adapter.Receive(Adapter.Create(Sandbox), StreamImpl(), issued.posts[0].message);
    var fed := Caller.ArgSourceEvent(issued.caller, 0, Closable.OnNext(v));
    SinkFed(served.adapter, fed.posts[0].message, v);
  }

  /** The sandbox caller's first call with one observable argument: out channel 0, announced in the CALL. */
  lemma StreamCallIssued()
    ensures var issued := Caller.Call(Caller.Create(Sandbox, WireFormat.Noop), "count", [Stream(5)]);
      && Caller.Valid(issued.caller) && issued.caller.rev == Sandbox
      && issued.caller.outSubscriptions == [0]
      && Decode(Sandbox, issued.posts[0].message) == Some(Call(0, "count", [Undefined], Some([Some(0)])))
  {
    var c0 := Caller.Create(Sandbox, WireFormat.Noop);
    Caller.CallReachesAdapter(c0, "count", [Stream(5)]);
    assert [Stream(5)][1..] == [];
    assert Caller.CountStreams([Stream(5)]) == 1;
    assert Caller.ExtractOutChannels([Stream(5)], 0) == Caller.OutChannels([Undefined], [Some(0)]);
    assert Caller.ChannelArgs([Stream(5)], 0) == Some([Some(0)]);
    assert Seqs.Range(0, 1) == [0];
  }

  /** The sandbox adapter opens an empty arg-in sink 0 for that CALL. */
  lemma StreamCallServed(w: WireMessage)
    requires Decode(Sandbox, w) == Some(Call(0, "count", [Undefined], Some([Some(0)])))
    ensures var served := Adapter.Receive(Adapter.Create(Sandbox), StreamImpl(), w);
      && Adapter.Valid(served.adapter) && served.adapter.listening && served.adapter.rev == Sandbox
      && 0 in served.adapter.argIn && 0 in served.adapter.sinks && served.adapter.sinks[0] == []
  {
    var a0 := Adapter.Create(Sandbox);
    assert Adapter.Receive(a0, StreamImpl(), w)
        == Adapter.HandleCall(a0, StreamImpl(), 0, "count", [Undefined], Some([Some(0)]));
  }

  /** A value the caller's observable emits on out channel 0 lands in the adapter's sink 0. */
  lemma SinkFed(a: Adapter.Adapter, w: WireMessage, v: Value)
    requires Adapter.Valid(a) && a.listening && a.rev == Sandbox
    requires 0 in a.argIn && 0 in a.sinks && a.sinks[0] == []
    requires Decode(Sandbox, w) == Some(Next(0, v))
    ensures var got := Adapter.Receive(a, StreamImpl(), w);
      0 in got.adapter.sinks && got.adapter.sinks[0] == [Closable.OnNext(v)]
  {
  }

  /**
   * The same call in the core revision: the caller sends the out-channel
   * ids as `argChannels`, the adapter looks for `channelArgs`, so no sink
   * is opened and the member receives `undefined` where the observable was.
   */
  lemma CoreStreamArgumentLost()
    ensures
      var issued := Caller.Call(Caller.Create(Core, WireFormat.Noop), "count", [Stream(5)]);
      var served := Adapter.Receive(Adapter.Create(Core), StreamImpl(), issued.posts[0].message);
      && issued.caller.outSubscriptions == [0]
      && Decode(Core, issued.posts[0].message) == Some(Call(0, "count", [Undefined], None))
      && served.adapter.argIn == {}
  {
    var c0 := Caller.Create(Core, WireFormat.Noop);
    Caller.CallReachesAdapter(c0, "count", [Stream(5)]);
    assert [Stream(5)][1..] == [];
    assert Caller.CountStreams([Stream(5)]) == 1;
    assert Caller.ExtractOutChannels([Stream(5)], 0) == Caller.OutChannels([Undefined], [Some(0)]);
    assert Seqs.Range(0, 1) == [0];
    var issued := Caller.Call(c0, "count", [Stream(5)]);
    assert issued.caller.outSubscriptions == [0];
    assert Decode(Core, issued.posts[0].message) == Some(Call(0, "count", [Undefined], None));
  }

  /** `count` answers with an observable: the adapter keeps a relay for it on the call's channel and posts nothing yet. */
  lemma CountServed(rev: Revision, w: WireMessage)
    requires Decode(rev, w) == Some(Call(0, "count", [], None))
    ensures var served := Adapter.Receive(Adapter.Create(rev), StreamImpl(), w);
      && served.posts == []
      && Adapter.Valid(served.adapter) && served.adapter.listening && served.adapter.rev == rev
      && served.adapter.relays == map[0 := Adapter.Relay(0, true)] && served.adapter.callOut == map[0 := 0]
  {
    var a0 := Adapter.Create(rev);
    assert Adapter.Run(StreamImpl(), "count", []) == Adapter.Returned(Stream(0));
    assert Adapter.Receive(a0, StreamImpl(), w) == Adapter.HandleCall(a0, StreamImpl(), 0, "count", [], None);
  }

  /** The relay forwards a value and then the completion, after which the adapter forgets the call. */
  lemma RelayForwards(a: Adapter.Adapter, v: Value)
    requires Adapter.Valid(a) && a.listening
    requires a.relays == map[0 := Adapter.Relay(0, true)] && a.callOut == map[0 := 0]
    ensures var n := Adapter.RelayEvent(a, 0, Closable.OnNext(v));
      var c := Adapter.RelayEvent(n.adapter, 0, Closable.OnComplete);
      && |n.posts| == 1 && Decode(a.rev, n.posts[0].message) == Some(Next(0, v))
      && |c.posts| == 1 && Decode(a.rev, c.posts[0].message) == Some(Complete(0))
      && c.adapter.callOut == map[]
  {
    SandboxRoundTrip(Next(0, v));
    CoreRoundTripLosesStreamArgs(Next(0, v));
    SandboxRoundTrip(Complete(0));
    CoreRoundTripLosesStreamArgs(Complete(0));
  }

  /** A NEXT on call 0 reaches its consumer, which stays subscribed. */
  lemma NextDelivered(c: Caller.Caller, consumer: nat, w: WireMessage, v: Value)
    requires Caller.Valid(c) && c.listening && c.callChannels == [0]
    requires consumer in c.handles[0].subscribers && c.handles[0].seen[consumer] == []
    requires Decode(c.rev, w) == Some(Next(0, v))
    ensures var got := Caller.Receive(c, w).caller;
      && Caller.Valid(got) && got.listening && got.rev == c.rev && got.callChannels == [0]
      && 0 in got.handles && consumer in got.handles[0].subscribers
      && got.handles[0].seen[consumer] == [Closable.OnNext(v)]
  {
    AnswerDelivered(c, consumer, w, Next(0, v));
  }

  /** A COMPLETE on call 0 reaches its consumer after what it had seen, and ends the call. */
  lemma CompleteDelivered(c: Caller.Caller, consumer: nat, w: WireMessage, seen: seq<Closable.Event>)
    requires Caller.Valid(c) && c.listening && c.callChannels == [0]
    requires consumer in c.handles[0].subscribers && c.handles[0].seen[consumer] == seen
    requires Decode(c.rev, w) == Some(Complete(0))
    ensures var got := Caller.Receive(c, w).caller;
      && 0 in got.handles && consumer in got.handles[0].seen
      && got.handles[0].seen[consumer] == seen + [Closable.OnComplete]
      && got.callChannels == []
  {
    AnswerDelivered(c, consumer, w, Complete(0));
    assert |Seqs.Without([0], 0)| == 0;
  }

  /** A NEXT and then a COMPLETE on call 0 reach its consumer in order, and the COMPLETE ends the call. */
  lemma NextThenCompleteDelivered(c: Caller.Caller, consumer: nat, w1: WireMessage, w2: WireMessage, v: Value)
    requires Caller.Valid(c) && c.listening && c.callChannels == [0]
    requires consumer in c.handles[0].subscribers && c.handles[0].seen[consumer] == []
    requires Decode(c.rev, w1) == Some(Next(0, v)) && Decode(c.rev, w2) == Some(Complete(0))
    ensures var got1 := Caller.Receive(c, w1);
      var got2 := Caller.Receive(got1.caller, w2);
      && 0 in got2.caller.handles && consumer in got2.caller.handles[0].seen
      && got2.caller.handles[0].seen[consumer] == [Closable.OnNext(v), Closable.OnComplete]
      && got2.caller.callChannels == []
  {
    NextDelivered(c, consumer, w1, v);
    CompleteDelivered(Caller.Receive(c, w1).caller, consumer, w2, [Closable.OnNext(v)]);
  }

  /**
   * An observable result is relayed: each emitted value reaches the
   * consumer, the completion ends the call, and once the call ended the
   * relay is forgotten on both sides.
   */
  lemma ObservableResultRelayed(rev: Revision, v: Value)
    ensures
      var issued := Caller.Call(Caller.Create(rev, WireFormat.Noop), "count", []);
      var joined := Caller.SubscribeHandle(issued.caller, 0);
      var served := Adapter.Receive(Adapter.Create(rev), StreamImpl(), issued.posts[0].message);
      var n := Adapter.RelayEvent(served.adapter, 0, Closable.OnNext(v));
      var c := Adapter.RelayEvent(n.adapter, 0, Closable.OnComplete);
      && served.posts == [] && |n.posts| == 1 && |c.posts| == 1 && c.adapter.callOut == map[]
      && var got2 := Caller.Receive(Caller.Receive(joined.caller, n.posts[0].message).caller, c.posts[0].message);
      && 0 in got2.caller.handles && joined.consumer in got2.caller.handles[0].seen
      && got2.caller.handles[0].seen[joined.consumer] == [Closable.OnNext(v), Closable.OnComplete]
      && got2.caller.callChannels == []
  {
    var issued := Caller.Call(Caller.Create(rev, WireFormat.Noop), "count", []);
    FirstPlainCall(rev, "count", []);
    FirstConsumer(rev, "count", []);
    var joined := Caller.SubscribeHandle(issued.caller, 0);
    CountServed(rev, issued.posts[0].message);
    var served := Adapter.Receive(Adapter.Create(rev), StreamImpl(), issued.posts[0].message);
    RelayForwards(served.adapter, v);
    var n := Adapter.RelayEvent(served.adapter, 0, Closable.OnNext(v));
    var c := Adapter.RelayEvent(n.adapter, 0, Closable.OnComplete);
    NextThenCompleteDelivered(joined.caller, joined.consumer, n.posts[0].message, c.posts[0].message, v);
  }

  /**
   * Awaiting a call after its RESOLVE has already arrived loses the value:
   * the sink is a plain subject, so the late consumer sees only the
   * completion, and its subscription posts a CLOSE the adapter no longer
   * expects.
   */
  lemma LateConsumerMissesResolvedValue(rev: Revision, data: Value)
    ensures
      var issued := Caller.Call(Caller.Create(rev, WireFormat.Noop), "f", []);
      var answered := Caller.Receive(issued.caller, Encode(rev, Resolve(0, data)));
      var joined := Caller.SubscribeHandle(answered.caller, 0);
      && answered.posts == []
      && 0 in joined.caller.handles && joined.consumer in joined.caller.handles[0].seen
      && joined.caller.handles[0].seen[joined.consumer] == [Closable.OnComplete]
      && joined.posts == [WireFormat.Plain(rev, Close(0))]
  {
    UnwatchedResolveStopsSink(rev, data);
  }

  /** A RESOLVE on a call nobody watches stops its sink, with nobody ever connected and nothing posted. */
  lemma UnwatchedResolveStopsSink(rev: Revision, data: Value)
    ensures
      var issued := Caller.Call(Caller.Create(rev, WireFormat.Noop), "f", []);
      var answered := Caller.Receive(issued.caller, Encode(rev, Resolve(0, data)));
      && answered.posts == [] && Caller.Valid(answered.caller) && answered.caller.nextCallChannelId == 1
      && answered.caller.handles[0].phase == Closable.Idle
      && answered.caller.handles[0].stopped == Some(Closable.OnComplete)
  {
    var issued := Caller.Call(Caller.Create(rev, WireFormat.Noop), "f", []);
    FirstIssued(rev, "f", []);
    var w := Encode(rev, Resolve(0, data));
    SandboxRoundTrip(Resolve(0, data));
    CoreRoundTripLosesStreamArgs(Resolve(0, data));
    Caller.ReceiveAnswer(issued.caller, w);
  }

  /** A consumer that subscribed before the RESOLVE sees the value and then the completion. */
  lemma EarlyConsumerSeesResolvedValue(rev: Revision, data: Value)
    ensures
      var issued := Caller.Call(Caller.Create(rev, WireFormat.Noop), "f", []);
      var joined := Caller.SubscribeHandle(issued.caller, 0);
      var answered := Caller.Receive(joined.caller, Encode(rev, Resolve(0, data)));
      && joined.posts == []
      && 0 in answered.caller.handles && joined.consumer in answered.caller.handles[0].seen
      && answered.caller.handles[0].seen[joined.consumer] == [Closable.OnNext(data), Closable.OnComplete]
      && answered.posts == [WireFormat.Plain(rev, Close(0))]
  {
    FirstConsumer(rev, "f", []);
    var issued := Caller.Call(Caller.Create(rev, WireFormat.Noop), "f", []);
    var joined := Caller.SubscribeHandle(issued.caller, 0);
    var w := Encode(rev, Resolve(0, data));
    SandboxRoundTrip(Resolve(0, data));
    CoreRoundTripLosesStreamArgs(Resolve(0, data));
    AnswerDelivered(joined.caller, joined.consumer, w, Resolve(0, data));
  }
}
