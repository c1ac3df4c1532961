/**
 * The older compiled revision of the protocol (`lib/ServiceCommunicator.js`):
 * every call is one request matched to at most one response by `callId`;
 * there are no channels, no observables and no closable streams. A request
 * without a `callId` is one-way and is never answered.
 */
module Legacy {
  import opened JsValue
  import opened Wrappers
  import TransferList
  import WireErrors
  import Adapter

  /** The `type` of every response. */
  const ResponseType := "$call-response"

  /** The message thrown by a one-way request for a member that is not a function. */
  const NotAFunctionMessage := "!"

  /**
   * A posted object. A request is `{type, callId, args}` (`callId` absent
   * for a one-way request); a response is `{type, callId, result}` or
   * `{type, callId, error}`. Absent fields read as `undefined`.
   */
  datatype Envelope = Envelope(kind: string, callId: Value, args: seq<Value>, result: Value, error: Value)

  datatype Post = Post(message: Envelope, transfer: Value)

  /** How a call's promise settled. */
  datatype Settled = Resolved(value: Value) | Rejected(error: Value)

  /**
   * `RpcCommunicator`: the ids of the calls whose promise is still pending
   * (the `calls` map), how each answered call settled, the id counter and
   * whether `onmessage` is still installed.
   */
  datatype Communicator = Communicator(pending: set<nat>, settled: map<nat, Settled>, nextCallId: nat, listening: bool)

  /** Every id handed out lies below the counter, and a call is either pending or settled. */
  predicate Valid(c: Communicator) {
    && (forall id :: id in c.pending ==> id < c.nextCallId && id !in c.settled)
    && (forall id :: id in c.settled ==> id < c.nextCallId)
  }

  function Create(): (c: Communicator)
    ensures Valid(c) && c.listening && c.nextCallId == 0 && c.pending == {} && c.settled == map[]
  {
    Communicator({}, map[], 0, true)
  }

  /** `destroy`: only `onmessage` is removed; pending calls stay pending. */
  function Destroy(c: Communicator): (r: Communicator)
    requires Valid(c)
    ensures Valid(r) && !r.listening
    ensures r.pending == c.pending && r.settled == c.settled && r.nextCallId == c.nextCallId
  {
    c.(listening := false)
  }

  /** The request for `name(args)`: the arguments as `getTransferList` leaves them, with its transfer list. */
  function Request(name: string, callId: Value, args: seq<Value>): Post {
    var ext := TransferList.GetTransferList(args);
    Post(Envelope(name, callId, ext.args, Undefined, Undefined), ext.transfer)
  }

  /** `callOneWay`: a request without `callId`; the communicator does not change. */
  function CallOneWay(c: Communicator, name: string, args: seq<Value>): (r: Post)
    ensures r.message.callId == Undefined && r.message.kind == name
    ensures r.message.args == TransferList.GetTransferList(args).args
    ensures r.transfer == TransferList.GetTransferList(args).transfer
  {
    Request(name, Undefined, args)
  }

  datatype Issued = Issued(communicator: Communicator, post: Post, id: nat)

  /**
   * `call`: takes the next id, posts the request under it and registers
   * exactly one pending resolver for it.
   */
  function Call(c: Communicator, name: string, args: seq<Value>): (r: Issued)
    requires Valid(c)
    ensures Valid(r.communicator)
    ensures r.id == c.nextCallId && r.communicator.nextCallId == r.id + 1
    ensures r.id !in c.pending && r.id !in c.settled
    ensures r.communicator.pending == c.pending + {r.id} && r.communicator.settled == c.settled
    ensures r.communicator.listening == c.listening
    ensures r.post.message.callId == Num(r.id) && r.post.message.kind == name
    ensures r.post.message.args == TransferList.GetTransferList(args).args
    ensures r.post.transfer == TransferList.GetTransferList(args).transfer
  {
    var id := c.nextCallId;
    Issued(c.(pending := c.pending + {id}, nextCallId := id + 1), Request(name, Num(id), args), id)
  }

  /** Issues one call per argument list, in order. */
  function CallAll(c: Communicator, name: string, calls: seq<seq<Value>>): (r: Communicator)
    requires Valid(c)
    ensures Valid(r)
    decreases |calls|
  {
    if |calls| == 0 then c else CallAll(Call(c, name, calls[0]).communicator, name, calls[1..])
  }

  /** Call ids count up from the counter, one per call, each registered as pending. */
  lemma {:induction false} CallIdsCountUp(c: Communicator, name: string, calls: seq<seq<Value>>)
    requires Valid(c)
    ensures CallAll(c, name, calls).nextCallId == c.nextCallId + |calls|
    ensures forall i :: i in CallAll(c, name, calls).pending <==>
      i in c.pending || c.nextCallId <= i < c.nextCallId + |calls|
    decreases |calls|
  {
    if |calls| > 0 {
      var c1 := Call(c, name, calls[0]).communicator;
      CallIdsCountUp(c1, name, calls[1..]);
    }
  }

  /** A fresh communicator numbers its calls 0, 1, 2, … */
  lemma CallIdsFromZero(name: string, calls: seq<seq<Value>>)
    ensures forall i: nat :: i in CallAll(Create(), name, calls).pending <==> i < |calls|
  {
    var c0 := Create();
    CallIdsCountUp(c0, name, calls);
    assert c0.pending == {} && c0.nextCallId == 0;
  }

  /**
   * How a response settles its call: a truthy `error` rejects with a new
   * `Error` whose message is `"(in worker) "` and the record's message,
   * keeping a truthy stack; otherwise the call resolves with `result`.
   */
  function Settlement(w: Envelope): (r: Settled)
    ensures r.Rejected? <==> Truthy(w.error)
    ensures r.Resolved? ==> r.value == w.result
    ensures r.Rejected? ==>
      && r.error.ErrorObj?
      && r.error.message == WireErrors.RemotePrefix + ToJsString(Prop(w.error, "message"))
      && r.error.stack == (if Truthy(Prop(w.error, "stack")) then Prop(w.error, "stack") else Undefined)
  {
    if Truthy(w.error) then Rejected(WireErrors.RemoteError(w.error)) else Resolved(w.result)
  }

  /** The pending call a response is for, if any (`calls.get(callId)`). */
  function PendingFor(c: Communicator, callId: Value): (r: Option<nat>)
    ensures r.Some? <==> callId.Num? && callId.n >= 0 && callId.n as nat in c.pending
    ensures r.Some? ==> callId == Num(r.value)
  {
    if callId.Num? && callId.n >= 0 && callId.n as nat in c.pending then Some(callId.n as nat) else None
  }

  /**
   * `onMessage` followed by `handleCallResponse`. Any message with a
   * `callId` is taken for a response whatever its `type`; one for an id
   * that is not pending is logged and ignored; a matching one removes the
   * call before settling it, so a second response for it is ignored.
   */
  function Receive(c: Communicator, w: Envelope): (r: Communicator)
    requires Valid(c)
    ensures Valid(r)
    ensures r.listening == c.listening && r.nextCallId == c.nextCallId
    ensures !c.listening || w.callId.Undefined? || PendingFor(c, w.callId).None? ==> r == c
    ensures c.listening && PendingFor(c, w.callId).Some? ==>
      var id := PendingFor(c, w.callId).value;
      r.pending == c.pending - {id} && r.settled == c.settled[id := Settlement(w)]
  {
    if !c.listening || w.callId.Undefined? then c
    else match PendingFor(c, w.callId)
      case None => c
      case Some(id) => c.(pending := c.pending - {id}, settled := c.settled[id := Settlement(w)])
  }

  /** A response for a call that was already answered changes nothing. */
  lemma DuplicateResponseIgnored(c: Communicator, w1: Envelope, w2: Envelope)
    requires Valid(c) && PendingFor(c, w1.callId).Some? && w2.callId == w1.callId
    ensures var c1 := Receive(c, w1);
      Receive(c1, w2) == c1
  {
  }

  /** After `destroy` no response settles anything. */
  lemma DestroyedIgnoresResponses(c: Communicator, w: Envelope)
    requires Valid(c)
    ensures Receive(Destroy(c), w) == Destroy(c)
  {
  }

  // ------------------------------------------------------------ the adapter

  /** `RpcServiceAdapter`: the implementation object and whether `onmessage` is still installed. */
  datatype Service = Service(impl: map<string, Adapter.Member>, listening: bool)

  /** What one inbound message makes the adapter do: posts, and an exception escaping `onmessage`. */
  datatype Reaction = Reaction(posts: seq<Post>, escaped: Option<Value>)

  /** The adapter's `destroy`: it stops listening. */
  function DestroyService(s: Service): (r: Service)
    ensures !r.listening && r.impl == s.impl
  {
    s.(listening := false)
  }

  /**
   * The `result` a success response carries: `getTransferList([result])`
   * may delete the `$transferList` marker from the very object it posts.
   */
  function PostedResult(v: Value): (r: Value)
    ensures !TransferList.HasMarker(v) && !v.Arr? ==> r == v
    ensures TransferList.HasMarker(v) && !v.Arr? ==> r == TransferList.DeleteMarker(v)
    ensures v.Arr? ==> r == v
  {
    var ext := TransferList.GetTransferList([v]);
    if |ext.args| == 1 then ext.args[0] else v
  }

  /** The success response to call `callId`, with the transfer list taken from `[result]`. */
  function ResultPost(callId: Value, v: Value): Post {
    Post(Envelope(ResponseType, callId, [], PostedResult(v), Undefined),
         TransferList.GetTransferList([v]).transfer)
  }

  /** `{message: error.message, stack: error.stack}`: the record a failure response carries. */
  function ErrorRecord(e: Value): (r: Value)
    ensures r.Obj? && r.props.Keys == {"message", "stack"}
    ensures Prop(r, "message") == Prop(e, "message") && Prop(r, "stack") == Prop(e, "stack")
  {
    Obj(map["message" := Prop(e, "message"), "stack" := Prop(e, "stack")])
  }

  /** The failure response to call `callId`; it is posted without a transfer list. */
  function ErrorPost(callId: Value, e: Value): Post {
    Post(Envelope(ResponseType, callId, [], Undefined, ErrorRecord(e)), Undefined)
  }

  /**
   * `handleCall`: a function member is applied, any other member is the
   * result itself (`undefined` when missing). A value or a fulfilled
   * promise is answered with one success response, a rejection with one
   * failure response. A synchronous exception escapes `onmessage` and
   * nothing is posted; a promise that never settles is never answered; a
   * rejection with `null` or `undefined` makes the `catch` handler itself
   * throw, so nothing is posted either.
   */
  function HandleCall(s: Service, callId: Value, name: string, args: seq<Value>): (r: Reaction)
    ensures |r.posts| <= 1
    ensures forall p :: p in r.posts ==> p.message.kind == ResponseType && p.message.callId == callId
    ensures r.escaped.Some? ==> r.posts == []
    ensures match Adapter.Run(s.impl, name, args)
      case Returned(v) => r == Reaction([ResultPost(callId, v)], None)
      case Fulfils(v) => r == Reaction([ResultPost(callId, v)], None)
      case Rejects(e) =>
        r == Reaction(if e.Undefined? || e.Null? then [] else [ErrorPost(callId, e)], None)
      case Threw(e) => r == Reaction([], Some(e))
      case Pending => r == Reaction([], None)
  {
    match Adapter.Run(s.impl, name, args)
    case Threw(e) => Reaction([], Some(e))
    case Returned(v) => Reaction([ResultPost(callId, v)], None)
    case Fulfils(v) => Reaction([ResultPost(callId, v)], None)
    case Rejects(e) => Reaction(if e.Undefined? || e.Null? then [] else [ErrorPost(callId, e)], None)
    case Pending => Reaction([], None)
  }

  /**
   * `handleMessage`, for a request without `callId`: a member that is not
   * a function throws `Error("!")`; a function is applied and whatever it
   * returns is dropped. Nothing is ever posted.
   */
  function HandleMessage(s: Service, name: string, args: seq<Value>): (r: Reaction)
    ensures r.posts == []
    ensures (name !in s.impl || s.impl[name].Field?) ==> r.escaped == Some(ErrorObj(NotAFunctionMessage, Undefined))
    ensures name in s.impl && s.impl[name].Method? ==>
      (r.escaped.Some? <==> s.impl[name].run(args).Threw?)
  {
    if name !in s.impl || s.impl[name].Field? then Reaction([], Some(ErrorObj(NotAFunctionMessage, Undefined)))
    else match s.impl[name].run(args)
      case Threw(e) => Reaction([], Some(e))
      case _ => Reaction([], None)
  }

  /**
   * `onMessage` of the adapter: a `callId` makes it a call, its absence a
   * one-way message. At most one response is posted, always a
   * `$call-response` under the request's `callId`; a one-way request and a
   * request after `destroy` get none. A call is answered exactly when its
   * member returns, fulfils, or rejects with something other than `null` or
   * `undefined`; a one-way request escapes exactly when the member is not a
   * function or throws.
   */
  function Serve(s: Service, w: Envelope): (r: Reaction)
    ensures !s.listening ==> r == Reaction([], None)
    ensures w.callId.Undefined? ==> r.posts == []
    ensures |r.posts| <= 1
    ensures forall p :: p in r.posts ==> p.message.kind == ResponseType && p.message.callId == w.callId
    ensures r.escaped.Some? ==> r.posts == []
    ensures s.listening && !w.callId.Undefined? ==>
      var o := Adapter.Run(s.impl, w.kind, w.args);
      && (r.escaped.Some? <==> o.Threw?)
      && (r.posts != [] <==> o.Returned? || o.Fulfils? || (o.Rejects? && !o.error.Undefined? && !o.error.Null?))
    ensures s.listening && w.callId.Undefined? ==>
      (r.escaped.Some? <==> w.kind !in s.impl || s.impl[w.kind].Field? || s.impl[w.kind].run(w.args).Threw?)
  {
    if !s.listening then Reaction([], None)
    else if !w.callId.Undefined? then HandleCall(s, w.callId, w.kind, w.args)
    else HandleMessage(s, w.kind, w.args)
  }

  // ---------------------------------------------------------- round trips

  /** A one-way request is never answered, whatever the member does. */
  lemma OneWayNeverAnswered(c: Communicator, s: Service, name: string, args: seq<Value>)
    ensures Serve(s, CallOneWay(c, name, args).message).posts == []
  {
  }

  /**
   * A call answered with a value: the adapter's one response settles the
   * caller's pending promise with the posted result and nothing else.
   */
  lemma ValueReachesCaller(c: Communicator, s: Service, name: string, args: seq<Value>, v: Value)
    requires Valid(c) && c.listening && s.listening
    requires Adapter.Run(s.impl, name, TransferList.GetTransferList(args).args) == Adapter.Returned(v)
    ensures var issued := Call(c, name, args);
      var reaction := Serve(s, issued.post.message);
      && |reaction.posts| == 1
      && var answered := Receive(issued.communicator, reaction.posts[0].message);
      && answered.pending == c.pending
      && answered.settled == c.settled[issued.id := Resolved(PostedResult(v))]
  {
    var issued := Call(c, name, args);
    assert PendingFor(issued.communicator, Num(issued.id)) == Some(issued.id);
    assert issued.communicator.pending - {issued.id} == c.pending;
  }

  /**
   * A call whose promise rejects with an `Error`: the caller's promise
   * rejects with a new `Error` carrying the `"(in worker) "` prefix and the
   * original stack when it is truthy.
   */
  lemma RejectionReachesCaller(c: Communicator, s: Service, name: string, args: seq<Value>, message: string, stack: Value)
    requires Valid(c) && c.listening && s.listening
    requires Adapter.Run(s.impl, name, TransferList.GetTransferList(args).args) == Adapter.Rejects(ErrorObj(message, stack))
    ensures var issued := Call(c, name, args);
      var reaction := Serve(s, issued.post.message);
      && |reaction.posts| == 1
      && var answered := Receive(issued.communicator, reaction.posts[0].message);
      && answered.pending == c.pending
      && answered.settled
         == c.settled[issued.id := Rejected(ErrorObj(WireErrors.RemotePrefix + message, if Truthy(stack) then stack else Undefined))]
  {
    var issued := Call(c, name, args);
    assert PendingFor(issued.communicator, Num(issued.id)) == Some(issued.id);
    assert issued.communicator.pending - {issued.id} == c.pending;
  }

  /**
   * A rejection with something other than an `Error` loses its content:
   * `"boom".message` is `undefined`, so the caller sees
   * `Error("(in worker) undefined")`.
   */
  lemma NonErrorRejectionLosesMessage(c: Communicator, s: Service, name: string, args: seq<Value>)
    requires Valid(c) && c.listening && s.listening
    requires Adapter.Run(s.impl, name, TransferList.GetTransferList(args).args) == Adapter.Rejects(Str("boom"))
    ensures var issued := Call(c, name, args);
      var reaction := Serve(s, issued.post.message);
      && |reaction.posts| == 1
      && var answered := Receive(issued.communicator, reaction.posts[0].message);
      && issued.id in answered.settled
      && answered.settled[issued.id] == Rejected(ErrorObj(WireErrors.RemotePrefix + "undefined", Undefined))
  {
    var issued := Call(c, name, args);
    assert PendingFor(issued.communicator, Num(issued.id)) == Some(issued.id);
  }

  /** A call whose member throws synchronously is never answered: its promise stays pending. */
  lemma ThrowingMemberLeavesCallPending(c: Communicator, s: Service, name: string, args: seq<Value>, e: Value)
    requires Valid(c) && s.listening
    requires Adapter.Run(s.impl, name, TransferList.GetTransferList(args).args) == Adapter.Threw(e)
    ensures var issued := Call(c, name, args);
      var reaction := Serve(s, issued.post.message);
      && reaction == Reaction([], Some(e))
      && issued.id in issued.communicator.pending
  {
  }
}
