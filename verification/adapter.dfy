/**
 * `RpcServiceAdapter`, the serving endpoint. A CALL runs the named member
 * of the implementation; a promise-like result is answered with RESOLVE or
 * ERROR, an observable result is relayed on the call's channel until it
 * ends or the caller sends CLOSE. Channel ids listed with a CALL become
 * "arg in" sinks that NEXT, ERROR and COMPLETE from the caller feed.
 */
module Adapter {
  import opened JsValue
  import opened Wrappers
  import opened Messages
  import WireFormat
  import WireErrors
  import Closable

  const DestroyedMessage := "RpcServiceAdaptor destroyed"

  /** What running an implementation member comes to. */
  datatype Outcome =
    | Threw(error: Value)      // a synchronous exception
    | Returned(value: Value)   // a plain value or an observable
    | Fulfils(value: Value)    // a promise that resolves
    | Rejects(error: Value)    // a promise that rejects
    | Pending                  // a promise that never settles

  /** A property of the implementation object. */
  datatype Member = Method(run: seq<Value> -> Outcome) | Field(value: Value)

  /** An observable result being relayed on call channel `channelId`. */
  datatype Relay = Relay(channelId: int, active: bool)

  datatype Adapter = Adapter(
    rev: Revision,
    sinks: map<int, seq<Closable.Event>>,  // every arg-in sink ever created: what was pushed into it
    argIn: set<int>,                        // keys of the `argInChannels` map
    relays: map<nat, Relay>,                // every observable result ever subscribed
    callOut: map<int, nat>,                 // the `callOutChannels` map: channel id to relay
    nextRelay: nat,
    listening: bool)

  /**
   * The arg-in sink of channel `id` as the implementation receives it in
   * its argument list.
   */
  function SinkHandle(id: int): Value {
    Stream(id)
  }

  ghost predicate Valid(a: Adapter) {
    && (forall id :: id in a.argIn ==> id in a.sinks && Closable.Open(a.sinks[id]))
    && (forall id :: id in a.sinks ==> Closable.WellFormedLog(a.sinks[id]))
    && (forall id :: id in a.sinks && id !in a.argIn ==> |a.sinks[id]| > 0 && a.sinks[id][|a.sinks[id]| - 1].IsTerminal())
    && (forall ch :: ch in a.callOut ==>
          a.callOut[ch] in a.relays && a.relays[a.callOut[ch]].active && a.relays[a.callOut[ch]].channelId == ch)
    && (forall k :: k in a.relays ==> k < a.nextRelay)
  }

  function Create(rev: Revision): (a: Adapter)
    ensures Valid(a) && a.listening && a.argIn == {} && a.callOut == map[]
  {
    Adapter(rev, map[], {}, map[], map[], 0, true)
  }

  datatype Step = Step(adapter: Adapter, posts: seq<Post>, escaped: Option<Value>)

  // ------------------------------------------------------------------ calls

  /** `args[i] = v`, growing the array with `undefined` holes as JavaScript does. */
  function SetArg(args: seq<Value>, i: nat, v: Value): (r: seq<Value>)
    ensures |r| == if i < |args| then |args| else i + 1
    ensures r[i] == v
    ensures forall j :: 0 <= j < |r| && j != i ==> r[j] == if j < |args| then args[j] else Undefined
  {
    if i < |args| then args[i := v] else args + seq(i - |args|, _ => Undefined) + [v]
  }

  datatype Bound = Bound(adapter: Adapter, args: seq<Value>)

  /**
   * The loop over `channelArgs` in `handleCall`, from slot `i` on: every id
   * gets its arg-in sink (the existing one, or a fresh empty one) and the
   * sink takes the argument's place.
   */
  function BindArgIn(a: Adapter, args: seq<Value>, slots: seq<Option<nat>>, i: nat): (r: Bound)
    requires Valid(a) && i <= |slots|
    ensures Valid(r.adapter)
    ensures r.adapter == a.(sinks := r.adapter.sinks, argIn := r.adapter.argIn)
    ensures r.adapter.argIn == a.argIn + set j | i <= j < |slots| && slots[j].Some? :: slots[j].value as int
    ensures forall id :: id in a.argIn ==> r.adapter.sinks[id] == a.sinks[id]
    ensures forall id :: id in r.adapter.argIn && id !in a.argIn ==> r.adapter.sinks[id] == []
    ensures forall id :: id in a.sinks && id !in r.adapter.argIn ==> id in r.adapter.sinks && r.adapter.sinks[id] == a.sinks[id]
    decreases |slots| - i
  {
    if i == |slots| then Bound(a, args)
    else
      assert (set j | i <= j < |slots| && slots[j].Some? :: slots[j].value as int)
          == (if slots[i].Some? then {slots[i].value as int} else {})
             + set j | i + 1 <= j < |slots| && slots[j].Some? :: slots[j].value as int;
      if slots[i].None? then BindArgIn(a, args, slots, i + 1)
      else
        var b := BindSlot(a, args, i, slots[i].value);
        BindArgIn(b.adapter, b.args, slots, i + 1)
  }

  /**
   * Where the arguments end up: every slot that names a channel holds that
   * channel's sink handle; every other position keeps its argument (or is
   * an `undefined` hole).
   */
  lemma {:induction false} BindArgInPlacesSinks(a: Adapter, args: seq<Value>, slots: seq<Option<nat>>, i: nat)
    requires Valid(a) && i <= |slots|
    ensures var r := BindArgIn(a, args, slots, i);
      && |r.args| >= |args|
      && (forall j :: i <= j < |slots| && slots[j].Some? ==> j < |r.args| && r.args[j] == SinkHandle(slots[j].value))
      && (forall j :: 0 <= j < |r.args| && !(i <= j < |slots| && slots[j].Some?) ==>
            r.args[j] == if j < |args| then args[j] else Undefined)
    decreases |slots| - i
  {
    if i < |slots| {
      if slots[i].None? {
        BindArgInPlacesSinks(a, args, slots, i + 1);
      } else {
        var b := BindSlot(a, args, i, slots[i].value);
        BindArgInPlacesSinks(b.adapter, b.args, slots, i + 1);
      }
    }
  }

  /**
   * The length the argument array reaches once the loop has assigned every
   * slot from `i` on that names a channel: at least `n`, and past every
   * such slot.
   */
  function BoundLength(n: nat, slots: seq<Option<nat>>, i: nat): (r: nat)
    requires i <= |slots|
    ensures r >= n
    ensures forall j :: i <= j < |slots| && slots[j].Some? ==> j < r
    ensures r == n || (i <= r - 1 < |slots| && slots[r - 1].Some?)
    decreases |slots| - i
  {
    if i == |slots| then n
    else BoundLength(if slots[i].Some? && n <= i then i + 1 else n, slots, i + 1)
  }

  /** The loop lengthens the array exactly to `BoundLength`. */
  lemma {:induction false} BindArgInLength(a: Adapter, args: seq<Value>, slots: seq<Option<nat>>, i: nat)
    requires Valid(a) && i <= |slots|
    ensures |BindArgIn(a, args, slots, i).args| == BoundLength(|args|, slots, i)
    decreases |slots| - i
  {
    if i < |slots| {
      if slots[i].None? {
        BindArgInLength(a, args, slots, i + 1);
      } else {
        var b := BindSlot(a, args, i, slots[i].value);
        BindArgInLength(b.adapter, b.args, slots, i + 1);
      }
    }
  }

  /**
   * Independent description of the arguments the implementation receives:
   * a slot naming a channel holds that channel's sink, every other position
   * its argument or an `undefined` hole.
   */
  function BoundArguments(args: seq<Value>, slots: Option<seq<Option<nat>>>): seq<Value> {
    match slots
    case None => args
    case Some(ss) =>
      seq(BoundLength(|args|, ss, 0), j =>
        if 0 <= j < |ss| && ss[j].Some? then SinkHandle(ss[j].value) else if 0 <= j < |args| then args[j] else Undefined)
  }

  /** The `channelArgs` loop hands the implementation exactly `BoundArguments`. */
  lemma BindArgInMatchesReference(a: Adapter, args: seq<Value>, slots: seq<Option<nat>>)
    requires Valid(a)
    ensures BindArgIn(a, args, slots, 0).args == BoundArguments(args, Some(slots))
  {
    var r := BindArgIn(a, args, slots, 0).args;
    BindArgInPlacesSinks(a, args, slots, 0);
    BindArgInLength(a, args, slots, 0);
  }

  /** One step of that loop: slot `i` carries channel `id`. */
  function BindSlot(a: Adapter, args: seq<Value>, i: nat, id: nat): (r: Bound)
    requires Valid(a)
    ensures Valid(r.adapter)
    ensures r.adapter == a.(sinks := r.adapter.sinks, argIn := r.adapter.argIn)
    ensures r.adapter.argIn == a.argIn + {id as int}
    ensures id in a.argIn ==> r.adapter.sinks == a.sinks
    ensures id !in a.argIn ==> r.adapter.sinks == a.sinks[id := []]
    ensures r.args == SetArg(args, i, SinkHandle(id))
  {
    var a' := if id in a.argIn then a else a.(sinks := a.sinks[id := []], argIn := a.argIn + {id});
    Bound(a', SetArg(args, i, SinkHandle(id)))
  }

  /** The value `prop` stands for: a field's value, a method's outcome, or `undefined` for a missing name. */
  function Run(impl: map<string, Member>, name: string, args: seq<Value>): Outcome {
    if name !in impl then Returned(Undefined)
    else match impl[name]
      case Method(run) => run(args)
      case Field(v) => Returned(v)
  }

  /**
   * How `handleCall` answers an outcome. An observable result is subscribed
   * and recorded under the call's channel; any other value or a fulfilled
   * promise is answered with RESOLVE; a rejection with ERROR carrying the
   * transferable record; a synchronous exception escapes the message
   * handler and nothing is posted.
   */
  function Answer(a: Adapter, channelId: int, outcome: Outcome): (r: Step)
    requires Valid(a)
    ensures Valid(r.adapter)
    ensures r.adapter.sinks == a.sinks && r.adapter.argIn == a.argIn
    ensures r.adapter.listening == a.listening && r.adapter.rev == a.rev
    ensures r.escaped == if outcome.Threw? then Some(outcome.error) else None
    ensures outcome.Returned? && outcome.value.Stream? ==>
      && r.posts == [] && a.nextRelay !in a.relays
      && r.adapter.relays == a.relays[a.nextRelay := Relay(channelId, true)]
      && r.adapter.callOut == a.callOut[channelId := a.nextRelay]
    ensures !(outcome.Returned? && outcome.value.Stream?) ==> r.adapter.callOut == a.callOut && r.adapter.relays == a.relays
    ensures outcome.Returned? && !outcome.value.Stream? ==> r.posts == [WireFormat.Plain(a.rev, Resolve(channelId, outcome.value))]
    ensures outcome.Fulfils? ==> r.posts == [WireFormat.Plain(a.rev, Resolve(channelId, outcome.value))]
    ensures outcome.Rejects? ==>
      r.posts == [WireFormat.Plain(a.rev, Error(channelId, WireErrors.ExtractTransferableError(outcome.error)))]
    ensures outcome.Threw? || outcome.Pending? ==> r.posts == []
  {
    match outcome
    case Threw(e) => Step(a, [], Some(e))
    case Returned(v) =>
      if v.Stream? then
        var relay := a.nextRelay;
        Step(a.(relays := a.relays[relay := Relay(channelId, true)], callOut := a.callOut[channelId := relay],
                nextRelay := relay + 1), [], None)
      else
        Step(a, [WireFormat.Plain(a.rev, Resolve(channelId, v))], None)
    case Fulfils(v) => Step(a, [WireFormat.Plain(a.rev, Resolve(channelId, v))], None)
    case Rejects(e) => Step(a, [WireFormat.Plain(a.rev, Error(channelId, WireErrors.ExtractTransferableError(e)))], None)
    case Pending => Step(a, [], None)
  }

  /**
   * `handleCall`: binds the arg-in sinks named by the CALL, runs the member
   * on the bound arguments and answers: a synchronous throw escapes with
   * nothing posted; an observable result gets a relay on the call's channel;
   * a value or a fulfilled promise one RESOLVE; a rejection one ERROR
   * carrying the transferable record; a pending promise nothing.
   */
  function HandleCall(a: Adapter, impl: map<string, Member>, channelId: int, name: string, args: seq<Value>,
                      slots: Option<seq<Option<nat>>>): (r: Step)
    requires Valid(a)
    ensures Valid(r.adapter)
    ensures r.adapter.listening == a.listening && r.adapter.rev == a.rev
    ensures slots.None? ==> r.adapter.argIn == a.argIn && r.adapter.sinks == a.sinks
    ensures slots.Some? ==>
      r.adapter.argIn == a.argIn + set j | 0 <= j < |slots.value| && slots.value[j].Some? :: slots.value[j].value as int
    ensures forall id :: id in r.adapter.argIn && id !in a.argIn ==> r.adapter.sinks[id] == []
    ensures var o := Run(impl, name, BoundArguments(args, slots));
      && r.escaped == (if o.Threw? then Some(o.error) else None)
      && (o.Returned? && o.value.Stream? ==>
            && r.posts == [] && channelId in r.adapter.callOut
            && r.adapter.callOut[channelId] in r.adapter.relays
            && r.adapter.relays[r.adapter.callOut[channelId]] == Relay(channelId, true))
      && ((o.Returned? && !o.value.Stream?) || o.Fulfils? ==>
            r.posts == [WireFormat.Plain(a.rev, Resolve(channelId, o.value))])
      && (o.Rejects? ==>
            r.posts == [WireFormat.Plain(a.rev, Error(channelId, WireErrors.ExtractTransferableError(o.error)))])
      && (o.Threw? || o.Pending? ==> r.posts == [])
  {
    match slots
    case None => Answer(a, channelId, Run(impl, name, args))
    case Some(ss) =>
      BindArgInMatchesReference(a, args, ss);
      var bound := BindArgIn(a, args, ss, 0);
      Answer(bound.adapter, channelId, Run(impl, name, bound.args))
  }

  /**
   * An observable result emits `e`. While its relay is active the event is
   * posted on the call's channel (an error as its transferable record); a
   * terminal event ends the relay and deletes the channel's `callOutChannels`
   * entry.
   */
  function RelayEvent(a: Adapter, relay: nat, e: Closable.Event): (r: Step)
    requires Valid(a)
    ensures Valid(r.adapter)
    ensures r.escaped.None?
    ensures !(relay in a.relays && a.relays[relay].active) ==> r == Step(a, [], None)
    ensures relay in a.relays && a.relays[relay].active ==>
      var ch := a.relays[relay].channelId;
      && |r.posts| == 1
      && Decode(a.rev, r.posts[0].message) == Some(
           match e
           case OnNext(v) => Next(ch, v)
           case OnError(err) => Error(ch, WireErrors.ExtractTransferableError(err))
           case OnComplete => Complete(ch))
      && relay in r.adapter.relays
      && (e.IsTerminal() <==> !r.adapter.relays[relay].active)
      && (e.IsTerminal() ==> r.adapter.callOut == a.callOut - {ch})
    ensures r.adapter.sinks == a.sinks && r.adapter.argIn == a.argIn && r.adapter.listening == a.listening
  {
    if !(relay in a.relays && a.relays[relay].active) then Step(a, [], None)
    else
      var ch := a.relays[relay].channelId;
      var m := match e
        case OnNext(v) => Next(ch, v)
        case OnError(err) => Error(ch, WireErrors.ExtractTransferableError(err))
        case OnComplete => Complete(ch);
      SandboxRoundTrip(m);
      CoreRoundTripLosesStreamArgs(m);
      if e.IsTerminal() then
        Step(a.(relays := a.relays[relay := Relay(ch, false)], callOut := a.callOut - {ch}), [WireFormat.Plain(a.rev, m)], None)
      else
        Step(a, [WireFormat.Plain(a.rev, m)], None)
  }

  // ------------------------------------------------------ incoming messages

  /** What a message on an open arg-in channel pushes into its sink. */
  function ArgInEvent(rev: Revision, m: Message): Option<Closable.Event> {
    match m
    case Next(_, data) => Some(Closable.OnNext(data))
    case Error(_, data) => Some(Closable.OnError(WireFormat.FromWireError(rev, data)))
    case Complete(_) => Some(Closable.OnComplete)
    case _ => None
  }

  /**
   * `onMessage`: a CALL is handled; a CLOSE ends the relay recorded for its
   * channel; NEXT, ERROR and COMPLETE feed an open arg-in sink, and the last
   * two take it out of the map. Everything else is ignored.
   */
  function Receive(a: Adapter, impl: map<string, Member>, w: WireMessage): (r: Step)
    requires Valid(a)
    ensures Valid(r.adapter)
    ensures !a.listening || Decode(a.rev, w).None? ==> r == Step(a, [], None)
    ensures r.adapter.listening == a.listening
    ensures a.listening && Decode(a.rev, w).Some? ==>
      var m := Decode(a.rev, w).value;
      && (m.Call? ==> r == HandleCall(a, impl, m.channelId, m.name, m.args, m.streamArgs))
      && (m.Close? ==>
            && r.posts == [] && r.adapter.sinks == a.sinks && r.adapter.argIn == a.argIn
            && r.adapter.callOut == a.callOut - {m.channelId}
            && (m.channelId in a.callOut ==>
                  a.callOut[m.channelId] in r.adapter.relays && !r.adapter.relays[a.callOut[m.channelId]].active))
      && (!m.Call? && !m.Close? && m.channelId in a.argIn && ArgInEvent(a.rev, m).Some? ==>
            && r.posts == []
            && r.adapter.sinks == a.sinks[m.channelId := a.sinks[m.channelId] + [ArgInEvent(a.rev, m).value]]
            && (m.Next? <==> m.channelId in r.adapter.argIn))
      && (!m.Call? && !m.Close? && !(m.channelId in a.argIn && ArgInEvent(a.rev, m).Some?) ==> r == Step(a, [], None))
  {
    if !a.listening then Step(a, [], None)
    else match Decode(a.rev, w)
      case None => Step(a, [], None)
      case Some(m) =>
        if m.Call? then HandleCall(a, impl, m.channelId, m.name, m.args, m.streamArgs)
        else if m.Close? then
          if m.channelId in a.callOut then
            var relay := a.callOut[m.channelId];
            Step(a.(relays := a.relays[relay := a.relays[relay].(active := false)], callOut := a.callOut - {m.channelId}),
                 [], None)
          else Step(a, [], None)
        else if m.channelId !in a.argIn || ArgInEvent(a.rev, m).None? then Step(a, [], None)
        else
          var e := ArgInEvent(a.rev, m).value;
          var log := a.sinks[m.channelId] + [e];
          var open := if e.IsTerminal() then a.argIn - {m.channelId} else a.argIn;
          Step(a.(sinks := a.sinks[m.channelId := log], argIn := open), [], None)
  }

  // --------------------------------------------------------------- destroy

  function DestroyedError(): Value {
    ErrorObj(DestroyedMessage, Undefined)
  }

  /**
   * `destroy`: the handler is removed, every open arg-in sink is errored
   * with "RpcServiceAdaptor destroyed", and every relay still recorded in
   * `callOutChannels` is unsubscribed. Nothing is posted.
   */
  function Destroy(a: Adapter): (r: Adapter)
    requires Valid(a)
    ensures Valid(r)
    ensures !r.listening && r.argIn == {} && r.callOut == map[]
    ensures r.sinks.Keys == a.sinks.Keys
    ensures forall id :: id in a.sinks ==>
      r.sinks[id] == if id in a.argIn then a.sinks[id] + [Closable.OnError(DestroyedError())] else a.sinks[id]
    ensures forall k :: k in a.relays ==>
      k in r.relays && r.relays[k].active == (a.relays[k].active && k !in a.callOut.Values)
  {
    var sinks := map id | id in a.sinks ::
      if id in a.argIn then a.sinks[id] + [Closable.OnError(DestroyedError())] else a.sinks[id];
    var relays := map k | k in a.relays :: if k in a.callOut.Values then a.relays[k].(active := false) else a.relays[k];
    Adapter(a.rev, sinks, {}, relays, map[], a.nextRelay, false)
  }

  // ------------------------------------------------------------- properties

  /** A name the implementation lacks is answered with RESOLVE of `undefined`, not with ERROR. */
  lemma MissingMemberResolvesUndefined(a: Adapter, impl: map<string, Member>, channelId: int, name: string, args: seq<Value>)
    requires Valid(a) && name !in impl
    ensures HandleCall(a, impl, channelId, name, args, None).posts == [WireFormat.Plain(a.rev, Resolve(channelId, Undefined))]
  {
  }

  /** A member that throws synchronously gets no answer: the caller's call never settles. */
  lemma ThrowingMemberPostsNothing(a: Adapter, channelId: int, name: string, args: seq<Value>, e: Value)
    requires Valid(a)
    ensures var impl := map[name := Method(_ => Threw(e))];
      var r := HandleCall(a, impl, channelId, name, args, None);
      r.posts == [] && r.escaped == Some(e)
  {
  }

  /** After the caller's CLOSE, the relay posts nothing more. */
  lemma ClosedRelayIsSilent(a: Adapter, impl: map<string, Member>, w: WireMessage, e: Closable.Event)
    requires Valid(a) && a.listening
    requires Decode(a.rev, w).Some? && Decode(a.rev, w).value.Close?
    requires Decode(a.rev, w).value.channelId in a.callOut
    ensures var closed := Receive(a, impl, w).adapter;
      RelayEvent(closed, a.callOut[Decode(a.rev, w).value.channelId], e).posts == []
  {
  }

  /** A sink taken out of the map ignores later messages on its channel, so it ends with exactly one terminal event. */
  lemma StoppedSinkIgnoresLaterMessages(a: Adapter, impl: map<string, Member>, w1: WireMessage, w2: WireMessage)
    requires Valid(a) && a.listening
    requires Decode(a.rev, w1).Some? && (Decode(a.rev, w1).value.Error? || Decode(a.rev, w1).value.Complete?)
    requires Decode(a.rev, w1).value.channelId in a.argIn
    requires Decode(a.rev, w2).Some? && !Decode(a.rev, w2).value.Call? && !Decode(a.rev, w2).value.Close?
    requires Decode(a.rev, w2).value.channelId == Decode(a.rev, w1).value.channelId
    ensures var a1 := Receive(a, impl, w1).adapter;
      Receive(a1, impl, w2) == Step(a1, [], None)
  {
  }
}
