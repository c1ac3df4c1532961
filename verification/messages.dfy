/**
 * The multiplexed protocol's messages, in the two revisions that differ on
 * the wire: the sandbox revision names the message kind in a `type` field,
 * validates it on receipt and sends stream-argument ids as `channelArgs`;
 * the core revision names the kind in an `action` field, accepts anything
 * with a `channelId`, and sends stream-argument ids as `argChannels` while
 * its adapter reads `channelArgs`.
 */
module Messages {
  import opened JsValue
  import opened Wrappers

  datatype Revision = Sandbox | Core

  /** The numeric enum `ChannelMessageType` / `ChannelAction`. */
  datatype Kind = CALL | CLOSE | NEXT | ERROR | COMPLETE | RESOLVE

  function Code(k: Kind): int {
    match k
    case CALL => 0
    case CLOSE => 1
    case NEXT => 2
    case ERROR => 3
    case COMPLETE => 4
    case RESOLVE => 5
  }

  /** The enum member with a given number, if any (`type in ChannelMessageType`). */
  function KindOf(code: int): (r: Option<Kind>)
    ensures r.Some? <==> 0 <= code <= 5
    ensures r.Some? ==> Code(r.value) == code
  {
    if code == 0 then Some(CALL)
    else if code == 1 then Some(CLOSE)
    else if code == 2 then Some(NEXT)
    else if code == 3 then Some(ERROR)
    else if code == 4 then Some(COMPLETE)
    else if code == 5 then Some(RESOLVE)
    else None
  }

  lemma KindCodeRoundTrip(k: Kind)
    ensures KindOf(Code(k)) == Some(k)
  {
  }

  /** Which property of the posted object holds the kind. */
  datatype KindField = TypeField | ActionField

  /** Which property of a posted CALL holds the stream-argument ids. */
  datatype ArgsField = ChannelArgsField | ArgChannelsField

  /**
   * The object handed to `postMessage`. Properties a kind does not use keep
   * their defaults. A kind or id that is not an integer is represented by
   * `None`. For the kind this is exact: no such kind names a message. For
   * the id it is a restriction of the model: the sandbox validation accepts
   * any number as an id and the core revision any defined value, whereas
   * here only integer ids are ever read.
   */
  datatype WireMessage = WireMessage(
    kindField: KindField,
    code: Option<int>,
    channelId: Option<int>,
    name: string,
    args: seq<Value>,
    argsField: ArgsField,
    streamArgs: Option<seq<Option<nat>>>,
    data: Value)

  /** What a posted object carries with it: the message and its transfer list. */
  datatype Post = Post(message: WireMessage, transfer: Value)

  /** A message as the receiving endpoint understands it. */
  datatype Message =
    | Call(channelId: int, name: string, args: seq<Value>, streamArgs: Option<seq<Option<nat>>>)
    | Close(channelId: int)
    | Next(channelId: int, data: Value)
    | Error(channelId: int, data: Value)
    | Complete(channelId: int)
    | Resolve(channelId: int, data: Value)
    | Unrecognised(channelId: int)   // core only: a kind that matches no branch

  function KindOfMessage(m: Message): Option<Kind> {
    match m
    case Call(_, _, _, _) => Some(CALL)
    case Close(_) => Some(CLOSE)
    case Next(_, _) => Some(NEXT)
    case Error(_, _) => Some(ERROR)
    case Complete(_) => Some(COMPLETE)
    case Resolve(_, _) => Some(RESOLVE)
    case Unrecognised(_) => None
  }

  function SenderKindField(rev: Revision): KindField {
    if rev == Sandbox then TypeField else ActionField
  }

  function SenderArgsField(rev: Revision): ArgsField {
    if rev == Sandbox then ChannelArgsField else ArgChannelsField
  }

  /** The object an endpoint of revision `rev` posts for `m`. */
  function Encode(rev: Revision, m: Message): (w: WireMessage)
    requires !m.Unrecognised?
    ensures w.kindField == SenderKindField(rev)
    ensures w.code == Some(Code(KindOfMessage(m).value))
    ensures w.channelId == Some(m.channelId)
  {
    var blank := WireMessage(SenderKindField(rev), Some(Code(KindOfMessage(m).value)), Some(m.channelId),
                             "", [], SenderArgsField(rev), None, Undefined);
    match m
    case Call(_, name, args, streamArgs) => blank.(name := name, args := args, streamArgs := streamArgs)
    case Next(_, data) => blank.(data := data)
    case Error(_, data) => blank.(data := data)
    case Resolve(_, data) => blank.(data := data)
    case _ => blank
  }

  /**
   * The notice the adapter's arg-in closable would post when its shared
   * subscription is torn down, written with an `action` field in both
   * revisions. The adapter hands the implementation the plain sink rather
   * than the closable, so nothing ever subscribes to it and the notice is
   * never posted; this is only how it would be read.
   */
  function ArgInCloseNotice(channelId: int): WireMessage {
    WireMessage(ActionField, Some(Code(CLOSE)), Some(channelId), "", [], ChannelArgsField, None, Undefined)
  }

  /** The sandbox revision's `isChannelMessage`. */
  predicate IsChannelMessage(w: WireMessage) {
    && w.kindField == TypeField
    && w.code.Some? && KindOf(w.code.value).Some?
    && w.channelId.Some?
  }

  /** The message a receiver reads out of `w`; stream-argument ids are read from `channelArgs`. */
  function Read(k: Kind, id: int, w: WireMessage): (m: Message)
    ensures KindOfMessage(m) == Some(k) && m.channelId == id
  {
    match k
    case CALL => Call(id, w.name, w.args, if w.argsField == ChannelArgsField then w.streamArgs else None)
    case CLOSE => Close(id)
    case NEXT => Next(id, w.data)
    case ERROR => Error(id, w.data)
    case COMPLETE => Complete(id)
    case RESOLVE => Resolve(id, w.data)
  }

  /** How an endpoint of revision `rev` reads an incoming object; `None` means it is dropped. */
  function Decode(rev: Revision, w: WireMessage): (r: Option<Message>)
    ensures rev == Sandbox ==> (r.Some? <==> IsChannelMessage(w))
    ensures rev == Core ==> (r.Some? <==> w.channelId.Some?)
    ensures r.Some? ==> Some(r.value.channelId) == w.channelId
    ensures rev == Sandbox && r.Some? ==> !r.value.Unrecognised?
  {
    match rev
    case Sandbox =>
      if IsChannelMessage(w) then Some(Read(KindOf(w.code.value).value, w.channelId.value, w)) else None
    case Core =>
      if w.channelId.None? then None
      else
        var code := if w.kindField == ActionField then w.code else None;
        if code.Some? && KindOf(code.value).Some? then Some(Read(KindOf(code.value).value, w.channelId.value, w))
        else Some(Unrecognised(w.channelId.value))
  }

  /** `m` as the receiver sees it when the stream-argument ids were sent under another name. */
  function WithoutStreamArgs(m: Message): Message {
    if m.Call? then m.(streamArgs := None) else m
  }

  /** The sandbox revision reads back exactly what it wrote. */
  lemma SandboxRoundTrip(m: Message)
    requires !m.Unrecognised?
    ensures Decode(Sandbox, Encode(Sandbox, m)) == Some(m)
  {
    KindCodeRoundTrip(KindOfMessage(m).value);
  }

  /**
   * The core revision reads back what it wrote except the stream-argument
   * ids of a CALL, which its caller sends as `argChannels` and its adapter
   * looks up as `channelArgs`.
   */
  lemma CoreRoundTripLosesStreamArgs(m: Message)
    requires !m.Unrecognised?
    ensures Decode(Core, Encode(Core, m)) == Some(WithoutStreamArgs(m))
  {
    KindCodeRoundTrip(KindOfMessage(m).value);
  }

  /** Were the adapter's close notice posted, the sandbox validation would drop it; the core revision would read it as CLOSE. */
  lemma ArgInCloseNoticeReading(channelId: int)
    ensures Decode(Sandbox, ArgInCloseNotice(channelId)).None?
    ensures Decode(Core, ArgInCloseNotice(channelId)) == Some(Close(channelId))
  {
  }
}
