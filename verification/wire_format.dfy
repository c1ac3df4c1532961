/**
 * The pluggable wire-format processors: how outgoing argument lists are
 * prepared (with a transfer list) and how incoming errors are read.
 */
module WireFormat {
  import opened JsValue
  import opened Messages
  import TransferList
  import WireErrors

  /** `noopChannelDataProcessor` or the transfer-list extracting processor. */
  datatype Processor = Noop | Basic

  /**
   * `toWireFormat` / `processPostArgs`. The noop processor sends the
   * arguments untouched with nothing to transfer; the basic one may only
   * pop a trailing array or delete a marker.
   */
  function ToWire(p: Processor, args: seq<Value>): (r: TransferList.Extraction)
    ensures p == Noop ==> r.args == args && r.transfer == Arr([])
    ensures TransferList.OnlyTransferRemoved(args, r.args)
    ensures |args| - 1 <= |r.args| <= |args|
    ensures (forall k :: 0 <= k < |args| ==> !TransferList.HasMarker(args[k])) && (|args| == 0 || !args[|args| - 1].Arr?) ==>
      r.args == args
  {
    match p
    case Noop => TransferList.Extraction(args, Arr([]))
    case Basic =>
      TransferList.ArgsOnlyLoseTransfer(args);
      TransferList.GetTransferList(args)
  }

  /**
   * The error half of `fromWireFormat` / `processRecvArgs`: the sandbox
   * revision rebuilds a truthy error (`error && rebuildRuntimeError(error)`),
   * the core revision hands the received record on unchanged.
   */
  function FromWireError(rev: Revision, error: Value): (r: Value)
    ensures rev == Core ==> r == error
    ensures rev == Sandbox && Truthy(error) ==> r == WireErrors.RebuildRuntimeError(error) && r.ErrorObj?
    ensures rev == Sandbox && !Truthy(error) ==> r == error
  {
    if rev == Sandbox && Truthy(error) then WireErrors.RebuildRuntimeError(error) else error
  }

  /**
   * The transfer list actually passed to `postMessage`: the sandbox revision
   * posts through `postChannelMessage`, which substitutes `[]` for a missing
   * list; the core revision passes the list (or nothing) as it is.
   */
  function Transfer(rev: Revision, list: Value): (r: Value)
    ensures rev == Sandbox ==> Truthy(r)
    ensures Truthy(list) ==> r == list
  {
    if rev == Sandbox && !Truthy(list) then Arr([]) else list
  }

  /** A message posted without a transfer list. */
  function Plain(rev: Revision, m: Message): Post
    requires !m.Unrecognised?
  {
    Post(Encode(rev, m), Transfer(rev, Undefined))
  }

  /** An error thrown on this side travels as the record, rebuilt on the other side with the remote prefix. */
  lemma SandboxErrorTravels(thrown: Value)
    ensures FromWireError(Sandbox, WireErrors.ExtractTransferableError(thrown)).ErrorObj?
    ensures FromWireError(Sandbox, WireErrors.ExtractTransferableError(thrown)).message
         == WireErrors.RemotePrefix + (if thrown.ErrorObj? then thrown.message else ToJsString(thrown))
  {
  }

  /** In the core revision the caller's sink receives the bare record, without the prefix. */
  lemma CoreErrorNotRebuilt(thrown: Value)
    ensures FromWireError(Core, WireErrors.ExtractTransferableError(thrown)).Obj?
  {
  }
}
