/**
 * Errors cross the port as a plain `{message, stack?}` record and are turned
 * back into an `Error` on the receiving side, prefixed with "(in worker) ".
 */
module WireErrors {
  import opened JsValue

  const RemotePrefix := "(in worker) "

  /** `extractTransferableError`: the record sent in an ERROR message. */
  function ExtractTransferableError(error: Value): (r: Value)
    ensures r.Obj?
    ensures error.ErrorObj? ==>
      Prop(r, "message") == Str(error.message) && "stack" in r.props && r.props["stack"] == error.stack
    ensures !error.ErrorObj? ==>
      Prop(r, "message") == Str(ToJsString(error)) && "stack" !in r.props
    ensures r.props.Keys <= {"message", "stack"}
  {
    if error.ErrorObj? then
      Obj(map["message" := Str(error.message), "stack" := error.stack])
    else
      Obj(map["message" := Str(ToJsString(error))])
  }

  /**
   * `new Error("(in worker) " + e.message)`, whose stack is replaced by the
   * record's stack only when that stack is truthy. A freshly constructed
   * Error's own stack is not modelled: it is `Undefined` here.
   */
  function RemoteError(e: Value): (r: Value)
    ensures r.ErrorObj?
    ensures r.message == RemotePrefix + ToJsString(Prop(e, "message"))
    ensures Truthy(Prop(e, "stack")) ==> r.stack == Prop(e, "stack")
    ensures !Truthy(Prop(e, "stack")) ==> r.stack == Undefined
  {
    var stack := Prop(e, "stack");
    ErrorObj(RemotePrefix + ToJsString(Prop(e, "message")), if Truthy(stack) then stack else Undefined)
  }

  /** `rebuildRuntimeError`: an existing Error passes through unchanged. */
  function RebuildRuntimeError(e: Value): (r: Value)
    ensures r.ErrorObj?
    ensures e.ErrorObj? ==> r == e
    ensures !e.ErrorObj? ==> r == RemoteError(e)
  {
    if e.ErrorObj? then e else RemoteError(e)
  }

  /** Extracting an Error and rebuilding it keeps its message (prefixed) and its truthy stack. */
  lemma RebuildAfterExtractError(message: string, stack: Value)
    ensures RebuildRuntimeError(ExtractTransferableError(ErrorObj(message, stack)))
         == ErrorObj(RemotePrefix + message, if Truthy(stack) then stack else Undefined)
  {
  }

  /** Any other thrown value arrives as an Error whose message is its string form. */
  lemma RebuildAfterExtractOther(v: Value)
    requires !v.ErrorObj?
    ensures RebuildRuntimeError(ExtractTransferableError(v)) == ErrorObj(RemotePrefix + ToJsString(v), Undefined)
  {
  }

  /** Rebuilding is idempotent: a rebuilt error is an Error and is left alone. */
  lemma RebuildIdempotent(e: Value)
    ensures RebuildRuntimeError(RebuildRuntimeError(e)) == RebuildRuntimeError(e)
  {
  }
}
