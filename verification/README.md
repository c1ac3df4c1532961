# ubo RPC protocol, declaration registry and CLI parsers in Dafny

This project models the core of the ubo repository.

**The RPC protocol.** Its centre is the message-multiplexed protocol that connects an `RpcCommunicator` (the caller) to an `RpcServiceAdapter` (the callee) over a `MessagePort`.

- **The caller.** It takes call channel ids and out-channel ids from two independent counters. It replaces every observable argument with an out channel it feeds. It routes RESOLVE, NEXT, ERROR and COMPLETE into per-call closable streams, and CLOSE into its out subscriptions.
- **The adapter.** It runs the named member of the implementation and turns the stream-argument ids of a CALL into "arg in" sinks. It answers in one of two ways:
  - an observable result is relayed as NEXT*, then one ERROR or COMPLETE;
  - any other result gets exactly one RESOLVE or one ERROR.
- **Step functions.** Both endpoints are immutable states. Every step takes one inbound object and returns the new state and the objects it posted, in order.
- **The closable subject.** The ref-counted subject behind every call (`createClosableSubject`) is its own datatype (`Closable`). It records what each consumer has received and how often `onClose` ran.

**Three revisions.** The protocol is modelled once, with a `Revision` parameter for how the two revisions differ on the wire:

- the sandbox revision (`sandbox/ServiceCommunicator.ts`) has a `type` field that is validated, and rebuilds errors;
- the core revision (`packages/@ubo/core/src/ServiceCommunicator.ts`):
  - it has an `action` field;
  - it accepts any object with a `channelId`;
  - it sends the ids as `argChannels` while its adapter reads `channelArgs`;
  - it does not rebuild errors.

The older compiled revision (`packages/@ubo/core/lib/ServiceCommunicator.js`) has a single request and response per call, matched by `callId`. It is modelled separately in `Legacy`.

**Shared helpers.** Error extraction and rebuilding (`WireErrors`) and the transfer-list heuristic `getTransferList` (`TransferList`) are shared by all three revisions. The sandbox copy of `getTransferList` (sandbox/ServiceCommunicator.ts:87-126) is the same function as packages/@ubo/core/src/ServiceCommunicator.ts:83-122 and packages/@ubo/core/lib/ServiceCommunicator.js:36-92.

**Smaller pieces.**

- the declaration and cleanup registry of `packages/@ubo/core/src/index.ts` (`Registry`);
- the argument helpers of `packages/@ubo/cli/src/cli.ts` (`Cli`);
- the id, predicate and sort-spec parsers of `sandbox/sandbox.ts` (`Query`).

**Scenarios.** `Scenarios` connects the two endpoints and follows whole exchanges through both state machines.

**Modelling choices.**

- A JavaScript value is the `JsValue.Value` datatype: numbers are integral, and observables, ports and buffers are opaque handles.
- A thrown error is an `Err`, or an `escaped` value when it leaves a message handler.

The code and the written description of the repository disagree in a few places, and the model follows the code:

- **Unsent close notice.** The adapter builds a closable for every stream argument, with an `onClose` that would post a CLOSE notice. It hands the implementation the plain sink (`entry[0]`) instead, so nothing subscribes to the closable and the notice is dead code. It is modelled only as an encoding: were it posted with its `action` field, the sandbox caller's validation would drop it (`Messages.ArgInCloseNoticeReading`).
- **Lost stream arguments.** In the core revision, stream arguments never reach the implementation (`Messages.CoreRoundTripLosesStreamArgs`, `Scenarios.CoreStreamArgumentLost`).
- **Path-loaded modules.** A path-loaded module is used only when it is itself a function: a function `default` export is found and then rejected (`Registry.ConfigObjectRejected`).

## Model

| member | source | states |
|---|---|---|
| WireErrors.ExtractTransferableError | sandbox/ServiceCommunicator.ts:41-52 | An `Error` becomes `{message, stack}`; any other value becomes `{message: String(x)}` with no stack; no other property is set |
| WireErrors.RemoteError | sandbox/ServiceCommunicator.ts:54-63 | The rebuilt error's message is "(in worker) " plus the record's message; the stack is copied exactly when it is truthy |
| WireErrors.RebuildRuntimeError | sandbox/ServiceCommunicator.ts:54-63 | An existing `Error` passes through unchanged; anything else becomes the prefixed `Error` |
| WireErrors.RebuildAfterExtractError | sandbox/ServiceCommunicator.ts:41-63 | Extracting an `Error` and rebuilding it gives the prefixed message and keeps a truthy stack |
| WireErrors.RebuildAfterExtractOther | sandbox/ServiceCommunicator.ts:41-63 | Any other thrown value arrives as an `Error` whose message is the prefix plus `String(x)` |
| WireErrors.RebuildIdempotent | sandbox/ServiceCommunicator.ts:54-63 | Rebuilding twice is rebuilding once |
| WireFormat.ToWire | sandbox/ServiceCommunicator.ts:78-141 | The noop processor sends the arguments untouched with an empty transfer list; either processor at most pops a trailing array or deletes one argument's marker, and leaves an argument list with neither unchanged |
| WireFormat.FromWireError | sandbox/ServiceCommunicator.ts:82-84 | The sandbox revision rebuilds a truthy error and keeps a falsy one; the core revision returns the received error unchanged |
| WireFormat.Transfer | sandbox/ServiceCommunicator.ts:190-192 | The sandbox revision always posts a truthy transfer list (`[]` for a missing one); a given list is posted as it is |
| WireFormat.SandboxErrorTravels | sandbox/ServiceCommunicator.ts:41-84 | An error thrown on one side is an `Error` on the other, with "(in worker) " before its message or its string form |
| WireFormat.CoreErrorNotRebuilt | packages/@ubo/core/src/ServiceCommunicator.ts:74-81 | In the core revision the receiver gets the bare record, not an `Error` |
| TransferList.DeleteMarker | sandbox/ServiceCommunicator.ts:119-121 | After `delete arg.$transferList` the argument no longer carries the marker |
| TransferList.Scan | sandbox/ServiceCommunicator.ts:111-125 | When some argument is marked, the first marked one's list is returned and only its marker is deleted; otherwise the MessagePorts are returned in order, null and undefined skipped |
| TransferList.GetTransferList | sandbox/ServiceCommunicator.ts:87-126 | Empty args give `[]`; a trailing array is popped and returned exactly when it is non-empty and its first element is transferable, otherwise `[]` with args untouched; otherwise the scan's result |
| TransferList.ArgsOnlyLoseTransfer | sandbox/ServiceCommunicator.ts:87-126 | For every argument list, `getTransferList` leaves it unchanged, pops a trailing array, or deletes the marker of one marked argument |
| TransferList.TrailingArrayDecidedByFirst | sandbox/ServiceCommunicator.ts:92-110 | Only the first element of a trailing array is inspected; the whole array is popped whatever follows it |
| TransferList.NonTransferableMayBeListed | sandbox/ServiceCommunicator.ts:92-110 | Hence a number can end up in the transfer list |
| TransferList.MarkerDropsEarlierPorts | sandbox/ServiceCommunicator.ts:111-125 | A port seen before the marked argument is dropped, and the marker is deleted from the posted argument |
| Messages.KindOf | sandbox/ServiceCommunicator.ts:143-150 | A number names a message kind exactly when it is 0 to 5, and that kind's code is the number |
| Messages.KindCodeRoundTrip | sandbox/ServiceCommunicator.ts:143-150 | Every kind's code maps back to the kind |
| Messages.Encode | sandbox/ServiceCommunicator.ts:152-188 | The posted object names its kind in the revision's field (`type` or `action`) and carries the kind's code and the channel id |
| Messages.Read | sandbox/ServiceCommunicator.ts:152-188 | The message read for a kind and id has that kind and id |
| Messages.Decode | sandbox/ServiceCommunicator.ts:194-198 | The sandbox revision accepts exactly the objects whose `type` is a known kind code and whose id is an integer, and never an unknown kind; the core revision accepts exactly the objects with an integer `channelId` (the wider ids the source accepts are under Left out) |
| Messages.SandboxRoundTrip | sandbox/ServiceCommunicator.ts:152-198 | The sandbox revision reads back exactly the message it posted |
| Messages.CoreRoundTripLosesStreamArgs | packages/@ubo/core/src/ServiceCommunicator.ts:420-432 | The core revision reads back what it posted, except that a CALL's stream-argument ids are lost |
| Messages.ArgInCloseNoticeReading | sandbox/ServiceCommunicator.ts:602-607 | The close notice the arg-in closable would post (it is never posted, see above) fails the sandbox validation; the core revision would read it as CLOSE |
| Closable.Create | sandbox/ServiceCommunicator.ts:619-631 | A fresh subject is idle, not stopped and has never closed |
| Closable.Subscribe | sandbox/ServiceCommunicator.ts:619-631 | A new consumer gets no earlier value (only the terminal event once stopped). Unless a terminal event already passed through a live connection, a consumer arriving while nobody is connected connects; if the sink has stopped by then, `onClose` runs at once, also after a release by the last consumer |
| Closable.Unsubscribe | sandbox/ServiceCommunicator.ts:619-631 | `onClose` runs exactly when the last consumer leaves, and the subject is released rather than finished; nothing else changes |
| Closable.Emit | sandbox/ServiceCommunicator.ts:619-631 | An event reaches exactly the current consumers; a stopped sink ignores it; a terminal event stops the sink, detaches everyone and runs `onClose` exactly when the shared subscription was live |
| Closable.ConsumerSeesEmissionsOnce | sandbox/ServiceCommunicator.ts:619-631 | A consumer that stays subscribed receives exactly the emitted events up to and including the first terminal one: nothing replayed, lost or after the end |
| Closable.EmitReachesSubscriber | sandbox/ServiceCommunicator.ts:619-631 | One emission is appended to a current consumer's log; it stays subscribed unless the event was terminal |
| Closable.StoppedIgnoresAll | sandbox/ServiceCommunicator.ts:619-631 | Once stopped, any emissions change nothing |
| Closable.ReconnectAfterReleaseCloses | sandbox/ServiceCommunicator.ts:619-631 | Release by the last consumer, then the sink completes, then a new consumer: it reconnects, receives the completion and `onClose` runs a second time; a further consumer only receives the completion |
| Closable.RefCountedClose | sandbox/ServiceCommunicator.ts:619-631 | With two consumers the first leaving keeps the stream open and the second closes it once |
| Closable.CloseAtMostOncePerConnection | sandbox/ServiceCommunicator.ts:619-631 | `onClose` runs at most once per connection, and exactly once for each connection that has ended |
| Caller.Create | sandbox/ServiceCommunicator.ts:230-243 | A new caller listens, with no call, no out subscription and both counters at 0 |
| Caller.ExtractOutChannels | sandbox/ServiceCommunicator.ts:314-338 | The argument list keeps its length and gets one slot per argument |
| Caller.CountStreamsZero | sandbox/ServiceCommunicator.ts:314-338 | No out channel is allocated exactly when no argument is an observable, which is when `channelArgs` is left undefined |
| Caller.OutChannelArgs | sandbox/ServiceCommunicator.ts:314-338 | Every observable argument is sent as `undefined`; the others are sent as they are |
| Caller.OutChannelSlots | sandbox/ServiceCommunicator.ts:314-338 | An observable's slot holds the counter plus the number of observables before it; every other slot is empty |
| Caller.OutChannelIdsFreshAndOrdered | sandbox/ServiceCommunicator.ts:314-338 | Out-channel ids of one call are fresh, strictly increasing left to right and below the new counter |
| Caller.Register | sandbox/ServiceCommunicator.ts:270-296 | A call takes the next call id, registers a fresh stream under it and subscribes one new out channel per observable argument, before the CALL is posted |
| Caller.Call | sandbox/ServiceCommunicator.ts:270-312 | `call` posts exactly one CALL, on the fresh channel id, and leaves the registered state |
| Caller.CallReachesAdapter | sandbox/ServiceCommunicator.ts:270-312 | The adapter reads back the name, the processed arguments and the transfer list; the sandbox revision also delivers the out-channel ids and the core revision loses them |
| Caller.CallIdsConsecutive | sandbox/ServiceCommunicator.ts:231-296 | Successive calls take consecutive call ids from the counter, so no two calls share a channel |
| Caller.SubscribeHandle | sandbox/ServiceCommunicator.ts:289-296 | A consumer of a call sees nothing earlier, only the terminal event once the call settled; subscribing first after settlement posts a CLOSE |
| Caller.UnsubscribeHandle | sandbox/ServiceCommunicator.ts:289-296 | The last consumer leaving posts a CLOSE and takes the call out of the map; any other leave posts nothing |
| Caller.Settle | sandbox/ServiceCommunicator.ts:392-411 | RESOLVE pushes the value then completion, NEXT the value, ERROR the (revision-processed) error, COMPLETE completion, to every current consumer; all but NEXT stop the sink |
| Caller.ValueThenCompletion | sandbox/ServiceCommunicator.ts:392-397 | A RESOLVE gives every consumer the value and then the completion, and stops the sink |
| Caller.Receive | sandbox/ServiceCommunicator.ts:374-412 | The caller changes or posts something only for CLOSE or for an answer on an open call; counters and listening never change |
| Caller.ReceiveClose | sandbox/ServiceCommunicator.ts:376-384 | CLOSE only removes the named out subscription (a no-op when there is none) and posts nothing |
| Caller.ReceiveAnswer | sandbox/ServiceCommunicator.ts:387-411 | An answer on an open call reaches every consumer; RESOLVE, ERROR and COMPLETE take the call out of the map (NEXT keeps it), posting CLOSE when the shared subscription was live |
| Caller.ReceiveIgnores | sandbox/ServiceCommunicator.ts:374-412 | An unknown or closed call id, a CALL, or an unvalidated object changes nothing and posts nothing |
| Caller.ArgSourceEvent | sandbox/ServiceCommunicator.ts:340-372 | A subscribed out channel posts NEXT per value, then one ERROR (as its record) or COMPLETE, after which it is removed and forwards nothing |
| Caller.ErrorChannelsPosts | sandbox/ServiceCommunicator.ts:245-258 | Erroring the open calls posts one CLOSE per call whose shared subscription was live, in channel order |
| Caller.Destroy | sandbox/ServiceCommunicator.ts:245-258 | `destroy` stops listening, drops every out subscription and errors every open call with "RpcCommunicator channel destroyed"; both maps end empty |
| Caller.DestroyedIgnoresMessages | sandbox/ServiceCommunicator.ts:245-268 | After `destroy` every message is ignored |
| Caller.SettledCallIgnoresLaterAnswers | sandbox/ServiceCommunicator.ts:387-411 | After an answer that settles a call, later answers on it change nothing: one terminal event per consumer |
| Adapter.Create | sandbox/ServiceCommunicator.ts:443-451 | A new adapter listens with no arg-in sink and no relay |
| Adapter.SetArg | sandbox/ServiceCommunicator.ts:529 | `args[i] = v` sets position i, keeps the others and fills any gap with `undefined` |
| Adapter.BindSlot | sandbox/ServiceCommunicator.ts:596-612 | A slot's id reuses its existing sink or gets a fresh empty one, which takes the argument's place |
| Adapter.BindArgIn | sandbox/ServiceCommunicator.ts:523-531 | Every id named in `channelArgs` gets an open sink (a repeated id the same one); existing sinks keep their contents |
| Adapter.BindArgInPlacesSinks | sandbox/ServiceCommunicator.ts:523-531 | Every defined `channelArgs` position holds its sink; every other position keeps its argument or is an `undefined` hole |
| Adapter.Answer | sandbox/ServiceCommunicator.ts:536-593 | An observable result is recorded as a relay and posts nothing yet; any other value or fulfilled promise posts one RESOLVE; a rejection posts one ERROR with the record; a synchronous throw escapes and posts nothing |
| Adapter.HandleCall | sandbox/ServiceCommunicator.ts:520-594 | The arg-in sinks named by the CALL are opened, and only those; the member runs on `BoundArguments`; a synchronous throw escapes with nothing posted, an observable gets a relay on the call's channel, a value or fulfilment one RESOLVE, a rejection one ERROR with the record, a pending promise nothing |
| Adapter.BindArgInMatchesReference | sandbox/ServiceCommunicator.ts:523-531 | The `channelArgs` loop produces exactly the independently defined argument list: sinks at the named slots, the arguments or `undefined` holes elsewhere, as long as the last assigned slot requires |
| Adapter.BindArgInLength | sandbox/ServiceCommunicator.ts:523-531 | The loop lengthens the argument array exactly to cover the last slot it assigns |
| Adapter.RelayEvent | sandbox/ServiceCommunicator.ts:539-571 | An active relay posts one NEXT, ERROR (as its record) or COMPLETE; a terminal event ends it and deletes the channel's entry; an inactive relay posts nothing |
| Adapter.Receive | sandbox/ServiceCommunicator.ts:470-518 | CALL is handled; CLOSE ends the recorded relay; NEXT, ERROR and COMPLETE feed an open arg-in sink and the last two close it; anything else, and everything after `destroy`, is ignored |
| Adapter.Destroy | sandbox/ServiceCommunicator.ts:453-468 | Every open arg-in sink is errored with "RpcServiceAdaptor destroyed", every recorded relay is unsubscribed, and both maps end empty |
| Adapter.MissingMemberResolvesUndefined | sandbox/ServiceCommunicator.ts:536-537 | A name the implementation lacks is answered with RESOLVE of `undefined`, not ERROR |
| Adapter.ThrowingMemberPostsNothing | packages/@ubo/core/src/ServiceCommunicator.ts:484-486 | A member that throws synchronously gets no answer; the exception escapes the handler |
| Adapter.ClosedRelayIsSilent | sandbox/ServiceCommunicator.ts:487-495 | After the caller's CLOSE, the relay posts nothing more |
| Adapter.StoppedSinkIgnoresLaterMessages | sandbox/ServiceCommunicator.ts:498-517 | After ERROR or COMPLETE, later messages on that arg-in id are ignored |
| Proxy.Get | sandbox/ServiceCommunicator.ts:415-441 | `then` reads as `undefined`; inherited names come from the prototype; any other name reads as its call stub, created on first read |
| Proxy.GetIsMemoized | sandbox/ServiceCommunicator.ts:423-439 | Reading a name twice gives the same property, and the second read changes nothing |
| Proxy.GetAll | sandbox/ServiceCommunicator.ts:423-439 | After any reads, stubs exist exactly for the names read other than `then` and inherited ones |
| Legacy.Create | packages/@ubo/core/lib/ServiceCommunicator.js:126-143 | A new communicator listens, with no pending call and the id counter at 0 |
| Legacy.Destroy | packages/@ubo/core/lib/ServiceCommunicator.js:144-147 | `destroy` only stops listening; pending calls stay pending |
| Legacy.CallOneWay | packages/@ubo/core/lib/ServiceCommunicator.js:148-158 | A one-way request has no `callId` and carries the args and transfer list of `getTransferList` |
| Legacy.Call | packages/@ubo/core/lib/ServiceCommunicator.js:159-175 | `call` takes the next id, posts `{type, callId, args}` with the transfer list, and registers exactly one pending resolver |
| Legacy.CallIdsCountUp | packages/@ubo/core/lib/ServiceCommunicator.js:159-175 | n calls take the next n ids, each registered as pending |
| Legacy.CallIdsFromZero | packages/@ubo/core/lib/ServiceCommunicator.js:130-175 | A fresh communicator numbers its calls 0, 1, 2, … |
| Legacy.Settlement | packages/@ubo/core/lib/ServiceCommunicator.js:183-192 | A truthy `error` rejects with `Error("(in worker) " + message)`, keeping a truthy stack; otherwise the call resolves with `result` |
| Legacy.PendingFor | packages/@ubo/core/lib/ServiceCommunicator.js:177-181 | A response is matched exactly when its `callId` is a pending id |
| Legacy.Receive | packages/@ubo/core/lib/ServiceCommunicator.js:131-193 | A response for a pending id removes it and settles it; any other message leaves the communicator unchanged |
| Legacy.DuplicateResponseIgnored | packages/@ubo/core/lib/ServiceCommunicator.js:176-182 | A second response for the same call is ignored |
| Legacy.DestroyedIgnoresResponses | packages/@ubo/core/lib/ServiceCommunicator.js:144-147 | After `destroy` no response settles anything |
| Legacy.DestroyService | packages/@ubo/core/lib/ServiceCommunicator.js:245-248 | The adapter's `destroy` stops it listening |
| Legacy.PostedResult | packages/@ubo/core/lib/ServiceCommunicator.js:260-267 | The posted result is the value, minus a `$transferList` marker that `getTransferList([result])` deletes |
| Legacy.ErrorRecord | packages/@ubo/core/lib/ServiceCommunicator.js:274-277 | The failure record has exactly the error's `message` and `stack` |
| Legacy.HandleCall | packages/@ubo/core/lib/ServiceCommunicator.js:256-280 | At most one `"$call-response"` per call: the result on success, the record on rejection; nothing for a synchronous throw, a never-settling promise, or a null/undefined rejection |
| Legacy.HandleMessage | packages/@ubo/core/lib/ServiceCommunicator.js:249-255 | A one-way request never posts; a member that is not a function throws `Error("!")` |
| Legacy.Serve | packages/@ubo/core/lib/ServiceCommunicator.js:232-240 | Nothing after `destroy` and nothing for a one-way request; otherwise at most one `$call-response` under the request's `callId`, posted exactly when the member returns, fulfils or rejects with a non-nullish reason; the call escapes exactly when the member throws, a one-way request exactly when the member is not a function or throws |
| Legacy.OneWayNeverAnswered | packages/@ubo/core/lib/ServiceCommunicator.js:148-158 | A one-way request is never answered |
| Legacy.ValueReachesCaller | packages/@ubo/core/lib/ServiceCommunicator.js:159-192 | A call answered with a value settles exactly that pending call with the posted result |
| Legacy.RejectionReachesCaller | packages/@ubo/core/lib/ServiceCommunicator.js:176-192 | A rejection with an `Error` settles the call with the prefixed `Error`, keeping a truthy stack |
| Legacy.NonErrorRejectionLosesMessage | packages/@ubo/core/lib/ServiceCommunicator.js:269-278 | A rejection with a string reaches the caller as `Error("(in worker) undefined")` |
| Legacy.ThrowingMemberLeavesCallPending | packages/@ubo/core/lib/ServiceCommunicator.js:256-260 | A member that throws synchronously leaves the call pending forever |
| Registry.Empty | packages/@ubo/core/src/index.ts:62-65 | A new context has no middleware, cleanup or action |
| Registry.UseMiddleware | packages/@ubo/core/src/index.ts:67-70 | `use` appends the middleware and changes nothing else |
| Registry.ExposeAction | packages/@ubo/core/src/index.ts:71-81 | `exposeAction` appends exactly one action with `fullName = name`, group `""`, the given schema and function |
| Registry.RegisterCleanup | packages/@ubo/core/src/index.ts:82-84 | `addCleanup` puts the cleanup in front |
| Registry.DeclareAll | packages/@ubo/core/src/index.ts:67-84 | A run of declarations appends exactly the middleware it `use`s, in order |
| Registry.RunMiddleware | packages/@ubo/core/src/index.ts:90-102 | A non-function throws "invalid middleware"; a sync throw escapes as it is; a rejection becomes "Failed to load middleware"; a truthy result is registered as a cleanup and a falsy one is not |
| Registry.LoadFrom | packages/@ubo/core/src/index.ts:90-102 | The first loop iterates the live list and never shrinks it |
| Registry.RunLeavesLessToLoad | packages/@ubo/core/src/index.ts:90-102 | Running one middleware keeps the list and appends only what it registers |
| Registry.LoadFromStopsAtFirstFailure | packages/@ubo/core/src/index.ts:90-102 | For every context, the live list is run in order and only grows; the loop throws with the error of the first failing middleware, and when it throws nothing every middleware in the final list loaded |
| Registry.MiddlewareUsedWhileLoadingRuns | packages/@ubo/core/src/index.ts:90-102 | Middleware registered while loading runs in the same pass, so a non-function registered that way is rejected |
| Registry.RunModule | packages/@ubo/core/src/index.ts:104-119 | A path-loaded object always throws "should export function", even with a function `default`; a function runs as middleware |
| Registry.LoadModules | packages/@ubo/core/src/index.ts:104-119 | No modules leave the context unchanged; the loop throws exactly when some module fails |
| Registry.LoadModulesThrowsFirstFailure | packages/@ubo/core/src/index.ts:104-119 | A throw carries the error of the first failing module |
| Registry.LoadModulesInOrder | packages/@ubo/core/src/index.ts:104-119 | Loading `a + b` is loading `a` and then, unless that threw, `b`: modules run in order and none runs after a throw |
| Registry.MiddlewareUsedByModuleNeverRuns | packages/@ubo/core/src/index.ts:89-119 | Middleware `use`d by a path-loaded module is registered after the first loop and never runs |
| Registry.RunCleanups | packages/@ubo/core/src/index.ts:122-126 | The run finishes without error exactly when every cleanup is a function that returns normally, and then every cleanup ran, front to back |
| Registry.RunCleanupsStopsAtFirstFailure | packages/@ubo/core/src/index.ts:122-126 | When the run throws, it stopped at the first failing cleanup: the ones before it ran in order, it ran itself if it is a function, none after it ran, and its error (or "cleanup is not a function") escapes |
| Registry.RegisterAll | packages/@ubo/core/src/index.ts:82-84 | Registering cleanups touches no middleware or action |
| Registry.RegisterAllReverses | packages/@ubo/core/src/index.ts:82-84 | Cleanups added one by one are stored in reverse order, ahead of the earlier ones |
| Registry.CleanupsRunInReverse | packages/@ubo/core/src/index.ts:82-126 | Cleanups run in reverse registration order |
| Registry.InUboContext | packages/@ubo/core/src/index.ts:128-141 | When loading fails the cleanups still run, and a cleanup's error replaces the loading error |
| Registry.CallbackRunsFirst | packages/@ubo/core/src/index.ts:128-141 | The function the application returns is registered last and runs first |
| Registry.NonFunctionResultNotRegistered | packages/@ubo/core/src/index.ts:134-137 | A returned value that is not a function is not registered as a cleanup |
| Registry.FailingAppStillCleansUp | packages/@ubo/core/src/index.ts:128-141 | A failing application still has every cleanup run, and its error escapes |
| Registry.ConfigObjectRejected | packages/@ubo/core/src/index.ts:104-141 | An object-exporting configuration module is rejected, even with a function `default` |
| Cli.TrimSlashes | packages/@ubo/cli/src/cli.ts:8-12 | The trimmed path is a prefix of the path with no trailing slash; only slashes were removed |
| Cli.AfterLastSlash | packages/@ubo/cli/src/cli.ts:8-12 | The result is the slash-free suffix that follows the last slash |
| Cli.Basename | packages/@ubo/cli/src/cli.ts:8-12 | `path.basename`: the last segment of the path without its trailing slashes |
| Cli.FillConfigDefaults | packages/@ubo/cli/src/cli.ts:8-12 | A provided `appName` (even `""`) is kept; otherwise the basename of argv[1] is used, which throws when argv[1] is missing |
| Cli.OptionalParam | packages/@ubo/cli/src/cli.ts:17-23 | Non-empty args: the first is removed and returned; empty args: the fallback, with args unchanged |
| Cli.MandatoryParam | packages/@ubo/cli/src/cli.ts:29-31 | Throws the given message exactly when args are empty or the first is `""`; otherwise the first argument, removed |
| Cli.RestAfterMandatory | packages/@ubo/cli/src/cli.ts:29-31 | The first argument is consumed even when it is `""` and the call throws |
| Cli.Main | packages/@ubo/cli/src/cli.ts:33-34 | Exactly one argument is consumed as the action; none or an empty one fails with "action is required" |
| Cli.CliRunDefault | packages/@ubo/cli/src/cli.ts:40-45 | Only a failing `fillConfigDefaults` throws out of it; a missing or empty action is caught and logged under the application name; otherwise the action is `argv[2]` with the arguments after it |
| Cli.MandatoryThenOptional | packages/@ubo/cli/src/cli.ts:17-31 | A mandatory and then an optional parameter take the first two arguments in order |
| Cli.BasenameDropsDirectory | packages/@ubo/cli/src/cli.ts:8-12 | The basename of `dir/name` is `name` |
| Cli.BasenameIgnoresTrailingSlash | packages/@ubo/cli/src/cli.ts:8-12 | A trailing slash does not change the basename |
| Strings.IndexOf | sandbox/sandbox.ts:242 | The first position of the character, or -1 exactly when it does not occur |
| Strings.Split | sandbox/sandbox.ts:293 | `split` on one character gives at least one piece, none containing the separator |
| Strings.JoinSplit | sandbox/sandbox.ts:293 | Joining the pieces gives back the string |
| Strings.SplitJoin | sandbox/sandbox.ts:293 | Splitting joined separator-free pieces gives back the pieces |
| Query.IdValue | sandbox/sandbox.ts:183-186 | A value becomes an ObjectId exactly when it is 24 hex digits; otherwise it stays a string |
| Query.FindById | sandbox/sandbox.ts:176-203 | A missing collection fails; `=` splits at the first `=` and wins over `.`; otherwise `.` gives id and `parseInt` version; otherwise a 24-hex id is `_id`; otherwise `{id, row_status: "A"}` |
| Query.FieldLookupRoundTrip | sandbox/sandbox.ts:180-187 | `field=value` with an `=`-free field looks up exactly that field |
| Query.VersionLookupRoundTrip | sandbox/sandbox.ts:188-193 | `name.version` looks up that id and version |
| Query.MaybeParseValue | sandbox/sandbox.ts:205-217 | `null`, `true` and `false` map to literals; digits and dots go to `parseFloat`; a leading brace, bracket or quote goes to `JSON.parse`; everything else is unchanged |
| Query.OperatorSuffix | sandbox/sandbox.ts:259-261 | A match is a non-empty name without line terminators, a dot, and `$` plus letters at the very end |
| Query.OperatorSuffixRecognised | sandbox/sandbox.ts:259-261 | `field.$letters` splits into the field and the operator |
| Query.Shape | sandbox/sandbox.ts:271-280 | The predicate has one field; any operator but `$eq` nests the value, and `$regex` wraps it in a RegExp |
| Query.Comparison | sandbox/sandbox.ts:252-280 | One comparison constrains exactly one field |
| Query.ParsePredicate | sandbox/sandbox.ts:240-282 | Without `=` the predicate is `{_id: value}`; `=` first is "invalid predicate"; otherwise one field |
| Query.SplitAtFirstEquals | sandbox/sandbox.ts:242-251 | A predicate splits at its first `=` |
| Query.EqualityRoundTrip | sandbox/sandbox.ts:240-282 | `field=value` on a plain field is equality with the parsed value, unless the value is `/…/` |
| Query.NegationRoundTrip | sandbox/sandbox.ts:252-257 | `field!=value` gives `$ne` with the parsed value |
| Query.RegexOverridesNegation | sandbox/sandbox.ts:252-273 | `field!=/x/` becomes `$regex` with the slashes stripped: the negation is lost |
| Query.OperatorRoundTrip | sandbox/sandbox.ts:259-280 | `field.$op=value` puts the parsed value under that operator (`$eq` is plain equality) |
| Query.OperatorOverridesNegation | sandbox/sandbox.ts:252-280 | A `.$op` suffix overrides a `!` before the `=` |
| Query.EqOperatorIsEquality | sandbox/sandbox.ts:274-280 | `field.$eq=value` is plain equality |
| Query.MergeAll | sandbox/sandbox.ts:286-287 | The merged query has exactly the fields of all predicates |
| Query.LaterPredicateWins | sandbox/sandbox.ts:286-287 | A field takes its value from the last predicate that mentions it |
| Query.Combine | sandbox/sandbox.ts:283-288 | `operator == "or"` exactly gives `$or` of the predicates in order; anything else merges them |
| Query.ParseSortKey | sandbox/sandbox.ts:292-303 | `-f` is descending, `+f` and `f` are ascending, on field `f` |
| Query.ParseSortKeys | sandbox/sandbox.ts:292-303 | Each entry is parsed in place |
| Query.ParseSort | sandbox/sandbox.ts:292-303 | A sort spec has at least one entry |
| Query.SortRoundTrip | sandbox/sandbox.ts:292-303 | Writing sort keys with commas and parsing them back gives the same keys |
| Query.SortKeyRoundTrip | sandbox/sandbox.ts:292-303 | One written key has no comma and parses back to itself |
| Query.Given | sandbox/sandbox.ts:292-309 | An option counts only when it is set and non-empty |
| Query.ParsePredicates | sandbox/sandbox.ts:240-282 | All arguments parse in order, or the error is that of the first invalid one |
| Query.Find | sandbox/sandbox.ts:236-311 | A missing collection fails; otherwise the result is Ok exactly when no predicate starts with `=`, leaving aside the parse failures under Left out; it builds the combined filter, the parsed sort, and the non-empty offset and limit |
| Scenarios.FirstIssued | sandbox/ServiceCommunicator.ts:270-296 | A new caller's first call takes channel 0 and registers a fresh stream, the only open call |
| Scenarios.FirstConsumer | sandbox/ServiceCommunicator.ts:289-296 | The first consumer of that call is subscribed, has seen nothing, and nothing is posted |
| Scenarios.EchoAnswered | sandbox/ServiceCommunicator.ts:572-582 | A member returning a plain value is answered with one RESOLVE of it, leaving the adapter unchanged |
| Scenarios.FailAnswered | sandbox/ServiceCommunicator.ts:583-592 | A member whose promise rejects is answered with one ERROR carrying the transferable record |
| Scenarios.AnswerDelivered | sandbox/ServiceCommunicator.ts:387-411 | An answer on call 0 reaches its consumer; one that settles the call also closes it and posts CLOSE |
| Scenarios.LateCloseIgnored | sandbox/ServiceCommunicator.ts:487-495 | A CLOSE for a channel without a relay changes nothing at the adapter |
| Scenarios.RejectionDelivered | sandbox/ServiceCommunicator.ts:402-406 | A consumer of a rejected call sees exactly one error: the record as its revision reads it back |
| Scenarios.StreamCallIssued | sandbox/ServiceCommunicator.ts:314-338 | A first call with one observable argument subscribes out channel 0 and announces it in the CALL |
| Scenarios.StreamCallServed | sandbox/ServiceCommunicator.ts:523-531 | The sandbox adapter opens an empty arg-in sink 0 for that CALL |
| Scenarios.SinkFed | sandbox/ServiceCommunicator.ts:507-509 | A NEXT on arg-in channel 0 lands in sink 0 |
| Scenarios.CountServed | sandbox/ServiceCommunicator.ts:539-571 | A member returning an observable gets a relay on the call's channel, and nothing is posted yet |
| Scenarios.RelayForwards | sandbox/ServiceCommunicator.ts:539-571 | The relay posts NEXT for a value, then COMPLETE, after which the adapter forgets the call |
| Scenarios.NextDelivered | sandbox/ServiceCommunicator.ts:398-401 | A NEXT on call 0 reaches its consumer, which stays subscribed, and the call stays open |
| Scenarios.CompleteDelivered | sandbox/ServiceCommunicator.ts:407-411 | A COMPLETE on call 0 reaches its consumer after what it had seen, and closes the call |
| Scenarios.NextThenCompleteDelivered | sandbox/ServiceCommunicator.ts:398-411 | NEXT then COMPLETE reach the consumer in order, and the call ends closed |
| Scenarios.FirstPlainCall | sandbox/ServiceCommunicator.ts:270-312 | A caller's first call is on channel 0 and the adapter reads back exactly the call |
| Scenarios.EchoRoundTrip | sandbox/ServiceCommunicator.ts:270-312 | A member answering a value: the consumer gets the value and completion, the caller sends CLOSE, and the adapter ignores it |
| Scenarios.RejectionReachesConsumer | sandbox/ServiceCommunicator.ts:583-592 | A rejected `Error` reaches the consumer prefixed in the sandbox revision and as the bare record in the core revision |
| Scenarios.SandboxStreamArgumentArrives | sandbox/ServiceCommunicator.ts:314-372 | An observable argument gets out channel 0, the adapter opens sink 0, and a value emitted by the caller lands in it |
| Scenarios.CoreStreamArgumentLost | packages/@ubo/core/src/ServiceCommunicator.ts:227-236 | In the core revision no sink is opened and the member gets `undefined` where the observable was |
| Scenarios.ObservableResultRelayed | sandbox/ServiceCommunicator.ts:539-571 | An observable result's values reach the consumer, completion ends the call, and the relay is forgotten on both sides |
| Scenarios.UnwatchedResolveStopsSink | sandbox/ServiceCommunicator.ts:387-411 | A RESOLVE on a call nobody watches stops its sink with nobody connected, and posts nothing |
| Scenarios.LateConsumerMissesResolvedValue | sandbox/ServiceCommunicator.ts:289-296 | A consumer that subscribes after RESOLVE sees only the completion, and its subscription posts a CLOSE the adapter no longer expects |
| Scenarios.EarlyConsumerSeesResolvedValue | sandbox/ServiceCommunicator.ts:392-397 | A consumer that subscribed before RESOLVE sees the value and then the completion |

## Left out

- Transports: the `child_process` port and EventEmitter plumbing are not modelled. A port is "posts appended to the step's output" plus the inbound object handed to `Receive`.
- Structured cloning is not modelled: a posted object arrives as it was sent, and cloning failures never happen.
- `instanceof` tests become the `JsValue.IsTransferable` and `JsValue.IsMessagePort` predicates. The `self.ImageBitmap` availability check is not modelled: every resource counts as transferable.
- Promise microtask ordering and rxjs scheduling are not modelled. Each step is one handler run to completion.
- The lazy `then`/`catch` wrapper on a call's result is modelled as a subscription (`Caller.SubscribeHandle`), not as a promise.
- The freshly created `Error`'s own stack is not modelled: when no truthy stack is copied in, it is `undefined`.
- Console logging is not modelled.
- The symbol keys read through the proxy are not modelled; proxy keys are strings.
- The implementation unsubscribing from an arg-in stream is not modelled. It is given the plain sink Subject, so unsubscribing only detaches it: nothing is posted and the arg-in entry stays. The adapter's sinks are logs of what was pushed into them.
- Messages.Decode: channel ids are integers only. The sandbox validation also accepts a non-integer number (such as 1.5) as an id, and the core revision any defined id (such as `null` or `"7"`); the model drops such objects, where the source would route them and answer on that id.
- Synchronous emission while subscribing is not modelled: an observable result or argument emits only in later steps (`Adapter.RelayEvent`, `Caller.ArgSourceEvent`).
- `require()` resolution and the actual ubo-config file are not modelled: a path-loaded module is given as its export.
- `JSON.parse`, `parseInt`, `parseFloat`, `new RegExp` and `new ObjectId` stay uninterpreted: the query records the call and its argument. A JSON-parsed string therefore never reaches the `/…/` regex check.
- Query.Find: the exceptions of `JSON.parse` and `new RegExp` are not modelled, because both stay uninterpreted. In the source, a value starting with `'` always makes `find` throw, as do malformed `{`, `[` or `"` text and an invalid `/…/` pattern such as `/(/`; the model accepts them.
- Query.Find: the `offset` and `limit` options are modelled as strings only; number-valued options are not modelled.
- Query.Find: the Mongoose calls themselves are not modelled. `processQueryOrCursor` and the type-level experiments of `sandbox.ts` are left out as well.
- Registry.LoadFrom: a middleware is a finite description, so one that `use`s itself cannot be written. In the source such a middleware makes the first loop run for ever, since every run appends it again; the model's loop always ends.
- Cli.Main: only the argument check is modelled. The un-awaited `inUboContext` call that follows is `Registry.InUboContext`.
- Registry.InUboContext: when loading succeeds, the contract does not spell out the application's result; `Registry.CallbackRunsFirst` and `Registry.FailingAppStillCleansUp` state those cases.
- `lib/ServiceCommunicator.d.ts`, `schema.ts` and the demo drivers carry no behaviour of their own and are not part of this model.
