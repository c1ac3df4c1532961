/**
 * The declaration registry of the core package (`index.ts`): middleware
 * registered with `use`, actions exposed with `exposeAction`, cleanups
 * added with `addCleanup`; `loadMiddlewares` runs the registered
 * middleware and then the ones loaded by path, `cleanup` runs the cleanups
 * and `inUboContext` brackets an application between the two.
 *
 * Functions are not values here: a middleware is described by the
 * declarations its synchronous part makes and by how its promise ends, a
 * cleanup by a tag and whether calling it throws.
 */
module Registry {
  import opened JsValue
  import opened Wrappers

  const InvalidMiddlewarePrefix := "ubo-core#: invalid middleware: "
  const FailedToLoad := "ubo-core: Failed to load middleware"
  const ConfigPath := "./ubo-config"
  const NotCallableMessage := "cleanup is not a function"

  /** What `addCleanup` or a middleware hands over: a function, or a truthy value that is not one. */
  datatype Cleanup = Callable(tag: nat, throws: Option<Value>) | NotCallable(value: Value)

  /** What a middleware's result resolves to: a cleanup, or a falsy value. */
  datatype Returned = Gives(cleanup: Cleanup) | Falsy

  /** How calling a middleware ends: a synchronous throw, a rejected promise, or a resolved one. */
  datatype MiddlewareOutcome = Throws(error: Value) | Rejects(reason: Value) | Resolves(returned: Returned)

  datatype Middleware =
    | Function(name: string, body: seq<Declaration>, outcome: MiddlewareOutcome)
    | NotFunction(value: Value)

  /** One call a middleware makes on the context before it returns. */
  datatype Declaration =
    | Use(middleware: Middleware)
    | Expose(name: string, fun: nat, schema: Value)
    | AddCleanup(cleanup: Cleanup)

  /**
   * An exposed action. Its `invoke` ignores the invocation context and
   * calls `fun()`, so the action is determined by `fun`.
   */
  datatype Action = Action(name: string, fullName: string, group: string, schema: Value, fun: nat)

  /** `DeclarationContextImpl`. */
  datatype Context = Context(middleware: seq<Middleware>, cleanups: seq<Cleanup>, actions: seq<Action>, prefix: string)

  function Empty(): (r: Context)
    ensures r.middleware == [] && r.cleanups == [] && r.actions == [] && r.prefix == ""
  {
    Context([], [], [], "")
  }

  /** `use`: appends the middleware; the result is the same context, ready for chaining. */
  function UseMiddleware(ctx: Context, m: Middleware): (r: Context)
    ensures r.middleware == ctx.middleware + [m]
    ensures r.cleanups == ctx.cleanups && r.actions == ctx.actions && r.prefix == ctx.prefix
  {
    ctx.(middleware := ctx.middleware + [m])
  }

  /** `exposeAction`: appends exactly one action, named in full by its own name, in no group. */
  function ExposeAction(ctx: Context, name: string, fun: nat, schema: Value): (r: Context)
    ensures |r.actions| == |ctx.actions| + 1 && r.actions[..|ctx.actions|] == ctx.actions
    ensures var a := r.actions[|ctx.actions|];
      a.name == name && a.fullName == name && a.group == "" && a.schema == schema && a.fun == fun
    ensures r.middleware == ctx.middleware && r.cleanups == ctx.cleanups && r.prefix == ctx.prefix
  {
    ctx.(actions := ctx.actions + [Action(name, name, "", schema, fun)])
  }

  /** `addCleanup`: puts the cleanup in front of the earlier ones. */
  function RegisterCleanup(ctx: Context, c: Cleanup): (r: Context)
    ensures r.cleanups == [c] + ctx.cleanups
    ensures r.middleware == ctx.middleware && r.actions == ctx.actions && r.prefix == ctx.prefix
  {
    ctx.(cleanups := [c] + ctx.cleanups)
  }

  function Declare(ctx: Context, d: Declaration): Context {
    match d
    case Use(m) => UseMiddleware(ctx, m)
    case Expose(name, fun, schema) => ExposeAction(ctx, name, fun, schema)
    case AddCleanup(c) => RegisterCleanup(ctx, c)
  }

  /** The middleware a list of declarations registers, in order. */
  function UsedIn(ds: seq<Declaration>): seq<Middleware> {
    if |ds| == 0 then [] else (if ds[0].Use? then [ds[0].middleware] else []) + UsedIn(ds[1..])
  }

  /** The declarations in order; only the middleware list depends on `use`. */
  function DeclareAll(ctx: Context, ds: seq<Declaration>): (r: Context)
    ensures r.middleware == ctx.middleware + UsedIn(ds)
    ensures r.prefix == ctx.prefix
    decreases |ds|
  {
    if |ds| == 0 then ctx
    else
      var r := DeclareAll(Declare(ctx, ds[0]), ds[1..]);
      assert UsedIn(ds) == (if ds[0].Use? then [ds[0].middleware] else []) + UsedIn(ds[1..]);
      r
  }

  // ------------------------------------------------------------- sizes

  /** The number of middleware a middleware registers, itself included, at any depth. */
  function Size(m: Middleware): nat
    decreases m, 1
  {
    match m
    case NotFunction(_) => 1
    case Function(_, body, _) => 1 + BodySize(m, body)
  }

  function BodySize(m: Middleware, ds: seq<Declaration>): nat
    requires m.Function? && (forall d :: d in ds ==> d in m.body)
    decreases m, 0, |ds|
  {
    if |ds| == 0 then 0
    else
      assert ds[0] in m.body;
      (if ds[0].Use? then Size(ds[0].middleware) else 0) + BodySize(m, ds[1..])
  }

  function SizeAll(ms: seq<Middleware>): nat {
    if |ms| == 0 then 0 else Size(ms[0]) + SizeAll(ms[1..])
  }

  lemma {:induction false} SizeAllConcat(a: seq<Middleware>, b: seq<Middleware>)
    ensures SizeAll(a + b) == SizeAll(a) + SizeAll(b)
    decreases |a|
  {
    if |a| > 0 {
      assert (a + b)[1..] == a[1..] + b;
      SizeAllConcat(a[1..], b);
    } else {
      assert a + b == b;
    }
  }

  lemma {:induction false} UsedInSize(m: Middleware, ds: seq<Declaration>)
    requires m.Function? && (forall d :: d in ds ==> d in m.body)
    ensures SizeAll(UsedIn(ds)) == BodySize(m, ds)
    decreases |ds|
  {
    if |ds| > 0 {
      UsedInSize(m, ds[1..]);
      var head := if ds[0].Use? then [ds[0].middleware] else [];
      SizeAllConcat(head, UsedIn(ds[1..]));
      if ds[0].Use? {
        assert SizeAll(head) == Size(ds[0].middleware) + SizeAll([]);
      }
    }
  }

  // ------------------------------------------------------------ loading

  /** Where a run stopped: the context as it was left, and the error thrown, if any. */
  datatype Outcome = Outcome(context: Context, thrown: Option<Value>)

  function Fail(message: string): Value {
    ErrorObj(message, Undefined)
  }

  /**
   * What the loop throws when it reaches `m`: the invalid-middleware error
   * for a value that is not a function, a synchronous exception as it is,
   * "Failed to load middleware" for a rejection; `None` when `m` loads.
   */
  function Thrown(m: Middleware): Option<Value> {
    match m
    case NotFunction(v) => Some(Fail(InvalidMiddlewarePrefix + ToJsString(v)))
    case Function(_, _, outcome) =>
      match outcome
      case Throws(e) => Some(e)
      case Rejects(_) => Some(Fail(FailedToLoad))
      case Resolves(_) => None
  }

  /**
   * One iteration of `loadMiddlewares`: a value that is not a function
   * throws; otherwise the middleware runs. A synchronous throw escapes as
   * it is, a rejection becomes "Failed to load middleware", and a truthy
   * result is registered as a cleanup.
   */
  function RunMiddleware(ctx: Context, m: Middleware): (r: Outcome)
    ensures m.NotFunction? ==>
      r == Outcome(ctx, Some(Fail(InvalidMiddlewarePrefix + ToJsString(m.value))))
    ensures m.Function? ==> r.context.middleware == ctx.middleware + UsedIn(m.body)
    ensures m.Function? && m.outcome.Rejects? ==> r.thrown == Some(Fail(FailedToLoad))
    ensures m.Function? && m.outcome.Throws? ==> r.thrown == Some(m.outcome.error)
    ensures m.Function? && m.outcome.Resolves? ==> r.thrown.None?
    ensures m.Function? ==>
      var declared := DeclareAll(ctx, m.body);
      r.context.cleanups
        == (if m.outcome.Resolves? && m.outcome.returned.Gives? then [m.outcome.returned.cleanup] else [])
           + declared.cleanups
    ensures r.context.prefix == ctx.prefix
    ensures r.thrown == Thrown(m)
  {
    match m
    case NotFunction(v) => Outcome(ctx, Some(Fail(InvalidMiddlewarePrefix + ToJsString(v))))
    case Function(_, body, outcome) =>
      var declared := DeclareAll(ctx, body);
      match outcome
      case Throws(e) => Outcome(declared, Some(e))
      case Rejects(_) => Outcome(declared, Some(Fail(FailedToLoad)))
      case Resolves(Falsy) => Outcome(declared, None)
      case Resolves(Gives(c)) => Outcome(RegisterCleanup(declared, c), None)
  }

  /**
   * Running the middleware at `i` keeps the list as it was and appends only
   * what that middleware registers, which is less than it counted for.
   */
  lemma RunLeavesLessToLoad(ctx: Context, i: nat)
    requires i < |ctx.middleware|
    ensures var ms := RunMiddleware(ctx, ctx.middleware[i]).context.middleware;
      && |ms| >= |ctx.middleware| && ms[..|ctx.middleware|] == ctx.middleware
      && SizeAll(ms[i + 1..]) < SizeAll(ctx.middleware[i..])
  {
    var m := ctx.middleware[i];
    var ms := RunMiddleware(ctx, m).context.middleware;
    assert ctx.middleware[i..] == [m] + ctx.middleware[i + 1..];
    SizeAllConcat([m], ctx.middleware[i + 1..]);
    assert SizeAll([m]) == Size(m) + SizeAll([]);
    if m.Function? {
      assert ms[i + 1..] == ctx.middleware[i + 1..] + UsedIn(m.body);
      SizeAllConcat(ctx.middleware[i + 1..], UsedIn(m.body));
      UsedInSize(m, m.body);
    } else {
      assert ms[i + 1..] == ctx.middleware[i + 1..];
    }
  }

  /**
   * The first loop of `loadMiddlewares`, from position `i` of the live
   * list: middleware that a running middleware registers with `use` is
   * appended to the list being iterated and runs in its turn.
   */
  function LoadFrom(ctx: Context, i: nat): (r: Outcome)
    requires i <= |ctx.middleware|
    ensures r.thrown.None? ==> |r.context.middleware| >= |ctx.middleware|
    ensures r.context.prefix == ctx.prefix
    decreases SizeAll(ctx.middleware[i..])
  {
    if i == |ctx.middleware| then Outcome(ctx, None)
    else
      var m := ctx.middleware[i];
      var step := RunMiddleware(ctx, m);
      if step.thrown.Some? then step
      else
        RunLeavesLessToLoad(ctx, i);
        LoadFrom(step.context, i + 1)
  }

  /**
   * The first loop iterates the live list: middleware registered with
   * `use` while loading runs in the same pass, so a non-function
   * registered that way is still rejected.
   */
  lemma MiddlewareUsedWhileLoadingRuns(v: Value)
    ensures var outer := Function("outer", [Use(NotFunction(v))], Resolves(Falsy));
      LoadFrom(UseMiddleware(Empty(), outer), 0).thrown == Some(Fail(InvalidMiddlewarePrefix + ToJsString(v)))
  {
    var outer := Function("outer", [Use(NotFunction(v))], Resolves(Falsy));
    var ctx := UseMiddleware(Empty(), outer);
    var step := RunMiddleware(ctx, outer);
    assert UsedIn([Use(NotFunction(v))]) == [NotFunction(v)];
    assert step.context.middleware == [outer, NotFunction(v)];
    assert LoadFrom(ctx, 0) == LoadFrom(step.context, 1);
  }

  /**
   * The first loop runs the live list in order from position `i` and stops
   * at the first middleware that fails, with that middleware's error. The
   * list only grows; when nothing is thrown, every middleware in it --
   * including the ones registered while loading -- was a function whose
   * promise resolved.
   */
  lemma {:induction false} LoadFromStopsAtFirstFailure(ctx: Context, i: nat)
    requires i <= |ctx.middleware|
    ensures var r := LoadFrom(ctx, i);
      var ms := r.context.middleware;
      && |ms| >= |ctx.middleware| && ms[..|ctx.middleware|] == ctx.middleware
      && (r.thrown.None? ==> forall j :: i <= j < |ms| ==> Thrown(ms[j]).None?)
      && (r.thrown.Some? ==>
            exists j :: i <= j < |ms| && r.thrown == Thrown(ms[j]) && forall k :: i <= k < j ==> Thrown(ms[k]).None?)
    decreases SizeAll(ctx.middleware[i..])
  {
    if i < |ctx.middleware| {
      var m := ctx.middleware[i];
      var step := RunMiddleware(ctx, m);
      RunLeavesLessToLoad(ctx, i);
      if step.thrown.Some? {
        assert LoadFrom(ctx, i) == step;
        assert step.context.middleware[i] == m;
      } else {
        var r := LoadFrom(step.context, i + 1);
        assert LoadFrom(ctx, i) == r;
        LoadFromStopsAtFirstFailure(step.context, i + 1);
        var ms := r.context.middleware;
        assert ms[..|ctx.middleware|] == ms[..|step.context.middleware|][..|ctx.middleware|];
        assert ms[i] == m;
        if r.thrown.Some? {
          var j :| i + 1 <= j < |ms| && r.thrown == Thrown(ms[j]) && forall k :: i + 1 <= k < j ==> Thrown(ms[k]).None?;
          assert forall k :: i <= k < j ==> Thrown(ms[k]).None?;
        }
      }
    }
  }

  /** What `require(path)` gives: a function, an object that is not one, or an exception. */
  datatype Export =
    | ExportsFunction(body: seq<Declaration>, outcome: MiddlewareOutcome)
    | ExportsObject(defaultIsFunction: bool)
    | RequireFails(error: Value)

  datatype Module = Module(path: string, exported: Export)

  /**
   * One iteration of the second loop. A module that is not itself a
   * function always throws "should export function": a function `default`
   * export is picked up and then thrown away.
   */
  function RunModule(ctx: Context, mod: Module): (r: Outcome)
    ensures mod.exported.ExportsObject? ==>
      r == Outcome(ctx, Some(Fail("ubo-core#: middleware " + mod.path + " should export function")))
    ensures mod.exported.RequireFails? ==> r == Outcome(ctx, Some(mod.exported.error))
    ensures mod.exported.ExportsFunction? ==>
      r == RunMiddleware(ctx, Function(mod.path, mod.exported.body, mod.exported.outcome))
  {
    match mod.exported
    case RequireFails(e) => Outcome(ctx, Some(e))
    case ExportsObject(_) => Outcome(ctx, Some(Fail("ubo-core#: middleware " + mod.path + " should export function")))
    case ExportsFunction(body, outcome) =>
      var m := Function(mod.path, body, outcome);
      assert m.NotFunction? == false;
      RunMiddleware(ctx, m)
  }

  /** What running `mod` throws, `None` when it loads: the second loop's counterpart of `Thrown`. */
  function ModuleThrown(mod: Module): Option<Value> {
    match mod.exported
    case RequireFails(e) => Some(e)
    case ExportsObject(_) => Some(Fail("ubo-core#: middleware " + mod.path + " should export function"))
    case ExportsFunction(body, outcome) => Thrown(Function(mod.path, body, outcome))
  }

  /**
   * The second loop: each module in order until one throws. It throws
   * exactly when some module fails, and then with the first failing
   * module's error; a module after that one never runs.
   */
  function LoadModules(ctx: Context, mods: seq<Module>): (r: Outcome)
    ensures |mods| == 0 ==> r == Outcome(ctx, None)
    ensures r.thrown.None? <==> forall k :: 0 <= k < |mods| ==> ModuleThrown(mods[k]).None?
    decreases |mods|
  {
    if |mods| == 0 then Outcome(ctx, None)
    else
      var step := RunModule(ctx, mods[0]);
      if step.thrown.Some? then step else LoadModules(step.context, mods[1..])
  }

  /** When the loop throws, it is with the error of the first module that fails. */
  lemma {:induction false} LoadModulesThrowsFirstFailure(ctx: Context, mods: seq<Module>)
    requires LoadModules(ctx, mods).thrown.Some?
    ensures exists k :: && 0 <= k < |mods| && LoadModules(ctx, mods).thrown == ModuleThrown(mods[k])
                        && forall j :: 0 <= j < k ==> ModuleThrown(mods[j]).None?
    decreases |mods|
  {
    var step := RunModule(ctx, mods[0]);
    if step.thrown.None? {
      LoadModulesThrowsFirstFailure(step.context, mods[1..]);
      var k :| && 0 <= k < |mods[1..]| && LoadModules(step.context, mods[1..]).thrown == ModuleThrown(mods[1..][k])
               && forall j :: 0 <= j < k ==> ModuleThrown(mods[1..][j]).None?;
      assert forall j :: 0 <= j < k + 1 ==> ModuleThrown(mods[j]).None? by {
        forall j | 0 <= j < k + 1 ensures ModuleThrown(mods[j]).None? {
          if j > 0 { assert mods[j] == mods[1..][j - 1]; }
        }
      }
    }
  }

  /**
   * Modules run in order: loading `a + b` is loading `a`, then -- unless
   * that threw -- loading `b` from where `a` left the context. In
   * particular nothing after a throwing module runs.
   */
  lemma {:induction false} LoadModulesInOrder(ctx: Context, a: seq<Module>, b: seq<Module>)
    ensures var first := LoadModules(ctx, a);
      LoadModules(ctx, a + b) == if first.thrown.Some? then first else LoadModules(first.context, b)
    decreases |a|
  {
    if |a| == 0 {
      assert a + b == b;
    } else {
      assert (a + b)[0] == a[0] && (a + b)[1..] == a[1..] + b;
      var step := RunModule(ctx, a[0]);
      if step.thrown.None? {
        LoadModulesInOrder(step.context, a[1..], b);
      }
    }
  }

  /** `loadMiddlewares(context, paths)`. */
  function LoadMiddlewares(ctx: Context, mods: seq<Module>): (r: Outcome) {
    var first := LoadFrom(ctx, 0);
    if first.thrown.Some? then first else LoadModules(first.context, mods)
  }

  /**
   * Middleware registered by a module loaded by path is appended after the
   * first loop has finished, so it never runs.
   */
  lemma MiddlewareUsedByModuleNeverRuns(path: string, v: Value)
    ensures var mod := Module(path, ExportsFunction([Use(NotFunction(v))], Resolves(Falsy)));
      var r := LoadMiddlewares(Empty(), [mod]);
      r.thrown.None? && r.context.middleware == [NotFunction(v)]
  {
    assert UsedIn([Use(NotFunction(v))]) == [NotFunction(v)];
  }

  // ------------------------------------------------------------ cleanup

  /** The tags of the cleanups that ran, in order, and the error that stopped the run, if any. */
  datatype CleanupRun = CleanupRun(ran: seq<nat>, thrown: Option<Value>)

  /** The tags of a list of cleanups. */
  function Tags(cs: seq<Cleanup>): seq<nat> {
    if |cs| == 0 then []
    else (if cs[0].Callable? then [cs[0].tag] else []) + Tags(cs[1..])
  }

  /** Every cleanup can be called and returns normally. */
  predicate AllSucceed(cs: seq<Cleanup>) {
    forall i :: 0 <= i < |cs| ==> cs[i].Callable? && cs[i].throws.None?
  }

  /**
   * `cleanup`: calls the cleanups front to back, awaiting each; the first
   * one that throws (or is not a function) stops the run.
   */
  function RunCleanups(cs: seq<Cleanup>): (r: CleanupRun)
    ensures AllSucceed(cs) <==> r.thrown.None?
    ensures AllSucceed(cs) ==> r.ran == Tags(cs)
    ensures |r.ran| <= |cs|
  {
    if |cs| == 0 then CleanupRun([], None)
    else match cs[0]
      case NotCallable(_) => CleanupRun([], Some(Fail(NotCallableMessage)))
      case Callable(tag, Some(e)) => CleanupRun([tag], Some(e))
      case Callable(tag, None) =>
        var rest := RunCleanups(cs[1..]);
        assert AllSucceed(cs) <==> AllSucceed(cs[1..]) by {
          assert forall i :: 1 <= i < |cs| ==> cs[i] == cs[1..][i - 1];
        }
        CleanupRun([tag] + rest.ran, rest.thrown)
  }
  /** The error calling `c` throws: "cleanup is not a function" for a value that is not one, else its own exception. */
  function CleanupError(c: Cleanup): Option<Value> {
    match c
    case NotCallable(_) => Some(Fail(NotCallableMessage))
    case Callable(_, throws) => throws
  }

  /**
   * When the run throws, it stopped at the first cleanup that fails: every
   * cleanup before it ran, it ran itself if it is a function, none after it
   * ran, and its error is the one that escapes.
   */
  lemma {:induction false} RunCleanupsStopsAtFirstFailure(cs: seq<Cleanup>)
    requires RunCleanups(cs).thrown.Some?
    ensures exists i :: && 0 <= i < |cs| && AllSucceed(cs[..i]) && CleanupError(cs[i]).Some?
                        && RunCleanups(cs).ran == Tags(cs[..i + 1])
                        && RunCleanups(cs).thrown == CleanupError(cs[i])
    decreases |cs|
  {
    assert Tags(cs[..1][1..]) == [] by { assert cs[..1][1..] == []; }
    if CleanupError(cs[0]).Some? {
      assert AllSucceed(cs[..0]);
    } else {
      var rest := cs[1..];
      RunCleanupsStopsAtFirstFailure(rest);
      var k :| && 0 <= k < |rest| && AllSucceed(rest[..k]) && CleanupError(rest[k]).Some?
               && RunCleanups(rest).ran == Tags(rest[..k + 1])
               && RunCleanups(rest).thrown == CleanupError(rest[k]);
      SucceedingHeadExtends(cs, k);
      assert cs[k + 1] == rest[k];
    }
  }

  /** A succeeding first cleanup extends a succeeding run of the rest by one, and its tag comes first. */
  lemma SucceedingHeadExtends(cs: seq<Cleanup>, k: nat)
    requires k + 1 < |cs| && CleanupError(cs[0]).None? && AllSucceed(cs[1..][..k])
    ensures AllSucceed(cs[..k + 1])
    ensures Tags(cs[..k + 2]) == [cs[0].tag] + Tags(cs[1..][..k + 1])
  {
    assert cs[..k + 2][1..] == cs[1..][..k + 1];
    var done := cs[..k + 1];
    forall j | 0 <= j < |done| ensures done[j].Callable? && done[j].throws.None? {
      if j > 0 { assert done[j] == cs[1..][..k][j - 1]; }
    }
  }


  /** Registers the cleanups in order with `addCleanup`. */
  function RegisterAll(ctx: Context, cs: seq<Cleanup>): (r: Context)
    ensures r.middleware == ctx.middleware && r.actions == ctx.actions
    decreases |cs|
  {
    if |cs| == 0 then ctx else RegisterAll(RegisterCleanup(ctx, cs[0]), cs[1..])
  }

  function Reverse<T>(xs: seq<T>): (r: seq<T>)
    ensures |r| == |xs| && forall i :: 0 <= i < |xs| ==> r[i] == xs[|xs| - 1 - i]
  {
    if |xs| == 0 then [] else Reverse(xs[1..]) + [xs[0]]
  }

  /** Registering one by one piles the cleanups up in reverse order in front of the earlier ones. */
  lemma {:induction false} RegisterAllReverses(ctx: Context, cs: seq<Cleanup>)
    ensures RegisterAll(ctx, cs).cleanups == Reverse(cs) + ctx.cleanups
    decreases |cs|
  {
    if |cs| > 0 {
      RegisterAllReverses(RegisterCleanup(ctx, cs[0]), cs[1..]);
      assert Reverse(cs) == Reverse(cs[1..]) + [cs[0]];
    }
  }

  lemma {:induction false} TagsConcat(a: seq<Cleanup>, b: seq<Cleanup>)
    ensures Tags(a + b) == Tags(a) + Tags(b)
    decreases |a|
  {
    if |a| > 0 {
      assert (a + b)[1..] == a[1..] + b;
      TagsConcat(a[1..], b);
    } else {
      assert a + b == b;
    }
  }

  lemma {:induction false} TagsReverse(cs: seq<Cleanup>)
    ensures Tags(Reverse(cs)) == Reverse(Tags(cs))
    decreases |cs|
  {
    if |cs| > 0 {
      TagsReverse(cs[1..]);
      TagsConcat(Reverse(cs[1..]), [cs[0]]);
      var head := if cs[0].Callable? then [cs[0].tag] else [];
      assert Tags([cs[0]]) == head by {
        assert [cs[0]][1..] == [];
      }
      ReverseConcat(head, Tags(cs[1..]));
    }
  }

  lemma {:induction false} ReverseConcat<T>(a: seq<T>, b: seq<T>)
    ensures Reverse(a + b) == Reverse(b) + Reverse(a)
  {
  }

  /**
   * Cleanups run in reverse registration order: the last one added runs
   * first, and the ones that were already there run after the new ones.
   */
  lemma CleanupsRunInReverse(ctx: Context, cs: seq<Cleanup>)
    requires AllSucceed(cs) && AllSucceed(ctx.cleanups)
    ensures RunCleanups(RegisterAll(ctx, cs).cleanups).ran == Reverse(Tags(cs)) + Tags(ctx.cleanups)
  {
    RegisterAllReverses(ctx, cs);
    TagsConcat(Reverse(cs), ctx.cleanups);
    TagsReverse(cs);
    var all := Reverse(cs) + ctx.cleanups;
    assert AllSucceed(all) by {
      forall i | 0 <= i < |all|
        ensures all[i].Callable? && all[i].throws.None?
      {
        if i < |cs| {
          assert all[i] == cs[|cs| - 1 - i];
        } else {
          assert all[i] == ctx.cleanups[i - |cs|];
        }
      }
    }
  }

  // ------------------------------------------------------- inUboContext

  /**
   * How the application function ends: with a value (a function among them
   * is registered as a cleanup) or none, or with an error.
   */
  datatype AppOutcome = Completes(callback: Option<Cleanup>) | Fails(error: Value)

  /** The application passed to `inUboContext`: what it declares, and how it ends. */
  datatype App = App(body: seq<Declaration>, outcome: AppOutcome)

  datatype Finished = Finished(context: Context, ran: seq<nat>, thrown: Option<Value>)

  /**
   * `inUboContext`: loads the middleware and the configuration module, runs
   * the application and registers what it returns when that is a function,
   * and in every case runs the cleanups afterwards. An error thrown by a cleanup
   * replaces the one that ended the body.
   */
  function InUboContext(ctx: Context, config: Export, app: App): (r: Finished)
    ensures var loaded := LoadMiddlewares(ctx, [Module(ConfigPath, config)]);
      loaded.thrown.Some? ==>
        r.ran == RunCleanups(loaded.context.cleanups).ran
        && r.thrown == (if RunCleanups(loaded.context.cleanups).thrown.Some?
                        then RunCleanups(loaded.context.cleanups).thrown else loaded.thrown)
  {
    var loaded := LoadMiddlewares(ctx, [Module(ConfigPath, config)]);
    var body :=
      if loaded.thrown.Some? then loaded
      else
        var declared := DeclareAll(loaded.context, app.body);
        match app.outcome
        case Fails(e) => Outcome(declared, Some(e))
        case Completes(None) => Outcome(declared, None)
        case Completes(Some(cb)) =>
          Outcome(if cb.Callable? then RegisterCleanup(declared, cb) else declared, None);
    var run := RunCleanups(body.context.cleanups);
    Finished(body.context, run.ran, if run.thrown.Some? then run.thrown else body.thrown)
  }

  /**
   * The callback the application returns is the last cleanup registered,
   * so it runs first; the other cleanups still run after it.
   */
  lemma CallbackRunsFirst(ctx: Context, config: Export, body: seq<Declaration>, tag: nat)
    requires LoadMiddlewares(ctx, [Module(ConfigPath, config)]).thrown.None?
    ensures var r := InUboContext(ctx, config, App(body, Completes(Some(Callable(tag, None)))));
      |r.ran| > 0 && r.ran[0] == tag
  {
  }

  /** A returned value that is not a function is not registered: only the declared cleanups run. */
  lemma NonFunctionResultNotRegistered(ctx: Context, config: Export, body: seq<Declaration>, v: Value)
    requires LoadMiddlewares(ctx, [Module(ConfigPath, config)]).thrown.None?
    ensures var r := InUboContext(ctx, config, App(body, Completes(Some(NotCallable(v)))));
      r.context.cleanups == DeclareAll(LoadMiddlewares(ctx, [Module(ConfigPath, config)]).context, body).cleanups
  {
  }

  /** An application that fails still has every registered cleanup run, and its error is what escapes. */
  lemma FailingAppStillCleansUp(ctx: Context, config: Export, body: seq<Declaration>, e: Value)
    requires LoadMiddlewares(ctx, [Module(ConfigPath, config)]).thrown.None?
    requires AllSucceed(DeclareAll(LoadMiddlewares(ctx, [Module(ConfigPath, config)]).context, body).cleanups)
    ensures var r := InUboContext(ctx, config, App(body, Fails(e)));
      r.thrown == Some(e) && r.ran == Tags(r.context.cleanups)
  {
  }

  /** A configuration module that exports an object never loads, even with a function `default` export. */
  lemma ConfigObjectRejected(ctx: Context, app: App)
    requires LoadFrom(ctx, 0).thrown.None?
    ensures var r := InUboContext(ctx, ExportsObject(true), app);
      var loaded := LoadFrom(ctx, 0).context;
      RunCleanups(loaded.cleanups).thrown.None? ==>
        r.thrown == Some(Fail("ubo-core#: middleware " + ConfigPath + " should export function"))
  {
  }
}
