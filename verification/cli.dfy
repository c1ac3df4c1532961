/**
 * The command-line entry of the tool (`cli.ts`): the configuration
 * defaults and the helpers that consume positional arguments from the
 * front of the argument list. A thrown `Error` is `Err` with its message.
 */
module Cli {
  import opened Wrappers

  const ActionRequired := "action is required"

  /** The message of the `TypeError` `path.basename(undefined)` throws. */
  const BasenameTypeError := "The \"path\" argument must be of type string. Received undefined"

  /** `Partial<Config>`: `appName` may be absent. */
  datatype Options = Options(appName: Option<string>)

  datatype Config = Config(appName: string)

  /** A parameter taken (or not) and the argument list left behind. */
  datatype Taken = Taken(value: Option<string>, rest: seq<string>)

  /** `p` without its trailing slashes. */
  function TrimSlashes(p: string): (r: string)
    ensures |r| <= |p| && r == p[..|r|]
    ensures |r| > 0 ==> r[|r| - 1] != '/'
    ensures forall i :: |r| <= i < |p| ==> p[i] == '/'
  {
    if |p| > 0 && p[|p| - 1] == '/' then TrimSlashes(p[..|p| - 1]) else p
  }

  /** The part of `p` after its last slash. */
  function AfterLastSlash(p: string): (r: string)
    ensures |r| <= |p| && r == p[|p| - |r|..]
    ensures forall i :: 0 <= i < |r| ==> r[i] != '/'
    ensures |r| < |p| ==> p[|p| - |r| - 1] == '/'
  {
    if |p| == 0 || p[|p| - 1] == '/' then "" else AfterLastSlash(p[..|p| - 1]) + [p[|p| - 1]]
  }

  /** POSIX `path.basename`: the last path segment, ignoring trailing slashes. */
  function Basename(p: string): (r: string)
    ensures forall i :: 0 <= i < |r| ==> r[i] != '/'
    ensures var t := TrimSlashes(p);
      |r| <= |t| && r == t[|t| - |r|..] && (|r| < |t| ==> t[|t| - |r| - 1] == '/')
  {
    AfterLastSlash(TrimSlashes(p))
  }

  /**
   * `fillConfigDefaults`: a provided `appName` is kept, even the empty
   * string (`??` only replaces a missing one); otherwise the basename of
   * the script path `argv[1]` is used, which throws when it is missing.
   */
  function FillConfigDefaults(options: Option<Options>, argv1: Option<string>): (r: Result<Config, string>)
    ensures options.Some? && options.value.appName.Some? ==> r == Ok(Config(options.value.appName.value))
    ensures (options.None? || options.value.appName.None?) ==>
      r == (if argv1.Some? then Ok(Config(Basename(argv1.value))) else Err(BasenameTypeError))
  {
    if options.Some? && options.value.appName.Some? then Ok(Config(options.value.appName.value))
    else if argv1.Some? then Ok(Config(Basename(argv1.value)))
    else Err(BasenameTypeError)
  }

  /** `optionalParam`: the first argument, removed from the list; the fallback when there is none. */
  function OptionalParam(args: seq<string>, fallback: Option<string>): (r: Taken)
    ensures |args| > 0 ==> r.value == Some(args[0]) && [r.value.value] + r.rest == args
    ensures |args| == 0 ==> r.value == fallback && r.rest == args
  {
    if |args| > 0 then Taken(Some(args[0]), args[1..]) else Taken(fallback, args)
  }

  /** `x || die(message)` on a string-or-undefined: `undefined` and `""` are falsy. */
  predicate Falsy(v: Option<string>) {
    v.None? || v.value == ""
  }

  /**
   * `mandatoryParam`: the first argument, or an error with the given
   * message when there is none or it is empty. An empty first argument is
   * consumed before the error is thrown.
   */
  function MandatoryParam(args: seq<string>, failMessage: string): (r: Result<Taken, string>)
    ensures r.Err? <==> |args| == 0 || args[0] == ""
    ensures r.Err? ==> r.error == failMessage
    ensures r.Ok? ==> r.value.value == Some(args[0]) && r.value.rest == args[1..]
  {
    var taken := OptionalParam(args, None);
    if Falsy(taken.value) then Err(failMessage) else Ok(taken)
  }

  /** The argument list `mandatoryParam` leaves behind, whether it throws or not. */
  function RestAfterMandatory(args: seq<string>): (r: seq<string>)
    ensures |args| > 0 ==> r == args[1..]
    ensures |args| == 0 ==> r == []
  {
    OptionalParam(args, None).rest
  }

  /** What `main` starts: the action to run and the arguments after it. */
  datatype Invocation = Invocation(action: string, rest: seq<string>)

  /**
   * The argument check of `main`: exactly one argument is consumed as the
   * action, and none (or an empty one) fails with "action is required".
   */
  function Main(args: seq<string>): (r: Result<Invocation, string>)
    ensures r.Err? <==> |args| == 0 || args[0] == ""
    ensures r.Err? ==> r.error == ActionRequired
    ensures r.Ok? ==> r.value.action == args[0] && [r.value.action] + r.value.rest == args
  {
    match MandatoryParam(args, ActionRequired)
    case Err(e) => Err(e)
    case Ok(taken) => Ok(Invocation(taken.value.value, taken.rest))
  }

  /**
   * How `cliRunDefault` ends: the defaults throw out of it; `main` rejects
   * and the rejection is caught and logged under the application name; or
   * `main` starts the action.
   */
  datatype Run = Threw(error: string) | Logged(appName: string, error: string) | Started(invocation: Invocation)

  /**
   * `cliRunDefault`: the configuration is completed first, which may throw;
   * then `main` gets the arguments after the first two, and its rejection
   * is caught and logged rather than thrown.
   */
  function CliRunDefault(argv: seq<string>, options: Option<Options>): (r: Run)
    ensures var config := FillConfigDefaults(options, if |argv| > 1 then Some(argv[1]) else None);
      && (r.Threw? <==> config.Err?)
      && (r.Threw? ==> r.error == config.error)
      && (r.Logged? <==> config.Ok? && (|argv| <= 2 || argv[2] == ""))
      && (r.Logged? ==> r.appName == config.value.appName && r.error == ActionRequired)
    ensures r.Started? ==> |argv| > 2 && r.invocation.action == argv[2] && r.invocation.rest == argv[3..]
  {
    var config := FillConfigDefaults(options, if |argv| > 1 then Some(argv[1]) else None);
    if config.Err? then Threw(config.error)
    else match Main(if |argv| > 2 then argv[2..] else [])
      case Err(e) => Logged(config.value.appName, e)
      case Ok(invocation) => Started(invocation)
  }

  /** Taking a mandatory and then an optional parameter consumes the first two arguments in order. */
  lemma MandatoryThenOptional(args: seq<string>, fallback: string)
    requires |args| >= 2 && args[0] != ""
    ensures var first := MandatoryParam(args, ActionRequired);
      && first.Ok?
      && var second := OptionalParam(first.value.rest, Some(fallback));
      && second.value == Some(args[1]) && second.rest == args[2..]
  {
  }

  /** The basename drops the directory part of a path. */
  lemma BasenameDropsDirectory(dir: string, name: string)
    requires |name| > 0 && forall i :: 0 <= i < |name| ==> name[i] != '/'
    ensures Basename(dir + "/" + name) == name
  {
    var p := dir + "/" + name;
    assert TrimSlashes(p) == p by {
      assert p[|p| - 1] == name[|name| - 1];
    }
    assert p[|p| - |name| - 1] == '/';
    assert p[|p| - |name|..] == name;
  }

  /** Trailing slashes do not count: the last named segment is the basename. */
  lemma BasenameIgnoresTrailingSlash(p: string)
    ensures Basename(p + "/") == Basename(p)
  {
    var q := p + "/";
    assert q[..|q| - 1] == p;
  }
}
