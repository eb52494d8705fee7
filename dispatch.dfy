/**
 * The request side of a qiwiscall as the manager handles it before anything
 * changes: `loads(QiwiscallInfo, msg)`, the check that the call is public, the
 * `getattr` lookup of the operation and `_parseArgs`, which decodes each
 * argument whose parameter is Serializable from its JSON text. Also the
 * result side of `_qiwiscall`: the QiwiscallResult built from the outcome.
 */
module Dispatch {
  import opened Wrappers
  import opened Json
  import opened Records

  /** The manager operations a request can name. */
  datatype Op =
    | CreateApp | DestroyApp | UpdateFrames | AppNames
    | ChannelNames | SubscriberNames | Subscribe | Unsubscribe

  function OpName(op: Op): string
  {
    match op
    case CreateApp => "createApp"
    case DestroyApp => "destroyApp"
    case UpdateFrames => "updateFrames"
    case AppNames => "appNames"
    case ChannelNames => "channelNames"
    case SubscriberNames => "subscriberNames"
    case Subscribe => "subscribe"
    case Unsubscribe => "unsubscribe"
  }

  /** `getattr(manager, call)`: the operation of that name, if any. */
  function OpNamed(call: string): (r: Option<Op>)
    ensures r.Some? ==> OpName(r.value) == call
    ensures r.None? ==> forall op :: OpName(op) != call
  {
    if call == "createApp" then Some(CreateApp)
    else if call == "destroyApp" then Some(DestroyApp)
    else if call == "updateFrames" then Some(UpdateFrames)
    else if call == "appNames" then Some(AppNames)
    else if call == "channelNames" then Some(ChannelNames)
    else if call == "subscriberNames" then Some(SubscriberNames)
    else if call == "subscribe" then Some(Subscribe)
    else if call == "unsubscribe" then Some(Unsubscribe)
    else None
  }

  /** The public names: no operation name starts with an underscore. */
  lemma OpNamesArePublic(op: Op)
    ensures !IsPrivate(OpName(op))
    ensures OpNamed(OpName(op)) == Some(op)
  {
  }

  predicate IsPrivate(call: string)
  {
    |call| > 0 && call[0] == '_'
  }

  datatype ParamType = StrParam | InfoParam | BoolParam

  /** A parameter of an operation's signature; `required` when it has no default. */
  datatype Param = Param(name: string, ty: ParamType, required: bool)

  /**
   * The signatures. `withReplace` selects the manager whose `createApp`
   * has the `replace: bool = False` parameter.
   */
  function Params(op: Op, withReplace: bool): (ps: seq<Param>)
    ensures forall i, j :: 0 <= i < j < |ps| ==> ps[i].name != ps[j].name
  {
    match op
    case CreateApp =>
      [Param("name", StrParam, true), Param("info", InfoParam, true)]
      + (if withReplace then [Param("replace", BoolParam, false)] else [])
    case DestroyApp => [Param("name", StrParam, true)]
    case UpdateFrames => [Param("name", StrParam, true)]
    case AppNames => []
    case ChannelNames => []
    case SubscriberNames => [Param("channel", StrParam, true)]
    case Subscribe => [Param("app", StrParam, true), Param("channel", StrParam, true)]
    case Unsubscribe => [Param("app", StrParam, true), Param("channel", StrParam, true)]
  }

  /** `signature.parameters[name]`. */
  function ParamNamed(ps: seq<Param>, name: string): (r: Option<Param>)
    ensures r.Some? <==> exists i :: 0 <= i < |ps| && ps[i].name == name
    ensures r.Some? ==> r.value in ps && r.value.name == name
  {
    if ps == [] then None
    else if ps[0].name == name then Some(ps[0])
    else
      var r := ParamNamed(ps[1..], name);
      assert r.Some? ==> r.value in ps;
      assert (exists i :: 0 <= i < |ps| && ps[i].name == name) ==> exists i :: 0 <= i < |ps[1..]| && ps[1..][i].name == name by {
        if exists i :: 0 <= i < |ps| && ps[i].name == name {
          var i :| 0 <= i < |ps| && ps[i].name == name;
          assert ps[1..][i - 1].name == name;
        }
      }
      r
  }

  /**
   * An argument after parsing: the string of a `str` parameter, the AppInfo
   * decoded for the Serializable one, and the JSON value itself for `replace`.
   */
  datatype Arg = StrArg(s: string) | InfoArg(info: AppInfo) | PlainArg(j: Json)

  predicate HasType(a: Arg, ty: ParamType)
  {
    match ty
    case StrParam => a.StrArg?
    case InfoParam => a.InfoArg?
    case BoolParam => a.PlainArg?
  }

  /** The argument as the proxy of a caller sends it. */
  function ArgAsCallArg(a: Arg): CallArg
  {
    match a
    case StrArg(s) => Plain(JStr(s))
    case InfoArg(info) => Serial(info)
    case PlainArg(j) => Plain(j)
  }

  /**
   * One argument: `loads(cls, arg)` for the Serializable parameter, which
   * fails unless the value is text that decodes to an AppInfo; the value
   * itself for `replace`. A `str` parameter takes only a JSON string here.
   */
  function ParseArg(codec: Codec, ty: ParamType, j: Json): (r: Option<Arg>)
    ensures r.Some? ==> HasType(r.value, ty)
    ensures ty == BoolParam ==> r == Some(PlainArg(j))
    ensures ty == StrParam ==> (r.Some? <==> j.JStr?) && (r.Some? ==> r.value == StrArg(j.s))
    ensures ty == InfoParam ==> (r.Some? <==> j.JStr? && LoadsAppInfo(codec, j.s).Some?)
    ensures ty == InfoParam && r.Some? ==> r.value == InfoArg(LoadsAppInfo(codec, j.s).value)
  {
    match ty
    case StrParam => if j.JStr? then Some(StrArg(j.s)) else None
    case BoolParam => Some(PlainArg(j))
    case InfoParam =>
      if !j.JStr? then None
      else match LoadsAppInfo(codec, j.s)
        case None => None
        case Some(info) => Some(InfoArg(info))
  }

  /** What can go wrong in a qiwiscall; each is an exception of the source. */
  datatype Error =
    | Undecodable                 // loads(QiwiscallInfo, msg) raised
    | NotPublic                   // ValueError: the name starts with "_"
    | NoSuchAttribute(call: string) // AttributeError from getattr
    | UnknownArgument             // KeyError from signature.parameters
    | BadArgument                 // an argument that does not decode to its parameter's type
    | MissingArgument             // TypeError from call(**args)
    | Rejected                    // RuntimeError: the user pressed Cancel
    | NoSuchApp(name: string)     // KeyError from _apps
    | NoAppInfos                  // TypeError: appInfos is None
    | NoSuchAppInfo(name: string) // KeyError from appInfos
    | LoadFailed                  // importing the module or constructing the app raised

  /** `repr(error)`. */
  function Repr(e: Error): string
  {
    match e
    case Undecodable => "JSONDecodeError()"
    case NotPublic => "ValueError('Only public method calls are allowed.')"
    case NoSuchAttribute(call) => "AttributeError('" + call + "')"
    case UnknownArgument => "KeyError()"
    case BadArgument => "TypeError()"
    case MissingArgument => "TypeError()"
    case Rejected => "RuntimeError('The user rejected the request.')"
    case NoSuchApp(name) => "KeyError('" + name + "')"
    case NoAppInfos => "TypeError()"
    case NoSuchAppInfo(name) => "KeyError('" + name + "')"
    case LoadFailed => "ImportError()"
  }

  /**
   * `_parseArgs`: every argument must name a parameter, and decode to its
   * type. The order in which Python meets the arguments is not modelled: an
   * unknown name wins over a bad value.
   */
  function ParseArgs(codec: Codec, ps: seq<Param>, args: map<string, Json>): (r: Result<map<string, Arg>, Error>)
    ensures r.Ok? <==> forall k :: k in args ==> ParamNamed(ps, k).Some? && ParseArg(codec, ParamNamed(ps, k).value.ty, args[k]).Some?
    ensures r.Ok? ==> r.value.Keys == args.Keys
    ensures r.Ok? ==> forall k :: k in args ==> Some(r.value[k]) == ParseArg(codec, ParamNamed(ps, k).value.ty, args[k])
    ensures r.Err? ==> r.error == (if exists k :: k in args && ParamNamed(ps, k).None? then UnknownArgument else BadArgument)
  {
    if exists k :: k in args && ParamNamed(ps, k).None? then Err(UnknownArgument)
    else if exists k :: k in args && ParseArg(codec, ParamNamed(ps, k).value.ty, args[k]).None? then Err(BadArgument)
    else Ok(map k | k in args :: ParseArg(codec, ParamNamed(ps, k).value.ty, args[k]).value)
  }

  /** A decoded, public, known and well-typed request. */
  datatype Request = Request(op: Op, args: map<string, Arg>)

  /** `_handleQiwiscall` up to the confirmation dialog: decode, refuse private names, look up, parse. */
  function Prepare(codec: Codec, msg: string, withReplace: bool): (r: Result<Request, Error>)
    ensures LoadsCallInfo(codec, msg).None? ==> r == Err(Undecodable)
    ensures r.Ok? ==> LoadsCallInfo(codec, msg).Some?
    ensures r.Ok? ==> var info := LoadsCallInfo(codec, msg).value;
      !IsPrivate(info.call) && OpNamed(info.call) == Some(r.value.op) && r.value.args.Keys == info.args.Keys
    ensures r.Ok? ==> forall k :: k in r.value.args ==>
      var p := ParamNamed(Params(r.value.op, withReplace), k); p.Some? && HasType(r.value.args[k], p.value.ty)
    ensures r.Ok? ==> ParseArgs(codec, Params(r.value.op, withReplace), LoadsCallInfo(codec, msg).value.args) == Ok(r.value.args)
  {
    match LoadsCallInfo(codec, msg)
    case None => Err(Undecodable)
    case Some(info) =>
      if IsPrivate(info.call) then Err(NotPublic)
      else match OpNamed(info.call)
        case None => Err(NoSuchAttribute(info.call))
        case Some(op) =>
          match ParseArgs(codec, Params(op, withReplace), info.args)
          case Err(e) => Err(e)
          case Ok(args) => Ok(Request(op, args))
  }

  /** A required parameter that was given no argument: `call(**args)` raises TypeError. */
  predicate MissesArgument(req: Request, withReplace: bool)
  {
    exists p :: p in Params(req.op, withReplace) && p.required && p.name !in req.args
  }

  /** A private name is refused before the manager looks it up. */
  lemma PrivateNamesRefused(codec: Codec, msg: string, withReplace: bool)
    requires LoadsCallInfo(codec, msg).Some? && IsPrivate(LoadsCallInfo(codec, msg).value.call)
    ensures Prepare(codec, msg, withReplace) == Err(NotPublic)
  {
  }

  /** A name that is no operation is refused with the name. */
  lemma UnknownNamesRefused(codec: Codec, msg: string, withReplace: bool)
    requires LoadsCallInfo(codec, msg).Some?
    requires var call := LoadsCallInfo(codec, msg).value.call; !IsPrivate(call) && forall op :: OpName(op) != call
    ensures Prepare(codec, msg, withReplace) == Err(NoSuchAttribute(LoadsCallInfo(codec, msg).value.call))
  {
  }

  /** A well-typed argument map for an operation: each name a parameter, each value of its type. */
  predicate WellTyped(op: Op, withReplace: bool, args: map<string, Arg>)
  {
    forall k :: k in args ==>
      ParamNamed(Params(op, withReplace), k).Some? && HasType(args[k], ParamNamed(Params(op, withReplace), k).value.ty)
  }

  /** Each argument the proxy encodes parses back to itself under its parameter's type. */
  lemma ArgRoundTrip(codec: Codec, ty: ParamType, a: Arg)
    requires RoundTrips(codec) && HasType(a, ty)
    ensures ParseArg(codec, ty, EncodeArg(codec, ArgAsCallArg(a))) == Some(a)
  {
  }

  /**
   * The request a caller's proxy sends for a well-typed call is the request the
   * manager parses: Serializable arguments come back from their JSON text.
   */
  lemma RequestRoundTrip(codec: Codec, op: Op, withReplace: bool, args: map<string, Arg>)
    requires RoundTrips(codec)
    requires WellTyped(op, withReplace, args)
    ensures var sent := map k | k in args :: ArgAsCallArg(args[k]);
      Prepare(codec, DumpsCallInfo(codec, CallInfo(OpName(op), EncodeArgs(codec, sent))), withReplace) == Ok(Request(op, args))
  {
    var sent := map k | k in args :: ArgAsCallArg(args[k]);
    var info := CallInfo(OpName(op), EncodeArgs(codec, sent));
    TextRoundTrips(codec, DefaultAppInfo("", ""), info, CallResult(false, false, JNull, None));
    ParseArgsRoundTrip(codec, Params(op, withReplace), args, info.args);
    OpNamesArePublic(op);
  }

  lemma ParseArgsRoundTrip(codec: Codec, ps: seq<Param>, args: map<string, Arg>, sent: map<string, Json>)
    requires RoundTrips(codec)
    requires forall k :: k in args ==> ParamNamed(ps, k).Some? && HasType(args[k], ParamNamed(ps, k).value.ty)
    requires sent.Keys == args.Keys && forall k :: k in args ==> sent[k] == EncodeArg(codec, ArgAsCallArg(args[k]))
    ensures ParseArgs(codec, ps, sent) == Ok(args)
  {
    forall k | k in args ensures ParseArg(codec, ParamNamed(ps, k).value.ty, sent[k]) == Some(args[k]) {
      ArgRoundTrip(codec, ParamNamed(ps, k).value.ty, args[k]);
    }
    var parsed := ParseArgs(codec, ps, sent);
    assert parsed.Ok?;
    assert parsed.value == args;
  }

  // ----- the result side of `_qiwiscall` -----

  /** What a successful operation returns. */
  datatype Value = NoValue | Names(names: seq<string>) | NameSet(members: set<string>) | Flag(b: bool)

  /** The value as JSON; None for a set, which `json.dumps` refuses. */
  function ValueJson(v: Value): (r: Option<Json>)
    ensures r.None? <==> v.NameSet?
  {
    match v
    case NoValue => Some(JNull)
    case Names(names) => Some(JArr(StringsJson(names)))
    case NameSet(_) => None
    case Flag(b) => Some(JBool(b))
  }

  /**
   * The QiwiscallResult `_qiwiscall` reports for an outcome, or None when
   * `dumps(result)` raises (a successful value that is not JSON).
   */
  function Reply(outcome: Result<Value, Error>): (r: Option<CallResult>)
    ensures r.Some? ==> r.value.done
    ensures r.Some? ==> (r.value.success <==> outcome.Ok?)
    ensures outcome.Err? ==> r == Some(CallResult(true, false, JNull, Some(Repr(outcome.error))))
    ensures outcome.Ok? ==> (r.Some? <==> ValueJson(outcome.value).Some?)
    ensures outcome.Ok? && r.Some? ==> r.value.value == ValueJson(outcome.value).value && r.value.error.None?
  {
    match outcome
    case Err(e) => Some(CallResult(true, false, JNull, Some(Repr(e))))
    case Ok(v) =>
      match ValueJson(v)
      case None => None
      case Some(j) => Some(CallResult(true, true, j, None))
  }

  /** Names come back to the caller as the same names, in the same order. */
  lemma NamesReplyDecodes(codec: Codec, names: seq<string>)
    requires RoundTrips(codec)
    ensures var r := Reply(Ok(Names(names)));
      r.Some? && LoadsCallResult(codec, DumpsCallResult(codec, r.value)) == r
    ensures Reply(Ok(Names(names))).value.value.JArr?
    ensures JsonStrings(Reply(Ok(Names(names))).value.value.items) == Some(names)
  {
    var r := Reply(Ok(Names(names))).value;
    TextRoundTrips(codec, DefaultAppInfo("", ""), CallInfo("", map[]), r);
    JsonStringsOfStrings(names);
  }
}
