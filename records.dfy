/**
 * The three Serializable records of qiwis.py (AppInfo, QiwiscallInfo,
 * QiwiscallResult; AppInfo, QiwicallInfo, QiwicallResult in qiwi.py) and the
 * module functions `dumps`/`loads`, taken at the level of decoded JSON:
 * `dumps(obj)` is `json.dumps(asdict(obj))` and `loads(cls, text)` is
 * `cls(**json.loads(text))`, which rejects unknown and missing fields.
 */
module Records {
  import opened Wrappers
  import opened Json

  /** Information required to create an app. */
  datatype AppInfo = AppInfo(
    moduleName: string,
    cls: string,
    path: string,
    show: bool,
    pos: string,
    channel: seq<string>,
    args: Option<map<string, Json>>)

  /** `AppInfo(module=..., cls=...)` with every other field at its declared default. */
  function DefaultAppInfo(moduleName: string, cls: string): (info: AppInfo)
    ensures info.moduleName == moduleName && info.cls == cls
    ensures info.path == "." && info.show && info.pos == "" && info.channel == [] && info.args == None
  {
    AppInfo(moduleName, cls, ".", true, "", [], None)
  }

  /** A qiwiscall request: the name of the call and its keyword arguments. */
  datatype CallInfo = CallInfo(call: string, args: map<string, Json>)

  /** The result of a qiwiscall; `done` is false only while it is pending. */
  datatype CallResult = CallResult(done: bool, success: bool, value: Json, error: Option<string>)

  function StringsJson(ss: seq<string>): (r: seq<Json>)
    ensures |r| == |ss|
    ensures forall i :: 0 <= i < |ss| ==> r[i] == JStr(ss[i])
  {
    if ss == [] then [] else [JStr(ss[0])] + StringsJson(ss[1..])
  }

  /** The strings of a JSON list, or None when one item is not a string. */
  function JsonStrings(items: seq<Json>): (r: Option<seq<string>>)
    ensures r.Some? <==> forall i :: 0 <= i < |items| ==> items[i].JStr?
    ensures r.Some? ==> |r.value| == |items| && forall i :: 0 <= i < |items| ==> items[i] == JStr(r.value[i])
  {
    if items == [] then Some([])
    else if !items[0].JStr? then None
    else match JsonStrings(items[1..])
      case None => None
      case Some(rest) => Some([items[0].s] + rest)
  }

  lemma {:induction false} JsonStringsOfStrings(ss: seq<string>)
    ensures JsonStrings(StringsJson(ss)) == Some(ss)
  {
    var r := JsonStrings(StringsJson(ss));
    assert r.Some?;
    assert r.value == ss;
  }

  // ----- field readers used by the `cls(**kwargs)` constructors -----

  /** A string field with a default; None when present with another type. */
  function StrField(fields: map<string, Json>, key: string, default: string): (r: Option<string>)
    ensures key !in fields ==> r == Some(default)
    ensures key in fields ==> (r.Some? <==> fields[key].JStr?)
    ensures key in fields && r.Some? ==> fields[key] == JStr(r.value)
  {
    if key !in fields then Some(default)
    else if fields[key].JStr? then Some(fields[key].s)
    else None
  }

  /** `for channelName in info.channel`: a string yields its characters, a list its items. */
  function ChannelsOf(j: Json): (r: Option<seq<string>>)
    ensures j.JStr? ==> r.Some? && |r.value| == |j.s| && forall i :: 0 <= i < |j.s| ==> r.value[i] == [j.s[i]]
    ensures j.JArr? ==> r == JsonStrings(j.items)
    ensures !j.JStr? && !j.JArr? ==> r.None?
  {
    match j
    case JStr(s) => Some(seq(|s|, i requires 0 <= i < |s| => [s[i]]))
    case JArr(items) => JsonStrings(items)
    case _ => None
  }

  const AppInfoKeys: set<string> := {"module", "cls", "path", "show", "pos", "channel", "args"}
  const CallInfoKeys: set<string> := {"call", "args"}
  const CallResultKeys: set<string> := {"done", "success", "value", "error"}

  // ----- AppInfo -----

  /** `dataclasses.asdict(info)`. */
  function AppInfoToJson(info: AppInfo): (j: Json)
    ensures j.JObj? && j.fields.Keys == AppInfoKeys
  {
    JObj(map[
      "module" := JStr(info.moduleName),
      "cls" := JStr(info.cls),
      "path" := JStr(info.path),
      "show" := JBool(info.show),
      "pos" := JStr(info.pos),
      "channel" := JArr(StringsJson(info.channel)),
      "args" := if info.args.None? then JNull else JObj(info.args.value)])
  }

  /**
   * `AppInfo(**j)`: module and cls are required and no other key is accepted.
   * The dataclass checks no type; the model reads `show` by its truth value,
   * as `if info.show` does, and `channel` by what iterating it visits.
   */
  function AppInfoFromJson(j: Json): (r: Option<AppInfo>)
    ensures r.Some? <==>
      && j.JObj? && j.fields.Keys <= AppInfoKeys
      && "module" in j.fields && j.fields["module"].JStr?
      && "cls" in j.fields && j.fields["cls"].JStr?
      && ("path" in j.fields ==> j.fields["path"].JStr?)
      && ("pos" in j.fields ==> j.fields["pos"].JStr?)
      && ("channel" in j.fields ==> ChannelsOf(j.fields["channel"]).Some?)
      && ("args" in j.fields ==> j.fields["args"].JNull? || j.fields["args"].JObj?)
    ensures r.Some? ==>
      && r.value.moduleName == j.fields["module"].s && r.value.cls == j.fields["cls"].s
      && r.value.path == (if "path" in j.fields then j.fields["path"].s else ".")
      && r.value.pos == (if "pos" in j.fields then j.fields["pos"].s else "")
      && (r.value.show <==> "show" !in j.fields || Truthy(j.fields["show"]))
      && r.value.channel == (if "channel" in j.fields then ChannelsOf(j.fields["channel"]).value else [])
  {
    if !j.JObj? || !(j.fields.Keys <= AppInfoKeys) then None
    else
      var f := j.fields;
      if "module" !in f || "cls" !in f || !f["module"].JStr? || !f["cls"].JStr? then None
      else
        var path := StrField(f, "path", ".");
        var show := if "show" in f then Truthy(f["show"]) else true;
        var pos := StrField(f, "pos", "");
        var channel := if "channel" in f then ChannelsOf(f["channel"]) else Some([]);
        var args := if "args" !in f || f["args"].JNull? then Some(None)
                    else if f["args"].JObj? then Some(Some(f["args"].fields))
                    else None;
        if path.None? || pos.None? || channel.None? || args.None? then None
        else Some(AppInfo(f["module"].s, f["cls"].s, path.value, show, pos.value, channel.value, args.value))
  }

  /**
   * What the dataclass lets through: a string `channel` subscribes to each of
   * its characters, and a `show` of 0 hides the frames.
   */
  lemma LooseFieldsAccepted()
    ensures var j := JObj(map["module" := JStr("m"), "cls" := JStr("C"), "channel" := JStr("db"), "show" := JNum(0.0)]);
      && AppInfoFromJson(j).Some?
      && AppInfoFromJson(j).value.channel == ["d", "b"]
      && !AppInfoFromJson(j).value.show
  {
    var j := JObj(map["module" := JStr("m"), "cls" := JStr("C"), "channel" := JStr("db"), "show" := JNum(0.0)]);
    assert j.fields.Keys <= AppInfoKeys;
    var c := ChannelsOf(JStr("db")).value;
    assert c == ["d", "b"];
  }

  lemma AppInfoRoundTrip(info: AppInfo)
    ensures AppInfoFromJson(AppInfoToJson(info)) == Some(info)
  {
    JsonStringsOfStrings(info.channel);
  }

  // ----- CallInfo -----

  function CallInfoToJson(info: CallInfo): (j: Json)
    ensures j.JObj? && j.fields.Keys == CallInfoKeys
  {
    JObj(map["call" := JStr(info.call), "args" := JObj(info.args)])
  }

  /** `QiwiscallInfo(**j)`: call is required, args defaults to the empty dict. */
  function CallInfoFromJson(j: Json): (r: Option<CallInfo>)
    ensures r.Some? <==>
      && j.JObj? && j.fields.Keys <= CallInfoKeys
      && "call" in j.fields && j.fields["call"].JStr?
      && ("args" in j.fields ==> j.fields["args"].JObj?)
    ensures r.Some? ==>
      && r.value.call == j.fields["call"].s
      && r.value.args == (if "args" in j.fields then j.fields["args"].fields else map[])
  {
    if !j.JObj? || !(j.fields.Keys <= CallInfoKeys) then None
    else
      var f := j.fields;
      if "call" !in f || !f["call"].JStr? then None
      else if "args" !in f then Some(CallInfo(f["call"].s, map[]))
      else if f["args"].JObj? then Some(CallInfo(f["call"].s, f["args"].fields))
      else None
  }

  lemma CallInfoRoundTrip(info: CallInfo)
    ensures CallInfoFromJson(CallInfoToJson(info)) == Some(info)
  {
  }

  // ----- CallResult -----

  function CallResultToJson(r: CallResult): (j: Json)
    ensures j.JObj? && j.fields.Keys == CallResultKeys
  {
    JObj(map[
      "done" := JBool(r.done),
      "success" := JBool(r.success),
      "value" := r.value,
      "error" := if r.error.None? then JNull else JStr(r.error.value)])
  }

  /** `QiwiscallResult(**j)`: done and success are required; value and error default to null. */
  function CallResultFromJson(j: Json): (r: Option<CallResult>)
    ensures r.Some? <==>
      && j.JObj? && j.fields.Keys <= CallResultKeys
      && "done" in j.fields && j.fields["done"].JBool?
      && "success" in j.fields && j.fields["success"].JBool?
      && ("error" in j.fields ==> j.fields["error"].JNull? || j.fields["error"].JStr?)
    ensures r.Some? ==>
      && r.value.done == j.fields["done"].b && r.value.success == j.fields["success"].b
      && r.value.value == (if "value" in j.fields then j.fields["value"] else JNull)
      && r.value.error == (if "error" !in j.fields || j.fields["error"].JNull? then None else Some(j.fields["error"].s))
  {
    if !j.JObj? || !(j.fields.Keys <= CallResultKeys) then None
    else
      var f := j.fields;
      if "done" !in f || "success" !in f || !f["done"].JBool? || !f["success"].JBool? then None
      else
        var value := if "value" in f then f["value"] else JNull;
        var error := if "error" !in f || f["error"].JNull? then Some(None)
                     else if f["error"].JStr? then Some(Some(f["error"].s))
                     else None;
        if error.None? then None
        else Some(CallResult(f["done"].b, f["success"].b, value, error.value))
  }

  lemma CallResultRoundTrip(r: CallResult)
    ensures CallResultFromJson(CallResultToJson(r)) == Some(r)
  {
  }

  // ----- text level: `dumps` and `loads` through the codec -----

  function DumpsCallInfo(codec: Codec, info: CallInfo): string
  {
    codec.dumps(CallInfoToJson(info))
  }

  function LoadsCallInfo(codec: Codec, text: string): (r: Option<CallInfo>)
    ensures r.Some? <==> codec.loads(text).Some? && CallInfoFromJson(codec.loads(text).value).Some?
  {
    match codec.loads(text)
    case None => None
    case Some(j) => CallInfoFromJson(j)
  }

  function DumpsCallResult(codec: Codec, r: CallResult): string
  {
    codec.dumps(CallResultToJson(r))
  }

  function LoadsCallResult(codec: Codec, text: string): (r: Option<CallResult>)
    ensures r.Some? <==> codec.loads(text).Some? && CallResultFromJson(codec.loads(text).value).Some?
  {
    match codec.loads(text)
    case None => None
    case Some(j) => CallResultFromJson(j)
  }

  function DumpsAppInfo(codec: Codec, info: AppInfo): string
  {
    codec.dumps(AppInfoToJson(info))
  }

  function LoadsAppInfo(codec: Codec, text: string): (r: Option<AppInfo>)
    ensures r.Some? <==> codec.loads(text).Some? && AppInfoFromJson(codec.loads(text).value).Some?
  {
    match codec.loads(text)
    case None => None
    case Some(j) => AppInfoFromJson(j)
  }

  /** The wire round trip of every record: `loads(cls, dumps(x)) == x`. */
  lemma TextRoundTrips(codec: Codec, info: AppInfo, call: CallInfo, r: CallResult)
    requires RoundTrips(codec)
    ensures LoadsAppInfo(codec, DumpsAppInfo(codec, info)) == Some(info)
    ensures LoadsCallInfo(codec, DumpsCallInfo(codec, call)) == Some(call)
    ensures LoadsCallResult(codec, DumpsCallResult(codec, r)) == Some(r)
  {
    assert codec.loads(codec.dumps(AppInfoToJson(info))) == Some(AppInfoToJson(info));
    assert codec.loads(codec.dumps(CallInfoToJson(call))) == Some(CallInfoToJson(call));
    assert codec.loads(codec.dumps(CallResultToJson(r))) == Some(CallResultToJson(r));
    AppInfoRoundTrip(info);
    CallInfoRoundTrip(call);
    CallResultRoundTrip(r);
  }

  // ----- keyword arguments of a qiwiscall request -----

  /** An argument as a caller gives it: a JSON value, or a Serializable record. */
  datatype CallArg = Plain(j: Json) | Serial(info: AppInfo)

  /** A Serializable argument travels as its own JSON text; any other goes as it is. */
  function EncodeArg(codec: Codec, a: CallArg): (j: Json)
    ensures a.Plain? ==> j == a.j
    ensures a.Serial? ==> j.JStr?
    ensures a.Serial? && RoundTrips(codec) ==> LoadsAppInfo(codec, j.s) == Some(a.info)
  {
    match a
    case Plain(j) => j
    case Serial(info) =>
      TextRoundTripsOfInfo(codec, info);
      JStr(DumpsAppInfo(codec, info))
  }

  lemma TextRoundTripsOfInfo(codec: Codec, info: AppInfo)
    ensures RoundTrips(codec) ==> LoadsAppInfo(codec, DumpsAppInfo(codec, info)) == Some(info)
  {
    if RoundTrips(codec) {
      assert codec.loads(codec.dumps(AppInfoToJson(info))) == Some(AppInfoToJson(info));
      AppInfoRoundTrip(info);
    }
  }

  function EncodeArgs(codec: Codec, args: map<string, CallArg>): (r: map<string, Json>)
    ensures r.Keys == args.Keys
    ensures forall k :: k in args ==> r[k] == EncodeArg(codec, args[k])
  {
    map k | k in args :: EncodeArg(codec, args[k])
  }
}
