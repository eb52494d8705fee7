/**
 * `BaseApp`, the base of every app: it asks the manager to broadcast JSON
 * content and hands each qiwiscall reply to its proxy. The app's signals toward the
 * manager are recorded in `broadcasts` (and in the proxy's `requested`).
 */
module App {
  import opened Wrappers
  import opened Json
  import opened Records
  import opened Proxy

  /** Content given to `broadcast`: a JSON value, or something `json.dumps` refuses with TypeError. */
  datatype Content = Encodable(j: Json) | Unencodable

  class BaseApp {
    const name: string
    const codec: Codec
    /** `self.qiwiscall`. */
    const proxy: CallProxy
    /** Every `broadcastRequested(channel, msg)` emitted, in order. */
    var broadcasts: seq<(string, string)>

    constructor(name: string, codec: Codec)
      ensures this.name == name && this.codec == codec && fresh(proxy) && proxy.codec == codec
      ensures broadcasts == [] && proxy.results == map[] && proxy.requested == []
    {
      this.name := name;
      this.codec := codec;
      proxy := new CallProxy(codec);
      broadcasts := [];
    }

    /** `broadcast`: content `json.dumps` refuses is dropped; anything else is sent as its JSON text. */
    method Broadcast(channel: string, content: Content)
      modifies this
      ensures broadcasts == old(broadcasts) + if content.Encodable? then [(channel, codec.dumps(content.j))] else []
    {
      if content.Encodable? {
        broadcasts := broadcasts + [(channel, codec.dumps(content.j))];
      }
    }

    /**
     * `_receivedQiwiscallResult`: a reply that does not decode to a
     * QiwiscallResult is dropped; any other updates, and discards, the
     * pending result of `request`.
     */
    method ReceivedCallResult(request: string, msg: string) returns (found: bool)
      modifies proxy, if request in proxy.results then {proxy.results[request]} else {}
      ensures LoadsCallResult(codec, msg).None? ==> !found && unchanged(proxy)
      ensures LoadsCallResult(codec, msg).None? && request in old(proxy.results) ==> unchanged(old(proxy.results)[request])
      ensures LoadsCallResult(codec, msg).Some? ==>
        && (found <==> request in old(proxy.results))
        && (found ==> old(proxy.results)[request].Snapshot() == LoadsCallResult(codec, msg).value)
        && proxy.results == old(proxy.results) - {request}
      ensures proxy.requested == old(proxy.requested)
    {
      match LoadsCallResult(codec, msg)
      case None =>
        found := false;
      case Some(r) =>
        found := proxy.UpdateResult(request, r, true);
    }
  }

  /**
   * A qiwiscall from the caller's side: the proxy sends the request, the
   * manager replies `reply` to that request text, and the very object the
   * caller got back now holds the reply, its entry gone from `results`.
   */
  method Exchange(app: BaseApp, call: string, args: map<string, CallArg>, reply: CallResult)
    returns (result: PendingResult)
    requires RoundTrips(app.codec) && app.proxy.codec == app.codec
    modifies app.proxy
    ensures fresh(result)
    ensures result.Snapshot() == reply
    ensures app.proxy.results == old(app.proxy.results) - {DumpsCallInfo(app.codec, CallInfo(call, EncodeArgs(app.codec, args)))}
  {
    result := app.proxy.Call(call, args);
    var request := app.proxy.requested[|app.proxy.requested| - 1];
    TextRoundTrips(app.codec, DefaultAppInfo("", ""), CallInfo(call, map[]), reply);
    var found := app.ReceivedCallResult(request, DumpsCallResult(app.codec, reply));
  }
}
