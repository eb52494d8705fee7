/**
 * `QiwiscallProxy` (`QiwicallProxy` in the older version): an app's helper that
 * turns `proxy.<call>(**args)` into a request text sent to the manager, and
 * keeps the pending result object of each request under that exact text until
 * the reply arrives and fills the object in place.
 */
module Proxy {
  import opened Wrappers
  import opened Json
  import opened Records

  /** A QiwiscallResult object, whose fields the reply overwrites in place. */
  class PendingResult {
    var done: bool
    var success: bool
    var value: Json
    var error: Option<string>

    /** `QiwiscallResult(done=False, success=False)`. */
    constructor()
      ensures Snapshot() == CallResult(false, false, JNull, None)
    {
      done := false;
      success := false;
      value := JNull;
      error := None;
    }

    /** The object's current contents as a record. */
    function Snapshot(): CallResult
      reads this
    {
      CallResult(done, success, value, error)
    }
  }

  class CallProxy {
    const codec: Codec
    /** `results`: the pending result of each request, by request text. */
    var results: map<string, PendingResult>
    /** Every request text emitted through `requested`, in order. */
    var requested: seq<string>

    constructor(codec: Codec)
      ensures this.codec == codec && results == map[] && requested == []
    {
      this.codec := codec;
      results := map[];
      requested := [];
    }

    /**
     * The first loop of `proxy(**args)`: every Serializable argument is
     * replaced by its `dumps` text, every other one is kept.
     */
    method EncodeArguments(args: map<string, CallArg>) returns (sent: map<string, Json>)
      ensures sent == EncodeArgs(codec, args)
    {
      sent := map[];
      var rest := args.Keys;
      while rest != {}
        invariant rest <= args.Keys
        invariant sent == map k | k in args.Keys - rest :: EncodeArg(codec, args[k])
        decreases |rest|
      {
        var k :| k in rest;
        sent := sent[k := EncodeArg(codec, args[k])];
        rest := rest - {k};
      }
    }

    /**
     * `proxy(**args)` for the operation `call`: a fresh pending result is
     * stored under the request text, replacing any earlier one under the same
     * text, and the text is emitted; the caller keeps the same object.
     */
    method Call(call: string, args: map<string, CallArg>) returns (result: PendingResult)
      modifies this
      ensures fresh(result) && result.Snapshot() == CallResult(false, false, JNull, None)
      ensures var msg := DumpsCallInfo(codec, CallInfo(call, EncodeArgs(codec, args)));
        results == old(results)[msg := result] && requested == old(requested) + [msg]
    {
      var sent := EncodeArguments(args);
      var msg := DumpsCallInfo(codec, CallInfo(call, sent));
      result := new PendingResult();
      results := results[msg := result];
      requested := requested + [msg];
    }

    /**
     * `update_result`: the object stored under `request` (removed from
     * `results` when `discard`, else kept) takes the four fields of `r`;
     * `found` is false, and nothing changes, for an unknown request.
     */
    method UpdateResult(request: string, r: CallResult, discard: bool) returns (found: bool)
      modifies this, if request in results then {results[request]} else {}
      ensures found <==> request in old(results)
      ensures found ==> old(results)[request].Snapshot() == r
      ensures results == if found && discard then old(results) - {request} else old(results)
      ensures requested == old(requested)
    {
      found := request in results;
      if !found {
        return;
      }
      var target := results[request];
      if discard {
        results := results - {request};
      }
      target.error := r.error;
      target.value := r.value;
      target.success := r.success;
      target.done := r.done;
    }
  }
}
