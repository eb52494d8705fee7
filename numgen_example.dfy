/**
 * The number generator of examples/numgen.py: a generator frame with the
 * database combobox, and a viewer frame that the app shows only once it has
 * generated a number, asking the manager through `updateFrames` to add it.
 * The random number and the database write are left out; what remains is
 * which database the number would be written to.
 */
module NumGenExample {
  import opened Wrappers
  import opened Json
  import opened Records
  import opened Proxy
  import opened App
  import opened Channels
  import opened DbSync
  import opened Dispatch
  import Frames

  /** The request text of `self.qiwiscall.updateFrames(name=name)`. */
  function FramesRequest(codec: Codec, name: string): string
  {
    DumpsCallInfo(codec, CallInfo("updateFrames", EncodeArgs(codec, map["name" := Plain(JStr(name))])))
  }

  /**
   * The manager reads the request back as `updateFrames` of this very app,
   * with every required argument given, in either manager version.
   */
  lemma FramesRequestParses(codec: Codec, name: string, withReplace: bool)
    requires RoundTrips(codec)
    ensures Prepare(codec, FramesRequest(codec, name), withReplace) == Ok(Request(UpdateFrames, map["name" := StrArg(name)]))
    ensures !MissesArgument(Request(UpdateFrames, map["name" := StrArg(name)]), withReplace)
  {
    var args := map["name" := StrArg(name)];
    assert (map k | k in args :: ArgAsCallArg(args[k])) == map["name" := Plain(JStr(name))];
    RequestRoundTrip(codec, UpdateFrames, withReplace, args);
  }

  class NumGenApp {
    const base: BaseApp
    /** The table the numbers go to. */
    const table: string
    /** `dbs` with the generator frame's combobox. */
    const box: DbBox
    var dbName: string
    var isGenerated: bool
    const generatorFrame: Frames.FrameId
    const viewerFrame: Frames.FrameId

    /**
     * The combobox lists each database once, and `dbName` follows its current
     * text, since `setDB` runs on every change of the current index; the
     * proxy encodes with the codec of the app.
     */
    ghost predicate Valid()
      reads this, box
    {
      && box.Valid() && Unique(box.items) && dbName == box.current
      && generatorFrame != viewerFrame && base.proxy.codec == base.codec
    }

    constructor(name: string, codec: Codec, table: string, generatorFrame: Frames.FrameId, viewerFrame: Frames.FrameId)
      requires generatorFrame != viewerFrame
      ensures Valid() && fresh(base) && fresh(base.proxy) && fresh(box)
      ensures base.name == name && base.codec == codec && base.proxy.codec == codec && base.proxy.requested == []
      ensures this.table == table && this.generatorFrame == generatorFrame && this.viewerFrame == viewerFrame
      ensures box.dbs == map["" := ""] && box.items == [""] && dbName == "" && !isGenerated
    {
      base := new BaseApp(name, codec);
      this.table := table;
      box := new DbBox();
      dbName := "";
      isGenerated := false;
      this.generatorFrame := generatorFrame;
      this.viewerFrame := viewerFrame;
    }

    /** `frames()`: the generator frame, followed by the viewer frame once a number was generated. */
    function Frames(): (fs: seq<Frames.FrameId>)
      reads this
      ensures |fs| == (if isGenerated then 2 else 1) && fs[0] == generatorFrame
      ensures generatorFrame != viewerFrame ==> (viewerFrame in fs <==> isGenerated)
    {
      if isGenerated then [generatorFrame, viewerFrame] else [generatorFrame]
    }

    /**
     * What `receivedSlot(channel, content)` does: a dictionary on channel
     * "db" updates the database list (see `DbBox.Reconcile`) and the selected
     * database survives unless it was removed, in which case `""` is
     * selected; anything else leaves the list and the selection alone.
     */
    twostate predicate SlotDone(channel: string, content: Json)
      reads this, box
    {
      if channel == "db" && content.JObj? then
        var ps := Pairs(DbEntries(content.fields));
        && box.dbs.Keys == {""} + NamesOf(ps)
        && (forall n :: n in box.dbs && n in old(box.dbs) ==> box.dbs[n] == old(box.dbs)[n])
        && (forall n :: n in NamesOf(ps) && n !in old(box.dbs) ==> box.dbs[n] == FirstPath(ps, n))
        && box.items == Drop(old(box.items) + Added(old(box.dbs), ps), old(box.dbs).Keys - box.dbs.Keys)
        && dbName == if old(dbName) in box.dbs then old(dbName) else ""
      else
        unchanged(box) && dbName == old(dbName)
    }

    /** `receivedSlot`, overridden for the "db" channel: see `SlotDone`. */
    method ReceivedSlot(channel: string, content: Json)
      requires Valid()
      modifies box, this
      ensures Valid()
      ensures isGenerated == old(isGenerated)
      ensures SlotDone(channel, content)
    {
      if channel == "db" && content.JObj? {
        box.Reconcile(content.fields);
        dbName := box.current;
      }
    }

    /**
     * `_receivedMessage`: text that does not decode is dropped
     * (JSONDecodeError) and `receivedSlot` is not called; decoded content is
     * handed to `receivedSlot`.
     */
    method ReceivedMessage(channel: string, msg: string)
      requires Valid()
      modifies box, this
      ensures Valid()
      ensures isGenerated == old(isGenerated)
      ensures base.codec.loads(msg).None? ==> unchanged(box) && dbName == old(dbName)
      ensures base.codec.loads(msg).Some? ==> SlotDone(channel, base.codec.loads(msg).value)
    {
      match base.codec.loads(msg)
      case None =>
      case Some(content) =>
        ReceivedSlot(channel, content);
    }

    /** `setDB` after the user picks `text` in the combobox. */
    method SetDB(text: string)
      requires Valid() && text in box.items
      modifies box, this
      ensures Valid() && dbName == text && box.current == text
      ensures box.dbs == old(box.dbs) && box.items == old(box.items) && isGenerated == old(isGenerated)
    {
      box.current := text;
      dbName := text;
    }

    /**
     * `generateNumber`: the first call marks the app as generated and sends
     * one `updateFrames` request for itself; later calls send nothing. The
     * database path is looked up under `dbName`, which is always a key.
     */
    method GenerateNumber() returns (dbPath: string)
      requires Valid()
      modifies base.proxy, this
      ensures Valid() && isGenerated && dbName == old(dbName)
      ensures dbName in box.dbs && dbPath == box.dbs[dbName]
      ensures base.proxy.requested == old(base.proxy.requested) + if old(isGenerated) then [] else [FramesRequest(base.codec, base.name)]
      ensures old(isGenerated) ==> base.proxy.results == old(base.proxy.results)
      ensures !old(isGenerated) ==>
        var request := FramesRequest(base.codec, base.name);
        && request in base.proxy.results && fresh(base.proxy.results[request])
        && base.proxy.results[request].Snapshot() == CallResult(false, false, JNull, None)
        && base.proxy.results == old(base.proxy.results)[request := base.proxy.results[request]]
    {
      if !isGenerated {
        isGenerated := true;
        var pending := base.proxy.Call("updateFrames", map["name" := Plain(JStr(base.name))]);
      }
      dbPath := box.dbs[dbName];
    }
  }

  /** Generating a second time asks the manager for nothing more: the transition happens once. */
  method GenerateTwice(app: NumGenApp) returns (first: string, second: string)
    requires app.Valid() && !app.isGenerated
    modifies app.base.proxy, app
    ensures app.isGenerated && first == second
    ensures app.base.proxy.requested == old(app.base.proxy.requested) + [FramesRequest(app.base.codec, app.base.name)]
  {
    first := app.GenerateNumber();
    second := app.GenerateNumber();
  }
}
