/**
 * The database manager of examples/dbmgr.py: the list of database files the
 * user added, shown one widget per row and broadcast on channel "db" after
 * every change, and a button that opens or closes a datacalc app through
 * qiwiscalls, one call at a time. The file dialog is a parameter (the path
 * it returns, `""` when cancelled).
 */
module DbMgrExample {
  import opened Wrappers
  import opened Json
  import opened Records
  import opened Proxy
  import opened App
  import opened DbSync
  import opened Dispatch
  import PosixPath
  import Frames

  /** `DB(path, name)`, the namedtuple of the list. */
  datatype Db = Db(path: string, name: string)

  /** The list as the broadcast names it: (name, path) of each database, in list order. */
  function Named(dbList: seq<Db>): (ps: seq<(string, string)>)
    ensures |ps| == |dbList| && forall i :: 0 <= i < |dbList| ==> ps[i] == (dbList[i].name, dbList[i].path)
  {
    seq(|dbList|, i requires 0 <= i < |dbList| => (dbList[i].name, dbList[i].path))
  }

  /** `list.index`: the first position holding `x`. */
  function IndexOf(s: seq<Db>, x: Db): (i: nat)
    requires x in s
    ensures i < |s| && s[i] == x && forall j :: 0 <= j < i ==> s[j] != x
  {
    if s[0] == x then 0 else 1 + IndexOf(s[1..], x)
  }

  /**
   * What a receiver gets from the "db" broadcast: the text decodes to the
   * message, and the entries it acts on are the list, in order.
   */
  lemma BroadcastReachesReceivers(codec: Codec, dbList: seq<Db>)
    requires RoundTrips(codec)
    ensures codec.loads(codec.dumps(DbMessage(Named(dbList)))) == Some(DbMessage(Named(dbList)))
    ensures Pairs(DbEntries(DbMessage(Named(dbList)).fields)) == Named(dbList)
  {
    DbMessageRoundTrip(Named(dbList));
  }

  const Datacalc := "datacalc"

  /** The AppInfo of the datacalc app the button opens. */
  function DatacalcInfo(): (info: AppInfo)
    ensures info.channel == ["db"] && info.show && info.pos == "top" && info.path == "."
  {
    AppInfo("examples.datacalc", "DataCalcApp", ".", true, "top", ["db"],
      Some(map["tables" := JObj(map["A" := JStr("number"), "B" := JStr("B")])]))
  }

  function CreateArgs(): map<string, CallArg>
  {
    map["name" := Plain(JStr(Datacalc)), "info" := Serial(DatacalcInfo())]
  }

  function DestroyArgs(): map<string, CallArg>
  {
    map["name" := Plain(JStr(Datacalc))]
  }

  /** The request text of `createApp(name="datacalc", info=...)`. */
  function CreateRequest(codec: Codec): string
  {
    DumpsCallInfo(codec, CallInfo("createApp", EncodeArgs(codec, CreateArgs())))
  }

  /** The request text of `destroyApp(name="datacalc")`. */
  function DestroyRequest(codec: Codec): string
  {
    DumpsCallInfo(codec, CallInfo("destroyApp", EncodeArgs(codec, DestroyArgs())))
  }

  /**
   * The manager reads the open request back as `createApp` of "datacalc" with
   * the AppInfo intact and every required argument given, in either version.
   */
  lemma CreateRequestParses(codec: Codec, withReplace: bool)
    requires RoundTrips(codec)
    ensures var create := Request(CreateApp, map["name" := StrArg(Datacalc), "info" := InfoArg(DatacalcInfo())]);
      Prepare(codec, CreateRequest(codec), withReplace) == Ok(create) && !MissesArgument(create, withReplace)
  {
    var create := map["name" := StrArg(Datacalc), "info" := InfoArg(DatacalcInfo())];
    assert (map k | k in create :: ArgAsCallArg(create[k])) == CreateArgs();
    RequestRoundTrip(codec, CreateApp, withReplace, create);
  }

  /** The manager reads the close request back as `destroyApp` of "datacalc", in either version. */
  lemma DestroyRequestParses(codec: Codec, withReplace: bool)
    requires RoundTrips(codec)
    ensures var destroy := Request(DestroyApp, map["name" := StrArg(Datacalc)]);
      Prepare(codec, DestroyRequest(codec), withReplace) == Ok(destroy) && !MissesArgument(destroy, withReplace)
  {
    var destroy := map["name" := StrArg(Datacalc)];
    assert (map k | k in destroy :: ArgAsCallArg(destroy[k])) == DestroyArgs();
    RequestRoundTrip(codec, DestroyApp, withReplace, destroy);
  }

  class DbMgrApp {
    const base: BaseApp
    var dbList: seq<Db>
    /** The (name, path) of the DBWidget of each row of the list widget. */
    var rows: seq<(string, string)>
    var isDatacalcOpen: bool
    /** `openCloseDatacalcResult`: the result object of the latest open or close request. */
    var pending: Option<PendingResult>
    const managerFrame: Frames.FrameId

    /** Each row of the list widget shows the database at the same position of the list. */
    ghost predicate Valid()
      reads this
    {
      rows == Named(dbList) && base.proxy.codec == base.codec
    }

    constructor(name: string, codec: Codec, managerFrame: Frames.FrameId)
      ensures Valid() && fresh(base) && fresh(base.proxy) && this.managerFrame == managerFrame
      ensures base.name == name && base.codec == codec && base.broadcasts == [] && base.proxy.requested == []
      ensures dbList == [] && rows == [] && !isDatacalcOpen && pending == None
    {
      base := new BaseApp(name, codec);
      dbList := [];
      rows := [];
      isDatacalcOpen := false;
      pending := None;
      this.managerFrame := managerFrame;
    }

    /** `frames()`: the manager frame alone. */
    function Frames(): (fs: seq<Frames.FrameId>)
      reads this
    {
      [managerFrame]
    }

    /** `sendDB`: the whole list, broadcast on channel "db". */
    method SendDB()
      modifies base
      ensures base.broadcasts == old(base.broadcasts) + [("db", base.codec.dumps(DbMessage(Named(dbList))))]
    {
      base.Broadcast("db", Encodable(DbMessage(Named(dbList))));
    }

    /**
     * `addDB` with the path the file dialog returned: nothing for a cancelled
     * dialog; otherwise the file's directory and name are appended to the
     * list and as a new row, and the list is broadcast.
     */
    method AddDB(dbPath: string)
      requires Valid()
      modifies this, base
      ensures Valid() && isDatacalcOpen == old(isDatacalcOpen) && pending == old(pending)
      ensures dbPath == "" ==> dbList == old(dbList) && base.broadcasts == old(base.broadcasts)
      ensures dbPath != "" ==>
        && dbList == old(dbList) + [Db(PosixPath.Split(dbPath).0, PosixPath.Split(dbPath).1)]
        && base.broadcasts == old(base.broadcasts) + [("db", base.codec.dumps(DbMessage(Named(dbList))))]
    {
      if dbPath == "" {
        return;
      }
      var (head, tail) := PosixPath.Split(dbPath);
      var db := Db(head, tail);
      dbList := dbList + [db];
      rows := rows + [(db.name, db.path)];
      SendDB();
    }

    /**
     * `removeDB` from the widget showing (name, path): the first row holding
     * that database is taken out of the list widget and of the list, and the
     * list is broadcast. `found` is false, and nothing changes, when no such
     * database is listed (`list.index` raises ValueError).
     */
    method RemoveDB(name: string, path: string) returns (found: bool)
      requires Valid()
      modifies this, base
      ensures Valid() && isDatacalcOpen == old(isDatacalcOpen) && pending == old(pending)
      ensures found <==> Db(path, name) in old(dbList)
      ensures !found ==> dbList == old(dbList) && base.broadcasts == old(base.broadcasts)
      ensures found ==>
        var row := IndexOf(old(dbList), Db(path, name));
        && dbList == old(dbList)[..row] + old(dbList)[row + 1..]
        && multiset(dbList) == multiset(old(dbList)) - multiset{Db(path, name)}
        && base.broadcasts == old(base.broadcasts) + [("db", base.codec.dumps(DbMessage(Named(dbList))))]
    {
      var db := Db(path, name);
      found := db in dbList;
      if !found {
        return;
      }
      var row := IndexOf(dbList, db);
      rows := rows[..row] + rows[row + 1..];
      assert dbList == dbList[..row] + [db] + dbList[row + 1..];
      dbList := dbList[..row] + dbList[row + 1..];
      SendDB();
    }

    /**
     * `openCloseDatacalc`: while the latest request is pending, nothing
     * happens. Otherwise the open state flips when that request succeeded,
     * and a new request is sent: `destroyApp` when the app is now taken to be
     * open, `createApp` with the datacalc AppInfo when closed. `sent` says
     * whether a request went out.
     */
    method OpenCloseDatacalc() returns (sent: bool)
      requires Valid()
      modifies this, base.proxy
      ensures Valid() && dbList == old(dbList)
      ensures sent <==> old(pending).None? || old(pending.value.done)
      ensures !sent ==>
        && isDatacalcOpen == old(isDatacalcOpen) && pending == old(pending)
        && base.proxy.requested == old(base.proxy.requested) && base.proxy.results == old(base.proxy.results)
      ensures sent ==>
        && isDatacalcOpen == (old(isDatacalcOpen) != (old(pending).Some? && old(pending.value.success)))
        && pending.Some? && fresh(pending.value) && pending.value.Snapshot() == CallResult(false, false, JNull, None)
        && base.proxy.requested == old(base.proxy.requested)
          + [if isDatacalcOpen then DestroyRequest(base.codec) else CreateRequest(base.codec)]
        && base.proxy.results == old(base.proxy.results)
          [(if isDatacalcOpen then DestroyRequest(base.codec) else CreateRequest(base.codec)) := pending.value]
    {
      if pending.Some? {
        var previous := pending.value;
        if !previous.done {
          return false;
        }
        if previous.success {
          isDatacalcOpen := !isDatacalcOpen;
        }
      }
      var result;
      if isDatacalcOpen {
        result := base.proxy.Call("destroyApp", DestroyArgs());
      } else {
        result := base.proxy.Call("createApp", CreateArgs());
      }
      pending := Some(result);
      sent := true;
    }
  }
}
