/**
 * The database manager of apps/dbmgr.py, the bus-based predecessor of the
 * example app: the list of (name, path) of the database files the user added,
 * one widget per row, sent as JSON text on "dbbus" after every change. The
 * row a remove button sits in is computed from screen positions and arrives
 * here as a parameter; it is -1 when no row is found there.
 */
module DbMgrBus {
  import opened Wrappers
  import opened Json
  import opened DbSync
  import NumGenBus
  import PosixPath
  import Frames

  /** `del s[i]` for an index already made non-negative. */
  function Delete(s: seq<(string, string)>, i: nat): (r: seq<(string, string)>)
    requires i < |s|
    ensures |r| == |s| - 1
    ensures forall k :: 0 <= k < |r| ==> r[k] == if k < i then s[k] else s[k + 1]
  {
    s[..i] + s[i + 1..]
  }

  /**
   * What a receiver rebuilds from the "dbbus" text: it decodes to an object
   * and the receiver's `dbs` holds every listed name with the path of its
   * last entry, its combobox every listed name in order.
   */
  lemma BusMessageRebuilds(codec: Codec, dbList: seq<(string, string)>)
    requires RoundTrips(codec)
    ensures codec.loads(codec.dumps(DbMessage(dbList))) == Some(DbMessage(dbList))
    ensures NumGenBus.EntriesOf(DbMessage(dbList)) == dbList
    ensures Rebuilt(dbList).Keys == {""} + NamesOf(dbList)
    ensures forall n :: n in NamesOf(dbList) ==> Rebuilt(dbList)[n] == LastPath(dbList, n)
  {
    DbMessageRoundTrip(dbList);
    RebuiltHolds(dbList);
  }

  class DbMgrApp {
    const name: string
    const codec: Codec
    var dbList: seq<(string, string)>
    /** The (name, path) of the DBWidget of each row of the list widget. */
    var rows: seq<(string, string)>
    /** Every `broadcastRequested(bus, msg)` emitted, in order. */
    var emitted: seq<(string, string)>
    const managerFrame: Frames.FrameId

    constructor(name: string, codec: Codec, managerFrame: Frames.FrameId)
      ensures this.name == name && this.codec == codec && this.managerFrame == managerFrame
      ensures dbList == [] && rows == [] && emitted == []
    {
      this.name := name;
      this.codec := codec;
      dbList := [];
      rows := [];
      emitted := [];
      this.managerFrame := managerFrame;
    }

    /** `frames()`: the manager frame alone. */
    function Frames(): (fs: seq<Frames.FrameId>)
      reads this
    {
      [managerFrame]
    }

    /**
     * `addDB` with the path the file dialog returned: nothing for a cancelled
     * dialog; otherwise the file's (name, directory) is appended to the list
     * and as a new row, and the whole list is sent on "dbbus".
     */
    method AddDB(dbPath: string)
      modifies this
      ensures dbPath == "" ==> dbList == old(dbList) && rows == old(rows) && emitted == old(emitted)
      ensures dbPath != "" ==>
        var db := (PosixPath.Split(dbPath).1, PosixPath.Split(dbPath).0);
        && dbList == old(dbList) + [db] && rows == old(rows) + [db]
        && emitted == old(emitted) + [("dbbus", codec.dumps(DbMessage(dbList)))]
    {
      if dbPath == "" {
        return;
      }
      var (path, name) := PosixPath.Split(dbPath);
      dbList := dbList + [(name, path)];
      rows := rows + [(name, path)];
      emitted := emitted + [("dbbus", codec.dumps(DbMessage(dbList)))];
    }

    /**
     * `removeDB` for the widget found at `row`: `del dbList[row]` counts a
     * negative row from the end and raises IndexError (`ok` false, nothing
     * changed) outside `-|dbList|..|dbList|-1`; `takeItem(row)` removes the
     * row only when it is a row of the list widget. Then the list is sent.
     */
    method RemoveDB(row: int) returns (ok: bool)
      modifies this
      ensures ok <==> -|old(dbList)| <= row < |old(dbList)|
      ensures !ok ==> dbList == old(dbList) && rows == old(rows) && emitted == old(emitted)
      ensures ok ==>
        && dbList == Delete(old(dbList), if row < 0 then row + |old(dbList)| else row)
        && rows == (if 0 <= row < |old(rows)| then Delete(old(rows), row) else old(rows))
        && emitted == old(emitted) + [("dbbus", codec.dumps(DbMessage(dbList)))]
      ensures ok && old(rows) == old(dbList) && row >= 0 ==> rows == dbList
      ensures ok && old(rows) == old(dbList) && row < 0 ==> rows != dbList
    {
      var n := |dbList|;
      if row < -n || row >= n {
        return false;
      }
      var index := if row < 0 then row + n else row;
      dbList := Delete(dbList, index);
      if 0 <= row < |rows| {
        rows := Delete(rows, row);
      }
      emitted := emitted + [("dbbus", codec.dumps(DbMessage(dbList)))];
      ok := true;
    }
  }
}
