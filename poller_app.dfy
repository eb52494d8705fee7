/**
 * The poller of apps/poller.py, the bus-based predecessor of the example
 * app: it rebuilds its database list from every message on "dbbus" and
 * then tries to select again the database it had. It never connects its
 * combobox to `setDB`, so `dbName` keeps its initial `""`, and that is the
 * database selected after every rebuild. Polling only prints, and is left out.
 */
module PollerBus {
  import opened Json
  import opened DbSync
  import NumGenBus
  import Frames

  class PollerApp {
    const name: string
    const codec: Codec
    /** The table the polled numbers go to. */
    const table: string
    /** `dbs` with the viewer frame's combobox. */
    const box: DbBox
    var dbName: string
    const viewerFrame: Frames.FrameId

    /**
     * Nothing ever sets `dbName`, and the combobox shows it, a database.
     * (Before the first message the combobox has no item, so it does not
     * list the names of `dbs`.)
     */
    ghost predicate Valid()
      reads this, box
    {
      dbName == "" && box.current == dbName && dbName in box.dbs
    }

    constructor(name: string, codec: Codec, table: string, viewerFrame: Frames.FrameId)
      ensures Valid() && fresh(box)
      ensures this.name == name && this.codec == codec && this.table == table && this.viewerFrame == viewerFrame
      ensures box.dbs == map["" := ""] && box.items == []
    {
      this.name := name;
      this.codec := codec;
      this.table := table;
      box := new DbBox.Empty();
      dbName := "";
      this.viewerFrame := viewerFrame;
    }

    /** `frames()`: the viewer frame alone. */
    function Frames(): (fs: seq<Frames.FrameId>)
      reads this
    {
      [viewerFrame]
    }

    /**
     * `updateDB(busName, msg)`: text on "dbbus" that decodes replaces the list
     * with the one it carries; `dbName` is selected again when the new list
     * has it, which, `dbName` being `""`, it always has. Text on another bus,
     * or that does not decode, changes nothing; `ok` is false when the
     * decoded text is no object, whose `get` raises after the reset.
     */
    method UpdateDB(busName: string, msg: string) returns (ok: bool)
      requires Valid()
      modifies box
      ensures Valid()
      ensures busName == "dbbus" && codec.loads(msg).Some? ==> box.Valid()
      ensures busName != "dbbus" || codec.loads(msg).None? ==> ok && unchanged(box)
      ensures busName == "dbbus" && codec.loads(msg).Some? ==>
        var ps := NumGenBus.EntriesOf(codec.loads(msg).value);
        && ok == codec.loads(msg).value.JObj?
        && box.dbs.Keys == {""} + NamesOf(ps)
        && (forall n :: n in NamesOf(ps) ==> box.dbs[n] == LastPath(ps, n))
        && box.items == [""] + NameList(ps)
        && box.current == old(box.current)
    {
      if busName != "dbbus" {
        return true;
      }
      var decoded := codec.loads(msg);
      if decoded.None? {
        return true;
      }
      var orgDbName := dbName;
      ok := box.Rebuild(decoded.value);
      RebuiltHolds(NumGenBus.EntriesOf(decoded.value));
      if ok && orgDbName in box.dbs {
        box.current := orgDbName;
      }
    }
  }
}
