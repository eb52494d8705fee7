/**
 * The number generator of apps/numgen.py, the bus-based predecessor of the
 * example app: it receives raw text on named buses and rebuilds its database
 * list from every message on "dbbus". Its two frames are always shown. The
 * random number and the database write are left out.
 */
module NumGenBus {
  import opened Json
  import opened DbSync
  import Frames

  /** The database list a decoded "dbbus" message leaves: rebuilt from its entries, or from none when it is no object. */
  function EntriesOf(j: Json): seq<(string, string)>
  {
    if j.JObj? then Pairs(DbEntries(j.fields)) else []
  }

  class NumGenApp {
    const name: string
    const codec: Codec
    /** `dbs` with the generator frame's combobox. */
    const box: DbBox
    var dbName: string
    const generatorFrame: Frames.FrameId
    const viewerFrame: Frames.FrameId

    /**
     * `dbName` follows the combobox's current text, since `setDB` runs on
     * every change of the current index, and every item is a database. (Before
     * the first message the combobox has no item at all.)
     */
    ghost predicate Valid()
      reads this, box
    {
      dbName == box.current && box.current in box.dbs && forall n :: n in box.items ==> n in box.dbs
    }

    constructor(name: string, codec: Codec, generatorFrame: Frames.FrameId, viewerFrame: Frames.FrameId)
      ensures Valid() && fresh(box)
      ensures this.name == name && this.codec == codec
      ensures this.generatorFrame == generatorFrame && this.viewerFrame == viewerFrame
      ensures box.dbs == map["" := ""] && box.items == [] && dbName == ""
    {
      this.name := name;
      this.codec := codec;
      box := new DbBox.Empty();
      dbName := "";
      this.generatorFrame := generatorFrame;
      this.viewerFrame := viewerFrame;
    }

    /** `frames()`: both frames, always. */
    function Frames(): (fs: seq<Frames.FrameId>)
      reads this
    {
      [generatorFrame, viewerFrame]
    }

    /**
     * `updateDB(busName, msg)`: text on "dbbus" that decodes replaces the list
     * with the one it carries (each name with the path of its last entry,
     * the combobox listing every entry), and the selection falls back to
     * `""`; text on another bus, or that does not decode, changes nothing.
     * `ok` is false when the decoded text is no object, whose `get` raises
     * after the reset.
     */
    method UpdateDB(busName: string, msg: string) returns (ok: bool)
      requires Valid()
      modifies box, this
      ensures Valid()
      ensures busName == "dbbus" && codec.loads(msg).Some? ==> box.Valid()
      ensures busName != "dbbus" || codec.loads(msg).None? ==> ok && unchanged(box) && dbName == old(dbName)
      ensures busName == "dbbus" && codec.loads(msg).Some? ==>
        var ps := EntriesOf(codec.loads(msg).value);
        && ok == codec.loads(msg).value.JObj?
        && box.dbs.Keys == {""} + NamesOf(ps)
        && (forall n :: n in NamesOf(ps) ==> box.dbs[n] == LastPath(ps, n))
        && box.items == [""] + NameList(ps)
        && dbName == ""
    {
      if busName != "dbbus" {
        return true;
      }
      var decoded := codec.loads(msg);
      if decoded.None? {
        return true;
      }
      ok := box.Rebuild(decoded.value);
      RebuiltHolds(EntriesOf(decoded.value));
      dbName := box.current;
    }

    /** `setDB` after the user picks `text` in the combobox. */
    method SetDB(text: string)
      requires Valid() && text in box.items
      modifies box, this
      ensures Valid() && dbName == text && box.current == text
      ensures box.dbs == old(box.dbs) && box.items == old(box.items)
    {
      box.current := text;
      dbName := text;
    }

    /** The database `generateNumber` writes to: the path of `dbName`, which is always a key. */
    method GenerateNumber() returns (dbPath: string)
      requires Valid()
      ensures dbName in box.dbs && dbPath == box.dbs[dbName]
    {
      dbPath := box.dbs[dbName];
    }
  }
}
