/**
 * The poller of examples/poller.py: a viewer frame with the database combobox
 * and a period spinbox limited to 1..10 seconds, and a timer that polls a
 * number every period and counts the polls. The polled number, the timer's
 * clock and the database write are left out; what remains is the count, the
 * timer interval and which database a poll would write to.
 */
module PollerExample {
  import opened Json
  import opened Channels
  import opened DbSync
  import opened App
  import Frames

  const MinPeriod := 1
  const MaxPeriod := 10

  /** The value a QSpinBox with range `MinPeriod..MaxPeriod` shows for the value it is given. */
  function SpinValue(value: int): (period: int)
    ensures MinPeriod <= period <= MaxPeriod
    ensures MinPeriod <= value <= MaxPeriod ==> period == value
    ensures value < MinPeriod ==> period == MinPeriod
    ensures value > MaxPeriod ==> period == MaxPeriod
  {
    if value < MinPeriod then MinPeriod else if value > MaxPeriod then MaxPeriod else value
  }

  class PollerApp {
    const base: BaseApp
    /** The table the polled numbers go to. */
    const table: string
    /** `dbs` with the viewer frame's combobox. */
    const box: DbBox
    var dbName: string
    /** The period the spinbox shows, in seconds. */
    var period: int
    /** The interval the timer runs with, in milliseconds. */
    var interval: int
    var count: nat
    const viewerFrame: Frames.FrameId

    /**
     * The combobox lists each database once and `dbName` follows its current
     * text; the timer runs with the period the spinbox shows.
     */
    ghost predicate Valid()
      reads this, box
    {
      && box.Valid() && Unique(box.items) && dbName == box.current
      && MinPeriod <= period <= MaxPeriod && interval == 1000 * period
    }

    /** The spinbox starts at its minimum, so the timer starts with a one-second interval and no poll counted. */
    constructor(name: string, codec: Codec, table: string, viewerFrame: Frames.FrameId)
      ensures Valid() && fresh(base) && fresh(box)
      ensures base.name == name && base.codec == codec && this.table == table && this.viewerFrame == viewerFrame
      ensures box.dbs == map["" := ""] && box.items == [""] && dbName == ""
      ensures count == 0 && period == MinPeriod && interval == 1000
    {
      base := new BaseApp(name, codec);
      this.table := table;
      box := new DbBox();
      dbName := "";
      count := 0;
      period := SpinValue(0);
      interval := 1000 * SpinValue(0);
      this.viewerFrame := viewerFrame;
    }

    /** `frames()`: the viewer frame alone. */
    function Frames(): (fs: seq<Frames.FrameId>)
      reads this
    {
      [viewerFrame]
    }

    /**
     * What `receivedSlot(channel, content)` does: a dictionary on channel
     * "db" updates the database list (see `DbBox.Reconcile`) and the selected
     * database survives unless it was removed, in which case `""` is
     * selected; anything else leaves the list and the selection alone.
     */
    twostate predicate SlotDone(channel: string, content: Json)
      reads this, box
    {
      if channel == "db" && content.JObj? then
        var ps := Pairs(DbEntries(content.fields));
        && box.dbs.Keys == {""} + NamesOf(ps)
        && (forall n :: n in box.dbs && n in old(box.dbs) ==> box.dbs[n] == old(box.dbs)[n])
        && (forall n :: n in NamesOf(ps) && n !in old(box.dbs) ==> box.dbs[n] == FirstPath(ps, n))
        && box.items == Drop(old(box.items) + Added(old(box.dbs), ps), old(box.dbs).Keys - box.dbs.Keys)
        && dbName == if old(dbName) in box.dbs then old(dbName) else ""
      else
        unchanged(box) && dbName == old(dbName)
    }

    /** `receivedSlot`, overridden for the "db" channel: see `SlotDone`. */
    method ReceivedSlot(channel: string, content: Json)
      requires Valid()
      modifies box, this
      ensures Valid()
      ensures count == old(count) && period == old(period)
      ensures SlotDone(channel, content)
    {
      if channel == "db" && content.JObj? {
        box.Reconcile(content.fields);
        dbName := box.current;
      }
    }

    /**
     * `_receivedMessage`: text that does not decode is dropped
     * (JSONDecodeError) and `receivedSlot` is not called; decoded content is
     * handed to `receivedSlot`.
     */
    method ReceivedMessage(channel: string, msg: string)
      requires Valid()
      modifies box, this
      ensures Valid()
      ensures count == old(count) && period == old(period)
      ensures base.codec.loads(msg).None? ==> unchanged(box) && dbName == old(dbName)
      ensures base.codec.loads(msg).Some? ==> SlotDone(channel, base.codec.loads(msg).value)
    {
      match base.codec.loads(msg)
      case None =>
      case Some(content) =>
        ReceivedSlot(channel, content);
    }

    /** `setPeriod` after the spinbox was given `value`: the timer restarts with the period it shows. */
    method SetPeriod(value: int)
      requires Valid()
      modifies this
      ensures Valid() && period == SpinValue(value) && interval == 1000 * SpinValue(value)
      ensures 1000 <= interval <= 10000
      ensures count == old(count) && dbName == old(dbName)
    {
      period := SpinValue(value);
      interval := 1000 * period;
    }

    /** `setDB` after the user picks `text` in the combobox. */
    method SetDB(text: string)
      requires Valid() && text in box.items
      modifies box, this
      ensures Valid() && dbName == text && box.current == text
      ensures box.dbs == old(box.dbs) && box.items == old(box.items) && count == old(count) && period == old(period)
    {
      box.current := text;
      dbName := text;
    }

    /** `poll`: one more poll counted, written to the path of `dbName`, which is always a key. */
    method Poll() returns (dbPath: string)
      requires Valid()
      modifies this
      ensures Valid() && count == old(count) + 1 && period == old(period) && dbName == old(dbName)
      ensures dbName in box.dbs && dbPath == box.dbs[dbName]
    {
      count := count + 1;
      dbPath := box.dbs[dbName];
    }
  }
}
