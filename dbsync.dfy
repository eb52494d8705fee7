/**
 * The database list the example apps share over the bus. The database manager
 * broadcasts `{"db": [{"name": ..., "path": ...}, ...]}`; the number generator
 * and the poller keep a `dbs` dictionary (name to path, with `""` for "no
 * database") mirrored by the items of a combobox, and update both from each
 * message they receive: incrementally in the `examples/` apps, rebuilt from
 * scratch in the `apps/` apps.
 */
module DbSync {
  import opened Wrappers
  import opened Json
  import opened Channels

  type Dbs = map<string, string>

  // ----- the message -----

  /** An entry with both keys, as (name, path); None for an entry the apps skip. */
  function EntryOf(e: Json): Option<(string, string)>
  {
    if e.JObj? && "name" in e.fields && "path" in e.fields && e.fields["name"].JStr? && e.fields["path"].JStr?
    then Some((e.fields["name"].s, e.fields["path"].s))
    else None
  }

  /** `content.get("db", ())`. */
  function DbEntries(content: map<string, Json>): seq<Json>
  {
    if "db" in content && content["db"].JArr? then content["db"].items else []
  }

  /** The entries the apps act on, in message order: the well-formed ones. */
  function Pairs(es: seq<Json>): seq<(string, string)>
  {
    if es == [] then [] else Pairs(es[..|es| - 1]) + Kept(es[|es| - 1])
  }

  /** The entry as the apps take it: itself when well-formed, nothing otherwise. */
  function Kept(e: Json): seq<(string, string)>
  {
    if EntryOf(e).Some? then [EntryOf(e).value] else []
  }

  function NamesOf(ps: seq<(string, string)>): set<string>
  {
    set p | p in ps :: p.0
  }

  /** The message the database manager broadcasts for its list of (name, path) entries. */
  function DbMessage(dbs: seq<(string, string)>): (j: Json)
    ensures j.JObj? && "db" in j.fields && j.fields["db"].JArr? && |j.fields["db"].items| == |dbs|
  {
    JObj(map["db" := JArr(seq(|dbs|, i requires 0 <= i < |dbs| =>
      JObj(map["name" := JStr(dbs[i].0), "path" := JStr(dbs[i].1)])))])
  }

  /** Every entry the manager sends is well-formed: the receivers see its list as it is. */
  lemma {:induction false} DbMessageRoundTrip(dbs: seq<(string, string)>)
    ensures Pairs(DbEntries(DbMessage(dbs).fields)) == dbs
  {
    var es := DbEntries(DbMessage(dbs).fields);
    PairsOfWellFormed(es, dbs);
  }

  lemma {:induction false} PairsOfWellFormed(es: seq<Json>, dbs: seq<(string, string)>)
    requires |es| == |dbs| && forall i :: 0 <= i < |es| ==> EntryOf(es[i]) == Some(dbs[i])
    ensures Pairs(es) == dbs
  {
    if es != [] {
      PairsOfWellFormed(es[..|es| - 1], dbs[..|dbs| - 1]);
    }
  }

  // ----- the incremental update of examples/numgen.py and examples/poller.py -----

  /** `dbs` after the first loop: each name not yet present gets the path it comes with. */
  function Merge(dbs: Dbs, ps: seq<(string, string)>): Dbs
  {
    if ps == [] then dbs
    else
      var m := Merge(dbs, ps[..|ps| - 1]);
      var p := ps[|ps| - 1];
      if p.0 in m then m else m[p.0 := p.1]
  }

  /** The names the first loop appends to the combobox, in order. */
  function Added(dbs: Dbs, ps: seq<(string, string)>): seq<string>
  {
    if ps == [] then []
    else
      var p := ps[|ps| - 1];
      Added(dbs, ps[..|ps| - 1]) + if p.0 in Merge(dbs, ps[..|ps| - 1]) then [] else [p.0]
  }

  /** The path of the first entry named `n`. */
  function FirstPath(ps: seq<(string, string)>, n: string): string
    requires n in NamesOf(ps)
  {
    if ps[0].0 == n then ps[0].1 else FirstPath(ps[1..], n)
  }

  lemma {:induction false} FirstPathOfPrefix(ps: seq<(string, string)>, n: string)
    requires ps != [] && n in NamesOf(ps[..|ps| - 1])
    ensures FirstPath(ps, n) == FirstPath(ps[..|ps| - 1], n)
  {
    if ps[0].0 != n {
      assert ps[1..][..|ps[1..]| - 1] == ps[..|ps| - 1][1..];
      assert ps[..|ps| - 1][0] == ps[0];
      FirstPathOfPrefix(ps[1..], n);
    }
  }

  lemma {:induction false} FirstPathOfLast(ps: seq<(string, string)>)
    requires ps != [] && ps[|ps| - 1].0 !in NamesOf(ps[..|ps| - 1])
    ensures FirstPath(ps, ps[|ps| - 1].0) == ps[|ps| - 1].1
  {
    if |ps| > 1 {
      assert ps[0] in ps[..|ps| - 1];
      assert ps[1..][..|ps[1..]| - 1] == ps[..|ps| - 1][1..];
      FirstPathOfLast(ps[1..]);
    }
  }

  /** The names present before keep their paths; a new name gets the path of its first entry. */
  lemma {:induction false} MergeKeeps(dbs: Dbs, ps: seq<(string, string)>)
    ensures Merge(dbs, ps).Keys == dbs.Keys + NamesOf(ps)
    ensures forall n :: n in Merge(dbs, ps) ==> Merge(dbs, ps)[n] == if n in dbs then dbs[n] else FirstPath(ps, n)
  {
    if ps != [] {
      var init := ps[..|ps| - 1];
      var p := ps[|ps| - 1];
      MergeKeeps(dbs, init);
      assert ps == init + [p];
      assert NamesOf(ps) == NamesOf(init) + {p.0};
      forall n | n in Merge(dbs, ps)
        ensures Merge(dbs, ps)[n] == if n in dbs then dbs[n] else FirstPath(ps, n)
      {
        if n !in dbs {
          if n in NamesOf(init) {
            FirstPathOfPrefix(ps, n);
          } else {
            FirstPathOfLast(ps);
          }
        }
      }
    }
  }

  /** The names added to the combobox are the new ones, once each. */
  lemma {:induction false} AddedFresh(dbs: Dbs, ps: seq<(string, string)>)
    ensures Unique(Added(dbs, ps)) && forall n :: n in Added(dbs, ps) <==> n in NamesOf(ps) && n !in dbs
  {
    if ps != [] {
      var init := ps[..|ps| - 1];
      AddedFresh(dbs, init);
      MergeKeeps(dbs, init);
      assert ps == init + [ps[|ps| - 1]];
      assert NamesOf(ps) == NamesOf(init) + {ps[|ps| - 1].0};
    }
  }

  /** The items without those in `gone`, in order. */
  function Drop(items: seq<string>, gone: set<string>): (r: seq<string>)
    ensures forall n :: n in r <==> n in items && n !in gone
    ensures Unique(items) ==> Unique(r)
  {
    if items == [] then []
    else
      var rest := Drop(items[..|items| - 1], gone);
      assert Unique(items) ==> Unique(items[..|items| - 1]);
      var last := items[|items| - 1];
      if last in gone then rest
      else
        assert Unique(items) ==> last !in items[..|items| - 1];
        rest + [last]
  }

  /** `removeItem(findText(name))`: the first item with that text goes; none goes when there is none. */
  function RemoveText(items: seq<string>, n: string): seq<string>
  {
    if items == [] then []
    else if items[0] == n then items[1..]
    else [items[0]] + RemoveText(items[1..], n)
  }

  /** On items without repeats, removing one text after another is dropping them all, in any order. */
  lemma {:induction false} RemoveTextDrops(items: seq<string>, gone: set<string>, n: string)
    requires Unique(items)
    ensures RemoveText(Drop(items, gone), n) == Drop(items, gone + {n})
  {
    DropOne(Drop(items, gone), n);
    DropTwice(items, gone, {n});
  }

  lemma {:induction false} DropOne(items: seq<string>, n: string)
    requires Unique(items)
    ensures RemoveText(items, n) == Drop(items, {n})
  {
    if items != [] {
      var rest := items[1..];
      assert Unique(rest);
      DropOne(rest, n);
      DropFront(items, {n});
      if items[0] == n {
        assert n !in rest;
        DropNothing(rest, {n});
      }
    }
  }

  lemma {:induction false} DropFront(items: seq<string>, gone: set<string>)
    requires items != []
    ensures Drop(items, gone) == (if items[0] in gone then [] else [items[0]]) + Drop(items[1..], gone)
  {
    if |items| > 1 {
      var init := items[..|items| - 1];
      DropFront(init, gone);
      assert init[1..] == items[1..][..|items[1..]| - 1];
    }
  }

  lemma {:induction false} DropNothing(items: seq<string>, gone: set<string>)
    requires forall i :: 0 <= i < |items| ==> items[i] !in gone
    ensures Drop(items, gone) == items
  {
    if items != [] {
      DropFront(items, gone);
      DropNothing(items[1..], gone);
      assert items == [items[0]] + items[1..];
    }
  }

  lemma {:induction false} DropTwice(items: seq<string>, a: set<string>, b: set<string>)
    ensures Drop(Drop(items, a), b) == Drop(items, a + b)
  {
    if items != [] {
      var init := items[..|items| - 1];
      DropTwice(init, a, b);
      var last := items[|items| - 1];
      if last !in a {
        assert Drop(items, a) == Drop(init, a) + [last];
        assert Drop(items, a)[..|Drop(items, a)| - 1] == Drop(init, a);
      }
    }
  }

  /** Moving one name from the names still to remove to the names removed. */
  lemma TakeOne(removing: set<string>, rest: set<string>, gone: set<string>, n: string)
    requires rest <= removing && gone == removing - rest && n in rest
    ensures rest - {n} <= removing && gone + {n} == removing - (rest - {n}) && |rest - {n}| < |rest|
  {
  }

  // ----- the rebuild of apps/numgen.py and apps/poller.py -----

  /** `dbs` rebuilt from `{"": ""}`: each entry sets its name's path, so the last entry of a name wins. */
  function Rebuilt(ps: seq<(string, string)>): Dbs
  {
    if ps == [] then map["" := ""]
    else Rebuilt(ps[..|ps| - 1])[ps[|ps| - 1].0 := ps[|ps| - 1].1]
  }

  /** The path of the last entry named `n`. */
  function LastPath(ps: seq<(string, string)>, n: string): string
    requires n in NamesOf(ps)
  {
    var p := ps[|ps| - 1];
    if p.0 == n then p.1
    else
      assert ps == ps[..|ps| - 1] + [p];
      LastPath(ps[..|ps| - 1], n)
  }

  /** The names of the entries, in message order and with repeats. */
  function NameList(ps: seq<(string, string)>): (r: seq<string>)
    ensures |r| == |ps| && forall i :: 0 <= i < |ps| ==> r[i] == ps[i].0
  {
    seq(|ps|, i requires 0 <= i < |ps| => ps[i].0)
  }

  /** The rebuilt `dbs`: `""` and every entry's name, the last path of each name winning (`""` too). */
  lemma {:induction false} RebuiltHolds(ps: seq<(string, string)>)
    ensures Rebuilt(ps).Keys == {""} + NamesOf(ps)
    ensures forall n :: n in Rebuilt(ps) ==> Rebuilt(ps)[n] == if n in NamesOf(ps) then LastPath(ps, n) else ""
  {
    if ps != [] {
      var init := ps[..|ps| - 1];
      RebuiltHolds(init);
      assert ps == init + [ps[|ps| - 1]];
      assert NamesOf(ps) == NamesOf(init) + {ps[|ps| - 1].0};
    }
  }

  /** The combobox of a rebuild lists exactly the entries' names. */
  lemma NameListNames(ps: seq<(string, string)>)
    ensures forall n :: n in NameList(ps) <==> n in NamesOf(ps)
  {
    forall n | n in NamesOf(ps)
      ensures n in NameList(ps)
    {
      var i :| 0 <= i < |ps| && ps[i].0 == n;
      assert NameList(ps)[i] == n;
    }
  }

  lemma PairsStep(es: seq<Json>, i: nat)
    requires i < |es|
    ensures Pairs(es[..i + 1]) == Pairs(es[..i]) + Kept(es[i])
    ensures NamesOf(Pairs(es[..i + 1])) == NamesOf(Pairs(es[..i])) + if EntryOf(es[i]).Some? then {EntryOf(es[i]).value.0} else {}
  {
    assert es[..i + 1][..i] == es[..i];
  }

  lemma MergeStep(dbs: Dbs, ps: seq<(string, string)>, p: (string, string))
    ensures var m := Merge(dbs, ps);
      && Merge(dbs, ps + [p]) == (if p.0 in m then m else m[p.0 := p.1])
      && Added(dbs, ps + [p]) == Added(dbs, ps) + (if p.0 in m then [] else [p.0])
  {
    assert (ps + [p])[..|ps|] == ps;
  }

  lemma RebuiltStep(ps: seq<(string, string)>, p: (string, string))
    ensures Rebuilt(ps + [p]) == Rebuilt(ps)[p.0 := p.1]
    ensures NameList(ps + [p]) == NameList(ps) + [p.0]
  {
    assert (ps + [p])[..|ps|] == ps;
  }

  /** Two name lists without repeats and with no name in common join into one without repeats. */
  lemma JoinUnique(a: seq<string>, b: seq<string>)
    requires Unique(a) && Unique(b) && forall n :: n in b ==> n !in a
    ensures Unique(a + b)
  {
    forall i, j | 0 <= i < j < |a + b|
      ensures (a + b)[i] != (a + b)[j]
    {
      if i < |a| <= j {
        assert (a + b)[j] in b;
      }
    }
  }

  /**
   * The state the incremental `updateDB` ends in still pairs the combobox
   * with the dictionary, once per name, with `""` kept and the kept names
   * holding their old path or, when new, the path of their first entry.
   */
  lemma ReconcileKeeps(dbs0: Dbs, items0: seq<string>, ps: seq<(string, string)>)
    requires "" in dbs0 && (forall n :: n in items0 <==> n in dbs0) && Unique(items0)
    ensures var kept := {""} + NamesOf(ps);
      var removing := dbs0.Keys - kept;
      var dbs := Merge(dbs0, ps) - removing;
      var items := Drop(items0 + Added(dbs0, ps), removing);
      && dbs.Keys == kept
      && (forall n :: n in dbs ==> dbs[n] == if n in dbs0 then dbs0[n] else FirstPath(ps, n))
      && (forall n :: n in items <==> n in dbs)
      && Unique(items0 + Added(dbs0, ps)) && Unique(items)
  {
    MergeKeeps(dbs0, ps);
    AddedFresh(dbs0, ps);
    JoinUnique(items0, Added(dbs0, ps));
  }

  // ----- the combobox and the dictionary it mirrors -----

  /**
   * An app's `dbs` dictionary together with the combobox listing its names
   * (`items`, the item texts in order) and the combobox's current text, which
   * `setDB` copies into `dbName` on every change in the apps that connect it.
   */
  class DbBox {
    var dbs: Dbs
    var items: seq<string>
    var current: string

    /** `""` is always a database, the combobox lists exactly the names of `dbs`, and shows one of them. */
    ghost predicate Valid()
      reads this
    {
      "" in dbs && current in dbs && forall n :: n in items <==> n in dbs
    }

    /** `dbs = {"": ""}` and a combobox holding the single item `""`. */
    constructor()
      ensures Valid() && Unique(items)
      ensures dbs == map["" := ""] && items == [""] && current == ""
    {
      dbs := map["" := ""];
      items := [""];
      current := "";
    }

    /** `dbs = {"": ""}` with a combobox still empty, whose current text is then `""`. */
    constructor Empty()
      ensures dbs == map["" := ""] && items == [] && current == ""
    {
      dbs := map["" := ""];
      items := [];
      current := "";
    }

    /**
     * The incremental `updateDB` of examples/numgen.py and examples/poller.py:
     * new names are added with the path of their first entry and appended to
     * the combobox, names no entry mentions any more are removed from both
     * (the current one first giving way to `""`), and `""` always stays.
     */
    method Reconcile(content: map<string, Json>)
      requires Valid() && Unique(items)
      modifies this
      ensures Valid() && Unique(items)
      ensures var ps := Pairs(DbEntries(content));
        var kept := {""} + NamesOf(ps);
        && dbs.Keys == kept
        && (forall n :: n in dbs ==> dbs[n] == if n in old(dbs) then old(dbs)[n] else FirstPath(ps, n))
        && items == Drop(old(items) + Added(old(dbs), ps), old(dbs).Keys - kept)
        && current == if old(current) in kept then old(current) else ""
    {
      var originals := dbs.Keys;
      var es := DbEntries(content);
      var kept := MergeEntries(es);
      var removing := originals - kept;
      if current in removing {
        current := "";
      }
      ReconcileKeeps(old(dbs), old(items), Pairs(es));
      Forget(removing);
    }

    /** The first loop of the incremental `updateDB`: every entry is merged in, in order. */
    method MergeEntries(es: seq<Json>) returns (kept: set<string>)
      modifies this
      ensures dbs == Merge(old(dbs), Pairs(es)) && items == old(items) + Added(old(dbs), Pairs(es))
      ensures kept == {""} + NamesOf(Pairs(es))
      ensures current == old(current)
    {
      kept := {""};
      var i := 0;
      while i < |es|
        invariant i <= |es|
        invariant dbs == Merge(old(dbs), Pairs(es[..i])) && items == old(items) + Added(old(dbs), Pairs(es[..i]))
        invariant kept == {""} + NamesOf(Pairs(es[..i]))
        invariant current == old(current)
      {
        var name := Insert(es[i], old(dbs), old(items), Pairs(es[..i]));
        PairsStep(es, i);
        if name.Some? {
          kept := kept + {name.value};
        }
        i := i + 1;
      }
      assert es[..i] == es;
    }

    /** The removal loop of the incremental `updateDB`: each name in `removing` leaves both. */
    method Forget(removing: set<string>)
      requires Unique(items)
      modifies this
      ensures dbs == old(dbs) - removing && items == Drop(old(items), removing)
      ensures current == old(current)
    {
      ghost var listed := items;
      ghost var dbs0 := dbs;
      DropNothing(listed, {});
      assert dbs == dbs0 - {};
      ghost var gone: set<string> := {};
      var rest := removing;
      while rest != {}
        invariant rest <= removing && gone == removing - rest
        invariant dbs == dbs0 - gone && items == Drop(listed, gone)
        invariant current == old(current)
        decreases |rest|
      {
        var n :| n in rest;
        ForgetOne(n, dbs0, listed, gone);
        TakeOne(removing, rest, gone, n);
        gone := gone + {n};
        rest := rest - {n};
      }
      assert gone == removing;
    }

    /** One pass of the removal loop: `del self.dbs[name]` and the matching combobox item removed. */
    method ForgetOne(n: string, ghost dbs0: Dbs, ghost listed: seq<string>, ghost gone: set<string>)
      requires Unique(listed) && dbs == dbs0 - gone && items == Drop(listed, gone)
      modifies this
      ensures dbs == dbs0 - (gone + {n}) && items == Drop(listed, gone + {n})
      ensures current == old(current)
    {
      dbs := dbs - {n};
      assert dbs == dbs0 - (gone + {n});
      RemoveTextDrops(listed, gone, n);
      items := RemoveText(items, n);
    }

    /** One pass of the first incremental loop: a well-formed entry with a new name is added to both. */
    method Insert(e: Json, ghost dbs0: Dbs, ghost items0: seq<string>, ghost ps: seq<(string, string)>)
      returns (name: Option<string>)
      requires dbs == Merge(dbs0, ps) && items == items0 + Added(dbs0, ps)
      modifies this
      ensures dbs == Merge(dbs0, ps + Kept(e)) && items == items0 + Added(dbs0, ps + Kept(e))
      ensures name == if EntryOf(e).Some? then Some(EntryOf(e).value.0) else None
      ensures current == old(current)
    {
      var entry := EntryOf(e);
      if entry.None? {
        assert ps + Kept(e) == ps;
        return None;
      }
      var p := entry.value;
      MergeStep(dbs0, ps, p);
      name := Some(p.0);
      if p.0 !in dbs {
        dbs := dbs[p.0 := p.1];
        items := items + [p.0];
      }
    }

    /** One pass of the rebuilding loop: a well-formed entry sets its path and appends its name. */
    method Put(e: Json, ghost ps: seq<(string, string)>)
      requires dbs == Rebuilt(ps) && items == [""] + NameList(ps)
      modifies this
      ensures dbs == Rebuilt(ps + Kept(e)) && items == [""] + NameList(ps + Kept(e))
      ensures current == old(current)
    {
      var entry := EntryOf(e);
      if entry.None? {
        assert ps + Kept(e) == ps;
        return;
      }
      var p := entry.value;
      RebuiltStep(ps, p);
      dbs := dbs[p.0 := p.1];
      items := items + [p.0];
    }

    /**
     * The rebuilding `updateDB` of apps/numgen.py and apps/poller.py, once the
     * message decoded to `j`: `dbs` and the combobox start over from `""`
     * (which the combobox then shows); `ok` is false when `j` is no object,
     * whose `get` raises AttributeError after the reset.
     */
    method Rebuild(j: Json) returns (ok: bool)
      modifies this
      ensures Valid()
      ensures ok == j.JObj?
      ensures var ps := if j.JObj? then Pairs(DbEntries(j.fields)) else [];
        dbs == Rebuilt(ps) && items == [""] + NameList(ps) && current == ""
    {
      dbs := map["" := ""];
      items := [""];
      current := "";
      ok := j.JObj?;
      if !ok {
        RebuiltHolds([]);
        return;
      }
      var es := DbEntries(j.fields);
      PutEach(es);
      RebuiltHolds(Pairs(es));
      NameListNames(Pairs(es));
    }

    /** The rebuilding loop: every entry is put in, in order. */
    method PutEach(es: seq<Json>)
      requires dbs == Rebuilt([]) && items == [""] + NameList([])
      modifies this
      ensures dbs == Rebuilt(Pairs(es)) && items == [""] + NameList(Pairs(es))
      ensures current == old(current)
    {
      var i := 0;
      while i < |es|
        invariant i <= |es| && current == old(current)
        invariant dbs == Rebuilt(Pairs(es[..i])) && items == [""] + NameList(Pairs(es[..i]))
      {
        Put(es[i], Pairs(es[..i]));
        PairsStep(es, i);
        i := i + 1;
      }
      assert es[..i] == es;
    }
  }
}
