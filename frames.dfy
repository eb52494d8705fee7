/**
 * The frames of the apps as the manager wraps them: each frame an app shows is
 * wrapped in a dock widget (or, in the MDI variant, a sub-window of the central
 * area for position "center"), kept per app in `_wrapperWidgets` (`_dockWidgets`
 * in the older manager), a `defaultdict(list)`.
 */
module Frames {

  /** A frame widget of an app; only its identity matters here. */
  type FrameId = nat

  datatype Area = Center | LeftDock | RightDock | TopDock | BottomDock

  /** The dock area a position names; any other position falls back to the left area. */
  function DockArea(pos: string): (a: Area)
    ensures a != Center
    ensures a == RightDock <==> pos == "right"
    ensures a == TopDock <==> pos == "top"
    ensures a == BottomDock <==> pos == "bottom"
    ensures a == LeftDock <==> pos != "right" && pos != "top" && pos != "bottom"
  {
    if pos == "right" then RightDock
    else if pos == "top" then TopDock
    else if pos == "bottom" then BottomDock
    else LeftDock
  }

  /** Where a frame goes: the central MDI area for "center" when the window has one, else a dock area. */
  function Placement(pos: string, mdi: bool): (a: Area)
    ensures a == Center <==> mdi && pos == "center"
    ensures a != Center ==> a == DockArea(pos)
  {
    if mdi && pos == "center" then Center else DockArea(pos)
  }

  /** A sub-window is always shown; a dock widget is added to the window only when `show` is set. */
  predicate Attaches(area: Area, show: bool)
  {
    area == Center || show
  }

  /** A wrapper widget: `id` is its identity, `frame` the wrapped frame. */
  datatype Wrapper = Wrapper(id: nat, frame: FrameId, area: Area)

  predicate Distinct(ws: seq<Wrapper>)
  {
    forall i, j :: 0 <= i < j < |ws| ==> ws[i] != ws[j]
  }

  function FrameSet(ws: seq<Wrapper>): set<FrameId>
  {
    set w | w in ws :: w.frame
  }

  /** The wrappers of `ws` not in `gone`, in their order. */
  function Without(ws: seq<Wrapper>, gone: set<Wrapper>): (r: seq<Wrapper>)
    ensures |r| <= |ws|
  {
    if ws == [] then []
    else if ws[0] in gone then Without(ws[1..], gone)
    else [ws[0]] + Without(ws[1..], gone)
  }

  /** `Without` keeps exactly the wrappers outside `gone`, and keeps them distinct. */
  lemma {:induction false} WithoutMembers(ws: seq<Wrapper>, gone: set<Wrapper>)
    ensures forall w :: w in Without(ws, gone) <==> w in ws && w !in gone
    ensures Distinct(ws) ==> Distinct(Without(ws, gone))
  {
    if ws != [] {
      WithoutMembers(ws[1..], gone);
      assert forall w :: w in ws[1..] ==> w in ws;
      if ws[0] !in gone && Distinct(ws) {
        assert ws[0] !in ws[1..];
      }
    }
  }

  function IndexOf(ws: seq<Wrapper>, w: Wrapper): (i: nat)
    requires w in ws
    ensures i < |ws| && ws[i] == w && w !in ws[..i]
  {
    if ws[0] == w then 0 else 1 + IndexOf(ws[1..], w)
  }

  /** `list.remove`: drops the first occurrence. */
  function RemoveFirst(ws: seq<Wrapper>, w: Wrapper): (r: seq<Wrapper>)
    requires w in ws
    ensures |r| == |ws| - 1
  {
    var i := IndexOf(ws, w);
    ws[..i] + ws[i + 1..]
  }

  /** On a list without repetitions, removing the first occurrence removes the element. */
  lemma {:induction false} RemoveFirstDistinct(ws: seq<Wrapper>, w: Wrapper)
    requires Distinct(ws) && w in ws
    ensures RemoveFirst(ws, w) == Without(ws, {w})
    ensures Distinct(RemoveFirst(ws, w))
  {
    if ws[0] == w {
      assert w !in ws[1..];
      WithoutNone(ws[1..], {w});
    } else {
      RemoveFirstDistinct(ws[1..], w);
      assert RemoveFirst(ws, w) == [ws[0]] + RemoveFirst(ws[1..], w);
    }
  }

  lemma {:induction false} WithoutNone(ws: seq<Wrapper>, gone: set<Wrapper>)
    requires forall w :: w in ws ==> w !in gone
    ensures Without(ws, gone) == ws
  {
    if ws != [] {
      WithoutNone(ws[1..], gone);
    }
  }

  lemma {:induction false} WithoutWithout(ws: seq<Wrapper>, a: set<Wrapper>, b: set<Wrapper>)
    ensures Without(Without(ws, a), b) == Without(ws, a + b)
  {
    if ws != [] {
      WithoutWithout(ws[1..], a, b);
    }
  }

  // ----- destroyApp: `for w in ws: ws.remove(w)` -----

  /** The list after `k` passes of the loop: the odd-position entries passed over, then the rest. */
  function Survivors(ws: seq<Wrapper>, k: nat): (r: seq<Wrapper>)
    ensures |r| == (if 2 * k <= |ws| then |ws| - k else |ws| / 2)
  {
    var m := if 2 * k <= |ws| then k else |ws| / 2;
    seq(m, j requires 0 <= j < m => ws[2 * j + 1]) + ws[if 2 * k <= |ws| then 2 * k else |ws|..]
  }

  /** The wrappers at even positions below `n`. */
  function EvensBelow(ws: seq<Wrapper>, n: nat): set<Wrapper>
  {
    set k | 0 <= k < n && k < |ws| && k % 2 == 0 :: ws[k]
  }

  /** The odd-position entries below position `2k`. */
  function OddPrefix(ws: seq<Wrapper>, k: nat): (r: seq<Wrapper>)
    requires 2 * k <= |ws|
    ensures |r| == k
    ensures forall j :: 0 <= j < k ==> r[j] == ws[2 * j + 1]
  {
    seq(k, j requires 0 <= j < k => ws[2 * j + 1])
  }

  lemma SurvivorsShape(ws: seq<Wrapper>, k: nat)
    requires 2 * k <= |ws|
    ensures Survivors(ws, k) == OddPrefix(ws, k) + ws[2 * k..]
  {
  }

  lemma EvensBelowStep(ws: seq<Wrapper>, k: nat)
    requires 2 * k < |ws|
    ensures EvensBelow(ws, 2 * k + 2) == EvensBelow(ws, 2 * k) + {ws[2 * k]}
  {
    forall w | w in EvensBelow(ws, 2 * k + 2) ensures w in EvensBelow(ws, 2 * k) + {ws[2 * k]} {
      var i :| 0 <= i < 2 * k + 2 && i < |ws| && i % 2 == 0 && ws[i] == w;
      if i < 2 * k {
        assert ws[i] in EvensBelow(ws, 2 * k);
      }
    }
  }

  /** Around the entry at position `2k`: before the pass it sits after the odd entries passed over; after the pass it is gone. */
  lemma {:induction false} SurvivorsSplit(ws: seq<Wrapper>, k: nat)
    requires 2 * k < |ws|
    ensures Survivors(ws, k) == OddPrefix(ws, k) + [ws[2 * k]] + ws[2 * k + 1..]
    ensures Survivors(ws, k + 1) == OddPrefix(ws, k) + ws[2 * k + 1..]
  {
    SurvivorsShape(ws, k);
    assert ws[2 * k..] == [ws[2 * k]] + ws[2 * k + 1..];
    if 2 * k + 1 < |ws| {
      SurvivorsShape(ws, k + 1);
      assert OddPrefix(ws, k + 1) == OddPrefix(ws, k) + [ws[2 * k + 1]];
      assert ws[2 * k + 1..] == [ws[2 * k + 1]] + ws[2 * k + 2..];
    } else {
      assert Survivors(ws, k + 1) == OddPrefix(ws, k);
    }
  }

  /** `list.remove(x)` on a list whose first `x` follows `a` takes out that one. */
  lemma RemoveFirstAfter(a: seq<Wrapper>, x: Wrapper, b: seq<Wrapper>)
    requires x !in a
    ensures x in a + [x] + b
    ensures RemoveFirst(a + [x] + b, x) == a + b
  {
    var c := a + [x] + b;
    assert c[|a|] == x;
    assert IndexOf(c, x) == |a|;
    assert c[..|a|] == a && c[|a| + 1..] == b;
  }

  /** One pass of the loop visits the entry at position `2k` of the original list and removes it. */
  lemma {:induction false} SurvivorsStep(ws: seq<Wrapper>, k: nat)
    requires Distinct(ws) && 2 * k < |ws|
    ensures k < |Survivors(ws, k)| && Survivors(ws, k)[k] == ws[2 * k]
    ensures RemoveFirst(Survivors(ws, k), ws[2 * k]) == Survivors(ws, k + 1)
    ensures EvensBelow(ws, 2 * (k + 1)) == EvensBelow(ws, 2 * k) + {ws[2 * k]}
  {
    var odd := OddPrefix(ws, k);
    SurvivorsSplit(ws, k);
    assert ws[2 * k] !in odd;
    RemoveFirstAfter(odd, ws[2 * k], ws[2 * k + 1..]);
    EvensBelowStep(ws, k);
  }

  /** The entries at even positions are the ones the loop removes. */
  function EvenIndexed(ws: seq<Wrapper>): set<Wrapper>
  {
    EvensBelow(ws, |ws|)
  }

  lemma SurvivorsStart(ws: seq<Wrapper>)
    ensures Survivors(ws, 0) == ws
  {
    assert ws[0..] == ws;
  }

  lemma EvensBelowAll(ws: seq<Wrapper>, n: nat)
    requires |ws| <= n
    ensures EvensBelow(ws, n) == EvenIndexed(ws)
  {
  }

  /**
   * The loop detaches only every other wrapper: with two or more frames, the
   * second one stays in the main window.
   */
  lemma SecondWrapperStays(ws: seq<Wrapper>)
    requires Distinct(ws) && |ws| >= 2
    ensures ws[1] !in EvenIndexed(ws)
    ensures ws[0] in EvenIndexed(ws)
  {
    assert ws[0] == ws[0 * 2];
  }

  // ----- updateFrames: `{w.widget(): w for w in ws}` keeps the last wrapper of each frame -----

  /** The last wrapper of `f` in `ws`: the one the dict comprehension keeps. */
  function LastWith(ws: seq<Wrapper>, f: FrameId): (w: Wrapper)
    requires f in FrameSet(ws)
    ensures w in ws && w.frame == f
  {
    var n := |ws| - 1;
    if ws[n].frame == f then ws[n]
    else
      assert f in FrameSet(ws[..n]) by {
        var w :| w in ws && w.frame == f;
        var i :| 0 <= i < |ws| && ws[i] == w;
        assert ws[..n][i] == w;
      }
      LastWith(ws[..n], f)
  }

  /** The wrappers `orgFrames[f]` for the frames `fs` that have one. */
  function LastsOf(ws: seq<Wrapper>, fs: set<FrameId>): set<Wrapper>
  {
    set f | f in fs && f in FrameSet(ws) :: LastWith(ws, f)
  }

  predicate NoRepeatedFrames(ws: seq<Wrapper>)
  {
    forall i, j :: 0 <= i < j < |ws| ==> ws[i].frame != ws[j].frame
  }

  /**
   * When no frame is wrapped twice, dropping the wrappers of the frames the
   * app no longer returns and appending wrappers for the frames it newly
   * returns leaves exactly the frames it returns.
   */
  lemma {:induction false} UpdatedFrames(ws: seq<Wrapper>, now: set<FrameId>, added: seq<Wrapper>)
    requires NoRepeatedFrames(ws)
    requires FrameSet(added) == now - FrameSet(ws)
    ensures FrameSet(Without(ws, LastsOf(ws, FrameSet(ws) - now)) + added) == now
  {
    var gone := LastsOf(ws, FrameSet(ws) - now);
    var kept := Without(ws, gone);
    WithoutMembers(ws, gone);
    forall f | f in FrameSet(ws) ensures (f in FrameSet(kept) <==> f in now) {
      var w := LastWith(ws, f);
      if f in now {
        assert w !in gone by {
          forall g | g in FrameSet(ws) - now ensures LastWith(ws, g) != w {
          }
        }
        assert w in kept;
      } else {
        assert w in gone;
        forall v | v in kept ensures v.frame != f {
          var i :| 0 <= i < |ws| && ws[i] == v;
          var j :| 0 <= j < |ws| && ws[j] == w;
          assert v != w;
        }
      }
    }
    forall f | f in FrameSet(kept) ensures f in FrameSet(ws) {
      var v :| v in kept && v.frame == f;
    }
    assert FrameSet(kept + added) == FrameSet(kept) + FrameSet(added) by {
      forall f | f in FrameSet(kept + added) ensures f in FrameSet(kept) + FrameSet(added) {
        var v :| v in kept + added && v.frame == f;
      }
    }
  }

  lemma UpdateTwice(m: map<string, seq<Wrapper>>, k: string, a: seq<Wrapper>, b: seq<Wrapper>)
    ensures m[k := a][k := b] == m[k := b]
  {
  }

  lemma MinusStep(a: set<Wrapper>, b: set<Wrapper>, x: Wrapper)
    ensures a - b - {x} == a - (b + {x})
  {
  }

  /** No wrapper repeats, and every identity was handed out before `next`. */
  ghost predicate Issued(ws: seq<Wrapper>, next: nat)
  {
    Distinct(ws) && forall w :: w in ws ==> w.id < next
  }

  lemma LastsOfStep(ws: seq<Wrapper>, done: set<FrameId>, f: FrameId)
    requires f in FrameSet(ws) && f !in done
    ensures LastWith(ws, f) !in LastsOf(ws, done)
    ensures LastsOf(ws, done + {f}) == LastsOf(ws, done) + {LastWith(ws, f)}
  {
    forall g | g in done && g in FrameSet(ws) ensures LastWith(ws, g) != LastWith(ws, f) {
      assert LastWith(ws, g).frame == g;
    }
  }

  /** The wrappers of `ws` that went into the window. */
  function Shown(ws: seq<Wrapper>, show: bool): set<Wrapper>
  {
    set w | w in ws && Attaches(w.area, show)
  }

  lemma AddedStep(added: seq<Wrapper>, w: Wrapper, show: bool)
    ensures FrameSet(added + [w]) == FrameSet(added) + {w.frame}
    ensures Shown(added + [w], show) == Shown(added, show) + (if Attaches(w.area, show) then {w} else {})
  {
  }

  /** The wrappers `addFrame` makes for the frames `fs` in turn, numbered from `next`, all placed in `area`. */
  function Wrapped(next: nat, fs: seq<FrameId>, area: Area): seq<Wrapper>
  {
    if fs == [] then []
    else Wrapped(next, fs[..|fs| - 1], area) + [Wrapper(next + |fs| - 1, fs[|fs| - 1], area)]
  }

  /** The `i`-th new wrapper wraps the `i`-th frame and gets identity `next + i`. */
  lemma {:induction false} WrappedAt(next: nat, fs: seq<FrameId>, area: Area)
    ensures |Wrapped(next, fs, area)| == |fs|
    ensures forall i :: 0 <= i < |fs| ==> Wrapped(next, fs, area)[i] == Wrapper(next + i, fs[i], area)
  {
    if fs != [] {
      WrappedAt(next, fs[..|fs| - 1], area);
    }
  }

  lemma WrappedStep(next: nat, fs: seq<FrameId>, i: nat, area: Area)
    requires i < |fs|
    ensures Wrapped(next, fs[..i + 1], area) == Wrapped(next, fs[..i], area) + [Wrapper(next + i, fs[i], area)]
  {
    assert fs[..i + 1][..i] == fs[..i];
  }

  lemma AppendAssoc(a: seq<Wrapper>, b: seq<Wrapper>, w: Wrapper)
    ensures a + b + [w] == a + (b + [w])
  {
  }

  function ListOf(lists: map<string, seq<Wrapper>>, name: string): seq<Wrapper>
  {
    if name in lists then lists[name] else []
  }

  /**
   * `_wrapperWidgets` together with the main window: `lists` holds the wrappers
   * of each app in creation order, `attached` the wrappers currently placed in
   * the main window, `nextId` the identity the next wrapper gets, and `mdi`
   * whether the window has a central MDI area.
   */
  class WrapperTable {
    var lists: map<string, seq<Wrapper>>
    var attached: set<Wrapper>
    var nextId: nat
    const mdi: bool

    ghost predicate Valid()
      reads this
    {
      (forall name :: name in lists ==> Issued(lists[name], nextId)) &&
      (forall w :: w in attached ==> w.id < nextId)
    }

    constructor(mdi: bool)
      ensures Valid()
      ensures lists == map[] && attached == {} && this.mdi == mdi
    {
      lists := map[];
      attached := {};
      nextId := 0;
      this.mdi := mdi;
    }

    /** `addFrame`: wraps the frame, places it as `pos` and `show` say, appends it to the app's list. */
    method Add(name: string, frame: FrameId, pos: string, show: bool) returns (w: Wrapper)
      requires Valid()
      modifies this
      ensures Valid()
      ensures w == Wrapper(old(nextId), frame, Placement(pos, mdi))
      ensures lists == old(lists)[name := ListOf(old(lists), name) + [w]]
      ensures attached == if Attaches(w.area, show) then old(attached) + {w} else old(attached)
      ensures nextId == old(nextId) + 1
    {
      w := Wrapper(nextId, frame, Placement(pos, mdi));
      if Attaches(w.area, show) {
        attached := attached + {w};
      }
      lists := lists[name := ListOf(lists, name) + [w]];
      nextId := nextId + 1;
    }

    /** `createApp`'s frame loop: `addFrame` for each frame the new app returns, in order. */
    method AddEach(name: string, fs: seq<FrameId>, pos: string, show: bool) returns (ghost added: seq<Wrapper>)
      requires Valid()
      modifies this
      ensures Valid()
      ensures added == Wrapped(old(nextId), fs, Placement(pos, mdi))
      ensures lists == if fs == [] then old(lists) else old(lists)[name := ListOf(old(lists), name) + added]
      ensures attached == old(attached) + Shown(added, show)
      ensures nextId == old(nextId) + |fs|
    {
      var i := 0;
      added := [];
      assert fs[..0] == [];
      while i < |fs|
        invariant Adding(old(lists), old(attached), old(nextId), name, fs, i, added, pos, show)
      {
        added := AddNext(name, fs, i, added, pos, show, old(lists), old(attached), old(nextId));
        i := i + 1;
      }
      assert fs[..i] == fs;
    }

    /**
     * The state of `createApp`'s frame loop once the first `i` frames are
     * wrapped by `added`: the app's list is its old list followed by `added`.
     */
    ghost predicate Adding(lists0: map<string, seq<Wrapper>>, attached0: set<Wrapper>, next0: nat, name: string,
                           fs: seq<FrameId>, i: nat, added: seq<Wrapper>, pos: string, show: bool)
      reads this
    {
      Valid() && i <= |fs| && nextId == next0 + i &&
      added == Wrapped(next0, fs[..i], Placement(pos, mdi)) &&
      lists == (if i == 0 then lists0 else lists0[name := ListOf(lists0, name) + added]) &&
      attached == attached0 + Shown(added, show)
    }

    /** One pass of the frame loop: the frame at position `i` is wrapped and appended. */
    method AddNext(name: string, fs: seq<FrameId>, i: nat, ghost added: seq<Wrapper>, pos: string, show: bool,
                   ghost lists0: map<string, seq<Wrapper>>, ghost attached0: set<Wrapper>, ghost next0: nat)
      returns (ghost added': seq<Wrapper>)
      requires Adding(lists0, attached0, next0, name, fs, i, added, pos, show) && i < |fs|
      modifies this
      ensures Adding(lists0, attached0, next0, name, fs, i + 1, added', pos, show)
    {
      var w := Add(name, fs[i], pos, show);
      AddedStep(added, w, show);
      WrappedStep(next0, fs, i, Placement(pos, mdi));
      AppendAssoc(ListOf(lists0, name), added, w);
      if i == 0 {
        assert added + [w] == [w];
      } else {
        UpdateTwice(lists0, name, ListOf(lists0, name) + added, ListOf(lists0, name) + (added + [w]));
      }
      added' := added + [w];
    }

    /**
     * `removeFrame`: takes the wrapper out of the window, then out of the app's
     * list; `ok` is false when the list did not hold it (`list.remove` raises
     * ValueError, after the entry was created by the lookup).
     */
    method Remove(name: string, w: Wrapper) returns (ok: bool)
      requires Valid()
      modifies this
      ensures Valid()
      ensures attached == old(attached) - {w}
      ensures ok <==> w in ListOf(old(lists), name)
      ensures ok ==> lists == old(lists)[name := RemoveFirst(old(lists)[name], w)]
      ensures !ok ==> lists == old(lists)[name := ListOf(old(lists), name)]
      ensures nextId == old(nextId)
    {
      attached := attached - {w};
      var ws := ListOf(lists, name);
      ok := w in ws;
      if ok {
        RemoveFirstDistinct(ws, w);
        lists := lists[name := RemoveFirst(ws, w)];
      } else {
        lists := lists[name := ws];
      }
    }

    /** One pass of `destroyApp`'s frame loop: the entry at position `i` of the shrinking list is removed. */
    method VisitOne(name: string, ghost ws: seq<Wrapper>, i: nat)
      requires Valid() && Distinct(ws) && 2 * i < |ws|
      requires name in lists && lists[name] == Survivors(ws, i)
      modifies this
      ensures Valid()
      ensures lists == old(lists)[name := Survivors(ws, i + 1)]
      ensures attached == old(attached) - {ws[2 * i]}
      ensures EvensBelow(ws, 2 * (i + 1)) == EvensBelow(ws, 2 * i) + {ws[2 * i]}
      ensures nextId == old(nextId)
    {
      SurvivorsStep(ws, i);
      var w := lists[name][i];
      var ok := Remove(name, w);
    }

    /**
     * `destroyApp`'s frame loop and `del`: iterating the list it shrinks, the
     * loop removes the entries at even positions only; the others stay in the
     * window, and the app's entry is deleted.
     */
    method DestroyFrames(name: string)
      requires Valid()
      modifies this
      ensures Valid()
      ensures lists == old(lists) - {name}
      ensures attached == old(attached) - EvenIndexed(ListOf(old(lists), name))
      ensures nextId == old(nextId)
    {
      var ws := ListOf(lists, name);
      assert Issued(ws, nextId);
      lists := lists[name := ws];
      DetachVisited(name, ws);
      lists := lists - {name};
    }

    /** The loop of `destroyApp` over the app's list `ws`, which it shrinks as it goes. */
    method DetachVisited(name: string, ghost ws: seq<Wrapper>)
      requires Valid() && name in lists && lists[name] == ws
      modifies this
      ensures Valid() && name in lists
      ensures lists - {name} == old(lists) - {name}
      ensures attached == old(attached) - EvenIndexed(ws)
      ensures nextId == old(nextId)
    {
      var i := 0;
      SurvivorsStart(ws);
      while i < |lists[name]|
        invariant Valid()
        invariant lists == old(lists)[name := Survivors(ws, i)]
        invariant attached == old(attached) - EvensBelow(ws, 2 * i)
        invariant nextId == old(nextId)
        invariant 2 * i <= |ws| + 1
        invariant Distinct(ws)
        decreases |ws| + 1 - 2 * i
      {
        if 2 * i >= |ws| {
          assert false;
        }
        VisitOne(name, ws, i);
        UpdateTwice(old(lists), name, Survivors(ws, i), Survivors(ws, i + 1));
        MinusStep(old(attached), EvensBelow(ws, 2 * i), ws[2 * i]);
        i := i + 1;
      }
      EvensBelowAll(ws, 2 * i);
    }

    /**
     * `updateFrames`' two loops: drops `orgFrames[f]` for each frame `f` the app
     * no longer returns, then adds a wrapper for each frame it newly returns,
     * both in set order (left open here).
     */
    method Update(name: string, now: seq<FrameId>, pos: string, show: bool) returns (ghost added: seq<Wrapper>)
      requires Valid()
      modifies this
      ensures Valid()
      ensures var ws := ListOf(old(lists), name);
        lists == old(lists)[name := Without(ws, LastsOf(ws, FrameSet(ws) - set f | f in now)) + added]
      ensures FrameSet(added) == (set f | f in now) - FrameSet(ListOf(old(lists), name))
      ensures NoRepeatedFrames(added)
      ensures forall w :: w in added ==> old(nextId) <= w.id && w.area == Placement(pos, mdi)
      ensures var ws := ListOf(old(lists), name);
        attached == old(attached) - LastsOf(ws, FrameSet(ws) - set f | f in now) + Shown(added, show)
      ensures nextId == old(nextId) + |added|
    {
      var ws := ListOf(lists, name);
      assert Issued(ws, nextId);
      lists := lists[name := ws];
      var nowSet := set f | f in now;
      DropVanished(name, ws, FrameSet(ws) - nowSet);
      added := AddAppeared(name, nowSet - FrameSet(ws), pos, show);
    }

    /** The first loop of `updateFrames`: removes `orgFrames[f]` for each `f` in `vanished`. */
    method DropVanished(name: string, ws: seq<Wrapper>, vanished: set<FrameId>)
      requires Valid() && name in lists && lists[name] == ws && vanished <= FrameSet(ws)
      modifies this
      ensures Valid()
      ensures lists == old(lists)[name := Without(ws, LastsOf(ws, vanished))]
      ensures attached == old(attached) - LastsOf(ws, vanished)
      ensures nextId == old(nextId)
    {
      var toRemove := vanished;
      ghost var done: set<FrameId> := {};
      WithoutNone(ws, LastsOf(ws, done));
      while toRemove != {}
        invariant Dropping(old(lists), old(attached), old(nextId), name, ws, vanished, toRemove, done)
        decreases |toRemove|
      {
        var f :| f in toRemove;
        DropStep(name, ws, vanished, toRemove, done, f, old(lists), old(attached), old(nextId));
        done := done + {f};
        toRemove := toRemove - {f};
      }
    }

    /**
     * The state of the first loop of `updateFrames` once the frames `done` have
     * been handled and `toRemove` remain: the wrappers `orgFrames[f]` of the
     * handled frames have left the list and the window.
     */
    ghost predicate Dropping(lists0: map<string, seq<Wrapper>>, attached0: set<Wrapper>, next0: nat, name: string,
                             ws: seq<Wrapper>, vanished: set<FrameId>, toRemove: set<FrameId>, done: set<FrameId>)
      reads this
    {
      Valid() && Distinct(ws) && nextId == next0 && vanished <= FrameSet(ws) &&
      toRemove + done == vanished && toRemove !! done &&
      lists == lists0[name := Without(ws, LastsOf(ws, done))] && attached == attached0 - LastsOf(ws, done)
    }

    /** One pass of the first loop: `orgFrames[f]` is still listed, and leaves the list and the window. */
    method DropStep(name: string, ws: seq<Wrapper>, ghost vanished: set<FrameId>, ghost toRemove: set<FrameId>,
                    ghost done: set<FrameId>, f: FrameId,
                    ghost lists0: map<string, seq<Wrapper>>, ghost attached0: set<Wrapper>, ghost next0: nat)
      requires Dropping(lists0, attached0, next0, name, ws, vanished, toRemove, done) && f in toRemove
      modifies this
      ensures Dropping(lists0, attached0, next0, name, ws, vanished, toRemove - {f}, done + {f})
    {
      var w := LastWith(ws, f);
      LastsOfStep(ws, done, f);
      var gone := LastsOf(ws, done);
      WithoutMembers(ws, gone);
      RemoveFirstDistinct(Without(ws, gone), w);
      WithoutWithout(ws, gone, {w});
      var ok := Remove(name, w);
      UpdateTwice(lists0, name, Without(ws, gone), Without(ws, gone + {w}));
      MinusStep(attached0, gone, w);
    }

    /** The second loop of `updateFrames`: wraps each frame of `appeared`, in set order. */
    method AddAppeared(name: string, appeared: set<FrameId>, pos: string, show: bool) returns (ghost added: seq<Wrapper>)
      requires Valid() && name in lists
      modifies this
      ensures Valid()
      ensures lists == old(lists)[name := old(lists)[name] + added]
      ensures FrameSet(added) == appeared && NoRepeatedFrames(added)
      ensures forall w :: w in added ==> old(nextId) <= w.id && w.area == Placement(pos, mdi)
      ensures attached == old(attached) + Shown(added, show)
      ensures nextId == old(nextId) + |added|
    {
      var toAdd := appeared;
      added := [];
      assert old(lists)[name] + added == old(lists)[name];
      while toAdd != {}
        invariant Appending(old(lists), old(attached), old(nextId), name, appeared, toAdd, added, pos, show)
        decreases |toAdd|
      {
        var f :| f in toAdd;
        var nw := AddStep(name, appeared, toAdd, added, f, pos, show, old(lists), old(attached), old(nextId));
        added := added + [nw];
        toAdd := toAdd - {f};
      }
    }

    /**
     * The state of the second loop once the frames of `added` are wrapped and
     * `toAdd` remain: the list of `name` is its old list followed by `added`,
     * whose frames are distinct and whose wrappers are new, placed as `pos`
     * says, and in the window when the placement or `show` says so.
     */
    ghost predicate Appending(lists0: map<string, seq<Wrapper>>, attached0: set<Wrapper>, next0: nat, name: string,
                              appeared: set<FrameId>, toAdd: set<FrameId>, added: seq<Wrapper>, pos: string, show: bool)
      reads this
    {
      Valid() && toAdd + FrameSet(added) == appeared && toAdd !! FrameSet(added) &&
      name in lists0 && lists == lists0[name := lists0[name] + added] &&
      attached == attached0 + Shown(added, show) && NoRepeatedFrames(added) && nextId == next0 + |added| &&
      forall w :: w in added ==> next0 <= w.id && w.area == Placement(pos, mdi)
    }

    /** One pass of the second loop: a wrapper for the new frame `f` is appended. */
    method AddStep(name: string, ghost appeared: set<FrameId>, ghost toAdd: set<FrameId>, ghost added: seq<Wrapper>,
                   f: FrameId, pos: string, show: bool,
                   ghost lists0: map<string, seq<Wrapper>>, ghost attached0: set<Wrapper>, ghost next0: nat)
      returns (w: Wrapper)
      requires Appending(lists0, attached0, next0, name, appeared, toAdd, added, pos, show) && f in toAdd
      modifies this
      ensures Appending(lists0, attached0, next0, name, appeared, toAdd - {f}, added + [w], pos, show)
    {
      w := Add(name, f, pos, show);
      AddedStep(added, w, show);
      assert lists0[name] + added + [w] == lists0[name] + (added + [w]);
      UpdateTwice(lists0, name, lists0[name] + added, lists0[name] + (added + [w]));
      assert forall i :: 0 <= i < |added| ==> added[i] in added;
    }
  }
}
