/**
 * The channel table of the manager: `_subscribers = defaultdict(set)`, mapping
 * a channel name to the names of its subscriber apps. Reading an absent channel
 * through the defaultdict creates an empty entry, which `channelNames` then lists.
 */
module Channels {

  type Table = map<string, set<string>>

  /** `table[channel]`: the subscribers, the empty set for a channel with no entry. */
  function Members(t: Table, channel: string): set<string>
  {
    if channel in t then t[channel] else {}
  }

  /** The table after `table[channel]` was read: the entry exists from then on, empty if new. */
  function Touch(t: Table, channel: string): (r: Table)
    ensures r.Keys == t.Keys + {channel}
    ensures forall c :: Members(r, c) == Members(t, c)
  {
    if channel in t then t else t[channel := {}]
  }

  /** `table[channel].add(app)`. */
  function AfterSubscribe(t: Table, app: string, channel: string): (r: Table)
    ensures r.Keys == t.Keys + {channel}
    ensures Members(r, channel) == Members(t, channel) + {app}
    ensures forall c :: c != channel ==> Members(r, c) == Members(t, c)
  {
    t[channel := Members(t, channel) + {app}]
  }

  /** `table[channel].remove(app)`, and the entry it leaves behind when the app was absent. */
  function AfterUnsubscribe(t: Table, app: string, channel: string): (r: Table)
    ensures r.Keys == t.Keys + {channel}
    ensures Members(r, channel) == Members(t, channel) - {app}
    ensures forall c :: c != channel ==> Members(r, c) == Members(t, c)
  {
    t[channel := Members(t, channel) - {app}]
  }

  /** `for apps in table.values(): apps.discard(name)`. */
  function DiscardEverywhere(t: Table, app: string): (r: Table)
    ensures r.Keys == t.Keys
    ensures forall c :: Members(r, c) == Members(t, c) - {app}
  {
    map c | c in t :: t[c] - {app}
  }

  /** Subscribing twice is subscribing once. */
  lemma SubscribeIdempotent(t: Table, app: string, channel: string)
    ensures AfterSubscribe(AfterSubscribe(t, app, channel), app, channel) == AfterSubscribe(t, app, channel)
  {
  }

  /** A subscription that already exists changes nothing, not even the channel list. */
  lemma {:induction false} SubscribeExistingIsNoop(t: Table, app: string, channel: string)
    requires app in Members(t, channel)
    ensures AfterSubscribe(t, app, channel) == t
  {
    assert channel in t;
    assert t[channel] + {app} == t[channel];
  }

  /** Unsubscribing a subscriber of a channel present in the table changes only that set. */
  lemma {:induction false} UnsubscribeAfterSubscribe(t: Table, app: string, channel: string)
    requires app !in Members(t, channel)
    ensures AfterUnsubscribe(AfterSubscribe(t, app, channel), app, channel) == Touch(t, channel)
  {
    var s := AfterSubscribe(t, app, channel);
    var u := AfterUnsubscribe(s, app, channel);
    assert Members(u, channel) == Members(t, channel);
    assert u.Keys == Touch(t, channel).Keys;
    forall c | c in u ensures u[c] == Touch(t, channel)[c] {
      assert Members(u, c) == Members(Touch(t, channel), c);
    }
  }

  /** After the app left every channel, no channel lists it, and the channel list is unchanged. */
  lemma DiscardRemovesApp(t: Table, app: string, channel: string)
    ensures app !in Members(DiscardEverywhere(t, app), channel)
    ensures DiscardEverywhere(DiscardEverywhere(t, app), app) == DiscardEverywhere(t, app)
  {
    var once := DiscardEverywhere(t, app);
    var twice := DiscardEverywhere(once, app);
    forall c | c in twice ensures twice[c] == once[c] {
      assert Members(twice, c) == Members(once, c);
    }
  }

  /** The table after `subscribe(app, c)` for each channel `c` of `channels`, in order. */
  function SubscribeAll(t: Table, app: string, channels: seq<string>): Table
  {
    if channels == [] then t
    else AfterSubscribe(SubscribeAll(t, app, channels[..|channels| - 1]), app, channels[|channels| - 1])
  }

  /** The app joins exactly the listed channels, and every listed channel gets an entry. */
  lemma {:induction false} SubscribeAllJoins(t: Table, app: string, channels: seq<string>)
    ensures SubscribeAll(t, app, channels).Keys == t.Keys + set c | c in channels
    ensures forall c :: Members(SubscribeAll(t, app, channels), c) == Members(t, c) + (if c in channels then {app} else {})
  {
    if channels != [] {
      var init := channels[..|channels| - 1];
      SubscribeAllJoins(t, app, init);
      assert channels == init + [channels[|channels| - 1]];
    }
  }

  /** No name occurs twice. */
  predicate Unique(names: seq<string>)
  {
    forall i, j :: 0 <= i < j < |names| ==> names[i] != names[j]
  }

  /** `tuple(table.keys())`: the keys in some order, each once. */
  method Enumerate(keys: set<string>) returns (names: seq<string>)
    ensures |names| == |keys| && Unique(names)
    ensures forall n :: n in names <==> n in keys
  {
    names := [];
    var rest := keys;
    while rest != {}
      invariant rest !! (set n | n in names) && rest + (set n | n in names) == keys
      invariant |names| + |rest| == |keys|
      invariant Unique(names)
      decreases |rest|
    {
      var n :| n in rest;
      assert (set m | m in names + [n]) == (set m | m in names) + {n};
      names := names + [n];
      rest := rest - {n};
    }
    assert (set m | m in names) == keys;
  }
}
