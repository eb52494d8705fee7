/**
 * The manager object of the system, in both of its versions: `Qiwis` (with a
 * central MDI area and `createApp(name, info, replace=False)`, which ignores
 * or replaces an existing app) and its predecessor `Qiwi` (docks only, and a
 * `createApp(name, info)` that creates the app again under the same name).
 *
 * The manager keeps the live apps by name, the channel table, and the
 * wrappers of the apps' frames; it relays broadcasts to subscribers and
 * answers qiwiscalls, replying through the caller's `qiwiscallReturned`
 * signal. The apps themselves, the Qt widgets and the import machinery are
 * outside the model: an app object is a number, creating one either fails or
 * yields the frames it returns, and a signal sent to an app is recorded in
 * `emitted`.
 */
module Manager {
  import opened Wrappers
  import opened Json
  import opened Records
  import opened Channels
  import opened Frames
  import opened Dispatch

  /** Which of the two manager classes is meant. */
  datatype Variant = Qiwis | Qiwi

  /** A signal the manager emits to an app object, identified by its number. */
  datatype Signal =
    | Received(app: nat, channel: string, msg: string)     // app.received.emit(channel, msg)
    | Returned(app: nat, request: string, result: string)  // app.qiwiscallReturned.emit(msg, dumps(result))

  /**
   * Importing the app's module and constructing it: None when either raises,
   * otherwise the frames the new app's `frames()` returns.
   */
  type Loaded = Option<seq<FrameId>>

  /** The argument named `key` as a string; the parsed request guarantees it is one. */
  function StrArgOf(args: map<string, Arg>, key: string): string
  {
    if key in args && args[key].StrArg? then args[key].s else ""
  }

  /** `if replace:` on the `replace` argument: its truth value, False when absent. */
  function ReplaceArgOf(args: map<string, Arg>): bool
  {
    "replace" in args && args["replace"].PlainArg? && Truthy(args["replace"].j)
  }

  /** The `info` argument; the parsed request guarantees it is an AppInfo. */
  function InfoArgOf(args: map<string, Arg>): AppInfo
  {
    if "info" in args && args["info"].InfoArg? then args["info"].info else DefaultAppInfo("", "")
  }

  /** The signals of a broadcast delivered to the apps `order`, in that order. */
  function Deliveries(apps: map<string, nat>, order: seq<string>, channel: string, msg: string): (r: seq<Signal>)
    requires forall n :: n in order ==> n in apps
    ensures |r| == |order|
    ensures forall i :: 0 <= i < |order| ==> r[i] == Received(apps[order[i]], channel, msg)
  {
    if order == [] then []
    else Deliveries(apps, order[..|order| - 1], channel, msg) + [Received(apps[order[|order| - 1]], channel, msg)]
  }

  /** The manager's state as a value: `_apps`, the next app number, `_subscribers` and the wrapper table. */
  datatype State = State(apps: map<string, nat>, nextApp: nat, subscribers: Table,
                         lists: map<string, seq<Wrapper>>, attached: set<Wrapper>, nextId: nat)

  /**
   * `destroyApp(name)` on a state: the app's list is deleted and only its
   * even-position wrappers are detached, the app leaves every channel, and
   * it leaves `_apps`.
   */
  function Destroyed(s: State, name: string): (t: State)
    ensures name !in t.apps && name !in t.lists && forall c :: name !in Members(t.subscribers, c)
    ensures forall n :: n in s.apps && n != name ==> n in t.apps && t.apps[n] == s.apps[n]
    ensures forall n :: n in s.lists && n != name ==> n in t.lists && t.lists[n] == s.lists[n]
    ensures forall w :: w in s.attached && w !in ListOf(s.lists, name) ==> w in t.attached
    ensures t.attached <= s.attached
    ensures t.subscribers.Keys == s.subscribers.Keys && t.nextApp == s.nextApp && t.nextId == s.nextId
  {
    s.(apps := s.apps - {name}, subscribers := DiscardEverywhere(s.subscribers, name),
       lists := s.lists - {name}, attached := s.attached - EvenIndexed(ListOf(s.lists, name)))
  }

  /**
   * `createApp(name, info, replace)` on a state, `loaded` being what loading
   * the app gives: the state afterwards and the outcome. In Qiwis an existing
   * name is ignored unless `replace`, which destroys the old app first; Qiwi
   * neither checks nor replaces. A failed load changes nothing more; a
   * successful one subscribes the app, wraps its frames and makes it live
   * under a new number.
   */
  function Created(variant: Variant, s: State, name: string, info: AppInfo, replace: bool, loaded: Loaded)
    : (res: (State, Result<Value, Error>))
    ensures res.1.Ok? || res.1 == Err(LoadFailed)
    ensures variant.Qiwis? && name in s.apps && !replace ==> res == (s, Ok(NoValue))
    ensures res.1.Ok? <==> loaded.Some? || (variant.Qiwis? && name in s.apps && !replace)
    ensures forall n :: n in s.apps && n != name ==> n in res.0.apps && res.0.apps[n] == s.apps[n]
    ensures res.1.Ok? ==> name in res.0.apps
    ensures loaded.Some? && !(variant.Qiwis? && name in s.apps && !replace) ==>
      && res.0.apps[name] == s.nextApp && res.0.nextApp == s.nextApp + 1
      && forall c :: c in info.channel ==> name in Members(res.0.subscribers, c)
  {
    if variant.Qiwis? && name in s.apps && !replace then (s, Ok(NoValue))
    else
      var base := if variant.Qiwis? && name in s.apps then Destroyed(s, name) else s;
      match loaded
      case None => (base, Err(LoadFailed))
      case Some(frames) => (Installed(base, name, info, frames, variant.Qiwis?), Ok(NoValue))
  }

  /**
   * The part of `createApp` after the app object exists, on a state: the app
   * subscribes to its channels, each frame gets a wrapper, and the app is live
   * under the next number.
   */
  function Installed(s: State, name: string, info: AppInfo, frames: seq<FrameId>, mdi: bool): (t: State)
    ensures t.apps == s.apps[name := s.nextApp] && t.nextApp == s.nextApp + 1
    ensures forall c :: c in info.channel ==> name in Members(t.subscribers, c)
    ensures forall n :: n in s.lists && n != name ==> n in t.lists && t.lists[n] == s.lists[n]
    ensures s.attached <= t.attached && t.nextId == s.nextId + |frames|
  {
    var added := Wrapped(s.nextId, frames, Placement(info.pos, mdi));
    SubscribeAllJoins(s.subscribers, name, info.channel);
    s.(apps := s.apps[name := s.nextApp], nextApp := s.nextApp + 1,
       subscribers := SubscribeAll(s.subscribers, name, info.channel),
       lists := if frames == [] then s.lists else s.lists[name := ListOf(s.lists, name) + added],
       attached := s.attached + Shown(added, info.show), nextId := s.nextId + |frames|)
  }

  /** The outcome of `updateFrames(name)`: an unknown app, no start-up descriptions, none for the app, in that order. */
  function UpdateOutcome(appInfos: Option<map<string, AppInfo>>, apps: map<string, nat>, name: string): (r: Result<Value, Error>)
    ensures r.Ok? <==> name in apps && appInfos.Some? && name in appInfos.value
    ensures r.Err? ==> r.error == NoSuchApp(name) || r.error == NoAppInfos || r.error == NoSuchAppInfo(name)
    ensures name !in apps ==> r == Err(NoSuchApp(name))
  {
    if name !in apps then Err(NoSuchApp(name))
    else if appInfos.None? then Err(NoAppInfos)
    else if name !in appInfos.value then Err(NoSuchAppInfo(name))
    else Ok(NoValue)
  }

  /**
   * The state after a successful `updateFrames(name)` whose second loop added
   * the wrappers `added`: each frame `now` no longer holds loses its last
   * wrapper from the list and the window, and the new wrappers follow.
   */
  function FramesAfter(s: State, name: string, now: seq<FrameId>, show: bool, added: seq<Wrapper>): (t: State)
    ensures t.apps == s.apps && t.nextApp == s.nextApp && t.subscribers == s.subscribers
    ensures t.nextId == s.nextId + |added| && name in t.lists
    ensures forall n :: n in s.lists && n != name ==> n in t.lists && t.lists[n] == s.lists[n]
  {
    var ws := ListOf(s.lists, name);
    var gone := LastsOf(ws, FrameSet(ws) - set f | f in now);
    s.(lists := s.lists[name := Without(ws, gone) + added], attached := s.attached - gone + Shown(added, show),
       nextId := s.nextId + |added|)
  }

  /** `updateFrames(name)` from `s` to `t`: `added` wraps, once each and under new ids, the frames of `now` that had none. */
  ghost predicate FramesUpdated(variant: Variant, appInfos: Option<map<string, AppInfo>>, s: State, name: string,
                                now: seq<FrameId>, t: State, r: Result<Value, Error>, added: seq<Wrapper>)
  {
    r == UpdateOutcome(appInfos, s.apps, name) &&
    if r.Err? then t == s
    else
      var info := appInfos.value[name];
      && t == FramesAfter(s, name, now, info.show, added)
      && FrameSet(added) == (set f | f in now) - FrameSet(ListOf(s.lists, name)) && NoRepeatedFrames(added)
      && forall w :: w in added ==> s.nextId <= w.id && w.area == Placement(info.pos, variant.Qiwis?)
  }

  /**
   * `_handleQiwiscall(sender, msg)` from `s` to `t` with outcome `r`: bad
   * text, a private or unknown name, bad arguments, the user's refusal and a
   * missing argument fail in that order and change nothing; a request that
   * passes them runs its operation. `added` is what an `updateFrames` adds.
   */
  ghost predicate Handled(variant: Variant, codec: Codec, appInfos: Option<map<string, AppInfo>>, msg: string,
                          approve: bool, loaded: Loaded, now: seq<FrameId>,
                          s: State, t: State, r: Result<Value, Error>, added: seq<Wrapper>)
  {
    var prep := Prepare(codec, msg, variant.Qiwis?);
    if prep.Err? then r == Err(prep.error) && t == s
    else if !approve then r == Err(Rejected) && t == s
    else if MissesArgument(prep.value, variant.Qiwis?) then r == Err(MissingArgument) && t == s
    else Performed(variant, appInfos, prep.value, loaded, now, s, t, r, added)
  }

  /** `call(**args)` for a request that passed every gate, from `s` to `t` with outcome `r`. */
  ghost predicate Performed(variant: Variant, appInfos: Option<map<string, AppInfo>>, req: Request, loaded: Loaded,
                            now: seq<FrameId>, s: State, t: State, r: Result<Value, Error>, added: seq<Wrapper>)
  {
    var args := req.args;
    match req.op
    case AppNames =>
      r.Ok? && r.value.Names? && Unique(r.value.names) && (forall n :: n in r.value.names <==> n in s.apps) && t == s
    case ChannelNames =>
      r.Ok? && r.value.Names? && Unique(r.value.names) && (forall c :: c in r.value.names <==> c in s.subscribers)
      && t == s
    case SubscriberNames =>
      var channel := StrArgOf(args, "channel");
      r == Ok(NameSet(Members(s.subscribers, channel))) && t == s.(subscribers := Touch(s.subscribers, channel))
    case Subscribe =>
      var app, channel := StrArgOf(args, "app"), StrArgOf(args, "channel");
      r == Ok(NoValue) && t == s.(subscribers := AfterSubscribe(s.subscribers, app, channel))
    case Unsubscribe =>
      var app, channel := StrArgOf(args, "app"), StrArgOf(args, "channel");
      r == Ok(Flag(app in Members(s.subscribers, channel)))
      && t == s.(subscribers := AfterUnsubscribe(s.subscribers, app, channel))
    case DestroyApp =>
      var name := StrArgOf(args, "name");
      r == (if name in s.apps then Ok(NoValue) else Err(NoSuchApp(name))) && t == Destroyed(s, name)
    case CreateApp =>
      (t, r) == Created(variant, s, StrArgOf(args, "name"), InfoArgOf(args), ReplaceArgOf(args), loaded)
    case UpdateFrames =>
      FramesUpdated(variant, appInfos, s, StrArgOf(args, "name"), now, t, r, added)
  }

  class Manager {
    const variant: Variant
    const codec: Codec
    /** `self.appInfos`: the app descriptions the manager was started with, if any. */
    const appInfos: Option<map<string, AppInfo>>
    /** `_wrapperWidgets` (`_dockWidgets` in Qiwi) and the main window. */
    const wrappers: WrapperTable
    /** `_apps`: the live app objects by name. */
    var apps: map<string, nat>
    /** The number the next app object gets. */
    var nextApp: nat
    /** `_subscribers`. */
    var subscribers: Table
    /** Every signal sent to an app so far. */
    var emitted: seq<Signal>

    /**
     * The manager's invariant: only live apps have frames, app objects are
     * numbered below `nextApp`, and the wrapper table is consistent and has a
     * central area exactly in `Qiwis`.
     */
    ghost predicate Valid()
      reads this, wrappers
    {
      wrappers.Valid() && wrappers.mdi == variant.Qiwis? &&
      wrappers.lists.Keys <= apps.Keys &&
      forall n :: n in apps ==> apps[n] < nextApp
    }

    /** The state as a value. */
    ghost function Snapshot(): State
      reads this, wrappers
    {
      State(apps, nextApp, subscribers, wrappers.lists, wrappers.attached, wrappers.nextId)
    }

    /** `__init__` before `load`: no apps, no channels, no frames. */
    constructor(variant: Variant, codec: Codec, appInfos: Option<map<string, AppInfo>>)
      ensures Valid() && fresh(wrappers)
      ensures this.variant == variant && this.codec == codec && this.appInfos == appInfos
      ensures apps == map[] && subscribers == map[] && emitted == []
      ensures wrappers.lists == map[] && wrappers.attached == {}
    {
      this.variant := variant;
      this.codec := codec;
      this.appInfos := appInfos;
      wrappers := new WrapperTable(variant.Qiwis?);
      apps := map[];
      nextApp := 0;
      subscribers := map[];
      emitted := [];
    }

    // ----- channels -----

    /** `subscribe`: adds the app to the channel, which now exists; an existing subscription is left alone. */
    method Subscribe(app: string, channel: string)
      requires Valid()
      modifies this
      ensures Valid()
      ensures subscribers == AfterSubscribe(old(subscribers), app, channel)
      ensures apps == old(apps) && nextApp == old(nextApp) && emitted == old(emitted)
    {
      var members := Members(subscribers, channel);
      subscribers := Touch(subscribers, channel);
      if app in members {
        SubscribeExistingIsNoop(old(subscribers), app, channel);
      } else {
        subscribers := subscribers[channel := members + {app}];
      }
    }

    /** `unsubscribe`: False when the app was not subscribed; the channel exists afterwards either way. */
    method Unsubscribe(app: string, channel: string) returns (ok: bool)
      requires Valid()
      modifies this
      ensures Valid()
      ensures ok <==> app in Members(old(subscribers), channel)
      ensures subscribers == AfterUnsubscribe(old(subscribers), app, channel)
      ensures apps == old(apps) && nextApp == old(nextApp) && emitted == old(emitted)
    {
      var members := Members(subscribers, channel);
      subscribers := Touch(subscribers, channel);
      ok := app in members;
      if ok {
        subscribers := subscribers[channel := members - {app}];
      } else {
        assert members - {app} == members;
      }
    }

    /** `subscriberNames`: a copy of the channel's subscribers; asking creates the channel. */
    method SubscriberNames(channel: string) returns (members: set<string>)
      requires Valid()
      modifies this
      ensures Valid()
      ensures members == Members(old(subscribers), channel)
      ensures subscribers == Touch(old(subscribers), channel)
      ensures apps == old(apps) && nextApp == old(nextApp) && emitted == old(emitted)
    {
      members := Members(subscribers, channel);
      subscribers := Touch(subscribers, channel);
    }

    /** `channelNames`: every channel ever named, each once. */
    method ChannelNames() returns (names: seq<string>)
      ensures Unique(names) && forall c :: c in names <==> c in subscribers
    {
      names := Enumerate(subscribers.Keys);
    }

    /** `appNames`: every live app, each once. */
    method AppNames() returns (names: seq<string>)
      ensures Unique(names) && forall n :: n in names <==> n in apps
    {
      names := Enumerate(apps.Keys);
    }

    /**
     * `_broadcast`: sends the message to the channel's subscribers in set
     * order (`order`); a subscriber that is no live app raises KeyError, which
     * ends the loop, so `ok` says whether every subscriber got the message.
     */
    method Broadcast(channel: string, msg: string) returns (ok: bool, ghost order: seq<string>)
      requires Valid()
      modifies this
      ensures Valid()
      ensures subscribers == Touch(old(subscribers), channel)
      ensures apps == old(apps) && nextApp == old(nextApp)
      ensures ok <==> Members(old(subscribers), channel) <= apps.Keys
      ensures Unique(order) && forall n :: n in order ==> n in apps && n in Members(old(subscribers), channel)
      ensures ok ==> forall n :: n in Members(old(subscribers), channel) ==> n in order
      ensures emitted == old(emitted) + Deliveries(apps, order, channel, msg)
    {
      subscribers := Touch(subscribers, channel);
      var members := subscribers[channel];
      var rest := members;
      order := [];
      assert old(emitted) + Deliveries(apps, order, channel, msg) == old(emitted);
      while rest != {}
        invariant rest <= members && forall n :: n in members ==> n in rest || n in order
        invariant Unique(order) && forall n :: n in order ==> n in apps && n in members && n !in rest
        invariant emitted == old(emitted) + Deliveries(apps, order, channel, msg)
        invariant subscribers == Touch(old(subscribers), channel) && apps == old(apps) && nextApp == old(nextApp)
        decreases |rest|
      {
        var n :| n in rest;
        if n !in apps {
          return false, order;
        }
        emitted := emitted + [Received(apps[n], channel, msg)];
        order := order + [n];
        rest := rest - {n};
      }
      ok := true;
    }

    // ----- apps -----

    /** `for apps in _subscribers.values(): apps.discard(name)`. */
    method LeaveChannels(name: string)
      requires Valid()
      modifies this
      ensures Valid()
      ensures subscribers == DiscardEverywhere(old(subscribers), name)
      ensures apps == old(apps) && nextApp == old(nextApp) && emitted == old(emitted)
    {
      var rest := subscribers.Keys;
      while rest != {}
        invariant Valid() && rest <= subscribers.Keys == old(subscribers).Keys
        invariant forall c :: c in subscribers ==> subscribers[c] == if c in rest then old(subscribers)[c] else old(subscribers)[c] - {name}
        invariant apps == old(apps) && nextApp == old(nextApp) && emitted == old(emitted)
        decreases |rest|
      {
        var c :| c in rest;
        Discard(c, name);
        rest := rest - {c};
      }
    }

    /** One pass of that loop: `apps.discard(name)` on the channel `c`. */
    method Discard(c: string, name: string)
      requires Valid() && c in subscribers
      modifies this
      ensures Valid()
      ensures subscribers == old(subscribers)[c := old(subscribers)[c] - {name}]
      ensures apps == old(apps) && nextApp == old(nextApp) && emitted == old(emitted)
    {
      subscribers := subscribers[c := subscribers[c] - {name}];
    }

    /**
     * `destroyApp`: removes the frames its loop visits (every other one, as it
     * shrinks the list it walks), deletes the app's list, takes the app out of
     * every channel, and only then pops the app, which raises KeyError for a
     * name that is no live app.
     */
    method DestroyApp(name: string) returns (r: Result<Value, Error>)
      requires Valid()
      modifies this, wrappers
      ensures Valid()
      ensures Snapshot() == Destroyed(old(Snapshot()), name)
      ensures r == if name in old(apps) then Ok(NoValue) else Err(NoSuchApp(name))
      ensures emitted == old(emitted)
    {
      wrappers.DestroyFrames(name);
      LeaveChannels(name);
      if name !in apps {
        return Err(NoSuchApp(name));
      }
      apps := apps - {name};
      r := Ok(NoValue);
    }

    /** `createApp`'s subscription loop over `info.channel`. */
    method SubscribeEach(name: string, channels: seq<string>)
      requires Valid()
      modifies this
      ensures Valid()
      ensures subscribers == SubscribeAll(old(subscribers), name, channels)
      ensures apps == old(apps) && nextApp == old(nextApp) && emitted == old(emitted)
    {
      var i := 0;
      while i < |channels|
        invariant Valid() && i <= |channels|
        invariant subscribers == SubscribeAll(old(subscribers), name, channels[..i])
        invariant apps == old(apps) && nextApp == old(nextApp) && emitted == old(emitted)
      {
        Subscribe(name, channels[i]);
        assert channels[..i + 1][..i] == channels[..i];
        i := i + 1;
      }
      assert channels[..i] == channels;
    }

    /**
     * The part of `createApp` after the app object exists: its subscriptions,
     * its frames, and its entry in `_apps` under a new number.
     */
    method Install(name: string, info: AppInfo, frames: seq<FrameId>)
      requires Valid()
      modifies this, wrappers
      ensures Valid()
      ensures Snapshot() == Installed(old(Snapshot()), name, info, frames, wrappers.mdi)
      ensures emitted == old(emitted)
    {
      SubscribeEach(name, info.channel);
      var _ := wrappers.AddEach(name, frames, info.pos, info.show);
      apps := apps[name := nextApp];
      nextApp := nextApp + 1;
    }

    /**
     * `createApp`. In `Qiwis` an existing name is ignored (an Ok with nothing
     * changed) unless `replace`, which destroys the old app first; `Qiwi`
     * neither checks nor replaces. Then the app is loaded (`loaded` None: the
     * import or the constructor raised, LoadFailed) and installed.
     */
    method CreateApp(name: string, info: AppInfo, replace: bool, loaded: Loaded) returns (r: Result<Value, Error>)
      requires Valid()
      modifies this, wrappers
      ensures Valid()
      ensures (Snapshot(), r) == Created(variant, old(Snapshot()), name, info, replace, loaded)
      ensures emitted == old(emitted)
    {
      ghost var base := if variant.Qiwis? && name in apps then Destroyed(Snapshot(), name) else Snapshot();
      if variant.Qiwis? && name in apps {
        if !replace {
          return Ok(NoValue);
        }
        var _ := DestroyApp(name);
      }
      assert Snapshot() == base;
      if loaded.None? {
        return Err(LoadFailed);
      }
      Install(name, info, loaded.value);
      assert Snapshot() == Installed(base, name, info, loaded.value, variant.Qiwis?);
      r := Ok(NoValue);
    }

    /**
     * `updateFrames`: KeyError for a name that is no live app, TypeError when
     * the manager was started without app descriptions, KeyError when they do
     * not describe the app; otherwise the app's frames are brought in line with
     * `now`, what its `frames()` returns, placing new ones as its description
     * from start-up says.
     */
    method UpdateFrames(name: string, now: seq<FrameId>) returns (r: Result<Value, Error>, ghost added: seq<Wrapper>)
      requires Valid()
      modifies this, wrappers
      ensures Valid()
      ensures FramesUpdated(variant, appInfos, old(Snapshot()), name, now, Snapshot(), r, added)
      ensures emitted == old(emitted)
    {
      added := [];
      if name !in apps {
        return Err(NoSuchApp(name)), added;
      }
      if appInfos.None? {
        return Err(NoAppInfos), added;
      }
      if name !in appInfos.value {
        return Err(NoSuchAppInfo(name)), added;
      }
      var info := appInfos.value[name];
      added := wrappers.Update(name, now, info.pos, info.show);
      r := Ok(NoValue);
    }

    /**
     * `load`: `createApp(name, info)` for each entry of the start-up
     * description in dict order (`names`), `loads[name]` being the outcome of
     * loading that app; the first failure propagates and ends the loop.
     */
    method Load(names: seq<string>, infos: map<string, AppInfo>, loads: map<string, Loaded>) returns (r: Result<Value, Error>)
      requires Valid()
      requires Unique(names) && (set n | n in names) == infos.Keys && infos.Keys <= loads.Keys
      modifies this, wrappers
      ensures Valid()
      ensures old(apps).Keys <= apps.Keys
      ensures r.Ok? ==> infos.Keys <= apps.Keys
      ensures r.Err? ==> r.error == LoadFailed && exists n :: n in infos && loads[n].None?
      ensures emitted == old(emitted)
    {
      var i := 0;
      while i < |names|
        invariant Valid() && i <= |names|
        invariant old(apps).Keys <= apps.Keys
        invariant forall n :: n in names[..i] ==> n in apps
        invariant emitted == old(emitted)
      {
        var name := names[i];
        r := CreateApp(name, infos[name], false, loads[name]);
        if r.Err? {
          return r;
        }
        i := i + 1;
      }
      r := Ok(NoValue);
    }

    // ----- qiwiscalls -----

    /**
     * `_handleQiwiscall`: the request passes the gates of `Prepare`, then the
     * user's answer `approve`, then the binding of `call(**args)`, which
     * fails for a missing argument; only then is the operation invoked.
     * `loaded` is what loading an app yields and `now` what the app's
     * `frames()` returns, for the operations that need them.
     */
    method HandleCall(msg: string, approve: bool, loaded: Loaded, now: seq<FrameId>)
      returns (r: Result<Value, Error>, ghost added: seq<Wrapper>)
      requires Valid()
      modifies this, wrappers
      ensures Valid()
      ensures Handled(variant, codec, appInfos, msg, approve, loaded, now, old(Snapshot()), Snapshot(), r, added)
      ensures emitted == old(emitted)
    {
      added := [];
      var prep := Prepare(codec, msg, variant.Qiwis?);
      if prep.Err? {
        r := Err(prep.error);
        return;
      }
      if !approve {
        r := Err(Rejected);
        return;
      }
      var req := prep.value;
      if MissesArgument(req, variant.Qiwis?) {
        r := Err(MissingArgument);
        return;
      }
      r, added := Perform(req, loaded, now);
    }

    /** The operation a request names, run with its arguments. */
    method Perform(req: Request, loaded: Loaded, now: seq<FrameId>) returns (r: Result<Value, Error>, ghost added: seq<Wrapper>)
      requires Valid()
      modifies this, wrappers
      ensures Valid()
      ensures Performed(variant, appInfos, req, loaded, now, old(Snapshot()), Snapshot(), r, added)
      ensures emitted == old(emitted)
    {
      added := [];
      var args := req.args;
      match req.op
      case AppNames =>
        var names := AppNames();
        r := Ok(Names(names));
      case ChannelNames =>
        var names := ChannelNames();
        r := Ok(Names(names));
      case SubscriberNames =>
        var members := SubscriberNames(StrArgOf(args, "channel"));
        r := Ok(NameSet(members));
      case Subscribe =>
        Subscribe(StrArgOf(args, "app"), StrArgOf(args, "channel"));
        r := Ok(NoValue);
      case Unsubscribe =>
        var ok := Unsubscribe(StrArgOf(args, "app"), StrArgOf(args, "channel"));
        r := Ok(Flag(ok));
      case DestroyApp =>
        r := DestroyApp(StrArgOf(args, "name"));
      case CreateApp =>
        r := CreateApp(StrArgOf(args, "name"), InfoArgOf(args), ReplaceArgOf(args), loaded);
      case UpdateFrames =>
        r, added := UpdateFrames(StrArgOf(args, "name"), now);
    }

    /**
     * `_qiwiscall(sender, msg)`: handles the request and replies to the sender
     * with the request text and the dumped result; the reply is lost when the
     * sender is no longer a live app (KeyError) or the value is not JSON
     * (`dumps` raises), and otherwise sent exactly once.
     */
    method Call(sender: string, msg: string, approve: bool, loaded: Loaded, now: seq<FrameId>)
      returns (outcome: Result<Value, Error>, ghost added: seq<Wrapper>)
      requires Valid()
      modifies this, wrappers
      ensures Valid()
      ensures Handled(variant, codec, appInfos, msg, approve, loaded, now, old(Snapshot()), Snapshot(), outcome, added)
      ensures var reply := Reply(outcome);
        emitted == old(emitted) +
          if reply.Some? && sender in apps then [Returned(apps[sender], msg, DumpsCallResult(codec, reply.value))] else []
    {
      outcome, added := HandleCall(msg, approve, loaded, now);
      var reply := Reply(outcome);
      if reply.Some? && sender in apps {
        emitted := emitted + [Returned(apps[sender], msg, DumpsCallResult(codec, reply.value))];
      }
    }
  }
}
