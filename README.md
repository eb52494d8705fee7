# qiwis — a Dafny model of the app manager and its example apps

qiwis runs a set of PyQt "apps" under one manager object. Each app owns some
frames, which the manager wraps in dock widgets or, in the newer version, MDI
sub-windows. Apps talk to each other through named broadcast channels. They
ask the manager itself to act (create or destroy an app, subscribe, refresh
its frames, ...) through "qiwiscalls": JSON requests that the user approves
and that are answered through a result object the caller keeps.

The project models both versions of the manager: `Qiwis` (qiwis.py) and its
predecessor `Qiwi` (qiwi.py), as one class with a `Variant`. It also models
three example apps (a database manager, a number generator and a poller) in
both their channel-based form (examples/) and their older bus-based form
(apps/).

Modules, one per file:

- `Json` (json.dfy): decoded JSON values; `json.dumps`/`json.loads` as a
  `Codec` value received from outside; `_immutable`.
- `Records` (records.dfy): `AppInfo`, `QiwiscallInfo`, `QiwiscallResult` and
  their `dumps`/`loads`.
- `Channels` (channels.dfy): the subscriber table, a `defaultdict(set)` in
  which every channel ever named exists.
- `Frames` (frames.dfy): `addFrame`/`removeFrame`, the wrapper table, the
  frame loops of `destroyApp` and `updateFrames`.
- `Dispatch` (dispatch.dfy): decoding a qiwiscall, the public-name gate,
  `getattr`, `_parseArgs` against each operation's signature, and the reply.
- `Manager` (manager.dfy): the manager class.
- `Proxy`, `App` (proxy.dfy, baseapp.dfy): `QiwiscallProxy` and `BaseApp`.
- `DbSync`, `PosixPath` (dbsync.dfy, posixpath.dfy): the database list the
  example apps share, and `os.path.split`.
- `DbMgrExample`, `NumGenExample`, `PollerExample`: the apps of examples/.
- `DbMgrBus`, `NumGenBus`, `PollerBus`: the apps of apps/.

Behaviour of the source that the model keeps on purpose:

- `destroyApp` removes frames from the very list it iterates. Python's list
  iterator then skips every other wrapper: only the wrappers at even
  positions are detached, and the rest lose only their list entry
  (`Frames.SecondWrapperStays`).
- `subscriberNames` returns a `set`, which `json.dumps` cannot encode. Its
  qiwiscall therefore runs, but the reply is never sent (`Dispatch.ValueJson`,
  `Manager.Manager.Call`).
- `updateFrames` places new frames using the app descriptions the manager was
  started with. An app created later by a qiwiscall has no entry there, so
  its call fails.
- Qiwis `createApp` on an existing name does nothing and reports success
  unless `replace` is given. Qiwi creates the app again under the same name.
- A proxy request whose text equals an earlier pending one replaces the
  earlier result object.
- In apps/dbmgr.py, a remove button whose row is not found (-1) deletes the
  last database from the list but leaves the list widget unchanged. From then
  on the two disagree (`DbMgrBus.DbMgrApp.RemoveDB`).
- apps/poller.py never connects its combobox to `setDB`, so `dbName` stays
  `""`. Both apps/ comboboxes start with no item at all.

## Model

| member | source | states |
|---|---|---|
| Json.Immutable | qiwis.py:752-764 | lists become tuples of the same length; dicts become read-only mappings with the same keys; every scalar is kept as it is |
| Json.ThawImmutable | qiwis.py:752-764 | the conversion loses nothing: turning the immutable value back into JSON gives the original value |
| Json.ImmutableThaw | qiwis.py:752-764 | every immutable value is the conversion of a JSON value: converting its thawed form gives it back |
| Json.ImmutableInjective | qiwis.py:752-764 | two decoded values with the same immutable version are the same value |
| Records.DefaultAppInfo | qiwis.py:59-86 | an AppInfo given only module and class has path ".", shows its frames, position "", no channel and no constructor arguments |
| Records.StringsJson | qiwis.py:85 | a channel list is encoded as a JSON array of its strings, position by position |
| Records.JsonStrings | qiwis.py:85 | a JSON array is read back as a channel list exactly when every element is a string, and each string then equals its element |
| Records.JsonStringsOfStrings | qiwis.py:85 | reading back an encoded channel list gives the same list |
| Records.StrField | qiwis.py:59-86 | a missing `path` or `pos` takes its default; a present one is accepted only when it is a string, and is then that string |
| Records.ChannelsOf | qiwis.py:85 | a channel string stands for the list of its characters, as iterating it does; a list gives its strings; any other value is refused |
| Records.AppInfoToJson | qiwis.py:102-108 | an AppInfo encodes to an object whose keys are exactly its seven field names |
| Records.AppInfoFromJson | qiwis.py:59-99 | decoding succeeds exactly for an object with no unknown key, string `module` and `cls`, string `path` and `pos` if given, a channel string or list of strings if given, and `args` null or an object if given; `show` is the truth value of what was given, true when absent; `path` defaults to "." and `pos` to "" |
| Records.LooseFieldsAccepted | qiwis.py:59-99 | `"channel": "db"` subscribes to "d" and "b", and `"show": 0` hides the frames |
| Records.AppInfoRoundTrip | qiwis.py:89-108 | decoding an encoded AppInfo gives the same AppInfo |
| Records.CallInfoToJson | qiwis.py:111-125 | a QiwiscallInfo encodes to an object with exactly the keys `call` and `args` |
| Records.CallInfoFromJson | qiwis.py:111-125 | decoding succeeds exactly for an object with no unknown key, a string `call`, and `args` an object if given; the request has that call, and those arguments or none when `args` is absent |
| Records.CallInfoRoundTrip | qiwis.py:111-125 | decoding an encoded QiwiscallInfo gives the same QiwiscallInfo |
| Records.CallResultToJson | qiwis.py:128-141 | a QiwiscallResult encodes to an object with exactly its four field names |
| Records.CallResultFromJson | qiwis.py:128-141 | decoding succeeds exactly for an object with no unknown key, boolean `done` and `success`, and `error` null or a string if given; the result has those fields, `value` null when absent and no error when `error` is absent or null |
| Records.CallResultRoundTrip | qiwis.py:128-141 | decoding an encoded QiwiscallResult gives the same QiwiscallResult |
| Records.LoadsCallInfo | qiwis.py:89-99 | a request is decoded exactly when the text parses as JSON and the value decodes as a QiwiscallInfo |
| Records.LoadsCallResult | qiwis.py:89-99 | a result is decoded exactly when the text parses as JSON and the value decodes as a QiwiscallResult |
| Records.LoadsAppInfo | qiwis.py:89-99 | an AppInfo is decoded exactly when the text parses as JSON and the value decodes as an AppInfo |
| Records.TextRoundTrips | qiwis.py:89-108 | for a JSON library that reads back what it writes, `loads(dumps(x)) == x` for all three records |
| Records.EncodeArg | qiwis.py:627-629 | a JSON argument is sent unchanged; an AppInfo argument is sent as text that decodes back to that AppInfo |
| Records.EncodeArgs | qiwis.py:627-630 | the request carries exactly the caller's argument names, each encoded as above |
| Channels.Touch | qiwis.py:341 | asking about a channel creates it and changes no channel's subscribers |
| Channels.AfterSubscribe | qiwis.py:343-354 | after subscribing, the channel exists and holds the app; no other channel changes |
| Channels.AfterUnsubscribe | qiwis.py:356-374 | after unsubscribing, the channel exists and no longer holds the app; no other channel changes |
| Channels.DiscardEverywhere | qiwis.py:304-305 | the same channels exist, and the app is in none of them |
| Channels.SubscribeIdempotent | qiwis.py:350-353 | subscribing twice is the same as subscribing once |
| Channels.SubscribeExistingIsNoop | qiwis.py:350-351 | subscribing an app that is already subscribed leaves the table as it was |
| Channels.UnsubscribeAfterSubscribe | qiwis.py:343-374 | unsubscribing undoes a fresh subscription, except that the channel now exists |
| Channels.DiscardRemovesApp | qiwis.py:304-305 | after the discard the app is in no channel, and discarding again changes nothing |
| Channels.SubscribeAllJoins | qiwis.py:287-288 | subscribing to each channel of a list adds the app to exactly those channels and creates them |
| Channels.Enumerate | qiwis.py:330-332 | the keys are listed each exactly once |
| Frames.DockArea | qiwis.py:220-225 | "right", "top" and "bottom" name their dock areas; every other position docks left |
| Frames.Placement | qiwis.py:212-225 | a frame goes to the central MDI area exactly when the manager has one and the position is "center"; otherwise it goes to its dock area |
| Frames.Without | qiwis.py:324-325 | removing wrappers never makes a list longer |
| Frames.WithoutMembers | qiwis.py:324-325 | the wrappers left are exactly those not removed, and the list still holds no wrapper twice |
| Frames.IndexOf | qiwis.py:252 | the first position holding the wrapper |
| Frames.RemoveFirst | qiwis.py:252 | `list.remove` takes out exactly one element |
| Frames.RemoveFirstDistinct | qiwis.py:252 | in a list without repeats, `list.remove` takes out exactly that wrapper |
| Frames.Survivors | qiwis.py:300-302 | after k steps of the destroy loop, the list has lost k wrappers, or half of them once the iterator ran off its end |
| Frames.SurvivorsShape | qiwis.py:300-302 | after k steps, the list holds the odd-position wrappers of the first 2k, followed by the rest untouched |
| Frames.SecondWrapperStays | qiwis.py:300-302 | the destroy loop detaches the first wrapper but skips the second |
| Frames.UpdatedFrames | qiwis.py:317-327 | after dropping the vanished frames and adding the new ones, the app's frames are exactly those `frames()` now returns |
| Frames.WrappedAt | qiwis.py:289-290 | the i-th new wrapper wraps the i-th frame under the next free id |
| Frames.WrapperTable.constructor | qiwis.py:174 | the manager starts with no wrappers and none shown |
| Frames.WrapperTable.Add | qiwis.py:202-236 | the frame gets a new wrapper at its placement, appended to the app's list; it is shown unless it is a hidden dock |
| Frames.WrapperTable.AddEach | qiwis.py:289-290 | one wrapper per frame, in order, appended to the app's list |
| Frames.WrapperTable.Remove | qiwis.py:238-254 | the wrapper is detached and its first occurrence leaves the app's list; a wrapper the list does not hold leaves the list as it was |
| Frames.WrapperTable.DestroyFrames | qiwis.py:300-303 | the app's list is deleted, and only its even-position wrappers are detached |
| Frames.WrapperTable.Update | qiwis.py:317-327 | frames no longer returned lose their last wrapper; newly returned frames get one wrapper each, at the app's placement |
| Frames.WrapperTable.DropVanished | qiwis.py:324-325 | each vanished frame's last wrapper is detached and taken out of the list |
| Frames.WrapperTable.AddAppeared | qiwis.py:326-327 | each appearing frame gets exactly one new wrapper, appended to the list |
| Dispatch.OpNamed | qiwis.py:437 | `getattr` finds an operation exactly when the name is an operation's name |
| Dispatch.OpNamesArePublic | qiwis.py:435-437 | no qiwiscall operation has a private name, and each is found under its own name |
| Dispatch.Params | qiwis.py:260 | an operation's signature names each parameter once |
| Dispatch.ParamNamed | qiwis.py:408 | a parameter is found exactly when the signature has one of that name |
| Dispatch.ParseArg | qiwis.py:407-408 | a `str` parameter takes a JSON string as that string; the AppInfo parameter takes text that decodes to an AppInfo; `replace` takes any JSON value unchanged |
| Dispatch.ParseArgs | qiwis.py:387-411 | parsing succeeds exactly when every argument names a parameter and is accepted by it; the result has the same names; an unknown name fails before a bad value |
| Dispatch.Prepare | qiwis.py:434-438 | undecodable text fails first; a prepared request was decoded from the text, names a public operation, and carries exactly the arguments `ParseArgs` gives for that operation's signature |
| Dispatch.PrivateNamesRefused | qiwis.py:435-436 | a call to a name starting with `_` is refused as not public |
| Dispatch.UnknownNamesRefused | qiwis.py:437 | a public name that is no operation fails with the missing attribute |
| Dispatch.ArgRoundTrip | qiwis.py:409 | an argument the proxy encodes is parsed back to itself |
| Dispatch.RequestRoundTrip | qiwis.py:612-632 | a well-typed request sent by the proxy is read back by the manager as the same operation with the same arguments |
| Dispatch.ParseArgsRoundTrip | qiwis.py:405-411 | encoded well-typed arguments parse back to themselves |
| Dispatch.ValueJson | qiwis.py:464-468 | every returned value can be dumped except a set, the value of `subscriberNames` |
| Dispatch.Reply | qiwis.py:458-471 | a failure replies done, not successful, with an error text for its kind of exception; a success replies done and successful with the value, unless the value cannot be dumped, when nothing is replied |
| Dispatch.NamesReplyDecodes | qiwis.py:256-258 | the reply to `appNames` or `channelNames` reads back as the same list of names |
| Manager.Deliveries | qiwis.py:384-385 | one `received` signal per subscriber visited, in visiting order |
| Manager.Manager.constructor | qiwis.py:158-176 | a new manager has no apps, no channels and no frames, and keeps its start-up app descriptions |
| Manager.Manager.Subscribe | qiwis.py:343-354 | the app is in the channel, which now exists; nothing else changes |
| Manager.Manager.Unsubscribe | qiwis.py:356-374 | the result is false exactly when the app was not subscribed; afterwards it is not, and the channel exists |
| Manager.Manager.SubscriberNames | qiwis.py:334-341 | the channel's subscribers, and asking creates the channel |
| Manager.Manager.ChannelNames | qiwis.py:330-332 | each channel ever named, exactly once |
| Manager.Manager.AppNames | qiwis.py:256-258 | each live app, exactly once |
| Manager.Manager.Broadcast | qiwis.py:376-385 | each subscriber visited gets one message; all of them get it exactly when every subscriber is a live app; the channel now exists |
| Manager.Manager.LeaveChannels | qiwis.py:304-305 | the app is discarded from every channel |
| Manager.Manager.DestroyApp | qiwis.py:294-307 | the new state is the old one without the app: its entry, its frame list and its subscriptions are gone, its even-position wrappers are detached, and everything else is kept; an unknown name fails, after the frames and channels were processed |
| Manager.Destroyed | qiwis.py:294-307 | the app is in no table and no channel; every other app and frame list is kept; only wrappers of the app's list are detached; the channels and counters stay |
| Manager.Manager.SubscribeEach | qiwis.py:287-288 | the new app subscribes to each channel of its description |
| Manager.Manager.Install | qiwis.py:287-291 | the new state is the old one with the app subscribed, one wrapper per frame and a new live app under a new number |
| Manager.Installed | qiwis.py:287-291 | the app gets the next number, is in each of its channels, and its wrappers use the next ids; other apps' frame lists are kept and no shown wrapper is hidden |
| Manager.Manager.CreateApp | qiwis.py:260-292 | the new state and result are those of `Created` |
| Manager.Created | qiwis.py:260-292 | in Qiwis an existing name without `replace` changes nothing and succeeds; otherwise the result is success exactly when the load succeeded, a failure is LoadFailed, other apps are kept, and a loaded app is live under the next number and in its channels |
| Manager.Manager.UpdateFrames | qiwis.py:309-328 | an unknown app, no start-up descriptions, or none for the app fails in that order and changes nothing; otherwise only the app's frame list and the shown wrappers change: vanished frames lose their last wrapper, new frames get one wrapper each with fresh ids at the app's placement |
| Manager.UpdateOutcome | qiwis.py:315-316 | success exactly when the app is live and has a start-up description; an unknown app fails first |
| Manager.FramesAfter | qiwis.py:317-327 | only the app's frame list, the shown wrappers and the next id change |
| Manager.Manager.Load | qiwis.py:189-200 | given each described app once, on success every described app is live; a failure is LoadFailed and comes from an app whose load failed; no app is lost |
| Manager.Manager.HandleCall | qiwis.py:413-448 | bad text, a private or unknown name, bad arguments, the user's refusal and a missing argument fail in that order and change nothing; otherwise the new state and result are those the named operation's own function states |
| Manager.Manager.Perform | qiwis.py:447 | each operation's result and new state: the name queries change nothing, the channel operations change only the table, `destroyApp`, `createApp` and `updateFrames` give the state of `Destroyed`, `Created` and `FramesAfter` |
| Manager.Manager.Call | qiwis.py:450-471 | the outcome and new state are those of `HandleCall`; the reply goes to the sender exactly once when it is live and the value can be dumped |
| Proxy.PendingResult.constructor | qiwis.py:631 | a new result object is not done, not successful, with no value and no error |
| Proxy.CallProxy.constructor | qiwis.py:597-604 | a new proxy has no pending results and has sent nothing |
| Proxy.CallProxy.EncodeArguments | qiwis.py:627-629 | AppInfo arguments are turned into their text, others are kept |
| Proxy.CallProxy.Call | qiwis.py:612-639 | the request text is sent once, and a fresh not-done result is filed under it, replacing any earlier one |
| Proxy.CallProxy.UpdateResult | qiwis.py:642-662 | the result filed under the request takes the reply's four fields and, when discarding, leaves the table; an unknown request changes nothing |
| App.BaseApp.constructor | qiwis.py:500-510 | a new app has its own proxy and has broadcast nothing |
| App.BaseApp.Broadcast | qiwis.py:525-539 | encodable content is sent on the channel as its JSON text; content that cannot be encoded sends nothing |
| App.BaseApp.ReceivedCallResult | qiwis.py:569-585 | a reply that does not decode changes neither the table nor any pending result object; one that decodes updates the pending result of its request, which leaves the table |
| App.Exchange | qiwis.py:606-662 | after a full round trip, the very result object the caller got holds the manager's reply, and its entry is gone |
| DbSync.DbMessage | examples/dbmgr.py:126 | the message is an object whose "db" array has one element per database |
| DbSync.DbMessageRoundTrip | examples/dbmgr.py:126 | a receiver reads the broadcast list back entry by entry, in order |
| DbSync.MergeKeeps | examples/numgen.py:115-124 | after merging, the names are the old ones plus the listed ones; old names keep their path; new names get the path of their first entry |
| DbSync.AddedFresh | examples/numgen.py:122-124 | the combobox gains each new name once, and only new names |
| DbSync.Drop | examples/numgen.py:128-130 | removing names keeps exactly the other items, without repeating any |
| DbSync.DropTwice | examples/numgen.py:128-130 | removing names one batch after another is removing them all at once |
| DbSync.RebuiltHolds | apps/numgen.py:120-127 | the rebuilt dictionary holds "" and every listed name, each with the path of its last entry |
| DbSync.NameList | apps/numgen.py:122-127 | the combobox lists each entry's name, in message order |
| DbSync.ReconcileKeeps | examples/numgen.py:113-130 | after an update the names are exactly "" and those listed; the combobox lists each of them exactly once |
| DbSync.DbBox.constructor | examples/numgen.py:82-86 | `dbs` is `{"": ""}` and the combobox holds the single item "" |
| DbSync.DbBox.Empty | apps/numgen.py:86-88 | `dbs` is `{"": ""}` and the combobox has no item yet |
| DbSync.DbBox.Reconcile | examples/numgen.py:102-130 | names not listed are removed, and the selection falls back to "" if it was one of them; new names are added with their first path; kept names keep their path |
| DbSync.DbBox.MergeEntries | examples/numgen.py:115-124 | every entry is merged in, in order, and the set of listed names is returned |
| DbSync.DbBox.Forget | examples/numgen.py:128-130 | the removed names leave both the dictionary and the combobox, and nothing else does |
| DbSync.DbBox.Rebuild | apps/numgen.py:120-127 | the dictionary and the combobox are rebuilt from the message alone; a message that is no object leaves only "" |
| PosixPath.AfterLastSlash | examples/dbmgr.py:147 | the position after the last slash: no slash follows it |
| PosixPath.StripSlashes | examples/dbmgr.py:147 | trailing slashes are removed and nothing else |
| PosixPath.SplitRejoins | examples/dbmgr.py:147 | head, slashes and tail give the path back; the tail holds no slash; the head keeps a trailing slash only when it is the root |
| DbMgrExample.Named | examples/dbmgr.py:126 | the list as broadcast: each database's name and path, in list order |
| DbMgrExample.IndexOf | examples/dbmgr.py:169 | `list.index`: the first position holding the database |
| DbMgrExample.BroadcastReachesReceivers | examples/dbmgr.py:119-131 | receivers decode the broadcast to the message and act on the list in order |
| DbMgrExample.DatacalcInfo | examples/dbmgr.py:194-208 | the datacalc app is shown at the top and subscribes to "db" |
| DbMgrExample.CreateRequestParses | examples/dbmgr.py:194-209 | the manager reads the open request as `createApp("datacalc", info)` with the AppInfo intact and no argument missing |
| DbMgrExample.DestroyRequestParses | examples/dbmgr.py:191-192 | the manager reads the close request as `destroyApp("datacalc")` |
| DbMgrExample.DbMgrApp.constructor | examples/dbmgr.py:104-113 | no database, datacalc closed, no request pending |
| DbMgrExample.DbMgrApp.SendDB | examples/dbmgr.py:119-131 | the whole list is broadcast on "db" |
| DbMgrExample.DbMgrApp.AddDB | examples/dbmgr.py:133-157 | a cancelled dialog changes nothing; otherwise the file's directory and name are appended and the list is broadcast; the rows keep matching the list |
| DbMgrExample.DbMgrApp.RemoveDB | examples/dbmgr.py:159-176 | the first matching database leaves the list and its row, one copy only; the list is broadcast; an unlisted database changes nothing |
| DbMgrExample.DbMgrApp.OpenCloseDatacalc | examples/dbmgr.py:178-209 | nothing while a request is pending; otherwise a successful last request flips the open state, and a close or open request is sent, whose fresh result object is both `pending` and the proxy's entry for that request |
| NumGenExample.FramesRequestParses | examples/numgen.py:164-166 | the manager reads the request as `updateFrames(name)` with no argument missing |
| NumGenExample.NumGenApp.constructor | examples/numgen.py:74-90 | `dbs` is `{"": ""}`, nothing selected, nothing generated |
| NumGenExample.NumGenApp.Frames | examples/numgen.py:92-100 | the generator frame first, and the viewer frame exactly once a number was generated |
| NumGenExample.NumGenApp.ReceivedSlot | examples/numgen.py:102-147 | a dictionary on "db" makes the names exactly "" and those listed; kept names keep their path, new ones get their first path; the combobox gains the new names in order and loses the removed ones; the selection survives unless removed, else "" is selected; anything else changes nothing |
| NumGenExample.NumGenApp.ReceivedMessage | qiwis.py:552-567 | text that does not decode changes nothing and the slot is not called; decoded content has the effect of `receivedSlot` on it |
| NumGenExample.NumGenApp.SetDB | examples/numgen.py:149-157 | the selected database is the combobox's current text |
| NumGenExample.NumGenApp.GenerateNumber | examples/numgen.py:159-177 | the first generation asks the manager once to update the frames, filing a fresh not-done result under that request; later generations send nothing; the number goes to the path of the selected database, which always exists |
| NumGenExample.GenerateTwice | examples/numgen.py:164-166 | two generations in a row send one frame update only, and write to the same database |
| PollerExample.SpinValue | examples/poller.py:34-36 | the spinbox shows a value in 1..10: the one given if in range, else the nearer bound |
| PollerExample.PollerApp.constructor | examples/poller.py:63-82 | the timer starts at one second and nothing is counted |
| PollerExample.PollerApp.ReceivedSlot | examples/poller.py:88-133 | a dictionary on "db" makes the names exactly "" and those listed; kept names keep their path, new ones get their first path; the combobox gains the new names in order and loses the removed ones; the selection survives unless removed, else "" is selected; anything else changes nothing |
| PollerExample.PollerApp.ReceivedMessage | qiwis.py:552-567 | text that does not decode changes nothing and the slot is not called; decoded content has the effect of `receivedSlot` on it |
| PollerExample.PollerApp.SetPeriod | examples/poller.py:135-140 | the timer interval is 1000 times the period shown, so 1 to 10 seconds |
| PollerExample.PollerApp.SetDB | examples/poller.py:142-148 | the selected database is the combobox's current text |
| PollerExample.PollerApp.Poll | examples/poller.py:150-163 | one more poll is counted, written to the path of the selected database, which always exists |
| NumGenBus.NumGenApp.constructor | apps/numgen.py:84-93 | `dbs` is `{"": ""}` and the combobox is still empty |
| NumGenBus.NumGenApp.UpdateDB | apps/numgen.py:103-131 | decodable text on "dbbus" rebuilds the list, each name with its last path, and the selection becomes ""; anything else changes nothing |
| NumGenBus.NumGenApp.SetDB | apps/numgen.py:133-137 | the selected database is the combobox's current text |
| NumGenBus.NumGenApp.GenerateNumber | apps/numgen.py:139-151 | the number goes to the path of the selected database, which always exists |
| PollerBus.PollerApp.constructor | apps/poller.py:45-60 | `dbs` is `{"": ""}` and the combobox is still empty |
| PollerBus.PollerApp.UpdateDB | apps/poller.py:70-103 | decodable text on "dbbus" rebuilds the list and the old selection is selected again; anything else changes nothing |
| DbMgrBus.Delete | apps/dbmgr.py:153 | `del s[i]`: one element fewer, later ones shifted down |
| DbMgrBus.BusMessageRebuilds | apps/dbmgr.py:137-138 | receivers decode the text and rebuild a dictionary holding every listed name with its last path |
| DbMgrBus.DbMgrApp.constructor | apps/dbmgr.py:98-103 | no database and no row |
| DbMgrBus.DbMgrApp.AddDB | apps/dbmgr.py:113-138 | a cancelled dialog changes nothing; otherwise (name, directory) is appended to the list and the rows, and the list is sent on "dbbus" |
| DbMgrBus.DbMgrApp.RemoveDB | apps/dbmgr.py:140-157 | an index out of Python's range fails and changes nothing; a negative row deletes from the end of the list but no row, so the rows and the list diverge; a valid row keeps them equal |

## Left out

- Qt itself is not part of this model. That covers widgets, layouts, dock
  tabification, window titles, `deleteLater`, the event loop and queued
  connections. A signal is recorded as the value it would carry.
- Importing and constructing an app (`_add_to_path`, `importlib`, `getattr`
  on the module, the constructor) is a parameter of `CreateApp`: it either
  fails or yields the frames the new app returns. `frames()` raising is not
  modelled.
- The text of `json.dumps`/`json.loads` is a `Codec` value given to the
  model. Round-trip lemmas assume that `loads(dumps(x)) == x`.
- Python dict insertion order and set iteration order are not modelled.
  `appNames` and `channelNames` promise every name once, in some order. A
  broadcast visits subscribers in an order given as a ghost out-parameter.
  `Load` takes the iteration order as an argument.
- Logging, `print`, the random and polled numbers, and the sqlite writes are
  not modelled. So are the timer's clock, the `poll` of apps/poller.py
  (which only prints), and the file dialog (its result is a parameter).
- The user's answer to the qiwiscall dialog is the parameter `approve`.
- A qiwiscall that names any other public attribute of the manager is not
  modelled: `load`, `addFrame`, `removeFrame`, Qt's own methods. Such a name
  is treated as having no attribute.
- `set_global_constant_namespace`, `setIconBackground`, the `constants`
  property, `main`, argument parsing and reading the config file are not
  part of this model. The manager's constructor does not call `load`; `Load`
  is a separate method.
- Database entries are taken only when they are objects whose "name" and
  "path" are strings. The source would also test substrings of a string
  entry, and store non-string values.
- A "db" value that is not an array is read as no entries.
- Dispatch.ParseArgs: a `str` parameter is given a value that is not a JSON
  string. The model refuses it with BadArgument. The source passes it through
  unchanged, and it then fails, or is used as a key, inside the operation.
- Records.AppInfoFromJson: the model refuses non-string `module`, `cls`,
  `path` or `pos`, an `args` that is neither null nor an object, and a
  `channel` that is neither a string nor a list of strings. The source's
  dataclass accepts them, and they fail or act later in `createApp` (a dict
  channel, for instance, subscribes to its keys). A string channel and any
  `show` value are modelled as the source treats them.
- Dispatch.Repr: the error text is a stand-in for Python's `repr`, one per
  kind of failure. KeyError carries no key for an unknown argument name.
  JSONDecodeError and TypeError carry no message. `LoadFailed` also stands
  for ModuleNotFoundError, AttributeError and errors raised by the app's
  constructor. `Undecodable` also stands for the TypeError that
  `QiwiscallInfo(**…)` raises on unknown keys.
- An argument that `json.dumps` cannot encode makes the proxy's `dumps(info)`
  raise a TypeError (qiwis.py:632). A `CallArg` is always a JSON value or an
  AppInfo, so this case is not represented.
- App.BaseApp.ReceivedCallResult: a reply that is JSON but not a valid
  result raises a TypeError in the source. The model treats it like
  undecodable text.
- Records.CallInfoFromJson: the model refuses a `call` that is not a string
  and an `args` that is not an object. The source's dataclass accepts them.
  `_handleQiwiscall` then fails later: at `startswith`, at `getattr` or at
  `args.items()`, with AttributeError or TypeError. A request such as
  `{"call": "_x", "args": 5}` gets ValueError there, where the model answers
  `Undecodable`.
- Records.CallResultFromJson: the model refuses a `done` or `success` that is
  not a boolean, and an `error` that is neither null nor a string. The
  source's dataclass accepts them, and `update_result` copies them into the
  pending result. The model then drops the reply as undecodable.
- The `Frames()` functions of the one-frame apps and of apps/numgen.py
  carry no contract: each returns a fixed tuple.
