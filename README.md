# display-controller messaging core, in Dafny

This project models the controller side of the Hubstairs display embed. A
page creates a `Display` (or the legacy `Player`) on an element. The
controller talks to the embedded display through `postMessage`. It keeps the
resolve/reject pairs of pending method calls and the user's event listeners in
a callback registry keyed by element. It routes every inbound envelope to
those callbacks.

The model has these parts:

- **`Callbacks`** (`callbacks.dfy`) is the registry: a table from element to
  name to an ordered list of entries. The `Registry` class mutates it in place.
  Its methods cover `storeCallback`, `removeCallback` (with its "was this the
  last one?" answer), `shiftCallbacks` (which follows the shift with a
  `removeCallback`, so it also drops a second copy of the head) and
  `swapCallbacks`. Each method is proved against a function on the table.
- **`PostMessage`** (`postmessage.dfy`) covers three things:
  - `parseMessageData`;
  - the outbound envelope `{method, value?}` and the sending guard;
  - `processData`.

  `processData` is a specification function (`Process`, built from `Route` and
  `FanOut`) and an imperative method (`ProcessData`) whose loops settle
  callbacks and splice the live list. The `Page` class stands for the browser:
  - each element's `contentWindow`;
  - the messages posted;
  - a settlement log of the callbacks called and the promises resolved or rejected;
  - the attributes set;
  - fresh promise identities.
- **`Functions`** (`functions.dfy`) holds three pure helpers:
  - `getMethodName`;
  - `isHubstairsUrl`, where the regular expression is written as a recogniser and proved equal to the shape it documents;
  - `getHubstairsUrl`.
- **`Controller`** (`controller.dfy`) holds what `Display` and `Player` share:
  - readiness, and what `ready()` hands a caller;
  - the fate of one call (stored and sent, deferred, or refused);
  - the deferred calls flushed when readiness resolves or rejected when it fails;
  - the `on`/`off` bookkeeping;
  - inbound routing (ready error, ready event, ping reply, anything else);
  - origin filtering and pinning.
- **`DisplayJs`** (`display.dfy`) and **`PlayerJs`** (`player.dfy`) model the
  two controller classes:
  - instance fields that the methods update;
  - the module-level `displayMap`/`playerMap` and `readyMap`, as fields of a module-state class;
  - the constructor's lookups, its errors and the returned existing instance;
  - the embed-loaded and embed-failed continuations of the oEmbed request, as methods;
  - `destroy()`.

Promises are not modelled as such:
- An instance's ready promise is its `Readiness` field.
- The promise returned by a call is the `Pending` entry made for it.
- Each settlement is appended to `Page.settled`.
- A call made before readiness settles is queued in the instance's `waiting`
  field. It is stored and sent in order on resolution, or rejected on failure.
  In the source it is a `then` continuation on the ready promise.

Two inputs that the source gets from the runtime are parameters of the model:
- `JSON.parse`, as a partial function;
- `isInteger`, as a predicate.

A message event's `source` is a window or `null`, never `undefined`. The
source filter (`Controller.FromOwnWindow`) therefore refuses a message whose
source is absent. As in the browser, an element without a `contentWindow`
hears no message.

One consequence of the source shows up in `ErrorEventRejectsEvens`:
- The error sweep of `processData` calls `removeCallback` while `forEach` walks the same array.
- So for distinct pending calls `l` on the failed method, the calls at `l[0], l[2], …` are rejected.
- The calls at `l[1], l[3], …` stay queued.
- The model keeps this behaviour as written.

## Model

| member | source | states |
|---|---|---|
| JsValues.Field | src/lib/postmessage.js:76-77 | a property read on a value already found truthy never throws |
| Callbacks.Put | packages/display-js/src/lib/callbacks.js:17-24 | writing the list under `(el, name)` sets exactly that list and leaves every other list and its presence unchanged |
| Callbacks.PutSame | packages/display-js/src/lib/callbacks.js:64-68 | writing back the list already stored leaves the table as it was |
| Callbacks.PutPut | packages/display-js/src/lib/callbacks.js:56-68 | of two writes to the same list the second wins |
| Callbacks.Stored | packages/display-js/src/lib/callbacks.js:16-25 | `storeCallback` appends the entry at the end of its list, creating the list when absent and keeping duplicates; no other list changes |
| Callbacks.RemoveFirst | packages/display-js/src/lib/callbacks.js:62-66 | `indexOf` + `splice` drops one occurrence of the entry when present (as a multiset difference), and changes nothing otherwise |
| Callbacks.RemoveFirstAt | packages/display-js/src/lib/callbacks.js:62-66 | removing at the index of the first occurrence is the same as cutting that index out of the sequence |
| Callbacks.Removed | packages/display-js/src/lib/callbacks.js:47-70 | `removeCallback`: no list means no change and answer true; without a callback the list is emptied and the answer is true; otherwise the first occurrence goes and the answer is "the list is now empty"; other lists are untouched |
| Callbacks.Shifted | packages/display-js/src/lib/callbacks.js:79-89 | `shiftCallbacks` returns nothing exactly when the list is empty, otherwise returns the head; the list left is the tail minus one further copy of the head |
| Callbacks.Swapped | packages/display-js/src/lib/callbacks.js:98-103 | `swapCallbacks` removes the old key, gives the new key the old element's lists (or none) and leaves every other element as it was |
| Callbacks.ShiftDistinct | packages/display-js/src/lib/callbacks.js:79-89 | on a list without duplicates a shift drops exactly the head |
| Callbacks.ShiftDuplicate | packages/display-js/src/lib/callbacks.js:79-89 | on a list holding the head a second time, a shift drops both copies and the rest keeps its order |
| Callbacks.RepliesInStoreOrder | src/lib/postmessage.js:85-92 | whatever the interleaving of stores and method replies, the replies settle the stored calls oldest first, and what remains queued is exactly the calls not yet settled |
| Callbacks.ReplySettlesHead | src/lib/postmessage.js:85-92 | the step of that proof in which a reply finds a call waiting |
| Callbacks.Registry.Store | packages/display-js/src/lib/callbacks.js:16-25 | the in-place update leaves the table equal to `Stored` of the old table |
| Callbacks.Registry.Remove | packages/display-js/src/lib/callbacks.js:47-70 | the `indexOf` loop and splice leave the table and answer of `Removed` |
| Callbacks.Registry.Shift | packages/display-js/src/lib/callbacks.js:79-89 | shifting the stored list and then removing the shifted entry gives `Shifted` |
| Callbacks.Registry.Swap | packages/display-js/src/lib/callbacks.js:98-103 | the set-then-delete gives `Swapped` |
| PostMessage.ParseAgain | src/lib/postmessage.js:66 | parsing again data that has already been parsed to a non-string changes nothing, which is why `processData` may re-parse |
| PostMessage.Envelope | src/lib/postmessage.js:41-47 | the envelope is an object with `method`, and `value` exactly when the parameters are not `undefined` |
| PostMessage.EnvelopeReadBack | src/lib/postmessage.js:41-47 | the receiver reads back the method name and the parameters, and sees no `event` |
| PostMessage.Page.Post | src/lib/postmessage.js:36-56 | appends exactly `Outgoing` to the posted messages and changes nothing else |
| PostMessage.EventFansOut | src/lib/postmessage.js:70-84 | an event other than `error` calls each `event:<name>` listener once, in order, with `data.data`, and leaves the registry unchanged |
| PostMessage.ReplySettlesOldest | src/lib/postmessage.js:85-92 | a method reply settles the oldest stored entry with `data.value` and removes it; with nothing pending nothing happens |
| PostMessage.SweepStep | src/lib/postmessage.js:74-80 | one visit of the error sweep: an index past the live end is skipped; meeting a function throws; a pending call is rejected and then removed |
| PostMessage.EvensOddsPartition | src/lib/postmessage.js:74-80 | the calls the sweep rejects and the calls it leaves queued are together exactly the pending calls, each as often as in the list |
| PostMessage.SweepSkips | src/lib/postmessage.js:74 | once the live list is no longer than the index, `forEach` visits nothing more |
| PostMessage.SweepAlternates | src/lib/postmessage.js:74-80 | over distinct pending calls, the sweep rejects the even-positioned calls in order and leaves exactly the odd-positioned ones |
| PostMessage.SweepRejectsNext | src/lib/postmessage.js:74-80 | the inductive step: a visit rejects `l[2k]`, after which `l[2k+1]` slides into the visited index |
| PostMessage.SweepRejectsLast | src/lib/postmessage.js:74-80 | the last step on a list of odd length |
| PostMessage.VisitEven | src/lib/postmessage.js:74-80 | the visit at index `k` finds `l[2k]` and removes it from the live list |
| PostMessage.ErrorEventRejectsEvens | src/lib/postmessage.js:70-84 | an `error` event rejects `l[0], l[2], …` with `new Error(message)` named `name`, keeps `l[1], l[3], …`, then calls the `event:error` listeners with `data.data` |
| PostMessage.ErrorEventSingle | src/lib/postmessage.js:70-80 | with one pending call, the error rejects it first and leaves the list empty |
| PostMessage.ErrorEventOnListenerThrows | src/lib/postmessage.js:74-79 | a function stored under the failed method makes `processData` throw before anything is settled or removed |
| PostMessage.ProcessData | src/lib/postmessage.js:65-107 | the method leaves the registry, the settlement log and the outcome that `Process` gives |
| PostMessage.RouteData | src/lib/postmessage.js:66-92 | the routing half, against `Route` |
| PostMessage.CallBack | src/lib/postmessage.js:94-106 | the loop appends `FanOut` of the callbacks; what a listener throws is swallowed |
| PostMessage.RejectPending | src/lib/postmessage.js:71-80 | the `forEach` loop over the live list has the effect of the sweep function, including its throws |
| PostMessage.Visit | src/lib/postmessage.js:74-80 | a visit that throws changes neither the registry nor the settlement log |
| PostMessage.VisitThenSweep | src/lib/postmessage.js:74-80 | the sweep from index `k` is the visit at `k` followed by the sweep from `k + 1`; a throwing visit stops the sweep with nothing more settled |
| PostMessage.Sweep | src/lib/postmessage.js:74-80 | the `forEach` loop, which fixes the number of visits at the starting length of the live list, leaves the registry, log and outcome of `SweepFrom` |
| PostMessage.VisitKeepsRest | src/lib/postmessage.js:74-80 | each visit keeps "the whole sweep is what was done so far followed by the rest", or ends the loop with exactly the sweep's throw |
| PostMessage.SweepVisit | src/lib/postmessage.js:74-80 | one loop iteration has the effect of `Visit` on the registry and the settlement log |
| Functions.MethodNameHasPrefix | src/lib/functions.js:18-24 | every produced name starts with the lower-cased type |
| Functions.MethodNameUnchangedIff | src/lib/functions.js:19-21 | the name is returned unchanged if and only if it already starts with the lower-cased type |
| Functions.MethodNamePrefixed | src/lib/functions.js:23 | otherwise only the first character is upper-cased and the rest is kept, after the prefix |
| Functions.MethodNameIdempotent | src/lib/functions.js:18-24 | applying the rule twice is applying it once |
| Functions.MethodNameExamples | src/lib/functions.js:18-24 | `color` gives `getColor`/`setColor`, whatever the case of the type; an already-prefixed name is kept |
| Functions.IsHubstairsUrlIff | src/lib/functions.js:61-63 | the recogniser accepts exactly the strings made of an optional scheme, `//display`, text without line breaks, `hubstairs.com`, an optional port, and then the end or a `/` |
| Functions.ShapeIsRecognised | src/lib/functions.js:61-63 | every string of that shape is accepted |
| Functions.RecognisedHasShape | src/lib/functions.js:61-63 | every accepted string splits into that shape |
| Functions.AcceptsDisplayHost | src/lib/functions.js:61-63 | `https://display.hubstairs.com` is accepted |
| Functions.AcceptsPortedHost | src/lib/functions.js:61-63 | `//display-something.hubstairs.com:1000` is accepted |
| Functions.AcceptsPath | src/lib/functions.js:61-63 | a display URL with a path is accepted |
| Functions.RefusesLookAlike | src/lib/functions.js:61-63 | `https://display.hubstairs.com.evil.net` is refused |
| Functions.RefusesOtherHost | src/lib/functions.js:61-63 | a host without the `display` prefix is refused |
| Functions.HubstairsUrlLength | src/lib/functions.js:61-63 | an accepted string is at least as long as `//display` plus `hubstairs.com`; in particular `*` is never accepted |
| Functions.UpgradeToHttps | src/lib/functions.js:87 | `replace('http:', 'https:')` upgrades an `http:` scheme, and leaves a URL unchanged if and only if it contains no `http:` |
| Functions.GetHubstairsUrlIsHubstairs | src/lib/functions.js:72-95 | every URL `getHubstairsUrl` returns passes `isHubstairsUrl` |
| Functions.UpgradeKeepsHubstairs | src/lib/functions.js:86-87 | upgrading the first `http:` of an accepted URL to `https:` gives an accepted URL |
| Functions.GetHubstairsUrlErrors | src/lib/functions.js:76-94 | each error, with the condition that produces it, both ways: missing id and url, invalid display id, non-Hubstairs url |
| Functions.GetHubstairsUrlFromId | src/lib/functions.js:82-84 | an integer id gives `https://display.hubstairs.com/v1/<id>` |
| Functions.GetHubstairsUrlFromUrl | src/lib/functions.js:86-88 | an `http:` display URL is returned upgraded to `https:` |
| Functions.UrlParamUpgraded | src/lib/functions.js:86-88 | any accepted `url` starting with `http:` that is not an integer is returned with its scheme replaced by `https:` and the rest kept |
| Controller.CallFates | packages/display-js/src/index.js:130-145 | exactly one thing happens to a call: it is stored and sent, it waits, or it is rejected with nothing stored or sent |
| Controller.Call | packages/display-js/src/index.js:130-145 | the call's effect on the registry, the posted messages, the settlement log and the queue is that of the functions above |
| Controller.StoredAllQueues | packages/display-js/src/index.js:134-141 | once readiness resolves, the deferred calls are queued under their names behind what was stored before, in the order they were made |
| Controller.StoredAllElsewhere | packages/display-js/src/index.js:134-141 | flushing touches no other element's lists |
| Controller.PostsForCount | packages/display-js/src/index.js:141 | each deferred call sends exactly its own envelope, in order, when the window can receive it, and none otherwise |
| Controller.Flush | packages/display-js/src/index.js:134-141 | the loop stores and sends every deferred call, as `StoredAll` and `PostsFor` say |
| Controller.RejectAll | packages/display-js/src/index.js:143 | when readiness fails, the loop rejects every deferred call in order with the failure |
| Controller.EventKey | packages/display-js/src/index.js:224 | listeners live under `event:<name>`, never under a bare method name |
| Controller.OnRefusal | packages/display-js/src/index.js:211-222 | `on` is refused if and only if the name is falsy or the callback is not a function, with the source's messages in the source's order |
| Controller.OffRefusal | packages/display-js/src/index.js:244-251 | `off` is refused if and only if the name is falsy or a truthy callback is not a function |
| Controller.OnEffect | packages/display-js/src/index.js:211-233 | `on` is refused exactly as `OnRefusal` says, and a refused `on` stores, sends, settles and queues nothing |
| Controller.OnAppendsListener | packages/display-js/src/index.js:224-232 | an accepted `on` appends the listener to `event:<name>`; it makes at most one remote call, exactly when that list was empty; what it sends is one `addEventListener` envelope, exactly when the instance is ready and its window can receive it |
| Controller.Listen | packages/display-js/src/index.js:211-233 | the in-place `on` updates the registry, posted messages, settlement log, call ids and queue as `OnEffect` says |
| Controller.OffEffect | packages/display-js/src/index.js:244-262 | `off` is refused exactly as `OffRefusal` says, and a refused `off` stores, sends, settles and queues nothing |
| Controller.OffRemovesListener | packages/display-js/src/index.js:253-261 | an accepted `off` leaves the event's list as `removeCallback` leaves it; it makes at most one remote call, exactly when `removeCallback` reports the list empty; what it sends is one `removeEventListener` envelope, exactly when the instance is ready and its window can receive it |
| Controller.OffTargets | packages/display-js/src/index.js:249-261 | without a function callback, `off` empties the event's list and always makes the remote call; with one, only its first registration goes, and the remote call is made exactly when no listener is left |
| Controller.Unlisten | packages/display-js/src/index.js:244-262 | the in-place `off` updates the registry, posted messages, settlement log, call ids and queue as `OffEffect` says |
| Controller.OffWithoutListeners | packages/display-js/src/index.js:253-261 | with no list stored, `off` still reports the last listener gone, so `removeEventListener` is sent |
| Controller.ReadyRoutesDisjoint | packages/display-js/src/index.js:55-70 | no envelope is both a ready error and a ready event; an error event that is not a ready error goes to `processData` |
| Controller.PinnedOnce | packages/display-js/src/index.js:76-82 | an accepted origin is never `*`, so once pinned the origin never changes again |
| DisplayJs.Displays.Create | packages/display-js/src/index.js:21-121 | a non-element throws and changes nothing; an element already mapped gives back its instance and changes nothing; otherwise a fresh instance in its initial state is put in `displayMap` and `readyMap`, with `embedMode` defaulting to `js` |
| DisplayJs.Display.CallMethod | packages/display-js/src/index.js:130-145 | `args` defaults to `{}`; the call's effect is that of `Call` with the instance's readiness, element and origin |
| DisplayJs.Display.Get | packages/display-js/src/index.js:153-170 | calls the getter name from `getMethodName`, without parameters |
| DisplayJs.Display.Set | packages/display-js/src/index.js:179-200 | an `undefined` value is rejected at once with nothing stored, sent or queued; otherwise the setter name is called with the value |
| DisplayJs.Display.On | packages/display-js/src/index.js:211-233 | `on` with the package's `HubstairsError`s and the instance's readiness, element and origin, as `OnEffect` says; a deferred remote call joins `waiting` |
| DisplayJs.Display.Off | packages/display-js/src/index.js:244-262 | `off` with the package's `HubstairsError`s, as `OffEffect` says; a deferred remote call joins `waiting` |
| DisplayJs.Display.Resolve | packages/display-js/src/index.js:64-70 | only the first settlement counts; resolution stores and sends every waiting call in order |
| DisplayJs.Display.Reject | packages/display-js/src/index.js:55-62 | only the first settlement counts; rejection rejects every waiting call with the reason |
| DisplayJs.Display.OnMessageJS | packages/display-js/src/index.js:53-73 | a ready error rejects readiness with a `HubstairsError` built from `data.data`; a ready event resolves it, but throws when the placeholder has no first child; anything else goes to `processData` |
| DisplayJs.Display.OnWindowMessage | packages/display-js/src/index.js:75-85 | in iframe mode, messages from another window (or from any source when the element has no window) or from a non-Hubstairs origin are ignored entirely; an accepted one pins the origin and then has the effect of `onMessageJS`, so a ready event flushes the waiting calls to the pinned origin |
| DisplayJs.Display.OnElementMessage | packages/display-js/src/index.js:93-106 | in JS mode, a message dispatched elsewhere changes nothing, and one dispatched on the embed element has the effect of `onMessageJS` |
| DisplayJs.Display.EmbedLoaded | packages/display-js/src/index.js:88-112 | the embed becomes the element and the placeholder the original element; the handler is attached on the window in iframe mode or on the embed otherwise; the callbacks are moved to the embed; the embed maps to the instance |
| DisplayJs.Display.EmbedFailed | packages/display-js/src/index.js:113 | a failed embed rejects readiness |
| DisplayJs.Display.Destroy | packages/display-js/src/index.js:295-318 | the instance leaves `readyMap`; the current and original elements leave `displayMap`; `data-hubstairs-initialized` is cleared; the handler is detached; afterwards `ready()` is "unknown" |
| PlayerJs.Players.Frame | src/player.js:44-50 | the player controls an iframe exactly when the element is one or contains one; otherwise it keeps the element itself |
| PlayerJs.Players.Create | src/player.js:21-136 | a non-element is a `TypeError`; an iframe whose `src` is not a player URL is an `Error`; an element already mapped gives back its instance; otherwise a fresh instance goes into both maps, is sent a `ping` when it is an iframe, and has an embed to fetch only when it is not an iframe |
| PlayerJs.Player.CallMethod | src/player.js:145-160 | as for the display, with the player's "unknown" error |
| PlayerJs.Player.Get | src/player.js:168-185 | calls the getter name, without parameters |
| PlayerJs.Player.Set | src/player.js:194-215 | `undefined` and `null` are both rejected with a `TypeError`, with nothing stored, sent or queued |
| PlayerJs.Player.On | src/player.js:226-248 | `on` with plain `TypeError`s, as `OnEffect` says |
| PlayerJs.Player.Off | src/player.js:259-277 | `off` with plain `TypeError`s, as `OffEffect` says |
| PlayerJs.Player.Resolve | src/player.js:91 | the first settlement wins; the waiting calls are stored and sent in order |
| PlayerJs.Player.Reject | src/player.js:76-84 | the first settlement wins; the waiting calls are rejected |
| PlayerJs.Player.OnMessage | src/player.js:66-96 | the origin/source filter (a message is only heard from the element's own window) and pinning; a ready error rejects with an `Error` of `data.data`'s message and name; a ready event or ping reply sets `data-ready` on the element and resolves; anything else goes to `processData` |
| PlayerJs.Player.EmbedLoaded | src/player.js:109-119 | the iframe becomes the element; the placeholder is kept; the callbacks move across; the iframe maps to the instance |
| PlayerJs.Player.EmbedFailed | src/player.js:121 | a failed embed rejects readiness |
| PlayerJs.Player.Destroy | src/player.js:310-323 | both maps lose the instance's entries and `data-vimeo-initialized` is cleared; the message handler stays attached; afterwards `ready()` is "unknown" |

## Left out

- HTTP and oEmbed retrieval (`getOEmbedData`, `fetch.js`) are not modelled.
  - Their outcome reaches the model as the `EmbedLoaded`/`EmbedFailed` events on the instance.
  - `src/lib/embed.js` and the display package's `lib/embed.js` are not part of this model.
- DOM construction is not part of this model:
  - `createEmbed*`, `initializeEmbeds`, `resizeEmbeds`, `getOEmbedParameters`;
  - style and `innerHTML` writes;
  - iframe removal in `destroy`.

  An element is an opaque identity. The few DOM facts the controllers consult are fixed fields of `Page`: the content window, whether an element is an iframe, whether it has a child, its `src` and its inner iframe, which is always an iframe.
- jQuery unwrapping, `getElementById` and `isDomElement` are folded into `Create`'s `Option<Elem>` argument.
- `PostMessage.Page.Post`: does not model the IE 8/9 branch that stringifies the envelope; that branch depends on a parse of the user-agent string.
- `isInteger` uses floating-point parsing, so it is a predicate parameter of `GetHubstairsUrl`. `isNode` is not modelled.
- `JSON.parse` is a partial function parameter of `ParseMessageData`. Its warning log is I/O and is not modelled.
- Promise scheduling is not modelled. A call made on a resolved instance is stored and sent at once rather than one microtask later. Deferred calls flush in call order. Interleavings with other events inside that window are not represented.
- Listener callbacks are opaque. They cannot re-enter the registry or the controller during the fan-out. Only their invocation is recorded.
- `WeakMap` weak retention is not represented: the maps are ordinary maps and sets.
- Property keys that collide with `Object.prototype` members are not modelled; a method named `toString` is one example.
- `Functions.MethodNamePrefixed`: case mapping covers the ASCII letters only. `toLowerCase`/`toUpperCase` are Unicode-aware, so `getMethodName('élan', 'get')` is `getÉlan` in JavaScript but `getélan` here, and `ß` upper-cases to `SS` there but stays `ß` here.
- `JsValues.Value`: numbers are integers. Fractional numbers (a payload such as `{seconds: 0.5}`, or `String(1.5)` used as a key), `NaN` and the infinities have no counterpart.
- Method and event names are strings by the time they reach `getMethodName`. A non-string `name` in `get`/`set` would throw; this is not modelled.
- `PlayerJs.Players.Create`: `src/player.js` imports `isVimeoUrl` and `getVimeoUrl`, which `src/lib/functions.js` does not define. The URL check is therefore the parameter `recognises` of `Players`. The URL built for the embed request is part of the left-out oEmbed retrieval.
- `PlayerJs.Player.OnMessage`: `PinnedOnce` is not stated for the player, because its URL check is a parameter and nothing rules out it accepting `*`.
- `attachEvent`, the fallback in `src/player.js:100-102` for browsers without `addEventListener`, is not modelled. The handler counts as attached either way.
- `DisplayJs.Display.OnMessageJS`: the text of the `TypeError` thrown by `element.firstElementChild.style` on a childless placeholder is engine-specific. The model fixes one text. The same holds for the texts of a property read on `undefined` and of `promise.reject is not a function` in `processData`.
- The logger and log output, the thin aliases and the React adapter are not modelled. The aliases (`getProducts`, `nextScene`, `setFilter`, `setLanguage`, `setConfig`) only forward to `get`, `callMethod` or `set` under a fixed name.
