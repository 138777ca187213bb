/**
 * The `Display` controller of the display-js package: one instance per
 * element, kept in the module's `displayMap` (element to instance) and
 * `readyMap` (instance to ready promise), talking to the embed through the
 * callback registry and `postMessage`.
 */
module DisplayJs {
  import opened Wrappers
  import opened JsValues
  import opened Callbacks
  import opened PostMessage
  import opened Controller

  /** Where the instance's message handler (`_onMessage`) is attached. */
  datatype Listening = Detached | OnWindow | OnElement(target: Elem)

  /** `new HubstairsError(message, 'TypeError')`, the package's argument errors. */
  function ArgumentError(message: string): Failure {
    HubstairsError(Str(message), Str("TypeError"))
  }

  /** What `ready()` rejects with once the instance has left `readyMap`. */
  const Unknown: Failure := HubstairsError(Str("Unknown display. Probably unloaded."), Undefined)

  /** The error thrown on an argument that is neither an element nor an element's id. */
  const NotAnElement: Failure := ArgumentError("You must pass either a valid element or a valid id.")

  /** The TypeError of `element.firstElementChild.style` when the element has no child. */
  const NoFirstChild: Failure := TypeError("Cannot read property 'style' of null")

  /** The argument errors of `on`/`off`, thrown as `HubstairsError`s. */
  function Thrown(m: Option<string>): (r: Option<Failure>)
    ensures r.Some? <==> m.Some?
    ensures m.Some? ==> r == Some(ArgumentError(m.value))
  {
    if m.Some? then Some(ArgumentError(m.value)) else None
  }

  /** The module state: `displayMap` and `readyMap`, with the registry and page they act on. */
  class Displays {
    const reg: Registry
    const page: Page
    var displayMap: map<Elem, Display>
    var readyMap: set<Display>

    constructor(reg: Registry, page: Page)
      ensures this.reg == reg && this.page == page
      ensures displayMap == map[] && readyMap == {}
    {
      this.reg := reg;
      this.page := page;
      displayMap := map[];
      readyMap := {};
    }

    /**
     * `new Display(element, options)`: `target` is the element after jQuery
     * unwrapping and id lookup (`None` when that is not a DOM element). An
     * element already in `displayMap` gives back its instance and nothing
     * else; otherwise a fresh instance is put in both maps.
     */
    method Create(target: Option<Elem>, mode: Value) returns (r: Result<Display, Failure>)
      modifies this
      ensures target.None? ==> r == Err(NotAnElement) && displayMap == old(displayMap) && readyMap == old(readyMap)
      ensures target.Some? && target.value in old(displayMap) ==>
        r == Ok(old(displayMap)[target.value]) && displayMap == old(displayMap) && readyMap == old(readyMap)
      ensures target.Some? && target.value !in old(displayMap) ==>
        && r.Ok? && fresh(r.value) && r.value.maps == this
        && r.value.Initial(target.value, if Truthy(mode) then mode else Str("js"))
        && displayMap == old(displayMap)[target.value := r.value]
        && readyMap == old(readyMap) + {r.value}
    {
      if target.None? {
        return Err(NotAnElement);
      }
      var el := target.value;
      if el in displayMap {
        return Ok(displayMap[el]);
      }
      var d := new Display(this, el, if Truthy(mode) then mode else Str("js"));
      readyMap := readyMap + {d};
      displayMap := displayMap[el := d];
      r := Ok(d);
    }
  }

  class Display {
    const maps: Displays
    /** The element the constructor was given; the ready handler and the embed use it. */
    const placeholder: Elem
    const embedMode: Value
    var element: Elem
    var origin: string
    var originalElement: Option<Elem>
    var listening: Listening
    /** The ready promise and the calls waiting on it. */
    var readiness: Readiness
    var waiting: seq<Deferred>
    /** The oEmbed request is still outstanding. */
    var fetching: bool

    /** The state of a newly built instance. */
    predicate Initial(el: Elem, mode: Value)
      reads this
    {
      && placeholder == el && element == el && embedMode == mode && origin == "*"
      && originalElement.None? && listening == Detached
      && readiness == Waiting && waiting == [] && fetching
    }

    constructor(maps: Displays, el: Elem, mode: Value)
      ensures this.maps == maps && Initial(el, mode)
    {
      this.maps := maps;
      placeholder := el;
      embedMode := mode;
      element := el;
      origin := "*";
      originalElement := None;
      listening := Detached;
      readiness := Waiting;
      waiting := [];
      fetching := true;
    }

    /** `ready()`: the instance's own promise while it is in `readyMap`, otherwise "unknown". */
    function Status(): (s: Status)
      reads this, maps
      ensures s.ReadyAbsent? <==> this !in maps.readyMap
      ensures this in maps.readyMap ==> s == StatusOf(true, readiness)
    {
      StatusOf(this in maps.readyMap, readiness)
    }

    // --- calls -----------------------------------------------------------

    /** `callMethod(name, args = {})` */
    method CallMethod(name: string, args: Value) returns (call: Entry)
      modifies this, maps.reg, maps.page
      ensures var params, s := if args.Undefined? then Obj(map[]) else args, old(Status());
        && call == Pending(old(maps.page.nextId)) && maps.page.nextId == old(maps.page.nextId) + 1
        && maps.reg.table == CallTable(old(maps.reg.table), element, s, name, call)
        && maps.page.posted == old(maps.page.posted) + CallPosts(maps.page.ContentWindow(element), s, name, params, origin)
        && maps.page.settled == old(maps.page.settled) + CallSettles(s, Unknown, call)
        && waiting == old(waiting) + Queued(CallDefers(s, call, name, params))
      ensures maps.page.attributes == old(maps.page.attributes)
      ensures element == old(element) && origin == old(origin) && originalElement == old(originalElement)
      ensures listening == old(listening) && readiness == old(readiness) && fetching == old(fetching)
    {
      var params := if args.Undefined? then Obj(map[]) else args;
      var deferred;
      call, deferred := Call(maps.reg, maps.page, element, origin, Status(), Unknown, name, params);
      waiting := waiting + Queued(deferred);
    }

    /** `get(name)`: a call of `getName` without parameters. */
    method Get(name: string) returns (call: Entry)
      modifies this, maps.reg, maps.page
      ensures var n, s := Functions.GetMethodName(name, "get"), old(Status());
        && call == Pending(old(maps.page.nextId)) && maps.page.nextId == old(maps.page.nextId) + 1
        && maps.reg.table == CallTable(old(maps.reg.table), element, s, n, call)
        && maps.page.posted == old(maps.page.posted) + CallPosts(maps.page.ContentWindow(element), s, n, Undefined, origin)
        && maps.page.settled == old(maps.page.settled) + CallSettles(s, Unknown, call)
        && waiting == old(waiting) + Queued(CallDefers(s, call, n, Undefined))
      ensures maps.page.attributes == old(maps.page.attributes)
      ensures element == old(element) && origin == old(origin) && originalElement == old(originalElement)
      ensures listening == old(listening) && readiness == old(readiness) && fetching == old(fetching)
    {
      var n := Functions.GetMethodName(name, "get");
      var deferred;
      call, deferred := Call(maps.reg, maps.page, element, origin, Status(), Unknown, n, Undefined);
      waiting := waiting + Queued(deferred);
    }

    /**
     * `set(name, value)`: an `undefined` value is rejected before readiness is
     * consulted, with nothing stored, sent or queued.
     */
    method Set(name: string, value: Value) returns (call: Entry)
      modifies this, maps.reg, maps.page
      ensures call == Pending(old(maps.page.nextId)) && maps.page.nextId == old(maps.page.nextId) + 1
      ensures value.Undefined? ==>
        && maps.reg.table == old(maps.reg.table) && maps.page.posted == old(maps.page.posted)
        && maps.page.settled == old(maps.page.settled) + [Rejected(call, ArgumentError("There must be a value to set."))]
        && waiting == old(waiting)
      ensures !value.Undefined? ==>
        var n, s := Functions.GetMethodName(name, "set"), old(Status());
        && maps.reg.table == CallTable(old(maps.reg.table), element, s, n, call)
        && maps.page.posted == old(maps.page.posted) + CallPosts(maps.page.ContentWindow(element), s, n, value, origin)
        && maps.page.settled == old(maps.page.settled) + CallSettles(s, Unknown, call)
        && waiting == old(waiting) + Queued(CallDefers(s, call, n, value))
      ensures maps.page.attributes == old(maps.page.attributes)
      ensures element == old(element) && origin == old(origin) && originalElement == old(originalElement)
      ensures listening == old(listening) && readiness == old(readiness) && fetching == old(fetching)
    {
      var n := Functions.GetMethodName(name, "set");
      if value.Undefined? {
        var id := maps.page.Fresh();
        call := Pending(id);
        maps.page.Settle(Rejected(call, ArgumentError("There must be a value to set.")));
        return;
      }
      var deferred;
      call, deferred := Call(maps.reg, maps.page, element, origin, Status(), Unknown, n, value);
      waiting := waiting + Queued(deferred);
    }

    // --- listeners -------------------------------------------------------

    /** `on(eventName, callback)` */
    method On(name: Value, cb: Arg) returns (thrown: Option<Failure>)
      modifies this`waiting, maps.reg, maps.page
      ensures var e := OnEffect(old(maps.reg.table), old(maps.page.nextId), maps.page.ContentWindow(element),
                             element, old(Status()), Unknown, name, cb, origin);
        && thrown == Thrown(e.thrown) && maps.reg.table == e.table
        && maps.page.posted == old(maps.page.posted) + e.posts && maps.page.settled == old(maps.page.settled) + e.settles
        && maps.page.nextId == old(maps.page.nextId) + e.calls && waiting == old(waiting) + Queued(e.deferred)
      ensures maps.page.attributes == old(maps.page.attributes)
      ensures element == old(element) && origin == old(origin) && originalElement == old(originalElement)
      ensures listening == old(listening) && readiness == old(readiness) && fetching == old(fetching)
    {
      var m, deferred := Listen(maps.reg, maps.page, element, origin, Status(), Unknown, name, cb);
      thrown := Thrown(m);
      waiting := waiting + Queued(deferred);
    }

    /** `off(eventName, callback)` */
    method Off(name: Value, cb: Arg) returns (thrown: Option<Failure>)
      modifies this`waiting, maps.reg, maps.page
      ensures var e := OffEffect(old(maps.reg.table), old(maps.page.nextId), maps.page.ContentWindow(element),
                             element, old(Status()), Unknown, name, cb, origin);
        && thrown == Thrown(e.thrown) && maps.reg.table == e.table
        && maps.page.posted == old(maps.page.posted) + e.posts && maps.page.settled == old(maps.page.settled) + e.settles
        && maps.page.nextId == old(maps.page.nextId) + e.calls && waiting == old(waiting) + Queued(e.deferred)
      ensures maps.page.attributes == old(maps.page.attributes)
      ensures element == old(element) && origin == old(origin) && originalElement == old(originalElement)
      ensures listening == old(listening) && readiness == old(readiness) && fetching == old(fetching)
    {
      var m, deferred := Unlisten(maps.reg, maps.page, element, origin, Status(), Unknown, name, cb);
      thrown := Thrown(m);
      waiting := waiting + Queued(deferred);
    }

    // --- readiness -------------------------------------------------------

    /** The ready promise's `resolve`: the first settlement wins and runs the waiting calls. */
    method Resolve()
      modifies this, maps.reg, maps.page
      ensures old(readiness).Waiting? ==>
        && readiness == Fulfilled && waiting == []
        && maps.reg.table == StoredAll(old(maps.reg.table), element, old(waiting))
        && maps.page.posted == old(maps.page.posted) + PostsFor(maps.page.ContentWindow(element), old(waiting), origin)
        && maps.page.settled == old(maps.page.settled)
      ensures !old(readiness).Waiting? ==>
        && readiness == old(readiness) && waiting == old(waiting)
        && maps.reg.table == old(maps.reg.table) && maps.page.posted == old(maps.page.posted)
        && maps.page.settled == old(maps.page.settled)
      ensures maps.page.attributes == old(maps.page.attributes) && maps.page.nextId == old(maps.page.nextId)
      ensures element == old(element) && origin == old(origin) && originalElement == old(originalElement)
      ensures listening == old(listening) && fetching == old(fetching)
    {
      if !readiness.Waiting? {
        return;
      }
      readiness := Fulfilled;
      var ds := waiting;
      waiting := [];
      Flush(maps.reg, maps.page, element, origin, ds);
    }

    /** The ready promise's `reject`: the first settlement wins and rejects the waiting calls. */
    method Reject(reason: Failure)
      modifies this, maps.page
      ensures old(readiness).Waiting? ==>
        && readiness == Failed(reason) && waiting == []
        && maps.page.settled == old(maps.page.settled) + RejectionsOfCalls(old(waiting), reason)
      ensures !old(readiness).Waiting? ==>
        readiness == old(readiness) && waiting == old(waiting) && maps.page.settled == old(maps.page.settled)
      ensures maps.page.posted == old(maps.page.posted)
      ensures maps.page.attributes == old(maps.page.attributes) && maps.page.nextId == old(maps.page.nextId)
      ensures element == old(element) && origin == old(origin) && originalElement == old(originalElement)
      ensures listening == old(listening) && fetching == old(fetching)
    {
      if !readiness.Waiting? {
        return;
      }
      readiness := Failed(reason);
      var ds := waiting;
      waiting := [];
      RejectAll(maps.page, ds, reason);
    }

    // --- inbound messages ------------------------------------------------

    /**
     * What `onMessageJS(detail)` does, by route: a ready error rejects
     * readiness, a ready event resolves it (after showing the placeholder's
     * first child, which throws when there is none) and flushes the waiting
     * calls to the current origin, and everything else goes to `processData`.
     */
    twostate predicate HandledJS(detail: Value, parse: string -> Option<Value>, outcome: Outcome)
      reads this, maps.reg, maps.page
    {
      var data := ParseMessageData(detail, parse);
      match RouteInbound(data, false)
      case ToReadyError =>
        var dd := Field(data, "data");
        && outcome == Done && maps.reg.table == old(maps.reg.table) && maps.page.posted == old(maps.page.posted)
        && (old(readiness).Waiting? ==>
              && readiness == Failed(HubstairsError(Field(dd, "message"), Field(dd, "name")))
              && waiting == []
              && maps.page.settled == old(maps.page.settled) + RejectionsOfCalls(old(waiting), readiness.reason))
        && (!old(readiness).Waiting? ==> readiness == old(readiness) && waiting == old(waiting) && maps.page.settled == old(maps.page.settled))
      case ToReady =>
        if placeholder !in maps.page.hasChild then
          && outcome == Threw(NoFirstChild) && readiness == old(readiness) && waiting == old(waiting)
          && maps.reg.table == old(maps.reg.table) && maps.page.posted == old(maps.page.posted)
          && maps.page.settled == old(maps.page.settled)
        else
          && outcome == Done && maps.page.settled == old(maps.page.settled)
          && (old(readiness).Waiting? ==>
                && readiness == Fulfilled && waiting == []
                && maps.reg.table == StoredAll(old(maps.reg.table), element, old(waiting))
                && maps.page.posted == old(maps.page.posted) + PostsFor(maps.page.ContentWindow(element), old(waiting), origin))
          && (!old(readiness).Waiting? ==>
                && readiness == old(readiness) && waiting == old(waiting)
                && maps.reg.table == old(maps.reg.table) && maps.page.posted == old(maps.page.posted))
      case ToProcessData =>
        var p := Process(old(maps.reg.table), element, ParseMessageData(data, parse));
        && maps.reg.table == p.table && maps.page.settled == old(maps.page.settled) + p.log && outcome == p.outcome
        && maps.page.posted == old(maps.page.posted) && readiness == old(readiness) && waiting == old(waiting)
    }

    /** `onMessageJS`, as `HandledJS` says. */
    method OnMessageJS(detail: Value, parse: string -> Option<Value>) returns (outcome: Outcome)
      modifies this, maps.reg, maps.page
      ensures HandledJS(detail, parse, outcome)
      ensures maps.page.attributes == old(maps.page.attributes) && maps.page.nextId == old(maps.page.nextId)
      ensures element == old(element) && origin == old(origin) && originalElement == old(originalElement)
      ensures listening == old(listening) && fetching == old(fetching)
    {
      var data := ParseMessageData(detail, parse);
      outcome := Done;
      match RouteInbound(data, false) {
        case ToReadyError =>
          var dd := Field(data, "data");
          Reject(HubstairsError(Field(dd, "message"), Field(dd, "name")));
        case ToReady =>
          if placeholder !in maps.page.hasChild {
            return Threw(NoFirstChild);
          }
          Resolve();
        case ToProcessData =>
          outcome := ProcessData(maps.reg, maps.page, element, data, parse);
      }
    }

    /**
     * The iframe-mode handler on the window, `onMessage`: a message from
     * anywhere but the element's own window, or from an origin that is not a
     * Hubstairs URL, is ignored; the first accepted message pins the origin.
     */
    method OnWindowMessage(from: string, source: WindowRef, data: Value, parse: string -> Option<Value>)
      returns (outcome: Outcome)
      modifies this, maps.reg, maps.page
      ensures !(listening == OnWindow && Accepts(from, source, maps.page.ContentWindow(element))) ==>
        && outcome == Done && origin == old(origin) && readiness == old(readiness) && waiting == old(waiting)
        && maps.reg.table == old(maps.reg.table) && maps.page.posted == old(maps.page.posted)
        && maps.page.settled == old(maps.page.settled)
      ensures listening == OnWindow && Accepts(from, source, maps.page.ContentWindow(element)) ==>
        origin == Pinned(old(origin), from) && HandledJS(data, parse, outcome)
      ensures maps.page.attributes == old(maps.page.attributes) && maps.page.nextId == old(maps.page.nextId)
      ensures element == old(element) && originalElement == old(originalElement)
      ensures listening == old(listening) && fetching == old(fetching)
    {
      outcome := Done;
      if listening != OnWindow || !Accepts(from, source, maps.page.ContentWindow(element)) {
        return;
      }
      origin := Pinned(origin, from);
      outcome := OnMessageJS(data, parse);
    }

    /** The JS-mode handler, attached to the embed element: a `message` event dispatched on it. */
    method OnElementMessage(target: Elem, detail: Value, parse: string -> Option<Value>) returns (outcome: Outcome)
      modifies this, maps.reg, maps.page
      ensures listening != OnElement(target) ==>
        && outcome == Done && readiness == old(readiness) && waiting == old(waiting)
        && maps.reg.table == old(maps.reg.table) && maps.page.posted == old(maps.page.posted)
        && maps.page.settled == old(maps.page.settled)
      ensures listening == OnElement(target) ==> HandledJS(detail, parse, outcome)
      ensures maps.page.attributes == old(maps.page.attributes) && maps.page.nextId == old(maps.page.nextId)
      ensures element == old(element) && origin == old(origin) && originalElement == old(originalElement)
      ensures listening == old(listening) && fetching == old(fetching)
    {
      outcome := Done;
      if listening != OnElement(target) {
        return;
      }
      outcome := OnMessageJS(detail, parse);
    }

    // --- the embed -------------------------------------------------------

    /**
     * The oEmbed request succeeded and the embed `inner` was built in the
     * placeholder: it becomes the element, its callbacks move over, it maps
     * to this instance, and the handler is attached (on the window in iframe
     * mode, on the new element otherwise).
     */
    method EmbedLoaded(inner: Elem)
      modifies this, maps, maps.reg
      ensures old(fetching) ==>
        && !fetching && element == inner && originalElement == Some(placeholder)
        && listening == (if embedMode == Str("iframe") then OnWindow else OnElement(inner))
        && maps.reg.table == Swapped(old(maps.reg.table), placeholder, inner)
        && maps.displayMap == old(maps.displayMap)[inner := this]
      ensures !old(fetching) ==>
        && fetching == old(fetching) && element == old(element) && originalElement == old(originalElement)
        && listening == old(listening) && maps.reg.table == old(maps.reg.table)
        && maps.displayMap == old(maps.displayMap)
      ensures maps.readyMap == old(maps.readyMap)
      ensures origin == old(origin) && readiness == old(readiness) && waiting == old(waiting)
    {
      if !fetching {
        return;
      }
      fetching := false;
      element := inner;
      originalElement := Some(placeholder);
      listening := if embedMode == Str("iframe") then OnWindow else OnElement(inner);
      maps.reg.Swap(placeholder, inner);
      maps.displayMap := maps.displayMap[element := this];
    }

    /** The oEmbed request failed: readiness is rejected with its error. */
    method EmbedFailed(reason: Failure)
      modifies this, maps.page
      ensures old(fetching) && old(readiness).Waiting? ==>
        && readiness == Failed(reason) && waiting == []
        && maps.page.settled == old(maps.page.settled) + RejectionsOfCalls(old(waiting), reason)
      ensures !(old(fetching) && old(readiness).Waiting?) ==>
        readiness == old(readiness) && waiting == old(waiting) && maps.page.settled == old(maps.page.settled)
      ensures !fetching
      ensures maps.page.posted == old(maps.page.posted) && maps.page.attributes == old(maps.page.attributes)
      ensures maps.page.nextId == old(maps.page.nextId)
      ensures element == old(element) && origin == old(origin) && originalElement == old(originalElement)
      ensures listening == old(listening)
    {
      if !fetching {
        return;
      }
      fetching := false;
      Reject(reason);
    }

    /**
     * `destroy()`: always resolves. The instance leaves `readyMap`, both its
     * elements leave `displayMap`, the placeholder loses its
     * `data-hubstairs-initialized` attribute and the handler is detached.
     */
    method Destroy()
      modifies this, maps, maps.page
      ensures maps.readyMap == old(maps.readyMap) - {this}
      ensures maps.displayMap ==
        if originalElement.Some? then old(maps.displayMap) - {element} - {originalElement.value}
        else old(maps.displayMap) - {element}
      ensures maps.page.attributes ==
        if originalElement.Some? then old(maps.page.attributes) - {(originalElement.value, "data-hubstairs-initialized")}
        else old(maps.page.attributes)
      ensures listening == (if (embedMode == Str("iframe") && old(listening) == OnWindow)
                               || (embedMode != Str("iframe") && old(listening) == OnElement(element))
                            then Detached else old(listening))
      ensures Status() == ReadyAbsent
      ensures maps.page.posted == old(maps.page.posted) && maps.page.settled == old(maps.page.settled)
      ensures maps.page.nextId == old(maps.page.nextId)
      ensures element == old(element) && origin == old(origin) && originalElement == old(originalElement)
      ensures readiness == old(readiness) && waiting == old(waiting) && fetching == old(fetching)
    {
      maps.readyMap := maps.readyMap - {this};
      maps.displayMap := maps.displayMap - {element};
      if originalElement.Some? {
        maps.displayMap := maps.displayMap - {originalElement.value};
        maps.page.RemoveAttribute(originalElement.value, "data-hubstairs-initialized");
      }
      if embedMode == Str("iframe") {
        if listening == OnWindow {
          listening := Detached;
        }
      } else if listening == OnElement(element) {
        listening := Detached;
      }
    }
  }
}
