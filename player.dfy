/**
 * The legacy `Player` controller: like `Display`, one instance per element
 * kept in `playerMap` and `readyMap`, but it adopts an iframe already inside
 * the element, only accepts frames whose `src` the player URL check
 * recognises, listens on the window from construction on, pings an iframe
 * so that an embed that is already up answers, and never detaches its
 * handler.
 */
module PlayerJs {
  import opened Wrappers
  import opened JsValues
  import opened Callbacks
  import opened PostMessage
  import opened Controller

  /** The player's argument errors are the runtime's `TypeError`s. */
  function Thrown(m: Option<string>): (r: Option<Failure>)
    ensures r.Some? <==> m.Some?
    ensures m.Some? ==> r == Some(TypeError(m.value))
  {
    if m.Some? then Some(TypeError(m.value)) else None
  }

  /** `new Error(message)`: an error named "Error". */
  function PlainError(message: string): Failure {
    ErrorValue(Str("Error"), message)
  }

  const NotAnElement: Failure := TypeError("You must pass either a valid element or a valid id.")
  const NotAnEmbed: Failure := PlainError("The player element passed isn\U{2019}t a Vimeo embed.")
  const Unknown: Failure := PlainError("Unknown player. Probably unloaded.")
  const NoValue: Failure := TypeError("There must be a value to set.")

  /**
   * The module state: `playerMap` and `readyMap`, the registry and page they
   * act on, and the player URL check (`isVimeoUrl`), which is a parameter of
   * the model.
   */
  class Players {
    const reg: Registry
    const page: Page
    const recognises: string -> bool
    var playerMap: map<Elem, Player>
    var readyMap: set<Player>

    constructor(reg: Registry, page: Page, recognises: string -> bool)
      ensures this.reg == reg && this.page == page && this.recognises == recognises
      ensures playerMap == map[] && readyMap == {}
    {
      this.reg := reg;
      this.page := page;
      this.recognises := recognises;
      playerMap := map[];
      readyMap := {};
    }

    /**
     * An element that is not an iframe stands for the iframe inside it, if
     * any: the player controls an iframe exactly when the element is one or
     * holds one, and otherwise keeps the element itself.
     */
    function Frame(el: Elem): (f: Elem)
      ensures f in page.iframes <==> el in page.iframes || el in page.innerIframe
      ensures f !in page.iframes || el in page.iframes ==> f == el
      ensures el !in page.iframes && el in page.innerIframe ==> f == page.innerIframe[el]
    {
      if el !in page.iframes && el in page.innerIframe then page.innerIframe[el] else el
    }

    /** `getAttribute('src') || ''` */
    function Src(el: Elem): string {
      if el in page.src then page.src[el] else ""
    }

    /** The element is not an iframe, or an iframe whose `src` is a player URL. */
    predicate Admits(el: Elem) {
      el !in page.iframes || recognises(Src(el))
    }

    /**
     * `new Player(element, options)`: `target` is the element after jQuery
     * unwrapping and id lookup (`None` when that is not a DOM element). An
     * admitted element already in `playerMap` gives back its instance; a new
     * one goes in both maps and, when it is an iframe, is sent a `ping`.
     * Only an element that is not an iframe has an embed to fetch.
     */
    method Create(target: Option<Elem>) returns (r: Result<Player, Failure>)
      modifies this, page
      ensures target.None? ==> r == Err(NotAnElement)
      ensures target.Some? && !Admits(Frame(target.value)) ==> r == Err(NotAnEmbed)
      ensures (target.None? || !Admits(Frame(target.value)) || Frame(target.value) in old(playerMap)) ==>
        && playerMap == old(playerMap) && readyMap == old(readyMap) && page.posted == old(page.posted)
      ensures target.Some? && Admits(Frame(target.value)) && Frame(target.value) in old(playerMap) ==>
        r == Ok(old(playerMap)[Frame(target.value)])
      ensures target.Some? && Admits(Frame(target.value)) && Frame(target.value) !in old(playerMap) ==>
        var el := Frame(target.value);
        && r.Ok? && fresh(r.value) && r.value.maps == this
        && r.value.Initial(el, el !in page.iframes)
        && playerMap == old(playerMap)[el := r.value]
        && readyMap == old(readyMap) + {r.value}
        && page.posted == old(page.posted) + (if el in page.iframes then Outgoing(page.ContentWindow(el), "ping", Undefined, "*") else [])
      ensures page.settled == old(page.settled) && page.attributes == old(page.attributes)
      ensures page.nextId == old(page.nextId)
    {
      if target.None? {
        return Err(NotAnElement);
      }
      var el := Frame(target.value);
      if !Admits(el) {
        return Err(NotAnEmbed);
      }
      if el in playerMap {
        return Ok(playerMap[el]);
      }
      var p := new Player(this, el, el !in page.iframes);
      readyMap := readyMap + {p};
      playerMap := playerMap[el := p];
      if el in page.iframes {
        page.Post(el, "ping", Undefined, "*");
      }
      r := Ok(p);
    }
  }

  class Player {
    const maps: Players
    /** The element the constructor settled on; the embed replaces it. */
    const placeholder: Elem
    var element: Elem
    var origin: string
    var originalElement: Option<Elem>
    var readiness: Readiness
    var waiting: seq<Deferred>
    /** An embed is being fetched for a placeholder that is not an iframe. */
    var fetching: bool

    predicate Initial(el: Elem, fetch: bool)
      reads this
    {
      && placeholder == el && element == el && origin == "*" && originalElement.None?
      && readiness == Waiting && waiting == [] && fetching == fetch
    }

    constructor(maps: Players, el: Elem, fetch: bool)
      ensures this.maps == maps && Initial(el, fetch)
    {
      this.maps := maps;
      placeholder := el;
      element := el;
      origin := "*";
      originalElement := None;
      readiness := Waiting;
      waiting := [];
      fetching := fetch;
    }

    /** `ready()` */
    function Status(): (s: Status)
      reads this, maps
      ensures s.ReadyAbsent? <==> this !in maps.readyMap
      ensures this in maps.readyMap ==> s == StatusOf(true, readiness)
    {
      StatusOf(this in maps.readyMap, readiness)
    }

    // --- calls -----------------------------------------------------------

    /** `callMethod(name, args = {})` */
    method CallMethod(name: string, args: Value) returns (call: Entry)
      modifies this, maps.reg, maps.page
      ensures var params, s := if args.Undefined? then Obj(map[]) else args, old(Status());
        && call == Pending(old(maps.page.nextId)) && maps.page.nextId == old(maps.page.nextId) + 1
        && maps.reg.table == CallTable(old(maps.reg.table), element, s, name, call)
        && maps.page.posted == old(maps.page.posted) + CallPosts(maps.page.ContentWindow(element), s, name, params, origin)
        && maps.page.settled == old(maps.page.settled) + CallSettles(s, Unknown, call)
        && waiting == old(waiting) + Queued(CallDefers(s, call, name, params))
      ensures maps.page.attributes == old(maps.page.attributes)
      ensures element == old(element) && origin == old(origin) && originalElement == old(originalElement)
      ensures readiness == old(readiness) && fetching == old(fetching)
    {
      var params := if args.Undefined? then Obj(map[]) else args;
      var deferred;
      call, deferred := Call(maps.reg, maps.page, element, origin, Status(), Unknown, name, params);
      waiting := waiting + Queued(deferred);
    }

    /** `get(name)` */
    method Get(name: string) returns (call: Entry)
      modifies this, maps.reg, maps.page
      ensures var n, s := Functions.GetMethodName(name, "get"), old(Status());
        && call == Pending(old(maps.page.nextId)) && maps.page.nextId == old(maps.page.nextId) + 1
        && maps.reg.table == CallTable(old(maps.reg.table), element, s, n, call)
        && maps.page.posted == old(maps.page.posted) + CallPosts(maps.page.ContentWindow(element), s, n, Undefined, origin)
        && maps.page.settled == old(maps.page.settled) + CallSettles(s, Unknown, call)
        && waiting == old(waiting) + Queued(CallDefers(s, call, n, Undefined))
      ensures maps.page.attributes == old(maps.page.attributes)
      ensures element == old(element) && origin == old(origin) && originalElement == old(originalElement)
      ensures readiness == old(readiness) && fetching == old(fetching)
    {
      var n := Functions.GetMethodName(name, "get");
      var deferred;
      call, deferred := Call(maps.reg, maps.page, element, origin, Status(), Unknown, n, Undefined);
      waiting := waiting + Queued(deferred);
    }

    /** `set(name, value)`: `undefined` and `null` are refused with nothing stored or sent. */
    method Set(name: string, value: Value) returns (call: Entry)
      modifies this, maps.reg, maps.page
      ensures call == Pending(old(maps.page.nextId)) && maps.page.nextId == old(maps.page.nextId) + 1
      ensures (value.Undefined? || value.Null?) ==>
        && maps.reg.table == old(maps.reg.table) && maps.page.posted == old(maps.page.posted)
        && maps.page.settled == old(maps.page.settled) + [Rejected(call, NoValue)]
        && waiting == old(waiting)
      ensures !(value.Undefined? || value.Null?) ==>
        var n, s := Functions.GetMethodName(name, "set"), old(Status());
        && maps.reg.table == CallTable(old(maps.reg.table), element, s, n, call)
        && maps.page.posted == old(maps.page.posted) + CallPosts(maps.page.ContentWindow(element), s, n, value, origin)
        && maps.page.settled == old(maps.page.settled) + CallSettles(s, Unknown, call)
        && waiting == old(waiting) + Queued(CallDefers(s, call, n, value))
      ensures maps.page.attributes == old(maps.page.attributes)
      ensures element == old(element) && origin == old(origin) && originalElement == old(originalElement)
      ensures readiness == old(readiness) && fetching == old(fetching)
    {
      var n := Functions.GetMethodName(name, "set");
      if value.Undefined? || value.Null? {
        var id := maps.page.Fresh();
        call := Pending(id);
        maps.page.Settle(Rejected(call, NoValue));
        return;
      }
      var deferred;
      call, deferred := Call(maps.reg, maps.page, element, origin, Status(), Unknown, n, value);
      waiting := waiting + Queued(deferred);
    }

    // --- listeners -------------------------------------------------------

    /** `on(eventName, callback)` */
    method On(name: Value, cb: Arg) returns (thrown: Option<Failure>)
      modifies this`waiting, maps.reg, maps.page
      ensures var e := OnEffect(old(maps.reg.table), old(maps.page.nextId), maps.page.ContentWindow(element),
                             element, old(Status()), Unknown, name, cb, origin);
        && thrown == Thrown(e.thrown) && maps.reg.table == e.table
        && maps.page.posted == old(maps.page.posted) + e.posts && maps.page.settled == old(maps.page.settled) + e.settles
        && maps.page.nextId == old(maps.page.nextId) + e.calls && waiting == old(waiting) + Queued(e.deferred)
      ensures maps.page.attributes == old(maps.page.attributes)
      ensures element == old(element) && origin == old(origin) && originalElement == old(originalElement)
      ensures readiness == old(readiness) && fetching == old(fetching)
    {
      var m, deferred := Listen(maps.reg, maps.page, element, origin, Status(), Unknown, name, cb);
      thrown := Thrown(m);
      waiting := waiting + Queued(deferred);
    }

    /** `off(eventName, callback)` */
    method Off(name: Value, cb: Arg) returns (thrown: Option<Failure>)
      modifies this`waiting, maps.reg, maps.page
      ensures var e := OffEffect(old(maps.reg.table), old(maps.page.nextId), maps.page.ContentWindow(element),
                             element, old(Status()), Unknown, name, cb, origin);
        && thrown == Thrown(e.thrown) && maps.reg.table == e.table
        && maps.page.posted == old(maps.page.posted) + e.posts && maps.page.settled == old(maps.page.settled) + e.settles
        && maps.page.nextId == old(maps.page.nextId) + e.calls && waiting == old(waiting) + Queued(e.deferred)
      ensures maps.page.attributes == old(maps.page.attributes)
      ensures element == old(element) && origin == old(origin) && originalElement == old(originalElement)
      ensures readiness == old(readiness) && fetching == old(fetching)
    {
      var m, deferred := Unlisten(maps.reg, maps.page, element, origin, Status(), Unknown, name, cb);
      thrown := Thrown(m);
      waiting := waiting + Queued(deferred);
    }

    // --- readiness -------------------------------------------------------

    method Resolve()
      modifies this, maps.reg, maps.page
      ensures old(readiness).Waiting? ==>
        && readiness == Fulfilled && waiting == []
        && maps.reg.table == StoredAll(old(maps.reg.table), element, old(waiting))
        && maps.page.posted == old(maps.page.posted) + PostsFor(maps.page.ContentWindow(element), old(waiting), origin)
      ensures !old(readiness).Waiting? ==>
        && readiness == old(readiness) && waiting == old(waiting)
        && maps.reg.table == old(maps.reg.table) && maps.page.posted == old(maps.page.posted)
      ensures maps.page.settled == old(maps.page.settled)
      ensures maps.page.attributes == old(maps.page.attributes) && maps.page.nextId == old(maps.page.nextId)
      ensures element == old(element) && origin == old(origin) && originalElement == old(originalElement)
      ensures fetching == old(fetching)
    {
      if !readiness.Waiting? {
        return;
      }
      readiness := Fulfilled;
      var ds := waiting;
      waiting := [];
      Flush(maps.reg, maps.page, element, origin, ds);
    }

    method Reject(reason: Failure)
      modifies this, maps.page
      ensures old(readiness).Waiting? ==>
        && readiness == Failed(reason) && waiting == []
        && maps.page.settled == old(maps.page.settled) + RejectionsOfCalls(old(waiting), reason)
      ensures !old(readiness).Waiting? ==>
        readiness == old(readiness) && waiting == old(waiting) && maps.page.settled == old(maps.page.settled)
      ensures maps.page.posted == old(maps.page.posted)
      ensures maps.page.attributes == old(maps.page.attributes) && maps.page.nextId == old(maps.page.nextId)
      ensures element == old(element) && origin == old(origin) && originalElement == old(originalElement)
      ensures fetching == old(fetching)
    {
      if !readiness.Waiting? {
        return;
      }
      readiness := Failed(reason);
      var ds := waiting;
      waiting := [];
      RejectAll(maps.page, ds, reason);
    }

    // --- inbound messages ------------------------------------------------

    /**
     * The window's `message` handler. It stays attached for the page's
     * lifetime, so it also runs after `destroy()`.
     */
    method OnMessage(from: string, source: WindowRef, raw: Value, parse: string -> Option<Value>)
      returns (outcome: Outcome)
      modifies this, maps.reg, maps.page
      ensures !(maps.recognises(from) && FromOwnWindow(source, maps.page.ContentWindow(element))) ==>
        && outcome == Done && origin == old(origin) && readiness == old(readiness) && waiting == old(waiting)
        && maps.reg.table == old(maps.reg.table) && maps.page.posted == old(maps.page.posted)
        && maps.page.settled == old(maps.page.settled) && maps.page.attributes == old(maps.page.attributes)
      ensures maps.recognises(from) && FromOwnWindow(source, maps.page.ContentWindow(element)) ==>
        && origin == Pinned(old(origin), from)
        && var data := ParseMessageData(raw, parse);
        match RouteInbound(data, true)
        case ToReadyError =>
          var reason := EventError(Field(data, "data"));
          && outcome == Done && maps.reg.table == old(maps.reg.table) && maps.page.posted == old(maps.page.posted)
          && maps.page.attributes == old(maps.page.attributes)
          && (old(readiness).Waiting? ==>
                && readiness == Failed(reason) && waiting == []
                && maps.page.settled == old(maps.page.settled) + RejectionsOfCalls(old(waiting), reason))
          && (!old(readiness).Waiting? ==> readiness == old(readiness) && waiting == old(waiting) && maps.page.settled == old(maps.page.settled))
        case ToReady =>
          && outcome == Done && maps.page.settled == old(maps.page.settled)
          && maps.page.attributes == old(maps.page.attributes) + {(element, "data-ready")}
          && (old(readiness).Waiting? ==>
                && readiness == Fulfilled && waiting == []
                && maps.reg.table == StoredAll(old(maps.reg.table), element, old(waiting))
                && maps.page.posted == old(maps.page.posted) + PostsFor(maps.page.ContentWindow(element), old(waiting), origin))
          && (!old(readiness).Waiting? ==>
                && readiness == old(readiness) && waiting == old(waiting)
                && maps.reg.table == old(maps.reg.table) && maps.page.posted == old(maps.page.posted))
        case ToProcessData =>
          var p := Process(old(maps.reg.table), element, ParseMessageData(data, parse));
          && maps.reg.table == p.table && maps.page.settled == old(maps.page.settled) + p.log && outcome == p.outcome
          && maps.page.posted == old(maps.page.posted) && maps.page.attributes == old(maps.page.attributes)
          && readiness == old(readiness) && waiting == old(waiting)
      ensures maps.page.nextId == old(maps.page.nextId)
      ensures element == old(element) && originalElement == old(originalElement) && fetching == old(fetching)
    {
      outcome := Done;
      if !maps.recognises(from) || !FromOwnWindow(source, maps.page.ContentWindow(element)) {
        return;
      }
      origin := Pinned(origin, from);
      var data := ParseMessageData(raw, parse);
      match RouteInbound(data, true) {
        case ToReadyError =>
          Reject(EventError(Field(data, "data")));
        case ToReady =>
          maps.page.SetAttribute(element, "data-ready");
          Resolve();
        case ToProcessData =>
          outcome := ProcessData(maps.reg, maps.page, element, data, parse);
      }
    }

    // --- the embed -------------------------------------------------------

    /**
     * The embed `iframe` was built in the placeholder: it becomes the
     * element, the callbacks move over and it maps to this instance.
     */
    method EmbedLoaded(iframe: Elem)
      modifies this, maps, maps.reg
      ensures old(fetching) ==>
        && !fetching && element == iframe && originalElement == Some(placeholder)
        && maps.reg.table == Swapped(old(maps.reg.table), placeholder, iframe)
        && maps.playerMap == old(maps.playerMap)[iframe := this]
      ensures !old(fetching) ==>
        && fetching == old(fetching) && element == old(element) && originalElement == old(originalElement)
        && maps.reg.table == old(maps.reg.table) && maps.playerMap == old(maps.playerMap)
      ensures maps.readyMap == old(maps.readyMap)
      ensures origin == old(origin) && readiness == old(readiness) && waiting == old(waiting)
    {
      if !fetching {
        return;
      }
      fetching := false;
      element := iframe;
      originalElement := Some(placeholder);
      maps.reg.Swap(placeholder, iframe);
      maps.playerMap := maps.playerMap[element := this];
    }

    /** The embed could not be fetched or built: readiness is rejected with the error. */
    method EmbedFailed(reason: Failure)
      modifies this, maps.page
      ensures old(fetching) && old(readiness).Waiting? ==>
        && readiness == Failed(reason) && waiting == []
        && maps.page.settled == old(maps.page.settled) + RejectionsOfCalls(old(waiting), reason)
      ensures !(old(fetching) && old(readiness).Waiting?) ==>
        readiness == old(readiness) && waiting == old(waiting) && maps.page.settled == old(maps.page.settled)
      ensures !fetching
      ensures maps.page.posted == old(maps.page.posted) && maps.page.attributes == old(maps.page.attributes)
      ensures maps.page.nextId == old(maps.page.nextId)
      ensures element == old(element) && origin == old(origin) && originalElement == old(originalElement)
    {
      if !fetching {
        return;
      }
      fetching := false;
      Reject(reason);
    }

    /**
     * `destroy()`: always resolves; the instance leaves `readyMap`, both its
     * elements leave `playerMap` and the placeholder loses its
     * `data-vimeo-initialized` attribute. The message handler stays.
     */
    method Destroy()
      modifies maps, maps.page
      ensures maps.readyMap == old(maps.readyMap) - {this}
      ensures maps.playerMap ==
        if originalElement.Some? then old(maps.playerMap) - {element} - {originalElement.value}
        else old(maps.playerMap) - {element}
      ensures maps.page.attributes ==
        if originalElement.Some? then old(maps.page.attributes) - {(originalElement.value, "data-vimeo-initialized")}
        else old(maps.page.attributes)
      ensures Status() == ReadyAbsent
      ensures maps.page.posted == old(maps.page.posted) && maps.page.settled == old(maps.page.settled)
      ensures maps.page.nextId == old(maps.page.nextId)
    {
      maps.readyMap := maps.readyMap - {this};
      maps.playerMap := maps.playerMap - {element};
      if originalElement.Some? {
        maps.playerMap := maps.playerMap - {originalElement.value};
        maps.page.RemoveAttribute(originalElement.value, "data-vimeo-initialized");
      }
    }
  }
}
