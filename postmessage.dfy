/**
 * The message codec and dispatcher: reading the data of an inbound message,
 * building and sending the outbound envelope, and routing an inbound
 * envelope to the stored callbacks (event fan-out, oldest-first method
 * replies, rejection of calls on an error event).
 */
module PostMessage {
  import opened Wrappers
  import opened JsValues
  import opened Callbacks

  // ---------------------------------------------------------------------
  // parseMessageData
  // ---------------------------------------------------------------------

  /**
   * `parseMessageData`: a string is parsed as JSON (`parse` stands for
   * `JSON.parse`, `None` for a syntax error) and `{}` replaces what does not
   * parse; anything else is returned as it is. It never throws.
   */
  function ParseMessageData(raw: Value, parse: string -> Option<Value>): (r: Value)
    ensures !raw.Str? ==> r == raw
    ensures raw.Str? ==> r == (if parse(raw.s).Some? then parse(raw.s).value else Obj(map[]))
  {
    if raw.Str? then
      match parse(raw.s)
      case Some(v) => v
      case None => Obj(map[])
    else raw
  }

  /** Parsing again what parsed to a non-string changes nothing. */
  lemma ParseAgain(raw: Value, parse: string -> Option<Value>)
    requires !ParseMessageData(raw, parse).Str?
    ensures ParseMessageData(ParseMessageData(raw, parse), parse) == ParseMessageData(raw, parse)
  {
  }

  // ---------------------------------------------------------------------
  // postMessage
  // ---------------------------------------------------------------------

  /**
   * An element's `contentWindow`: `undefined` (not a frame), `null` (a frame
   * without a window), or a window, which may lack `postMessage`.
   */
  datatype WindowRef = NoWindow | NullWindow | Window(id: nat, canPost: bool)

  /** One `contentWindow.postMessage(message, targetOrigin)` call. */
  datatype Posted = Posted(window: nat, message: Value, targetOrigin: string)

  /** The outbound envelope: `{method}`, plus `value` when `params` is not `undefined`. */
  function Envelope(name: string, params: Value): (r: Value)
    ensures r.Obj?
    ensures "method" in r.fields && r.fields["method"] == Str(name)
    ensures "value" in r.fields <==> !params.Undefined?
    ensures r.fields.Keys <= {"method", "value"}
  {
    if params.Undefined? then Obj(map["method" := Str(name)])
    else Obj(map["method" := Str(name), "value" := params])
  }

  /** The receiver reads back the method and the parameters from the envelope. */
  lemma EnvelopeReadBack(name: string, params: Value)
    ensures Get(Envelope(name, params), "method") == Some(Str(name))
    ensures Get(Envelope(name, params), "value") == Some(params)
    ensures Get(Envelope(name, params), "event") == Some(Undefined)
  {
  }

  /** What `postMessage` sends through a window: one message, or nothing at all. */
  function Outgoing(w: WindowRef, name: string, params: Value, origin: string): (r: seq<Posted>)
    ensures r == [] <==> !(w.Window? && w.canPost)
    ensures r != [] ==> r == [Posted(w.id, Envelope(name, params), origin)]
  {
    if w.Window? && w.canPost then [Posted(w.id, Envelope(name, params), origin)] else []
  }

  // ---------------------------------------------------------------------
  // The page: what the controller sees of the browser
  // ---------------------------------------------------------------------

  /** What became of a stored callback when a message was processed. */
  datatype Settlement =
    | Invoked(listener: Entry, arg: Value)   // `callback.call(display, param)`
    | Resolved(call: Entry, value: Value)    // `callback.resolve(param)`
    | Rejected(call: Entry, reason: Failure) // `promise.reject(error)`

  /** Which elements are iframes, and the iframe `querySelector('iframe')` finds inside an element. */
  datatype Frames = Frames(iframes: set<Elem>, inner: map<Elem, Elem>)

  /** `querySelector('iframe')` only ever finds an iframe. */
  type IframeFacts = f: Frames | f.inner.Values <= f.iframes witness Frames({}, map[])

  /**
   * The browser around the controller: each element's `contentWindow`, the
   * messages posted so far, the settlement log of callbacks and promises,
   * the DOM facts the controllers consult, and a source of fresh identities.
   */
  class Page {
    const windows: map<Elem, WindowRef>
    /** Elements with a `firstElementChild`. */
    const hasChild: set<Elem>
    const frames: IframeFacts
    /** Elements whose `nodeName` is `IFRAME`. */
    const iframes: set<Elem> := frames.iframes
    /** `getAttribute('src')` of the elements that have one. */
    const src: map<Elem, string>
    /** `querySelector('iframe')` of the elements that contain one. */
    const innerIframe: map<Elem, Elem> := frames.inner

    var posted: seq<Posted>
    var settled: seq<Settlement>
    /** Attributes set on elements, as (element, attribute name) pairs. */
    var attributes: set<(Elem, string)>
    var nextId: nat

    constructor(windows: map<Elem, WindowRef>, hasChild: set<Elem>, iframes: set<Elem>,
                src: map<Elem, string>, innerIframe: map<Elem, Elem>)
      requires innerIframe.Values <= iframes
      ensures this.windows == windows && this.hasChild == hasChild && this.iframes == iframes
      ensures this.src == src && this.innerIframe == innerIframe
      ensures posted == [] && settled == [] && attributes == {} && nextId == 0
    {
      this.windows := windows;
      this.hasChild := hasChild;
      this.frames := Frames(iframes, innerIframe);
      this.src := src;
      posted := [];
      settled := [];
      attributes := {};
      nextId := 0;
    }

    function ContentWindow(el: Elem): WindowRef {
      if el in windows then windows[el] else NoWindow
    }

    /**
     * `postMessage(display, method, params)`: the envelope goes to the
     * element's window with the display's origin as target; nothing is sent
     * when there is no window or it cannot post.
     */
    method Post(el: Elem, name: string, params: Value, origin: string)
      modifies this
      ensures posted == old(posted) + Outgoing(ContentWindow(el), name, params, origin)
      ensures settled == old(settled) && attributes == old(attributes) && nextId == old(nextId)
    {
      var w := ContentWindow(el);
      if !w.Window? || !w.canPost {
        return;
      }
      var message := Envelope(name, params);
      posted := posted + [Posted(w.id, message, origin)];
    }

    /** A fresh identity for a new promise or element. */
    method Fresh() returns (id: nat)
      modifies this
      ensures id == old(nextId) && nextId == old(nextId) + 1
      ensures posted == old(posted) && settled == old(settled) && attributes == old(attributes)
    {
      id := nextId;
      nextId := nextId + 1;
    }

    /** `setAttribute(name, …)` on an element. */
    method SetAttribute(el: Elem, name: string)
      modifies this
      ensures attributes == old(attributes) + {(el, name)}
      ensures posted == old(posted) && settled == old(settled) && nextId == old(nextId)
    {
      attributes := attributes + {(el, name)};
    }

    /** `removeAttribute(name)` on an element. */
    method RemoveAttribute(el: Elem, name: string)
      modifies this
      ensures attributes == old(attributes) - {(el, name)}
      ensures posted == old(posted) && settled == old(settled) && nextId == old(nextId)
    {
      attributes := attributes - {(el, name)};
    }

    method Settle(s: Settlement)
      modifies this
      ensures settled == old(settled) + [s]
      ensures posted == old(posted) && attributes == old(attributes) && nextId == old(nextId)
    {
      settled := settled + [s];
    }
  }

  // ---------------------------------------------------------------------
  // processData, as a function of the registry and the parsed data
  // ---------------------------------------------------------------------

  /** Whether processing ran to the end or stopped on a thrown error. */
  datatype Outcome = Done | Threw(error: Failure)

  /** The registry afterwards, the settlements made in order, and the outcome. */
  datatype Processed = Processed(table: Table, log: seq<Settlement>, outcome: Outcome)

  /** The final `forEach`: a function is called with the parameter, a pending call resolved. */
  function SettleWith(cb: Entry, param: Value): Settlement {
    if cb.Listener? then Invoked(cb, param) else Resolved(cb, param)
  }

  function FanOut(cbs: seq<Entry>, param: Value): (r: seq<Settlement>)
    ensures |r| == |cbs|
    ensures forall i :: 0 <= i < |cbs| ==> r[i] == SettleWith(cbs[i], param)
  {
    seq(|cbs|, i requires 0 <= i < |cbs| => SettleWith(cbs[i], param))
  }

  lemma FanOutStep(cbs: seq<Entry>, i: nat, param: Value)
    requires i < |cbs|
    ensures FanOut(cbs[..i + 1], param) == FanOut(cbs[..i], param) + [SettleWith(cbs[i], param)]
  {
    var l, r := FanOut(cbs[..i + 1], param), FanOut(cbs[..i], param) + [SettleWith(cbs[i], param)];
    assert |l| == |r|;
    forall j | 0 <= j < |l| ensures l[j] == r[j] {
      if j < i { assert cbs[..i + 1][j] == cbs[..i][j]; }
    }
  }

  lemma SweepStep(t: Table, el: Elem, key: string, err: Failure, k: nat, n: nat)
    requires k < n
    ensures var a := Lookup(t, el, key);
      && (k >= |a| ==> SweepFrom(t, el, key, err, k, n) == SweepFrom(t, el, key, err, k + 1, n))
      && (k < |a| && a[k].Listener? ==>
            SweepFrom(t, el, key, err, k, n) == Processed(t, [], Threw(TypeError("promise.reject is not a function"))))
      && (k < |a| && a[k].Pending? ==>
            var r := SweepFrom(Removed(t, el, key, Some(a[k])).table, el, key, err, k + 1, n);
            SweepFrom(t, el, key, err, k, n) == Processed(r.table, [Rejected(a[k], err)] + r.log, r.outcome))
  {
  }

  /** What one visit of the error sweep did: the registry after it, its rejection, whether it threw. */
  datatype Visited = Visited(table: Table, log: seq<Settlement>, threw: bool)

  /**
   * The visit at index `k` of the live list: nothing past its end, a throw on
   * a function, otherwise the rejection of the pending call and its removal.
   */
  function Visit(t: Table, el: Elem, key: string, err: Failure, k: nat): (v: Visited)
    ensures v.threw ==> v.table == t && v.log == []
  {
    var a := Lookup(t, el, key);
    if k >= |a| then Visited(t, [], false)
    else if a[k].Listener? then Visited(t, [], true)
    else Visited(Removed(t, el, key, Some(a[k])).table, [Rejected(a[k], err)], false)
  }

  /** The sweep from `k` is the visit at `k` followed by the sweep from `k + 1`, unless the visit threw. */
  lemma VisitThenSweep(t: Table, el: Elem, key: string, err: Failure, k: nat, n: nat)
    requires k < n
    ensures var v := Visit(t, el, key, err, k);
      var rest := SweepFrom(v.table, el, key, err, k + 1, n);
      SweepFrom(t, el, key, err, k, n) ==
        if v.threw then Processed(t, [], Threw(TypeError("promise.reject is not a function")))
        else Processed(rest.table, v.log + rest.log, rest.outcome)
  {
  }

  /**
   * The error sweep, `promises.forEach(promise => { promise.reject(error);
   * removeCallback(…, promise) })`, over the live list under `key`:
   * `forEach` visits the indices below the length it started with (`n`),
   * skipping those past the current end, while each step removes the entry
   * it visited. A function has no `reject`, so meeting one throws.
   */
  function SweepFrom(t: Table, el: Elem, key: string, err: Failure, k: nat, n: nat): Processed
    decreases n - k
  {
    if k >= n then Processed(t, [], Done)
    else
      var a := Lookup(t, el, key);
      if k >= |a| then SweepFrom(t, el, key, err, k + 1, n)
      else if a[k].Listener? then Processed(t, [], Threw(TypeError("promise.reject is not a function")))
      else
        var r := SweepFrom(Removed(t, el, key, Some(a[k])).table, el, key, err, k + 1, n);
        Processed(r.table, [Rejected(a[k], err)] + r.log, r.outcome)
  }

  /** The error of an `error` event: `new Error(data.data.message)` named `data.data.name`. */
  function EventError(dd: Value): Failure
    requires !dd.Undefined? && !dd.Null?
  {
    ErrorValue(Get(dd, "name").value, ErrorMessage(Get(dd, "message").value))
  }

  /** The rejections an `error` event makes before its listeners are called. */
  function ErrorSweep(t: Table, el: Elem, data: Value): Processed
    requires !data.Undefined? && !data.Null?
  {
    var dd := Get(data, "data").value;
    match Get(dd, "method")
    case None => Processed(t, [], Threw(TypeError("Cannot read property 'method' of " + ToStr(dd))))
    case Some(m) =>
      var key := ToStr(m);
      SweepFrom(t, el, key, EventError(dd), 0, |Lookup(t, el, key)|)
  }

  /**
   * The first half of `processData`: where the envelope is routed. The
   * registry changes it makes, the settlements made so far, whether it threw,
   * and the callbacks to call with which parameter.
   */
  datatype Routing = Routing(table: Table, log: seq<Settlement>, outcome: Outcome, cbs: seq<Entry>, param: Value)

  function Route(t: Table, el: Elem, data: Value): Routing {
    match Get(data, "event")
    case None => Routing(t, [], Threw(TypeError("Cannot read property 'event' of " + ToStr(data))), [], Undefined)
    case Some(ev) =>
      if Truthy(ev) then
        var swept := if ev == Str("error") then ErrorSweep(t, el, data) else Processed(t, [], Done);
        var cbs := Lookup(swept.table, el, "event:" + ToStr(ev));
        Routing(swept.table, swept.log, swept.outcome, cbs, Get(data, "data").value)
      else
        var m := Get(data, "method").value;
        if Truthy(m) then
          var s := Shifted(t, el, ToStr(m));
          if s.first.Some? then Routing(s.table, [], Done, [s.first.value], Get(data, "value").value)
          else Routing(s.table, [], Done, [], Undefined)
        else Routing(t, [], Done, [], Undefined)
  }

  /** `processData(display, data)` once the data has been parsed: route, then call back. */
  function Process(t: Table, el: Elem, data: Value): Processed {
    var r := Route(t, el, data);
    if r.outcome.Threw? then Processed(r.table, r.log, r.outcome)
    else Processed(r.table, r.log + FanOut(r.cbs, r.param), Done)
  }

  // ---------------------------------------------------------------------
  // What processData does, message by message
  // ---------------------------------------------------------------------

  /**
   * An event other than `error` calls every `"event:"+event` listener once,
   * in the order they were registered, with `data.data`, and leaves the
   * registry as it was.
   */
  lemma EventFansOut(t: Table, el: Elem, data: Value)
    requires data.Obj? && Truthy(Field(data, "event")) && Field(data, "event") != Str("error")
    ensures var cbs, p := Lookup(t, el, "event:" + ToStr(Field(data, "event"))), Process(t, el, data);
      && p.table == t && p.outcome == Done && |p.log| == |cbs|
      && forall i :: 0 <= i < |cbs| ==> p.log[i] == SettleWith(cbs[i], Field(data, "data"))
  {
  }

  /**
   * A method reply (no truthy `event`, a truthy `method`) settles the oldest
   * entry stored under the method with `data.value` and takes it off the
   * list, together with a second copy of it; with nothing pending nothing
   * happens at all.
   */
  lemma ReplySettlesOldest(t: Table, el: Elem, data: Value)
    requires data.Obj? && !Truthy(Field(data, "event")) && Truthy(Field(data, "method"))
    ensures var key, p := ToStr(Field(data, "method")), Process(t, el, data);
      var l := Lookup(t, el, key);
      && p.outcome == Done
      && (l == [] ==> p.table == t && p.log == [])
      && (l != [] ==>
            && p.log == [SettleWith(l[0], Field(data, "value"))]
            && Lookup(p.table, el, key) == RemoveFirst(l[1..], l[0])
            && SameElsewhere(t, p.table, el, key))
      && (l != [] && Distinct(l) ==> Lookup(p.table, el, key) == l[1..])
  {
    var key := ToStr(Field(data, "method"));
    var l := Lookup(t, el, key);
    var s := Shifted(t, el, key);
    assert Get(data, "event") == Some(Field(data, "event"));
    assert Get(data, "method") == Some(Field(data, "method"));
    if l == [] {
      assert Route(t, el, data) == Routing(t, [], Done, [], Undefined);
    } else {
      assert Route(t, el, data) == Routing(s.table, [], Done, [l[0]], Field(data, "value"));
      assert FanOut([l[0]], Field(data, "value")) == [SettleWith(l[0], Field(data, "value"))];
      if Distinct(l) {
        ShiftDistinct(t, el, key);
      }
    }
  }

  /** The entries at even positions: the ones the error sweep reaches. */
  function Evens(l: seq<Entry>): (r: seq<Entry>)
    ensures |r| == (|l| + 1) / 2
    ensures forall i :: 0 <= i < |r| ==> r[i] == l[2 * i]
  {
    seq((|l| + 1) / 2, i requires 0 <= i < (|l| + 1) / 2 => l[2 * i])
  }

  /** The entries at odd positions: the ones the error sweep leaves queued. */
  function Odds(l: seq<Entry>): (r: seq<Entry>)
    ensures |r| == |l| / 2
    ensures forall i :: 0 <= i < |r| ==> r[i] == l[2 * i + 1]
  {
    OddsBelow(l, |l| / 2)
  }

  /** The first `k` odd-positioned entries, those the sweep has stepped over so far. */
  function OddsBelow(l: seq<Entry>, k: nat): (r: seq<Entry>)
    requires 2 * k <= |l|
    ensures |r| == k
    ensures forall i :: 0 <= i < k ==> r[i] == l[2 * i + 1]
  {
    seq(k, i requires 0 <= i < k => l[2 * i + 1])
  }

  function Rejections(l: seq<Entry>, err: Failure): (r: seq<Settlement>)
    ensures |r| == |l|
    ensures forall i :: 0 <= i < |l| ==> r[i] == Rejected(l[i], err)
  {
    seq(|l|, i requires 0 <= i < |l| => Rejected(l[i], err))
  }

  /**
   * The calls the sweep rejects and the calls it leaves queued together are
   * the pending calls: none lost, none counted twice.
   */
  lemma {:induction false} EvensOddsPartition(l: seq<Entry>)
    ensures |Evens(l)| + |Odds(l)| == |l|
    ensures multiset(Evens(l)) + multiset(Odds(l)) == multiset(l)
    decreases |l|
  {
    if |l| == 1 {
      assert Evens(l) == l && Odds(l) == [];
    } else if |l| >= 2 {
      var rest := l[2..];
      EvensOddsPartition(rest);
      assert Evens(l) == [l[0]] + Evens(rest);
      assert Odds(l) == [l[1]] + Odds(rest);
      assert l == [l[0]] + [l[1]] + rest;
    }
  }

  /** Once the live list is no longer than the index reached, the sweep does nothing more. */
  lemma {:induction false} SweepSkips(t: Table, el: Elem, key: string, err: Failure, k: nat, n: nat)
    requires |Lookup(t, el, key)| <= k
    ensures SweepFrom(t, el, key, err, k, n) == Processed(t, [], Done)
    decreases n - k
  {
    if k < n {
      SweepSkips(t, el, key, err, k + 1, n);
    }
  }

  /**
   * The sweep from index `k` of a list of distinct pending calls `l`, when the
   * visits before `k` have rejected and removed `l[0], l[2], …, l[2k-2]`:
   * it rejects the rest of the even-positioned calls and leaves exactly the
   * odd-positioned ones queued.
   */
  lemma {:induction false} SweepAlternates(t: Table, el: Elem, key: string, err: Failure, l: seq<Entry>, k: nat)
    requires Distinct(l) && forall i :: 0 <= i < |l| ==> l[i].Pending?
    requires 2 * k <= |l| && Has(t, el, key)
    requires Lookup(t, el, key) == OddsBelow(l, k) + l[2 * k..]
    ensures SweepFrom(t, el, key, err, k, |l|) ==
      Processed(Put(t, el, key, Odds(l)), Rejections(Evens(l), err)[k..], Done)
    decreases |l| - 2 * k, 2
  {
    if 2 * k == |l| {
      SweepSkips(t, el, key, err, k, |l|);
      assert l[2 * k..] == [];
      assert Lookup(t, el, key) == OddsBelow(l, k) == Odds(l);
      PutSame(t, el, key);
      assert |Evens(l)| == k;
    } else if 2 * k + 1 == |l| {
      SweepRejectsLast(t, el, key, err, l, k);
    } else {
      SweepRejectsNext(t, el, key, err, l, k);
    }
  }

  /** The step of `SweepAlternates` that visits `l[2k]`, the last entry of `l`. */
  lemma SweepRejectsLast(t: Table, el: Elem, key: string, err: Failure, l: seq<Entry>, k: nat)
    requires Distinct(l) && forall i :: 0 <= i < |l| ==> l[i].Pending?
    requires 2 * k + 1 == |l| && Has(t, el, key)
    requires Lookup(t, el, key) == OddsBelow(l, k) + l[2 * k..]
    ensures SweepFrom(t, el, key, err, k, |l|) ==
      Processed(Put(t, el, key, Odds(l)), Rejections(Evens(l), err)[k..], Done)
  {
    var left := OddsBelow(l, k) + l[2 * k + 1..];
    VisitEven(t, el, key, err, l, k);
    RejectionsFrom(Evens(l), err, k);
    PutPut(t, el, key, left, Odds(l));
    SweepSkipsLast(t, el, key, err, l, k);
  }

  /** The step of `SweepAlternates` that visits `l[2k]`, followed by `l[2k+1]`. */
  lemma {:induction false} SweepRejectsNext(t: Table, el: Elem, key: string, err: Failure, l: seq<Entry>, k: nat)
    requires Distinct(l) && forall i :: 0 <= i < |l| ==> l[i].Pending?
    requires 2 * k + 2 <= |l| && Has(t, el, key)
    requires Lookup(t, el, key) == OddsBelow(l, k) + l[2 * k..]
    ensures SweepFrom(t, el, key, err, k, |l|) ==
      Processed(Put(t, el, key, Odds(l)), Rejections(Evens(l), err)[k..], Done)
    decreases |l| - 2 * k, 1
  {
    VisitEven(t, el, key, err, l, k);
    SweepAfterVisit(t, el, key, err, l, k);
    RejectionsFrom(Evens(l), err, k);
  }

  /** After the visit of `l[2k]`, the sweep from `k + 1` finds `l[2k+1]` stepped over. */
  lemma {:induction false} SweepAfterVisit(t: Table, el: Elem, key: string, err: Failure, l: seq<Entry>, k: nat)
    requires Distinct(l) && forall i :: 0 <= i < |l| ==> l[i].Pending?
    requires 2 * k + 2 <= |l|
    ensures SweepFrom(Put(t, el, key, OddsBelow(l, k) + l[2 * k + 1..]), el, key, err, k + 1, |l|) ==
      Processed(Put(t, el, key, Odds(l)), Rejections(Evens(l), err)[k + 1..], Done)
    decreases |l| - 2 * k, 0
  {
    var left := OddsBelow(l, k) + l[2 * k + 1..];
    var t' := Put(t, el, key, left);
    OddsBelowStep(l, k);
    SweepAlternates(t', el, key, err, l, k + 1);
    PutPut(t, el, key, left, Odds(l));
  }

  lemma RejectionsFrom(l: seq<Entry>, err: Failure, k: nat)
    requires k < |l|
    ensures Rejections(l, err)[k..] == [Rejected(l[k], err)] + Rejections(l, err)[k + 1..]
  {
    var r := Rejections(l, err);
    assert r[k..] == [r[k]] + r[k + 1..];
  }

  /** After visiting the last entry, the odd-positioned entries are all that is left. */
  lemma SweepSkipsLast(t: Table, el: Elem, key: string, err: Failure, l: seq<Entry>, k: nat)
    requires 2 * k + 1 == |l|
    ensures var t' := Put(t, el, key, OddsBelow(l, k) + l[2 * k + 1..]);
      SweepFrom(t', el, key, err, k + 1, |l|) == Processed(Put(t, el, key, Odds(l)), Rejections(Evens(l), err)[k + 1..], Done)
  {
    var left := OddsBelow(l, k) + l[2 * k + 1..];
    assert left == Odds(l);
    SweepSkips(Put(t, el, key, left), el, key, err, k + 1, |l|);
  }

  /** Visiting `l[2k]` rejects it and splices it out of the live list. */
  lemma VisitEven(t: Table, el: Elem, key: string, err: Failure, l: seq<Entry>, k: nat)
    requires Distinct(l) && 2 * k < |l| && l[2 * k].Pending? && Has(t, el, key)
    requires Lookup(t, el, key) == OddsBelow(l, k) + l[2 * k..]
    ensures var r := SweepFrom(Put(t, el, key, OddsBelow(l, k) + l[2 * k + 1..]), el, key, err, k + 1, |l|);
      SweepFrom(t, el, key, err, k, |l|) == Processed(r.table, [Rejected(l[2 * k], err)] + r.log, r.outcome)
  {
    var a := Lookup(t, el, key);
    assert a[k] == l[2 * k];
    SweepStep(t, el, key, err, k, |l|);
    assert l[2 * k] !in a[..k] by {
      assert a[..k] == OddsBelow(l, k);
      forall i | 0 <= i < k ensures a[..k][i] != l[2 * k] {
        assert a[..k][i] == l[2 * i + 1];
      }
    }
    RemoveFirstAt(a, l[2 * k], k);
    DropAfterPrefix(OddsBelow(l, k), l[2 * k..]);
    assert l[2 * k..][1..] == l[2 * k + 1..];
  }

  lemma DropAfterPrefix(p: seq<Entry>, q: seq<Entry>)
    requires q != []
    ensures (p + q)[|p| + 1..] == q[1..]
  {
  }

  lemma OddsBelowStep(l: seq<Entry>, k: nat)
    requires 2 * k + 2 <= |l|
    ensures OddsBelow(l, k) + l[2 * k + 1..] == OddsBelow(l, k + 1) + l[2 * (k + 1)..]
  {
    var x, y := OddsBelow(l, k) + l[2 * k + 1..], OddsBelow(l, k + 1) + l[2 * (k + 1)..];
    assert |x| == |y|;
    forall i | 0 <= i < |x| ensures x[i] == y[i] {
      if i > k {
        assert x[i] == l[2 * k + 1 + (i - k)] && y[i] == l[2 * (k + 1) + (i - k - 1)];
      }
    }
  }

  /** The listeners an `error` event calls are those stored under `event:error`. */
  lemma ErrorEventKey()
    ensures "event:" + ToStr(Str("error")) == "event:error"
  {
    assert ToStr(Str("error")) == "error";
  }

  /**
   * An `error` event over distinct pending calls `l` for `data.data.method`
   * rejects `l[0], l[2], l[4], …` in that order, each with the error built
   * from `data.data`, keeps `l[1], l[3], …` queued, and then calls the
   * `event:error` listeners with `data.data`.
   */
  lemma ErrorEventRejectsEvens(t: Table, el: Elem, data: Value)
    requires data.Obj? && Field(data, "event") == Str("error")
    requires var dd := Field(data, "data");
      && !dd.Undefined? && !dd.Null?
      && var l := Lookup(t, el, ToStr(Get(dd, "method").value));
      && l != [] && Distinct(l) && forall i :: 0 <= i < |l| ==> l[i].Pending?
    ensures var dd := Field(data, "data");
      var key := ToStr(Get(dd, "method").value);
      var l := Lookup(t, el, key);
      var left := Put(t, el, key, Odds(l));
      Process(t, el, data) ==
        Processed(left, Rejections(Evens(l), EventError(dd)) + FanOut(Lookup(left, el, "event:error"), dd), Done)
  {
    var dd := Field(data, "data");
    var key := ToStr(Get(dd, "method").value);
    var l := Lookup(t, el, key);
    assert OddsBelow(l, 0) + l[0..] == l;
    SweepAlternates(t, el, key, EventError(dd), l, 0);
    assert Get(data, "event") == Some(Str("error"));
    assert Get(data, "data") == Some(dd);
    var sw := ErrorSweep(t, el, data);
    assert sw == Processed(Put(t, el, key, Odds(l)), Rejections(Evens(l), EventError(dd)), Done);
    ErrorEventKey();
    assert Route(t, el, data) == Routing(sw.table, sw.log, Done, Lookup(sw.table, el, "event:error"), dd);
  }

  /** With one pending call, the error event rejects it and the queue ends empty. */
  lemma ErrorEventSingle(t: Table, el: Elem, data: Value)
    requires data.Obj? && Field(data, "event") == Str("error")
    requires var dd := Field(data, "data");
      && !dd.Undefined? && !dd.Null?
      && var l := Lookup(t, el, ToStr(Get(dd, "method").value));
      && |l| == 1 && l[0].Pending?
    ensures var dd := Field(data, "data");
      var key := ToStr(Get(dd, "method").value);
      var p := Process(t, el, data);
      && Lookup(p.table, el, key) == []
      && p.log[..1] == [Rejected(Lookup(t, el, key)[0], EventError(dd))]
  {
    ErrorEventRejectsEvens(t, el, data);
  }

  /** A function stored under the method of an `error` event makes `processData` throw. */
  lemma ErrorEventOnListenerThrows(t: Table, el: Elem, data: Value)
    requires data.Obj? && Field(data, "event") == Str("error")
    requires var dd := Field(data, "data");
      && !dd.Undefined? && !dd.Null?
      && var l := Lookup(t, el, ToStr(Get(dd, "method").value));
      && l != [] && l[0].Listener?
    ensures var p := Process(t, el, data);
      p == Processed(t, [], Threw(TypeError("promise.reject is not a function")))
  {
    var dd := Field(data, "data");
    var key := ToStr(Get(dd, "method").value);
    SweepStep(t, el, key, EventError(dd), 0, |Lookup(t, el, key)|);
  }

  // ---------------------------------------------------------------------
  // processData, as the method that updates the registry and the page
  // ---------------------------------------------------------------------

  method ProcessData(reg: Registry, page: Page, el: Elem, raw: Value, parse: string -> Option<Value>)
    returns (outcome: Outcome)
    modifies reg, page
    ensures reg.table == Process(old(reg.table), el, ParseMessageData(raw, parse)).table
    ensures page.settled == old(page.settled) + Process(old(reg.table), el, ParseMessageData(raw, parse)).log
    ensures outcome == Process(old(reg.table), el, ParseMessageData(raw, parse)).outcome
    ensures page.posted == old(page.posted) && page.attributes == old(page.attributes)
    ensures page.nextId == old(page.nextId)
  {
    var data := ParseMessageData(raw, parse);
    ghost var r := Route(reg.table, el, data);
    var cbs, param;
    outcome, cbs, param := RouteData(reg, page, el, data);
    if outcome.Threw? {
      return;
    }
    ghost var s0 := old(page.settled);
    CallBack(page, cbs, param);
    AppendAssoc(s0, r.log, FanOut(r.cbs, r.param));
  }

  /** The routing half of `processData`. */
  method RouteData(reg: Registry, page: Page, el: Elem, data: Value)
    returns (outcome: Outcome, cbs: seq<Entry>, param: Value)
    modifies reg, page
    ensures var r := Route(old(reg.table), el, data);
      && reg.table == r.table
      && page.settled == old(page.settled) + r.log
      && outcome == r.outcome
      && (outcome.Done? ==> cbs == r.cbs && param == r.param)
    ensures page.posted == old(page.posted) && page.attributes == old(page.attributes)
    ensures page.nextId == old(page.nextId)
  {
    cbs, param := [], Undefined;
    var ev := Get(data, "event");
    if ev.None? {
      return Threw(TypeError("Cannot read property 'event' of " + ToStr(data))), cbs, param;
    }
    outcome := Done;
    if Truthy(ev.value) {
      if ev.value == Str("error") {
        outcome := RejectPending(reg, page, el, data);
        if outcome.Threw? {
          return;
        }
      }
      cbs := reg.Get(el, "event:" + ToStr(ev.value));
      param := Get(data, "data").value;
    } else {
      var m := Get(data, "method").value;
      if Truthy(m) {
        var first := reg.Shift(el, ToStr(m));
        if first.Some? {
          cbs := [first.value];
          param := Get(data, "value").value;
        }
      }
    }
  }

  /**
   * The final `forEach` of `processData`: each callback in order, a
   * function called with the parameter, a pending call resolved with it;
   * what a listener throws is swallowed, so every callback is reached.
   */
  method CallBack(page: Page, cbs: seq<Entry>, param: Value)
    modifies page
    ensures page.settled == old(page.settled) + FanOut(cbs, param)
    ensures page.posted == old(page.posted) && page.attributes == old(page.attributes)
    ensures page.nextId == old(page.nextId)
  {
    var i := 0;
    while i < |cbs|
      invariant i <= |cbs|
      invariant page.settled == old(page.settled) + FanOut(cbs[..i], param)
      invariant page.posted == old(page.posted) && page.attributes == old(page.attributes)
      invariant page.nextId == old(page.nextId)
    {
      page.Settle(SettleWith(cbs[i], param));
      FanOutStep(cbs, i, param);
      i := i + 1;
    }
    assert cbs[..i] == cbs;
  }

  /** The error sweep of an `error` event, over the live list in the registry. */
  method RejectPending(reg: Registry, page: Page, el: Elem, data: Value) returns (outcome: Outcome)
    requires !data.Undefined? && !data.Null?
    modifies reg, page
    ensures var p := ErrorSweep(old(reg.table), el, data);
      && reg.table == p.table
      && page.settled == old(page.settled) + p.log
      && outcome == p.outcome
    ensures page.posted == old(page.posted) && page.attributes == old(page.attributes)
    ensures page.nextId == old(page.nextId)
  {
    var dd := Get(data, "data").value;
    var m := Get(dd, "method");
    if m.None? {
      return Threw(TypeError("Cannot read property 'method' of " + ToStr(dd)));
    }
    var key := ToStr(m.value);
    outcome := Sweep(reg, page, el, key, EventError(dd));
  }

  /** The `forEach` of the error sweep over the live list under `key`. */
  method Sweep(reg: Registry, page: Page, el: Elem, key: string, err: Failure) returns (outcome: Outcome)
    modifies reg, page
    ensures var p := SweepFrom(old(reg.table), el, key, err, 0, |Lookup(old(reg.table), el, key)|);
      && reg.table == p.table
      && page.settled == old(page.settled) + p.log
      && outcome == p.outcome
    ensures page.posted == old(page.posted) && page.attributes == old(page.attributes)
    ensures page.nextId == old(page.nextId)
  {
    var n := |reg.Get(el, key)|;
    ghost var whole := SweepFrom(reg.table, el, key, err, 0, n);
    ghost var before := page.settled;
    var k := 0;
    while k < n
      invariant k <= n
      invariant SweepRests(whole, before, SweepFrom(reg.table, el, key, err, k, n), page.settled)
      invariant page.posted == old(page.posted) && page.attributes == old(page.attributes)
      invariant page.nextId == old(page.nextId)
    {
      ghost var t0, s0 := reg.table, page.settled;
      var threw := SweepVisit(reg, page, el, key, err, k);
      VisitKeepsRest(whole, before, t0, s0, el, key, err, k, n);
      if threw {
        return Threw(TypeError("promise.reject is not a function"));
      }
      k := k + 1;
    }
    outcome := Done;
  }

  /**
   * The loop invariant of `Sweep`: what the whole sweep does is what was
   * done so far followed by what the rest of the sweep does.
   */
  ghost predicate SweepRests(whole: Processed, before: seq<Settlement>, rest: Processed, settled: seq<Settlement>) {
    whole.table == rest.table && before + whole.log == settled + rest.log && whole.outcome == rest.outcome
  }

  /** One visit keeps `SweepRests`, or ends the sweep with what it would return. */
  lemma VisitKeepsRest(whole: Processed, before: seq<Settlement>, t0: Table, s0: seq<Settlement>,
                       el: Elem, key: string, err: Failure, k: nat, n: nat)
    requires k < n && SweepRests(whole, before, SweepFrom(t0, el, key, err, k, n), s0)
    ensures var v := Visit(t0, el, key, err, k);
      && (v.threw ==> whole.table == t0 && before + whole.log == s0
                      && whole.outcome == Threw(TypeError("promise.reject is not a function")))
      && (!v.threw ==> SweepRests(whole, before, SweepFrom(v.table, el, key, err, k + 1, n), s0 + v.log))
  {
    var v := Visit(t0, el, key, err, k);
    var rest := SweepFrom(v.table, el, key, err, k + 1, n);
    VisitThenSweep(t0, el, key, err, k, n);
    if !v.threw {
      AppendAssoc(s0, v.log, rest.log);
    }
  }

  /** One visit of the error sweep, at index `k` of the live list. */
  method SweepVisit(reg: Registry, page: Page, el: Elem, key: string, err: Failure, k: nat)
    returns (threw: bool)
    modifies reg, page
    ensures var v := Visit(old(reg.table), el, key, err, k);
      && reg.table == v.table && page.settled == old(page.settled) + v.log && threw == v.threw
    ensures page.posted == old(page.posted) && page.attributes == old(page.attributes)
    ensures page.nextId == old(page.nextId)
  {
    var a := reg.Get(el, key);
    threw := false;
    if k < |a| {
      var promise := a[k];
      if promise.Listener? {
        return true;
      }
      page.Settle(Rejected(promise, err));
      var wasLast := reg.Remove(el, key, Some(promise));
    }
  }
}
