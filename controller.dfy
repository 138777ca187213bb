/**
 * What the two controllers, `Display` and the legacy `Player`, share: the
 * readiness of an instance, how `callMethod`/`get`/`set` go out depending on
 * it, the deferred calls that wait for it, and the `on`/`off` bookkeeping of
 * event listeners with the remote `addEventListener`/`removeEventListener`.
 *
 * A promise is not modelled as such. The ready promise of an instance is its
 * `Readiness`; the promise a call returns is the `Pending` entry made for it,
 * and whatever settles it is recorded in the page's settlement log.
 */
module Controller {
  import opened Wrappers
  import opened JsValues
  import opened Callbacks
  import opened PostMessage
  import Functions

  /** The ready promise made by the constructor: waiting, fulfilled or rejected. */
  datatype Readiness = Waiting | Fulfilled | Failed(reason: Failure)

  /**
   * What `ready()` hands a caller: the instance's own promise while the
   * instance is in `readyMap`, otherwise a promise rejected as "unknown".
   */
  datatype Status = ReadyPending | ReadyResolved | ReadyRejected(reason: Failure) | ReadyAbsent

  function StatusOf(registered: bool, r: Readiness): (s: Status)
    ensures s.ReadyAbsent? <==> !registered
    ensures registered ==> (s.ReadyPending? <==> r.Waiting?) && (s.ReadyResolved? <==> r.Fulfilled?)
    ensures registered && r.Failed? ==> s == ReadyRejected(r.reason)
  {
    if !registered then ReadyAbsent
    else match r
      case Waiting => ReadyPending
      case Fulfilled => ReadyResolved
      case Failed(e) => ReadyRejected(e)
  }

  /** A call made while the instance was not yet ready: it runs when readiness settles. */
  datatype Deferred = Deferred(call: Entry, name: string, params: Value)

  // ---------------------------------------------------------------------
  // One call, as a function of the readiness it meets
  // ---------------------------------------------------------------------

  /** The reason a call is rejected with before anything is stored or sent, if any. */
  function Refusal(s: Status, unknown: Failure): (r: Option<Failure>)
    ensures r.Some? <==> s.ReadyRejected? || s.ReadyAbsent?
    ensures s.ReadyRejected? ==> r == Some(s.reason)
    ensures s.ReadyAbsent? ==> r == Some(unknown)
  {
    match s
    case ReadyRejected(e) => Some(e)
    case ReadyAbsent => Some(unknown)
    case _ => None
  }

  /** The registry after a call: the pending entry is stored only when the instance is ready. */
  function CallTable(t: Table, el: Elem, s: Status, name: string, call: Entry): (r: Table)
    ensures s.ReadyResolved? ==> r == Stored(t, el, name, call)
    ensures !s.ReadyResolved? ==> r == t
  {
    if s.ReadyResolved? then Stored(t, el, name, call) else t
  }

  /** The messages a call sends: its envelope, only when the instance is ready. */
  function CallPosts(w: WindowRef, s: Status, name: string, params: Value, origin: string): (r: seq<Posted>)
    ensures s.ReadyResolved? ==> r == Outgoing(w, name, params, origin)
    ensures !s.ReadyResolved? ==> r == []
  {
    if s.ReadyResolved? then Outgoing(w, name, params, origin) else []
  }

  /** The settlements a call makes at once: its rejection when it is refused. */
  function CallSettles(s: Status, unknown: Failure, call: Entry): (r: seq<Settlement>)
    ensures Refusal(s, unknown).None? ==> r == []
    ensures Refusal(s, unknown).Some? ==> r == [Rejected(call, Refusal(s, unknown).value)]
  {
    match Refusal(s, unknown)
    case None => []
    case Some(e) => [Rejected(call, e)]
  }

  /** The call left waiting for readiness, if any. */
  function CallDefers(s: Status, call: Entry, name: string, params: Value): (r: Option<Deferred>)
    ensures r.Some? <==> s.ReadyPending?
    ensures r.Some? ==> r.value == Deferred(call, name, params)
  {
    if s.ReadyPending? then Some(Deferred(call, name, params)) else None
  }

  /** A deferred call, as a (possibly empty) addition to the instance's queue. */
  function Queued(d: Option<Deferred>): (r: seq<Deferred>)
    ensures |r| <= 1 && (d.Some? ==> r == [d.value]) && (d.None? ==> r == [])
  {
    if d.Some? then [d.value] else []
  }

  /**
   * Exactly one thing happens to a call: it is stored and sent (ready), it
   * waits (not yet ready), or it is rejected with nothing stored or sent
   * (rejected readiness, or an instance no longer in `readyMap`).
   */
  lemma CallFates(t: Table, w: WindowRef, el: Elem, s: Status, unknown: Failure, name: string, params: Value, origin: string, call: Entry)
    ensures var stored, sent, refused, waits :=
        CallTable(t, el, s, name, call) != t,
        CallPosts(w, s, name, params, origin) != [],
        CallSettles(s, unknown, call) != [],
        CallDefers(s, call, name, params).Some?;
      && (refused ==> !stored && !sent && !waits)
      && (waits ==> !stored && !sent && !refused)
      && (stored ==> !waits && !refused)
      && (s.ReadyResolved? ==> stored && Lookup(CallTable(t, el, s, name, call), el, name) == Lookup(t, el, name) + [call])
      && (s.ReadyResolved? && w.Window? && w.canPost ==> sent)
  {
    if s.ReadyResolved? {
      assert Lookup(CallTable(t, el, s, name, call), el, name) == Lookup(t, el, name) + [call];
      assert |Lookup(CallTable(t, el, s, name, call), el, name)| != |Lookup(t, el, name)|;
    }
  }

  /**
   * `callMethod`/`get`/`set` once the name and parameters are known: a fresh
   * pending call, then store and send, defer, or reject, as readiness says.
   */
  method Call(reg: Registry, page: Page, el: Elem, origin: string, s: Status, unknown: Failure, name: string, params: Value)
    returns (call: Entry, deferred: Option<Deferred>)
    modifies reg, page
    ensures call == Pending(old(page.nextId)) && page.nextId == old(page.nextId) + 1
    ensures reg.table == CallTable(old(reg.table), el, s, name, call)
    ensures page.posted == old(page.posted) + CallPosts(page.ContentWindow(el), s, name, params, origin)
    ensures page.settled == old(page.settled) + CallSettles(s, unknown, call)
    ensures deferred == CallDefers(s, call, name, params)
    ensures page.attributes == old(page.attributes)
  {
    var id := page.Fresh();
    call := Pending(id);
    deferred := None;
    match s {
      case ReadyResolved =>
        reg.Store(el, name, call);
        page.Post(el, name, params, origin);
      case ReadyPending =>
        deferred := Some(Deferred(call, name, params));
      case ReadyRejected(e) =>
        page.Settle(Rejected(call, e));
      case ReadyAbsent =>
        page.Settle(Rejected(call, unknown));
    }
  }

  // ---------------------------------------------------------------------
  // Deferred calls, once readiness settles
  // ---------------------------------------------------------------------

  /** The registry after the deferred calls are stored, oldest first. */
  function StoredAll(t: Table, el: Elem, ds: seq<Deferred>): Table
    decreases |ds|
  {
    if ds == [] then t else StoredAll(Stored(t, el, ds[0].name, ds[0].call), el, ds[1..])
  }

  /** The envelopes the deferred calls send, oldest first. */
  function PostsFor(w: WindowRef, ds: seq<Deferred>, origin: string): seq<Posted>
    decreases |ds|
  {
    if ds == [] then [] else Outgoing(w, ds[0].name, ds[0].params, origin) + PostsFor(w, ds[1..], origin)
  }

  /** The calls among `ds` made under `name`, oldest first. */
  function CallsNamed(ds: seq<Deferred>, name: string): (r: seq<Entry>)
    ensures |r| <= |ds|
    decreases |ds|
  {
    if ds == [] then []
    else (if ds[0].name == name then [ds[0].call] else []) + CallsNamed(ds[1..], name)
  }

  /** Rejecting every deferred call with the reason readiness failed with. */
  function RejectionsOfCalls(ds: seq<Deferred>, reason: Failure): (r: seq<Settlement>)
    ensures |r| == |ds|
    ensures forall i :: 0 <= i < |ds| ==> r[i] == Rejected(ds[i].call, reason)
  {
    seq(|ds|, i requires 0 <= i < |ds| => Rejected(ds[i].call, reason))
  }

  /**
   * Flushing the deferred calls queues each under its own name behind what
   * was stored before, in the order the calls were made, and touches no
   * other element.
   */
  lemma {:induction false} StoredAllQueues(t: Table, el: Elem, ds: seq<Deferred>, name: string)
    ensures Lookup(StoredAll(t, el, ds), el, name) == Lookup(t, el, name) + CallsNamed(ds, name)
    decreases |ds|
  {
    if ds != [] {
      var t' := Stored(t, el, ds[0].name, ds[0].call);
      var mine := if ds[0].name == name then [ds[0].call] else [];
      var rest := CallsNamed(ds[1..], name);
      assert Lookup(t', el, name) == Lookup(t, el, name) + mine;
      assert Lookup(StoredAll(t', el, ds[1..]), el, name) == Lookup(t', el, name) + rest by {
        StoredAllQueues(t', el, ds[1..], name);
      }
      assert CallsNamed(ds, name) == mine + rest;
      AppendAssoc(Lookup(t, el, name), mine, rest);
    }
  }

  /** Flushing touches no other element's lists. */
  lemma {:induction false} StoredAllElsewhere(t: Table, el: Elem, ds: seq<Deferred>, e: Elem, name: string)
    requires e != el
    ensures Lookup(StoredAll(t, el, ds), e, name) == Lookup(t, e, name)
    decreases |ds|
  {
    if ds != [] {
      StoredAllElsewhere(Stored(t, el, ds[0].name, ds[0].call), el, ds[1..], e, name);
    }
  }

  lemma StoredAllStep(t: Table, el: Elem, ds: seq<Deferred>, i: nat)
    requires i < |ds|
    ensures StoredAll(Stored(t, el, ds[i].name, ds[i].call), el, ds[i + 1..]) == StoredAll(t, el, ds[i..])
  {
    assert ds[i..][0] == ds[i] && ds[i..][1..] == ds[i + 1..];
  }

  lemma PostsForStep(w: WindowRef, ds: seq<Deferred>, i: nat, origin: string)
    requires i < |ds|
    ensures PostsFor(w, ds[i..], origin) == Outgoing(w, ds[i].name, ds[i].params, origin) + PostsFor(w, ds[i + 1..], origin)
  {
    assert ds[i..][0] == ds[i] && ds[i..][1..] == ds[i + 1..];
  }

  /** Every deferred call sends one envelope when the window can receive it, none otherwise. */
  lemma {:induction false} PostsForCount(w: WindowRef, ds: seq<Deferred>, origin: string)
    ensures |PostsFor(w, ds, origin)| == if w.Window? && w.canPost then |ds| else 0
    ensures forall i :: 0 <= i < |PostsFor(w, ds, origin)| ==>
      PostsFor(w, ds, origin)[i] == Posted(w.id, Envelope(ds[i].name, ds[i].params), origin)
    decreases |ds|
  {
    if ds != [] {
      PostsForCount(w, ds[1..], origin);
      var p := PostsFor(w, ds, origin);
      var q := PostsFor(w, ds[1..], origin);
      if w.Window? && w.canPost {
        assert p == [Posted(w.id, Envelope(ds[0].name, ds[0].params), origin)] + q;
        forall i | 0 < i < |p| ensures p[i] == Posted(w.id, Envelope(ds[i].name, ds[i].params), origin) {
          assert p[i] == q[i - 1] && ds[1..][i - 1] == ds[i];
        }
      }
    }
  }

  /** Readiness resolved: each deferred call is stored under the current element and sent, in order. */
  method Flush(reg: Registry, page: Page, el: Elem, origin: string, ds: seq<Deferred>)
    modifies reg, page
    ensures reg.table == StoredAll(old(reg.table), el, ds)
    ensures page.posted == old(page.posted) + PostsFor(page.ContentWindow(el), ds, origin)
    ensures page.settled == old(page.settled) && page.attributes == old(page.attributes)
    ensures page.nextId == old(page.nextId)
  {
    var w := page.ContentWindow(el);
    var i := 0;
    while i < |ds|
      invariant i <= |ds|
      invariant StoredAll(reg.table, el, ds[i..]) == StoredAll(old(reg.table), el, ds)
      invariant page.posted + PostsFor(w, ds[i..], origin) == old(page.posted) + PostsFor(w, ds, origin)
      invariant page.settled == old(page.settled) && page.attributes == old(page.attributes)
      invariant page.nextId == old(page.nextId)
    {
      FlushOne(reg, page, el, origin, ds, i);
      i := i + 1;
    }
    assert ds[i..] == [];
  }

  /** One deferred call of `Flush`: stored, then sent. */
  method FlushOne(reg: Registry, page: Page, el: Elem, origin: string, ds: seq<Deferred>, i: nat)
    requires i < |ds|
    modifies reg, page
    ensures StoredAll(reg.table, el, ds[i + 1..]) == StoredAll(old(reg.table), el, ds[i..])
    ensures var w := page.ContentWindow(el);
      page.posted + PostsFor(w, ds[i + 1..], origin) == old(page.posted) + PostsFor(w, ds[i..], origin)
    ensures page.settled == old(page.settled) && page.attributes == old(page.attributes)
    ensures page.nextId == old(page.nextId)
  {
    StoreDeferred(reg, el, ds, i);
    PostDeferred(page, el, origin, ds, i);
  }

  method StoreDeferred(reg: Registry, el: Elem, ds: seq<Deferred>, i: nat)
    requires i < |ds|
    modifies reg
    ensures StoredAll(reg.table, el, ds[i + 1..]) == StoredAll(old(reg.table), el, ds[i..])
  {
    StoredAllStep(reg.table, el, ds, i);
    reg.Store(el, ds[i].name, ds[i].call);
  }

  method PostDeferred(page: Page, el: Elem, origin: string, ds: seq<Deferred>, i: nat)
    requires i < |ds|
    modifies page
    ensures var w := page.ContentWindow(el);
      page.posted + PostsFor(w, ds[i + 1..], origin) == old(page.posted) + PostsFor(w, ds[i..], origin)
    ensures page.settled == old(page.settled) && page.attributes == old(page.attributes)
    ensures page.nextId == old(page.nextId)
  {
    var w := page.ContentWindow(el);
    ghost var before := page.posted;
    PostsForStep(w, ds, i, origin);
    page.Post(el, ds[i].name, ds[i].params, origin);
    ghost var sent := Outgoing(w, ds[i].name, ds[i].params, origin);
    ghost var later := PostsFor(w, ds[i + 1..], origin);
    assert (before + sent) + later == before + (sent + later);
  }

  /** Readiness rejected: each deferred call is rejected with the same reason, in order. */
  method RejectAll(page: Page, ds: seq<Deferred>, reason: Failure)
    modifies page
    ensures page.settled == old(page.settled) + RejectionsOfCalls(ds, reason)
    ensures page.posted == old(page.posted) && page.attributes == old(page.attributes)
    ensures page.nextId == old(page.nextId)
  {
    var i := 0;
    while i < |ds|
      invariant i <= |ds|
      invariant page.settled == old(page.settled) + RejectionsOfCalls(ds[..i], reason)
      invariant page.posted == old(page.posted) && page.attributes == old(page.attributes)
      invariant page.nextId == old(page.nextId)
    {
      page.Settle(Rejected(ds[i].call, reason));
      assert RejectionsOfCalls(ds[..i + 1], reason) == RejectionsOfCalls(ds[..i], reason) + [Rejected(ds[i].call, reason)];
      i := i + 1;
    }
    assert ds[..i] == ds;
  }

  // ---------------------------------------------------------------------
  // on / off
  // ---------------------------------------------------------------------

  /** A callback argument: a function (with its identity), or any other value. */
  datatype Arg = Fn(id: nat) | Plain(v: Value)

  /** The key event listeners are stored under: `event:${eventName}`. */
  function EventKey(name: Value): (k: string)
    ensures |k| >= 6 && k[..6] == "event:"
  {
    var k := "event:" + ToStr(name);
    assert k[..6] == "event:";
    k
  }

  /** The error message `on` throws with, if any. */
  function OnRefusal(name: Value, cb: Arg): (r: Option<string>)
    ensures r.None? <==> Truthy(name) && cb.Fn?
    ensures !Truthy(name) ==> r == Some("You must pass an event name.")
  {
    if !Truthy(name) then Some("You must pass an event name.")
    else if cb.Plain? && !Truthy(cb.v) then Some("You must pass a callback function.")
    else if cb.Plain? then Some("The callback must be a function.")
    else None
  }

  /** The error message `off` throws with, if any: a callback, when given, must be a function. */
  function OffRefusal(name: Value, cb: Arg): (r: Option<string>)
    ensures r.None? <==> Truthy(name) && !(cb.Plain? && Truthy(cb.v))
    ensures !Truthy(name) ==> r == Some("You must pass an event name.")
  {
    if !Truthy(name) then Some("You must pass an event name.")
    else if cb.Plain? && Truthy(cb.v) then Some("The callback must be a function.")
    else None
  }

  /** The callback `off` hands to `removeCallback`: none for a falsy argument. */
  function OffTarget(cb: Arg): (r: Option<Entry>)
    ensures cb.Fn? ==> r == Some(Listener(cb.id))
    ensures cb.Plain? ==> r.None?
  {
    if cb.Fn? then Some(Listener(cb.id)) else None
  }

  /**
   * What `on` or `off` does: the message it throws with, if any, the
   * registry after it, the envelopes it sends, the settlements it makes, how
   * many call ids it takes and the call it leaves waiting for readiness.
   */
  datatype Effect = Effect(thrown: Option<string>, table: Table, posts: seq<Posted>,
                           settles: seq<Settlement>, calls: nat, deferred: Option<Deferred>)

  /** A refused `on` or `off`: it throws and changes nothing. */
  predicate Refused(e: Effect, t: Table) {
    && e.thrown.Some? && e.table == t && e.posts == [] && e.settles == [] && e.calls == 0 && e.deferred.None?
  }

  /**
   * `on(eventName, callback)` for the registry `t`, the next call id `next`
   * and the instance's window `w`: the remote `addEventListener` call goes
   * out first when no listener is stored for the event, and the listener is
   * then appended.
   */
  function OnEffect(t: Table, next: nat, w: WindowRef, el: Elem, s: Status, unknown: Failure,
                    name: Value, cb: Arg, origin: string): (e: Effect)
    ensures e.thrown == OnRefusal(name, cb)
    ensures e.thrown.Some? ==> Refused(e, t)
  {
    if OnRefusal(name, cb).Some? then Effect(OnRefusal(name, cb), t, [], [], 0, None)
    else
      var key := EventKey(name);
      if Lookup(t, el, key) == [] then
        var call := Pending(next);
        Effect(None, Stored(CallTable(t, el, s, "addEventListener", call), el, key, Listener(cb.id)),
               CallPosts(w, s, "addEventListener", name, origin), CallSettles(s, unknown, call), 1,
               CallDefers(s, call, "addEventListener", name))
      else Effect(None, Stored(t, el, key, Listener(cb.id)), [], [], 0, None)
  }

  /**
   * An accepted `on` appends the listener to the event's list, makes a remote
   * call exactly when the list was empty, and that call, when it is sent, is
   * one `addEventListener` envelope for the event. The registry key of the
   * remote call is never an event key, so the two do not interfere.
   */
  lemma {:induction false} OnAppendsListener(t: Table, next: nat, w: WindowRef, el: Elem, s: Status, unknown: Failure,
                                             name: Value, cb: Arg, origin: string)
    requires OnRefusal(name, cb).None?
    ensures var e, key := OnEffect(t, next, w, el, s, unknown, name, cb, origin), EventKey(name);
      && Lookup(e.table, el, key) == Lookup(t, el, key) + [Listener(cb.id)]
      && (e.calls == 1 <==> Lookup(t, el, key) == []) && e.calls <= 1
      && (e.posts != [] ==> e.posts == [Posted(w.id, Envelope("addEventListener", name), origin)])
      && (e.posts != [] <==> Lookup(t, el, key) == [] && s.ReadyResolved? && w.Window? && w.canPost)
  {
    var key := EventKey(name);
    if Lookup(t, el, key) == [] {
      var t1 := CallTable(t, el, s, "addEventListener", Pending(next));
      assert key[0] == 'e' && "addEventListener"[0] == 'a';
      assert Lookup(t1, el, key) == Lookup(t, el, key);
    }
  }

  /** `on(eventName, callback)` on the shared registry and page, as `OnEffect` says. */
  method Listen(reg: Registry, page: Page, el: Elem, origin: string, s: Status, unknown: Failure, name: Value, cb: Arg)
    returns (thrown: Option<string>, deferred: Option<Deferred>)
    modifies reg, page
    ensures var e := OnEffect(old(reg.table), old(page.nextId), page.ContentWindow(el), el, s, unknown, name, cb, origin);
      && thrown == e.thrown && deferred == e.deferred && reg.table == e.table
      && page.posted == old(page.posted) + e.posts && page.settled == old(page.settled) + e.settles
      && page.nextId == old(page.nextId) + e.calls
    ensures page.attributes == old(page.attributes)
  {
    deferred := None;
    thrown := OnRefusal(name, cb);
    if thrown.Some? {
      return;
    }
    var key := EventKey(name);
    if |reg.Get(el, key)| == 0 {
      var call;
      call, deferred := Call(reg, page, el, origin, s, unknown, "addEventListener", name);
    }
    reg.Store(el, key, Listener(cb.id));
  }

  /**
   * `off(eventName, callback)` for the registry `t`, the next call id `next`
   * and the instance's window `w`: the listener (or, without a callback,
   * every listener) is removed, and a remote `removeEventListener` call goes
   * out when `removeCallback` says the list is now empty.
   */
  function OffEffect(t: Table, next: nat, w: WindowRef, el: Elem, s: Status, unknown: Failure,
                     name: Value, cb: Arg, origin: string): (e: Effect)
    ensures e.thrown == OffRefusal(name, cb)
    ensures e.thrown.Some? ==> Refused(e, t)
  {
    if OffRefusal(name, cb).Some? then Effect(OffRefusal(name, cb), t, [], [], 0, None)
    else
      var r := Removed(t, el, EventKey(name), OffTarget(cb));
      if r.last then
        var call := Pending(next);
        Effect(None, CallTable(r.table, el, s, "removeEventListener", call),
               CallPosts(w, s, "removeEventListener", name, origin), CallSettles(s, unknown, call), 1,
               CallDefers(s, call, "removeEventListener", name))
      else Effect(None, r.table, [], [], 0, None)
  }

  /**
   * An accepted `off` leaves the event's list as `removeCallback` left it,
   * makes a remote call exactly when `removeCallback` reports the list
   * empty, and that call, when it is sent, is one `removeEventListener`
   * envelope for the event.
   */
  lemma {:induction false} OffRemovesListener(t: Table, next: nat, w: WindowRef, el: Elem, s: Status, unknown: Failure,
                                              name: Value, cb: Arg, origin: string)
    requires OffRefusal(name, cb).None?
    ensures var e, key := OffEffect(t, next, w, el, s, unknown, name, cb, origin), EventKey(name);
      var r := Removed(t, el, key, OffTarget(cb));
      && Lookup(e.table, el, key) == Lookup(r.table, el, key)
      && (e.calls == 1 <==> r.last) && e.calls <= 1
      && (e.posts != [] ==> e.posts == [Posted(w.id, Envelope("removeEventListener", name), origin)])
      && (e.posts != [] <==> r.last && s.ReadyResolved? && w.Window? && w.canPost)
  {
    var key := EventKey(name);
    var r := Removed(t, el, key, OffTarget(cb));
    if r.last {
      assert key[0] == 'e' && "removeEventListener"[0] == 'r';
      assert Lookup(CallTable(r.table, el, s, "removeEventListener", Pending(next)), el, key) == Lookup(r.table, el, key);
    }
  }

  /**
   * What an accepted `off` removes: without a function callback every
   * listener of the event goes and the remote call is made; with one, only
   * its first registration goes, and the remote call is made exactly when
   * no listener is left.
   */
  lemma OffTargets(t: Table, next: nat, w: WindowRef, el: Elem, s: Status, unknown: Failure,
                   name: Value, cb: Arg, origin: string)
    requires OffRefusal(name, cb).None?
    ensures var e, key := OffEffect(t, next, w, el, s, unknown, name, cb, origin), EventKey(name);
      && (!cb.Fn? ==> Lookup(e.table, el, key) == [] && e.calls == 1)
      && (cb.Fn? ==> Lookup(e.table, el, key) == RemoveFirst(Lookup(t, el, key), Listener(cb.id))
                     && (e.calls == 1 <==> Lookup(e.table, el, key) == []))
  {
    OffRemovesListener(t, next, w, el, s, unknown, name, cb, origin);
  }

  /** `off(eventName, callback)` on the shared registry and page, as `OffEffect` says. */
  method Unlisten(reg: Registry, page: Page, el: Elem, origin: string, s: Status, unknown: Failure, name: Value, cb: Arg)
    returns (thrown: Option<string>, deferred: Option<Deferred>)
    modifies reg, page
    ensures var e := OffEffect(old(reg.table), old(page.nextId), page.ContentWindow(el), el, s, unknown, name, cb, origin);
      && thrown == e.thrown && deferred == e.deferred && reg.table == e.table
      && page.posted == old(page.posted) + e.posts && page.settled == old(page.settled) + e.settles
      && page.nextId == old(page.nextId) + e.calls
    ensures page.attributes == old(page.attributes)
  {
    deferred := None;
    thrown := OffRefusal(name, cb);
    if thrown.Some? {
      return;
    }
    var last := reg.Remove(el, EventKey(name), OffTarget(cb));
    if last {
      var call;
      call, deferred := Call(reg, page, el, origin, s, unknown, "removeEventListener", name);
    }
  }

  /**
   * `off` without a callback on an event nobody listens to still issues the
   * remote `removeEventListener`: `removeCallback` answers "last" when no
   * list exists.
   */
  lemma OffWithoutListeners(t: Table, el: Elem, name: Value, cb: Arg)
    requires !Has(t, el, EventKey(name))
    ensures Removed(t, el, EventKey(name), OffTarget(cb)) == Removal(t, true)
  {
  }

  // ---------------------------------------------------------------------
  // Inbound envelopes on the controller side
  // ---------------------------------------------------------------------

  /** `data && data.event === 'error' && data.data && data.data.method === 'ready'` */
  predicate IsReadyError(data: Value) {
    Truthy(data) && Field(data, "event") == Str("error")
    && Truthy(Field(data, "data")) && Field(Field(data, "data"), "method") == Str("ready")
  }

  /** `data && data.event === 'ready'` */
  predicate IsReadyEvent(data: Value) {
    Truthy(data) && Field(data, "event") == Str("ready")
  }

  /** `data && data.method === 'ping'`, the reply to the legacy player's ping. */
  predicate IsPingReply(data: Value) {
    Truthy(data) && Field(data, "method") == Str("ping")
  }

  /** The way an inbound envelope is routed by a controller. */
  datatype Routed = ToReadyError | ToReady | ToProcessData

  function RouteInbound(data: Value, pingCounts: bool): (r: Routed)
    ensures r == ToReadyError <==> IsReadyError(data)
    ensures r == ToReady <==> !IsReadyError(data) && (IsReadyEvent(data) || (pingCounts && IsPingReply(data)))
    ensures r == ToProcessData ==> !IsReadyEvent(data) && !IsReadyError(data)
  {
    if IsReadyError(data) then ToReadyError
    else if IsReadyEvent(data) || (pingCounts && IsPingReply(data)) then ToReady
    else ToProcessData
  }

  /**
   * The ready error and the ready event are told apart by `event`, so no
   * envelope is both; and the ready error reaches the controller whatever
   * is pending, because `processData` never sees it.
   */
  lemma ReadyRoutesDisjoint(data: Value, pingCounts: bool)
    ensures !(IsReadyError(data) && IsReadyEvent(data))
    ensures IsReadyEvent(data) ==> RouteInbound(data, pingCounts) == ToReady
    ensures !pingCounts && Truthy(data) && Field(data, "event") == Str("error") && !IsReadyError(data) ==>
      RouteInbound(data, pingCounts) == ToProcessData
  {
  }

  /**
   * `this.element.contentWindow === event.source`. A message event's source
   * is a window or `null`, never `undefined`, so an element without a
   * `contentWindow` hears from nobody.
   */
  predicate FromOwnWindow(source: WindowRef, own: WindowRef) {
    !source.NoWindow? && own == source
  }

  /**
   * The message filter of the window listener: the origin must be a
   * Hubstairs URL and the source the controlled element's own window.
   */
  predicate Accepts(origin: string, source: WindowRef, own: WindowRef) {
    Functions.IsHubstairsUrl(origin) && FromOwnWindow(source, own)
  }

  /** `if (this.origin === '*') this.origin = event.origin` */
  function Pinned(current: string, incoming: string): (r: string)
    ensures current != "*" ==> r == current
    ensures current == "*" ==> r == incoming
  {
    if current == "*" then incoming else current
  }

  /**
   * Once pinned, the origin stays: an accepted message can never carry the
   * origin `*` (it is not a Hubstairs URL), and later messages leave a pinned
   * origin as it is.
   */
  lemma PinnedOnce(current: string, incoming: string, later: string, source: WindowRef, own: WindowRef)
    requires Accepts(incoming, source, own)
    ensures Pinned(current, incoming) != "*"
    ensures Pinned(Pinned(current, incoming), later) == Pinned(current, incoming)
  {
    Functions.HubstairsUrlLength(incoming);
  }
}
