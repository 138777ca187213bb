/**
 * The callback registry: for each element, a table from a name to the
 * ordered list of entries stored under it. Event listeners live under
 * `"event:" + name`; the resolve/reject pair of a pending method call lives
 * under the bare method name.
 */
module Callbacks {
  import opened Wrappers

  /** An element, compared by identity (the registry keys on the element object). */
  datatype Elem = Elem(id: nat)

  /**
   * A stored callback. `Listener` is a user function, `Pending` the
   * resolve/reject pair of one promise; the `id` stands for the object's
   * identity, which is what `indexOf` compares.
   */
  datatype Entry = Listener(id: nat) | Pending(id: nat)

  type Lists = map<string, seq<Entry>>
  type Table = map<Elem, Lists>

  // ---------------------------------------------------------------------
  // The table as a value
  // ---------------------------------------------------------------------

  /** `callbackMap.get(element) || {}` */
  function ListsOf(t: Table, el: Elem): Lists {
    if el in t then t[el] else map[]
  }

  /** `getCallbacks`: the list stored under `(el, name)`, or the empty list. */
  function Lookup(t: Table, el: Elem, name: string): seq<Entry> {
    if el in t && name in t[el] then t[el][name] else []
  }

  /** Whether a list (possibly empty) is stored under `(el, name)`. */
  predicate Has(t: Table, el: Elem, name: string) {
    el in t && name in t[el]
  }

  /** Replace the list under `(el, name)`, creating the element's table if needed. */
  function Put(t: Table, el: Elem, name: string, l: seq<Entry>): (r: Table)
    ensures Has(r, el, name) && Lookup(r, el, name) == l
    ensures forall e, n :: (e, n) != (el, name) ==> Lookup(r, e, n) == Lookup(t, e, n)
    ensures forall e, n :: (e, n) != (el, name) ==> (Has(r, e, n) <==> Has(t, e, n))
  {
    t[el := ListsOf(t, el)[name := l]]
  }

  /** Writing back the list that is already stored changes nothing. */
  lemma PutSame(t: Table, el: Elem, name: string)
    requires Has(t, el, name)
    ensures Put(t, el, name, Lookup(t, el, name)) == t
  {
    assert ListsOf(t, el)[name := t[el][name]] == t[el];
  }

  /** The second of two writes to the same list wins. */
  lemma PutPut(t: Table, el: Elem, name: string, l: seq<Entry>, l': seq<Entry>)
    ensures Put(Put(t, el, name, l), el, name, l') == Put(t, el, name, l')
  {
    assert ListsOf(t, el)[name := l][name := l'] == ListsOf(t, el)[name := l'];
  }

  /** Every list other than the one under `(el, name)` reads the same in both tables. */
  ghost predicate SameElsewhere(t: Table, t': Table, el: Elem, name: string) {
    forall e, n :: (e, n) != (el, name) ==> Lookup(t', e, n) == Lookup(t, e, n)
  }

  /**
   * `storeCallback`: the entry goes at the end of its list, which is created
   * when absent; duplicates are kept and nothing else changes.
   */
  function Stored(t: Table, el: Elem, name: string, e: Entry): (r: Table)
    ensures Has(r, el, name)
    ensures Lookup(r, el, name) == Lookup(t, el, name) + [e]
    ensures SameElsewhere(t, r, el, name)
  {
    Put(t, el, name, Lookup(t, el, name) + [e])
  }

  /** `list.splice(list.indexOf(e), 1)`: the first occurrence of `e` is dropped. */
  function RemoveFirst(s: seq<Entry>, e: Entry): (r: seq<Entry>)
    ensures e in s ==> |r| == |s| - 1
    ensures e !in s ==> r == s
    ensures multiset(r) == multiset(s) - multiset{e}
  {
    if s == [] then []
    else if s[0] == e then assert s == [s[0]] + s[1..]; s[1..]
    else assert s == [s[0]] + s[1..]; [s[0]] + RemoveFirst(s[1..], e)
  }

  /** What `removeCallback` leaves behind, and its answer "is the list now empty?". */
  datatype Removal = Removal(table: Table, last: bool)

  /**
   * `removeCallback(el, name, cb)`: nothing happens and the answer is true
   * when no list exists; without a callback the list is emptied; otherwise
   * the first occurrence of `cb` is removed.
   */
  function Removed(t: Table, el: Elem, name: string, cb: Option<Entry>): (r: Removal)
    ensures !Has(t, el, name) ==> r == Removal(t, true)
    ensures Has(t, el, name) && cb.None? ==> r.table == Put(t, el, name, []) && r.last
    ensures Has(t, el, name) && cb.Some? ==>
      && r.table == Put(t, el, name, RemoveFirst(Lookup(t, el, name), cb.value))
      && (r.last <==> Lookup(r.table, el, name) == [])
    ensures SameElsewhere(t, r.table, el, name)
  {
    if !Has(t, el, name) then Removal(t, true)
    else if cb.None? then Removal(Put(t, el, name, []), true)
    else
      var l := RemoveFirst(Lookup(t, el, name), cb.value);
      Removal(Put(t, el, name, l), |l| == 0)
  }

  /** What `shiftCallbacks` leaves behind and the entry it returns (`false` is `None`). */
  datatype Shifting = Shifting(table: Table, first: Option<Entry>)

  /**
   * `shiftCallbacks`: the oldest entry is taken off the list and returned;
   * the `removeCallback` that follows also drops a second copy of it.
   */
  function Shifted(t: Table, el: Elem, name: string): (r: Shifting)
    ensures Lookup(t, el, name) == [] <==> r.first.None?
    ensures r.first.None? ==> r.table == t
    ensures r.first.Some? ==>
      var l := Lookup(t, el, name);
      && r.first.value == l[0]
      && Lookup(r.table, el, name) == RemoveFirst(l[1..], l[0])
    ensures SameElsewhere(t, r.table, el, name)
  {
    var l := Lookup(t, el, name);
    if |l| < 1 then Shifting(t, None)
    else Shifting(Removed(Put(t, el, name, l[1..]), el, name, Some(l[0])).table, Some(l[0]))
  }

  /**
   * `swapCallbacks(old, new)`: `new` is set to whatever `old` held (nothing
   * if `old` had no table), then `old` is deleted, which deletes `new` too
   * when they are the same element.
   */
  function Swapped(t: Table, from: Elem, to: Elem): (r: Table)
    ensures from !in r
    ensures from != to ==> forall n :: Lookup(r, to, n) == Lookup(t, from, n)
    ensures from != to ==> (to in r <==> from in t)
    ensures forall e :: e != from && e != to ==> (e in r <==> e in t) && (e in t ==> r[e] == t[e])
  {
    var moved := if from in t then t[to := t[from]] else t - {to};
    moved - {from}
  }

  // ---------------------------------------------------------------------
  // Facts about the table operations
  // ---------------------------------------------------------------------

  /** Removing at the first occurrence's index is `RemoveFirst`. */
  lemma {:induction false} RemoveFirstAt(s: seq<Entry>, e: Entry, i: nat)
    requires i < |s| && s[i] == e && e !in s[..i]
    ensures RemoveFirst(s, e) == s[..i] + s[i + 1..]
  {
    if i > 0 {
      var t := s[1..];
      assert s[0] != e by { assert s[..i][0] == s[0]; }
      assert e !in t[..i - 1] by { assert t[..i - 1] == s[1..i]; }
      RemoveFirstAt(t, e, i - 1);
      assert t[i..] == s[i + 1..];
      assert s[..i] == [s[0]] + t[..i - 1];
      AppendAssoc([s[0]], t[..i - 1], s[i + 1..]);
    }
  }

  /** Entries pairwise different (no object stored twice). */
  predicate Distinct(s: seq<Entry>) {
    forall i, j :: 0 <= i < j < |s| ==> s[i] != s[j]
  }

  /** A shift on a list without duplicates just drops its head. */
  lemma ShiftDistinct(t: Table, el: Elem, name: string)
    requires Lookup(t, el, name) != [] && Distinct(Lookup(t, el, name))
    ensures Lookup(Shifted(t, el, name).table, el, name) == Lookup(t, el, name)[1..]
  {
    var l := Lookup(t, el, name);
    assert l[0] !in l[1..] by {
      forall j | 0 <= j < |l[1..]| ensures l[1..][j] != l[0] { assert l[1..][j] == l[j + 1]; }
    }
  }

  /** A shift on a list holding the head twice drops both copies, the rest keeping their order. */
  lemma ShiftDuplicate(t: Table, el: Elem, name: string, j: nat)
    requires var l := Lookup(t, el, name);
      0 < j < |l| && l[j] == l[0] && l[0] !in l[1..j]
    ensures var l := Lookup(t, el, name);
      Lookup(Shifted(t, el, name).table, el, name) == l[1..j] + l[j + 1..]
  {
    var l := Lookup(t, el, name);
    assert l[1..][..j - 1] == l[1..j];
    RemoveFirstAt(l[1..], l[0], j - 1);
    assert l[1..][j - 1 + 1..] == l[j + 1..];
  }

  // --- method replies settle calls in the order they were stored ---

  /** A store of a pending call, or a reply to that method. */
  datatype Op = Store(e: Entry) | Reply

  function StoredBy(ops: seq<Op>): seq<Entry> {
    if ops == [] then []
    else (if ops[0].Store? then [ops[0].e] else []) + StoredBy(ops[1..])
  }

  /** The table after the operations, and the entries the replies settled, in order. */
  datatype Replay = Replay(table: Table, settled: seq<Entry>)

  function Run(t: Table, el: Elem, name: string, ops: seq<Op>): Replay
    decreases |ops|
  {
    if ops == [] then Replay(t, [])
    else if ops[0].Store? then Run(Stored(t, el, name, ops[0].e), el, name, ops[1..])
    else
      var s := Shifted(t, el, name);
      var r := Run(s.table, el, name, ops[1..]);
      Replay(r.table, (if s.first.Some? then [s.first.value] else []) + r.settled)
  }

  /**
   * However stores and replies interleave, the replies settle the stored
   * calls oldest first, and what is left queued is exactly the calls not yet
   * settled, provided no call object is stored twice.
   */
  lemma {:induction false} RepliesInStoreOrder(t: Table, el: Elem, name: string, ops: seq<Op>)
    requires Distinct(Lookup(t, el, name) + StoredBy(ops))
    ensures var r, all := Run(t, el, name, ops), Lookup(t, el, name) + StoredBy(ops);
      && |r.settled| <= |all|
      && r.settled == all[..|r.settled|]
      && Lookup(r.table, el, name) == all[|r.settled|..]
    decreases |ops|, 1
  {
    if ops == [] {
      AppendEmpty(Lookup(t, el, name));
    } else if ops[0].Store? {
      StoreThenReplies(t, el, name, ops);
    } else if Lookup(t, el, name) == [] {
      ReplyFindsNothing(t, el, name, ops);
    } else {
      ReplySettlesHead(t, el, name, ops);
    }
  }

  /** The step of `RepliesInStoreOrder` where a call is stored. */
  lemma {:induction false} StoreThenReplies(t: Table, el: Elem, name: string, ops: seq<Op>)
    requires ops != [] && ops[0].Store?
    requires Distinct(Lookup(t, el, name) + StoredBy(ops))
    ensures var r, all := Run(t, el, name, ops), Lookup(t, el, name) + StoredBy(ops);
      && |r.settled| <= |all|
      && r.settled == all[..|r.settled|]
      && Lookup(r.table, el, name) == all[|r.settled|..]
    decreases |ops|, 0
  {
    var l, e := Lookup(t, el, name), ops[0].e;
    var t' := Stored(t, el, name, e);
    assert StoredBy(ops) == [e] + StoredBy(ops[1..]);
    AppendAssoc(l, [e], StoredBy(ops[1..]));
    RepliesInStoreOrder(t', el, name, ops[1..]);
    assert Run(t, el, name, ops) == Run(t', el, name, ops[1..]);
  }

  /** The step of `RepliesInStoreOrder` where a reply finds no call waiting. */
  lemma {:induction false} ReplyFindsNothing(t: Table, el: Elem, name: string, ops: seq<Op>)
    requires ops != [] && ops[0].Reply? && Lookup(t, el, name) == []
    requires Distinct(Lookup(t, el, name) + StoredBy(ops))
    ensures var r, all := Run(t, el, name, ops), Lookup(t, el, name) + StoredBy(ops);
      && |r.settled| <= |all|
      && r.settled == all[..|r.settled|]
      && Lookup(r.table, el, name) == all[|r.settled|..]
    decreases |ops|, 0
  {
    assert StoredBy(ops) == StoredBy(ops[1..]);
    RepliesInStoreOrder(t, el, name, ops[1..]);
    var r := Run(t, el, name, ops[1..]);
    assert [] + r.settled == r.settled;
    assert Run(t, el, name, ops) == r;
  }

  /** The step of `RepliesInStoreOrder` where a reply finds a call waiting. */
  lemma {:induction false} ReplySettlesHead(t: Table, el: Elem, name: string, ops: seq<Op>)
    requires ops != [] && ops[0].Reply? && Lookup(t, el, name) != []
    requires Distinct(Lookup(t, el, name) + StoredBy(ops))
    ensures var r, all := Run(t, el, name, ops), Lookup(t, el, name) + StoredBy(ops);
      && |r.settled| <= |all|
      && r.settled == all[..|r.settled|]
      && Lookup(r.table, el, name) == all[|r.settled|..]
    decreases |ops|, 0
  {
    var l := Lookup(t, el, name);
    var later := StoredBy(ops[1..]);
    assert StoredBy(ops) == later;
    var all := l + later;
    var s := Shifted(t, el, name);
    DistinctPrefix(l, later);
    ShiftDistinct(t, el, name);
    DropConcat(l, later);
    DistinctDrop(all);
    RepliesInStoreOrder(s.table, el, name, ops[1..]);
    var r := Run(s.table, el, name, ops[1..]);
    assert Run(t, el, name, ops) == Replay(r.table, [l[0]] + r.settled);
    PrefixStep(all, r.settled, Lookup(r.table, el, name));
  }

  lemma DropConcat(a: seq<Entry>, b: seq<Entry>)
    requires a != []
    ensures (a + b)[1..] == a[1..] + b
  {
  }

  lemma PrefixStep(all: seq<Entry>, settled: seq<Entry>, left: seq<Entry>)
    requires all != [] && |settled| <= |all| - 1
    requires settled == all[1..][..|settled|] && left == all[1..][|settled|..]
    ensures [all[0]] + settled == all[..|settled| + 1] && left == all[|settled| + 1..]
  {
  }

  lemma DistinctPrefix(a: seq<Entry>, b: seq<Entry>)
    requires Distinct(a + b)
    ensures Distinct(a)
  {
    forall i, j | 0 <= i < j < |a| ensures a[i] != a[j] { assert a[i] == (a + b)[i] && a[j] == (a + b)[j]; }
  }

  lemma DistinctDrop(a: seq<Entry>)
    requires Distinct(a) && a != []
    ensures Distinct(a[1..])
  {
    forall i, j | 0 <= i < j < |a[1..]| ensures a[1..][i] != a[1..][j] { assert a[1..][i] == a[i + 1]; }
  }

  // ---------------------------------------------------------------------
  // The registry object
  // ---------------------------------------------------------------------

  /** The module-level `callbackMap`, updated in place. */
  class Registry {
    var table: Table

    constructor()
      ensures table == map[]
    {
      table := map[];
    }

    /** `getCallbacks`: reads the table and changes nothing. */
    function Get(el: Elem, name: string): seq<Entry>
      reads this
    {
      Lookup(table, el, name)
    }

    method Store(el: Elem, name: string, e: Entry)
      modifies this
      ensures table == Stored(old(table), el, name, e)
    {
      var lists := ListsOf(table, el);
      if name !in lists {
        lists := lists[name := []];
      }
      assert lists[name] == Lookup(table, el, name);
      lists := lists[name := lists[name] + [e]];
      assert lists == ListsOf(table, el)[name := Lookup(table, el, name) + [e]];
      table := table[el := lists];
    }

    method Remove(el: Elem, name: string, cb: Option<Entry>) returns (last: bool)
      modifies this
      ensures Removal(table, last) == Removed(old(table), el, name, cb)
    {
      var lists := ListsOf(table, el);
      if name !in lists {
        return true;
      }
      if cb.None? {
        table := table[el := lists[name := []]];
        return true;
      }
      var l := lists[name];
      // `indexOf`
      var i := 0;
      while i < |l| && l[i] != cb.value
        invariant i <= |l|
        invariant cb.value !in l[..i]
      {
        i := i + 1;
      }
      if i < |l| {
        RemoveFirstAt(l, cb.value, i);
        l := l[..i] + l[i + 1..];
      } else {
        assert l[..i] == l;
      }
      table := table[el := lists[name := l]];
      last := |l| == 0;
    }

    method Shift(el: Elem, name: string) returns (first: Option<Entry>)
      modifies this
      ensures Shifting(table, first) == Shifted(old(table), el, name)
    {
      var l := Get(el, name);
      if |l| < 1 {
        return None;
      }
      var e := l[0];
      // `shift()` on the stored list itself
      table := table[el := table[el][name := l[1..]]];
      var wasLast := Remove(el, name, Some(e));
      first := Some(e);
    }

    method Swap(from: Elem, to: Elem)
      modifies this
      ensures table == Swapped(old(table), from, to)
    {
      if from in table {
        table := table[to := table[from]];
      } else {
        table := table - {to};
      }
      table := table - {from};
    }
  }
}
