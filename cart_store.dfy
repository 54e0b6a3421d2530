/**
 * The cart store: a persisted map from item id to quantity. Every quantity it
 * holds is a positive integer, it rewrites its persisted record after every
 * change, and it sanitises whatever it reads back from storage.
 */
module CartStore {
  import opened Numbers
  import opened Wrappers

  /**
   * A value handed to the sanitiser, after `Number(...)` has been applied to
   * each key and value: either not a non-null object, or an object's entries
   * in `Object.entries` order.
   */
  datatype Raw = NotObject | Obj(entries: seq<(Num, Num)>)

  /** The outcome of `JSON.parse` on a stored record */
  datatype Parsed = ParseOk(raw: Raw) | ParseError

  /** What `loadCart` finds: no storage at all, or storage with or without a record */
  datatype StorageView = NoStorage | Available(record: Option<Parsed>)

  /** What `loadCart` returns, and whether it removed the stored record */
  datatype Loaded = Loaded(cart: map<int, int>, removeRecord: bool)

  /** Every stored count is at least 1 */
  predicate ValidCart(m: map<int, int>) {
    forall k :: k in m ==> m[k] >= 1
  }

  /** `Math.max(0, Math.floor(x))` */
  function SafeCount(x: real): (n: nat)
    ensures n == 0 <==> x < 1.0
    ensures n > 0 ==> n as real <= x < n as real + 1.0
  {
    if x.Floor < 0 then 0 else x.Floor
  }

  /** The `flatMap` callback of `sanitizeCart`: the entry it keeps for one raw pair, if any */
  function SanitizeEntry(key: Num, value: Num): (r: Option<(int, int)>)
    ensures r.Some? <==> IsInteger(key) && value.Finite? && value.value >= 1.0
    ensures r.Some? ==> r.value.0 as real == key.value && r.value.1 >= 1
    ensures r.Some? ==> r.value.1 as real <= value.value < r.value.1 as real + 1.0
  {
    if !IsFinite(key) || !IsInteger(key) || !IsFinite(value) then None
    else
      var count := SafeCount(value.value);
      if count == 0 then None else Some((key.value.Floor, count))
  }

  /** The `flatMap` of `sanitizeCart`: the kept entries, in order */
  function ValidEntries(entries: seq<(Num, Num)>): (r: seq<(int, int)>)
    ensures |r| <= |entries|
    ensures forall p :: p in r ==>
      exists i :: 0 <= i < |entries| && SanitizeEntry(entries[i].0, entries[i].1) == Some(p)
    ensures forall i :: 0 <= i < |entries| && SanitizeEntry(entries[i].0, entries[i].1).Some? ==>
      SanitizeEntry(entries[i].0, entries[i].1).value in r
  {
    if entries == [] then []
    else
      var n := |entries| - 1;
      var kept := match SanitizeEntry(entries[n].0, entries[n].1)
        case None => []
        case Some(p) => [p];
      ValidEntries(entries[..n]) + kept
  }

  /** `Object.fromEntries`: a later pair for the same key overwrites an earlier one */
  function FromEntries(ps: seq<(int, int)>): (r: map<int, int>)
    ensures forall k :: k in r ==> (k, r[k]) in ps
    ensures forall p :: p in ps ==> p.0 in r
  {
    if ps == [] then map[]
    else
      var n := |ps| - 1;
      FromEntries(ps[..n])[ps[n].0 := ps[n].1]
  }

  /**
   * `sanitizeCart`: keeps the entries whose key is a finite integer and whose
   * value is a finite number, with the value floored; drops the entries whose
   * floored value is below 1.
   */
  function SanitizeCart(input: Raw): (r: map<int, int>)
    ensures ValidCart(r)
    ensures input.NotObject? ==> r == map[]
    ensures input.Obj? ==> forall k :: k in r ==>
      exists i :: 0 <= i < |input.entries| && SanitizeEntry(input.entries[i].0, input.entries[i].1) == Some((k, r[k]))
    ensures input.Obj? ==> forall i :: 0 <= i < |input.entries| && SanitizeEntry(input.entries[i].0, input.entries[i].1).Some? ==>
      SanitizeEntry(input.entries[i].0, input.entries[i].1).value.0 in r
  {
    match input
    case NotObject => map[]
    case Obj(entries) => FromEntries(ValidEntries(entries))
  }

  lemma ValidEntriesSnoc(entries: seq<(Num, Num)>, e: (Num, Num))
    ensures ValidEntries(entries + [e]) ==
      ValidEntries(entries) + match SanitizeEntry(e.0, e.1) case None => [] case Some(p) => [p]
  {
    var all := entries + [e];
    assert all[..|all| - 1] == entries;
  }

  lemma FromEntriesSnoc(ps: seq<(int, int)>, p: (int, int))
    ensures FromEntries(ps + [p]) == FromEntries(ps)[p.0 := p.1]
  {
    var all := ps + [p];
    assert all[..|all| - 1] == ps;
  }

  /** Appending a raw entry updates the sanitised map as `Object.fromEntries` would: the later entry wins */
  lemma SanitizeLaterWins(entries: seq<(Num, Num)>, key: Num, value: Num)
    ensures SanitizeEntry(key, value).None? ==>
      SanitizeCart(Obj(entries + [(key, value)])) == SanitizeCart(Obj(entries))
    ensures SanitizeEntry(key, value).Some? ==>
      SanitizeCart(Obj(entries + [(key, value)])) ==
      SanitizeCart(Obj(entries))[SanitizeEntry(key, value).value.0 := SanitizeEntry(key, value).value.1]
  {
    ValidEntriesSnoc(entries, (key, value));
    var ps := ValidEntries(entries);
    if SanitizeEntry(key, value).Some? {
      FromEntriesSnoc(ps, SanitizeEntry(key, value).value);
    } else {
      assert ps + [] == ps;
    }
  }

  /** The raw entries that `JSON.parse` and `Object.entries` give back for a list of id/count pairs */
  function EncodeEntries(ps: seq<(int, int)>): (r: seq<(Num, Num)>)
    ensures |r| == |ps|
    ensures forall i :: 0 <= i < |ps| ==> r[i] == (Finite(ps[i].0 as real), Finite(ps[i].1 as real))
  {
    seq(|ps|, i requires 0 <= i < |ps| => (Finite(ps[i].0 as real), Finite(ps[i].1 as real)))
  }

  /** `ps` lists the entries of `m`, each key at least once */
  ghost predicate Enumerates(ps: seq<(int, int)>, m: map<int, int>) {
    && (forall i :: 0 <= i < |ps| ==> ps[i].0 in m && m[ps[i].0] == ps[i].1)
    && (forall k :: k in m ==> exists i :: 0 <= i < |ps| && ps[i].0 == k)
  }

  /** `sanitizeCart` applied to a cart map itself: the entries whose count is at least 1 */
  function SanitizeState(m: map<int, int>): (r: map<int, int>)
    ensures ValidCart(r)
    ensures forall k :: k in r <==> k in m && m[k] >= 1
    ensures forall k :: k in r ==> r[k] == m[k]
  {
    map k | k in m && m[k] >= 1 :: m[k]
  }

  lemma SanitizeEncoded(k: int, v: int)
    ensures SanitizeEntry(Finite(k as real), Finite(v as real)) == if v >= 1 then Some((k, v)) else None
  {
    assert (k as real).Floor == k;
    assert (v as real).Floor == v;
  }

  /** A key kept by `sanitizeCart` on encoded entries is a key of the map, with the map's count */
  lemma SanitizedKeyFromMap(m: map<int, int>, ps: seq<(int, int)>, k: int)
    requires Enumerates(ps, m)
    requires k in SanitizeCart(Obj(EncodeEntries(ps)))
    ensures k in m && m[k] >= 1 && SanitizeCart(Obj(EncodeEntries(ps)))[k] == m[k]
  {
    var es := EncodeEntries(ps);
    var r := SanitizeCart(Obj(es));
    var i :| 0 <= i < |es| && SanitizeEntry(es[i].0, es[i].1) == Some((k, r[k]));
    SanitizeEncoded(ps[i].0, ps[i].1);
  }

  /** A key of the map with a count of at least 1 is kept by `sanitizeCart` on encoded entries */
  lemma MapKeySanitized(m: map<int, int>, ps: seq<(int, int)>, k: int)
    requires Enumerates(ps, m)
    requires k in m && m[k] >= 1
    ensures k in SanitizeCart(Obj(EncodeEntries(ps)))
  {
    var es := EncodeEntries(ps);
    var i :| 0 <= i < |ps| && ps[i].0 == k;
    SanitizeEncoded(ps[i].0, ps[i].1);
    assert SanitizeEntry(es[i].0, es[i].1) == Some((k, m[k]));
  }

  /** Sanitising the entries of a cart map gives `SanitizeState` of that map, whatever the order of the entries */
  lemma SanitizeStateAgrees(m: map<int, int>, ps: seq<(int, int)>)
    requires Enumerates(ps, m)
    ensures SanitizeCart(Obj(EncodeEntries(ps))) == SanitizeState(m)
  {
    var r := SanitizeCart(Obj(EncodeEntries(ps)));
    var s := SanitizeState(m);
    forall k | k in r
      ensures k in s && s[k] == r[k]
    {
      SanitizedKeyFromMap(m, ps, k);
    }
    forall k | k in s
      ensures k in r
    {
      MapKeySanitized(m, ps, k);
    }
    SameEntries(r, s);
  }

  /** Two maps with the same keys and the same value at each key are equal */
  lemma SameEntries(r: map<int, int>, s: map<int, int>)
    requires forall k :: k in r ==> k in s && s[k] == r[k]
    requires forall k :: k in s ==> k in r
    ensures r == s
  {
    forall k
      ensures k in r.Keys <==> k in s.Keys
    {
      if k in r {
        assert k in s;
      }
    }
    assert r.Keys == s.Keys;
    assert forall k :: k in r ==> r[k] == s[k];
  }

  /** On a valid cart map, `SanitizeState` changes nothing */
  lemma SanitizeStateValid(m: map<int, int>)
    requires ValidCart(m)
    ensures SanitizeState(m) == m
  {
    forall k | k in m
      ensures k in SanitizeState(m) && SanitizeState(m)[k] == m[k]
    {
      assert m[k] >= 1;
    }
    assert SanitizeState(m).Keys == m.Keys;
  }

  /** `sanitizeCart` is idempotent: a map it produced comes back unchanged */
  lemma SanitizeIdempotent(m: map<int, int>, ps: seq<(int, int)>)
    requires ValidCart(m) && Enumerates(ps, m)
    ensures SanitizeCart(Obj(EncodeEntries(ps))) == m
  {
    SanitizeStateAgrees(m, ps);
    SanitizeStateValid(m);
  }

  /** `loadCart` */
  function LoadCart(storage: StorageView): (r: Loaded)
    ensures ValidCart(r.cart)
    ensures r.removeRecord <==> storage == Available(Some(ParseError))
    ensures !(storage.Available? && storage.record.Some? && storage.record.value.ParseOk?) ==> r.cart == map[]
    ensures storage.Available? && storage.record.Some? && storage.record.value.ParseOk? ==>
      r.cart == SanitizeCart(storage.record.value.raw)
  {
    match storage
    case NoStorage => Loaded(map[], false)
    case Available(None) => Loaded(map[], false)
    case Available(Some(ParseError)) => Loaded(map[], true)
    case Available(Some(ParseOk(raw))) => Loaded(SanitizeCart(raw), false)
  }

  /** The record the persistence subscriber leaves behind for a cart state: none when the sanitised state is empty */
  function Persisted(m: map<int, int>): (r: Option<map<int, int>>)
    ensures r.None? <==> forall k :: k in m ==> m[k] < 1
    ensures r.Some? ==> r.value != map[] && ValidCart(r.value)
  {
    var sanitized := SanitizeState(m);
    if sanitized == map[] then None
    else
      assert exists k :: k in m && m[k] >= 1 by {
        if forall k :: k in m ==> m[k] < 1 {
          assert false;
        }
      }
      Some(sanitized)
  }

  /** For a valid state the persisted record is the state itself, and absent exactly when the cart is empty */
  lemma PersistedValid(m: map<int, int>)
    requires ValidCart(m)
    ensures Persisted(m) == if m == map[] then None else Some(m)
  {
    SanitizeStateValid(m);
  }

  /**
   * What the subscriber leaves in storage, `loadCart` reads back unchanged: no
   * record for the empty cart, and otherwise the record whose entries
   * `JSON.stringify` lists as `ps`.
   */
  lemma PersistLoadRoundTrip(m: map<int, int>, ps: seq<(int, int)>)
    requires ValidCart(m) && Enumerates(ps, m)
    ensures Persisted(m) == if m == map[] then None else Some(m)
    ensures LoadCart(Available(
      match Persisted(m)
      case None => None
      case Some(_) => Some(ParseOk(Obj(EncodeEntries(ps)))))) == Loaded(m, false)
  {
    PersistedValid(m);
    if m != map[] {
      SanitizeIdempotent(m, ps);
    }
  }

  /** The count of `id` in `m`, 0 when absent (`next[itemId] ?? 0`) */
  function CountOf(m: map<int, int>, id: int): int {
    if id in m then m[id] else 0
  }

  /** The state after `setItemCount(id, count)` */
  function SetCount(m: map<int, int>, id: int, count: Num): (r: map<int, int>)
    ensures ValidCart(m) ==> ValidCart(r)
    ensures id in r <==> count.Finite? && count.value >= 1.0
    ensures id in r ==> r[id] as real <= count.value < r[id] as real + 1.0
    ensures forall k :: k != id ==> (k in r <==> k in m) && (k in r ==> r[k] == m[k])
  {
    var safeCount := if IsFinite(count) then SafeCount(count.value) else 0;
    if safeCount == 0 then m - {id} else m[id := safeCount]
  }

  /** Setting the same count twice is the same as setting it once */
  lemma SetCountIdempotent(m: map<int, int>, id: int, count: Num)
    ensures SetCount(SetCount(m, id, count), id, count) == SetCount(m, id, count)
  {
  }

  /** The state after `incrementItemCount(id, delta)` */
  function Increment(m: map<int, int>, id: int, delta: Num): (r: map<int, int>)
    ensures !IsFinite(delta) || delta.value == 0.0 ==> r == m
    ensures ValidCart(m) ==> ValidCart(r)
    ensures IsFinite(delta) && delta.value != 0.0 ==>
      (id in r <==> CountOf(m, id) as real + delta.value >= 1.0)
    ensures IsFinite(delta) && delta.value != 0.0 && id in r ==>
      r[id] as real <= CountOf(m, id) as real + delta.value < r[id] as real + 1.0
    ensures forall k :: k != id ==> (k in r <==> k in m) && (k in r ==> r[k] == m[k])
  {
    if !IsFinite(delta) || delta.value == 0.0 then m
    else
      var newValue := SafeCount(CountOf(m, id) as real + delta.value);
      if newValue == 0 then m - {id} else m[id := newValue]
  }

  /** A count of 3 decremented by 1000 is removed, not made negative */
  lemma IncrementClampsAtZero(m: map<int, int>, id: int)
    requires id in m && m[id] == 3
    ensures id !in Increment(m, id, Finite(-1000.0))
  {
  }

  /** The operations a caller can apply to the store */
  datatype CartOp = SetItem(id: int, count: Num) | IncrementItem(id: int, delta: Num) | Clear

  function Apply(m: map<int, int>, op: CartOp): map<int, int> {
    match op
    case SetItem(id, count) => SetCount(m, id, count)
    case IncrementItem(id, delta) => Increment(m, id, delta)
    case Clear => map[]
  }

  function ApplyAll(m: map<int, int>, ops: seq<CartOp>): map<int, int>
    decreases |ops|
  {
    if ops == [] then m else ApplyAll(Apply(m, ops[0]), ops[1..])
  }

  /** No sequence of operations ever leaves a count of 0 or below in the cart */
  lemma {:induction false} OperationsKeepCountsPositive(m: map<int, int>, ops: seq<CartOp>)
    requires ValidCart(m)
    ensures ValidCart(ApplyAll(m, ops))
    decreases |ops|
  {
    if ops != [] {
      OperationsKeepCountsPositive(Apply(m, ops[0]), ops[1..]);
    }
  }

  /**
   * The `cart` store. `stored` is the record under the key `cart` in the form
   * the subscriber writes it; `commits` lists every state the subscriber saw.
   */
  class Cart {
    const hasStorage: bool
    var state: map<int, int>
    var stored: Option<map<int, int>>
    ghost var commits: seq<map<int, int>>

    ghost predicate Valid()
      reads this
    {
      && ValidCart(state)
      && stored == (if hasStorage then Persisted(state) else None)
    }

    /** `writable(loadCart())` followed by the subscription, which runs once at once */
    constructor (storage: StorageView)
      ensures Valid()
      ensures hasStorage == storage.Available?
      ensures state == LoadCart(storage).cart
      ensures commits == [state]
    {
      hasStorage := storage.Available?;
      state := LoadCart(storage).cart;
      stored := None;
      commits := [];
      new;
      Persist();
    }

    /** The persistence subscriber: writes the sanitised state, or removes the record when it is empty */
    method Persist()
      modifies this`stored, this`commits
      ensures stored == (if hasStorage then Persisted(state) else old(stored))
      ensures commits == old(commits) + [state]
    {
      commits := commits + [state];
      if !hasStorage {
        return;
      }
      var sanitized := SanitizeState(state);
      if sanitized == map[] {
        stored := None;
        return;
      }
      stored := Some(sanitized);
    }

    /** `setItemCount` */
    method SetItemCount(itemId: int, count: Num)
      requires Valid()
      modifies this`state, this`stored, this`commits
      ensures Valid()
      ensures state == SetCount(old(state), itemId, count)
      ensures commits == old(commits) + [state]
    {
      var next := state;
      var safeCount := if IsFinite(count) then SafeCount(count.value) else 0;
      if safeCount == 0 {
        next := next - {itemId};
      } else {
        next := next[itemId := safeCount];
      }
      state := next;
      Persist();
    }

    /** `incrementItemCount`; the source's default `delta` of 1 is `Finite(1.0)` */
    method IncrementItemCount(itemId: int, delta: Num)
      requires Valid()
      modifies this`state, this`stored, this`commits
      ensures Valid()
      ensures state == Increment(old(state), itemId, delta)
      ensures !IsFinite(delta) || delta.value == 0.0 ==> stored == old(stored) && commits == old(commits)
      ensures IsFinite(delta) && delta.value != 0.0 ==> commits == old(commits) + [state]
    {
      if !IsFinite(delta) || delta.value == 0.0 {
        return;
      }
      var next := state;
      var currentValue := if itemId in next then next[itemId] else 0;
      var newValue := SafeCount(currentValue as real + delta.value);
      if newValue == 0 {
        next := next - {itemId};
      } else {
        next := next[itemId := newValue];
      }
      state := next;
      Persist();
    }

    /** `clearCart` */
    method ClearCart()
      requires Valid()
      modifies this`state, this`stored, this`commits
      ensures Valid()
      ensures state == map[] && stored == None
      ensures commits == old(commits) + [map[]]
    {
      state := map[];
      Persist();
    }
  }
}
