/** The bounded order store: an ordered dictionary that forgets the least recently added order. */
module OrderStore {
  import opened Prelude

  datatype Order = Order(id: string, body: string)

  /** The adds not repeated later: every id once, with its newest order, by most recent add. */
  function LastAdds(history: seq<Order>): (r: seq<Order>) {
    if history == [] then []
    else if HasId(history[1..], history[0].id) then LastAdds(history[1..])
    else [history[0]] + LastAdds(history[1..])
  }

  predicate HasId(xs: seq<Order>, id: string) {
    exists i | 0 <= i < |xs| :: xs[i].id == id
  }

  function Last<T>(xs: seq<T>, n: nat): (r: seq<T>) {
    if |xs| <= n then xs else xs[|xs| - n..]
  }

  function Without(xs: seq<Order>, id: string): (r: seq<Order>) {
    if xs == [] then []
    else if xs[0].id == id then Without(xs[1..], id)
    else [xs[0]] + Without(xs[1..], id)
  }

  predicate DistinctIds(xs: seq<Order>) {
    forall i, j | 0 <= i < j < |xs| :: xs[i].id != xs[j].id
  }

  lemma {:induction false} LastAddsIds(history: seq<Order>, id: string)
    ensures HasId(LastAdds(history), id) <==> HasId(history, id)
    ensures |LastAdds(history)| <= |history|
  {
    if history != [] {
      LastAddsIds(history[1..], id);
      assert history == [history[0]] + history[1..];
      HasIdConcat([history[0]], LastAdds(history[1..]), id);
      HasIdConcat([history[0]], history[1..], id);
    }
  }

  lemma HasIdConcat(xs: seq<Order>, ys: seq<Order>, id: string)
    ensures HasId(xs + ys, id) <==> HasId(xs, id) || HasId(ys, id)
  {
    forall i | 0 <= i < |xs + ys| && (xs + ys)[i].id == id ensures HasId(xs, id) || HasId(ys, id) {
      if i >= |xs| { assert ys[i - |xs|].id == id; }
    }
    if HasId(xs, id) { var i :| 0 <= i < |xs| && xs[i].id == id; assert (xs + ys)[i].id == id; }
    if HasId(ys, id) { var i :| 0 <= i < |ys| && ys[i].id == id; assert (xs + ys)[|xs| + i].id == id; }
  }

  lemma {:induction false} LastAddsDistinct(history: seq<Order>)
    ensures DistinctIds(LastAdds(history))
  {
    if history != [] {
      LastAddsDistinct(history[1..]);
      LastAddsIds(history[1..], history[0].id);
    }
  }

  lemma {:induction false} WithoutMeaning(xs: seq<Order>, id: string)
    ensures !HasId(Without(xs, id), id)
    ensures !HasId(xs, id) ==> Without(xs, id) == xs
    ensures DistinctIds(xs) ==> |Without(xs, id)| == |xs| - if HasId(xs, id) then 1 else 0
  {
    if xs != [] {
      WithoutMeaning(xs[1..], id);
      assert xs == [xs[0]] + xs[1..];
      HasIdConcat([xs[0]], xs[1..], id);
      HasIdConcat([xs[0]], Without(xs[1..], id), id);
      if xs[0].id == id && DistinctIds(xs) { assert !HasId(xs[1..], id); }
    }
  }

  lemma WithoutStep(x: Order, xs: seq<Order>, id: string)
    ensures Without([x] + xs, id) == if x.id == id then Without(xs, id) else [x] + Without(xs, id)
  {
    assert ([x] + xs)[1..] == xs;
  }

  lemma {:induction false} WithoutConcat(xs: seq<Order>, ys: seq<Order>, id: string)
    ensures Without(xs + ys, id) == Without(xs, id) + Without(ys, id)
  {
    hide Without;
    if xs == [] {
      assert xs + ys == ys;
      WithoutNothing(id);
    } else {
      var x, rest := xs[0], xs[1..];
      WithoutConcat(rest, ys, id);
      WithoutStep(x, rest + ys, id);
      WithoutStep(x, rest, id);
      assert xs + ys == [x] + (rest + ys);
      assert xs == [x] + rest;
    }
  }

  lemma WithoutNothing(id: string)
    ensures Without([], id) == []
  {
  }

  lemma LastAddsStep(x: Order, rest: seq<Order>)
    ensures LastAdds([x] + rest) == if HasId(rest, x.id) then LastAdds(rest) else [x] + LastAdds(rest)
  {
    assert ([x] + rest)[1..] == rest;
  }

  lemma HasIdSingle(o: Order, id: string)
    ensures HasId([o], id) <==> o.id == id
  {
    assert [o][0] == o;
  }

  /** One more add removes the older order of the same id and comes last. */
  lemma {:induction false} LastAddsAppend(history: seq<Order>, o: Order)
    ensures LastAdds(history + [o]) == Without(LastAdds(history), o.id) + [o]
  {
    if history == [] {
      assert history + [o] == [o];
    } else {
      hide LastAdds, Without, HasId;
      var head, rest := history[0], history[1..];
      var before := LastAdds(rest);
      LastAddsAppend(rest, o);
      assert history + [o] == [head] + (rest + [o]) && history == [head] + rest;
      LastAddsStep(head, rest + [o]);
      LastAddsStep(head, rest);
      HasIdConcat(rest, [o], head.id);
      HasIdSingle(o, head.id);
      if !HasId(rest, head.id) {
        WithoutStep(head, before, o.id);
        assert ([head] + Without(before, o.id)) + [o] == [head] + (Without(before, o.id) + [o]);
      }
    }
  }

  lemma LastOfConcat<T>(a: seq<T>, b: seq<T>, n: nat)
    requires |b| >= n
    ensures Last(a + b, n) == Last(b, n)
  {
  }

  /** Forgetting first and adding then is the same as adding first and forgetting then. */
  lemma EvictionCommutes(xs: seq<Order>, o: Order, n: nat)
    requires DistinctIds(xs)
    ensures Last(Without(xs, o.id) + [o], n) == Last(Without(Last(xs, n), o.id) + [o], n)
  {
    if |xs| > n {
      var dropped, kept := xs[..|xs| - n], xs[|xs| - n..];
      assert xs == dropped + kept && Last(xs, n) == kept && DistinctIds(kept);
      hide Without, Last, HasId, DistinctIds;
      WithoutConcat(dropped, kept, o.id);
      WithoutMeaning(kept, o.id);
      assert Without(xs, o.id) + [o] == Without(dropped, o.id) + (Without(kept, o.id) + [o]);
      LastOfConcat(Without(dropped, o.id), Without(kept, o.id) + [o], n);
    } else {
      assert Last(xs, n) == xs;
    }
  }

  /** The dictionary holds exactly the entries `xs`, in their order. */
  ghost predicate Represents(keys: seq<string>, orders: map<string, Order>, xs: seq<Order>) {
    && |keys| == |xs|
    && (forall i | 0 <= i < |xs| :: keys[i] == xs[i].id && keys[i] in orders && orders[keys[i]] == xs[i])
    && (forall k | k in orders :: k in keys)
  }

  lemma PopRepresents(keys: seq<string>, orders: map<string, Order>, xs: seq<Order>)
    requires Represents(keys, orders, xs) && DistinctIds(xs) && xs != []
    ensures Represents(keys[1..], orders - {keys[0]}, xs[1..])
  {
    forall k | k in orders - {keys[0]} ensures k in keys[1..] {
      var i :| 0 <= i < |keys| && keys[i] == k;
      assert keys[1..][i - 1] == k;
    }
  }

  lemma RemoveRepresents(keys: seq<string>, orders: map<string, Order>, xs: seq<Order>, at: nat)
    requires Represents(keys, orders, xs) && DistinctIds(xs) && at < |xs|
    ensures Represents(keys[..at] + keys[at + 1..], orders - {keys[at]}, xs[..at] + xs[at + 1..])
  {
    var keys', xs' := keys[..at] + keys[at + 1..], xs[..at] + xs[at + 1..];
    forall i | 0 <= i < |xs'|
      ensures keys'[i] == xs'[i].id && keys'[i] in orders - {keys[at]} && orders[keys'[i]] == xs'[i] {
      var j := if i < at then i else i + 1;
      assert xs'[i] == xs[j] && keys'[i] == keys[j];
    }
    forall k | k in orders - {keys[at]} ensures k in keys' {
      var j :| 0 <= j < |keys| && keys[j] == k;
      assert k == keys'[if j < at then j else j - 1];
    }
  }

  lemma AppendRepresents(keys: seq<string>, orders: map<string, Order>, xs: seq<Order>, o: Order)
    requires Represents(keys, orders, xs) && !HasId(xs, o.id)
    ensures Represents(keys + [o.id], orders[o.id := o], xs + [o])
  {
    forall i | 0 <= i < |xs| ensures keys[i] != o.id { assert xs[i].id != o.id; }
    assert (keys + [o.id])[|xs|] == o.id;
    forall k | k in orders[o.id := o] ensures k in keys + [o.id] { }
  }

  /** How far eviction has come: the newest entries are left, and not too few. */
  ghost predicate Evicted(xs: seq<Order>, rest: seq<Order>, maxSize: int) {
    |rest| <= |xs| && rest == Last(xs, |rest|) && (rest == xs || |rest| >= maxSize)
  }

  lemma EvictOne(xs: seq<Order>, rest: seq<Order>, maxSize: int)
    requires Evicted(xs, rest, maxSize) && |rest| > maxSize && rest != [] && DistinctIds(rest)
    ensures Evicted(xs, rest[1..], maxSize) && DistinctIds(rest[1..])
  {
  }

  lemma EvictionDone(xs: seq<Order>, rest: seq<Order>, maxSize: nat)
    requires Evicted(xs, rest, maxSize) && |rest| <= maxSize
    ensures rest == Last(xs, maxSize)
  {
  }

  /** What the store should hold: nothing when the bound is negative. */
  ghost function Expected(history: seq<Order>, maxSize: int): (r: seq<Order>) {
    if maxSize < 0 then [] else Last(LastAdds(history), maxSize)
  }

  lemma ExpectedDistinct(history: seq<Order>, maxSize: int)
    ensures DistinctIds(Expected(history, maxSize))
  {
    LastAddsDistinct(history);
  }

  lemma ExpectedAppend(history: seq<Order>, o: Order, maxSize: nat)
    ensures Expected(history + [o], maxSize) == Last(Without(Expected(history, maxSize), o.id) + [o], maxSize)
  {
    hide Last, Without, LastAdds;
    LastAddsAppend(history, o);
    LastAddsDistinct(history);
    EvictionCommutes(LastAdds(history), o, maxSize);
  }

  class Store {
    const maxSize: int
    /** The dictionary: keys from least to most recently added, and their orders. */
    var keys: seq<string>
    var orders: map<string, Order>
    /** Every order added so far. */
    ghost var history: seq<Order>

    constructor (maxSize: int)
      ensures this.maxSize == maxSize && Valid() && history == []
    {
      this.maxSize := maxSize;
      keys, orders, history := [], map[], [];
    }

    ghost predicate Valid()
      reads this
    {
      Represents(keys, orders, Expected(history, maxSize))
    }

    /** Removes an entry if it is there. */
    method Remove(id: string, ghost xs: seq<Order>)
      requires Represents(keys, orders, xs) && DistinctIds(xs)
      modifies this`keys, this`orders
      ensures Represents(keys, orders, Without(xs, id))
    {
      hide Without;
      var at := 0;
      while at < |keys| && keys[at] != id
        invariant 0 <= at <= |keys|
        invariant forall i | 0 <= i < at :: keys[i] != id
      {
        at := at + 1;
      }
      WithoutAt(xs, id, at);
      if at < |keys| {
        RemoveRepresents(keys, orders, xs, at);
        keys := keys[..at] + keys[at + 1..];
        orders := orders - {id};
      }
    }

    /** Puts the order at the end, whether or not its id is known. */
    method Put(o: Order, ghost xs: seq<Order>)
      requires Represents(keys, orders, xs) && DistinctIds(xs)
      modifies this`keys, this`orders
      ensures Represents(keys, orders, Without(xs, o.id) + [o])
    {
      hide Without, DistinctIds, Represents;
      Remove(o.id, xs);
      WithoutMeaning(xs, o.id);
      AppendRepresents(keys, orders, Without(xs, o.id), o);
      keys := keys + [o.id];
      orders := orders[o.id := o];
    }

    /** Evicts the oldest entries; with a negative bound it runs out of entries and fails. */
    method Evict(ghost xs: seq<Order>) returns (ok: bool)
      requires Represents(keys, orders, xs) && DistinctIds(xs)
      modifies this`keys, this`orders
      ensures ok == (maxSize >= 0)
      ensures Represents(keys, orders, if maxSize >= 0 then Last(xs, maxSize) else [])
    {
      ghost var rest := xs;
      while |keys| > maxSize
        invariant Represents(keys, orders, rest) && DistinctIds(rest) && Evicted(xs, rest, maxSize)
        decreases |keys|
      {
        if keys == [] {
          assert rest == [];
          return false;
        }
        PopRepresents(keys, orders, rest);
        EvictOne(xs, rest, maxSize);
        var k := keys[0];
        keys := keys[1..];
        orders := orders - {k};
        rest := rest[1..];
      }
      EvictionDone(xs, rest, maxSize);
      ok := true;
    }

    /**
     Adds an order; the store then holds the last `maxSize` distinct ids by most recent add, each with
     its newest order. It fails exactly when the bound is negative.
     */
    method Add(o: Order) returns (ok: bool)
      requires Valid()
      modifies this
      ensures Valid() && history == old(history) + [o] && ok == (maxSize >= 0)
    {
      hide Represents, Expected, Without;
      ghost var before := Expected(history, maxSize);
      ExpectedDistinct(history, maxSize);
      Put(o, before);
      PutDistinct(before, o);
      ok := Evict(Without(before, o.id) + [o]);
      if maxSize >= 0 { ExpectedAppend(history, o, maxSize); } else { NothingExpected(history + [o], maxSize); }
      history := history + [o];
    }

    method Get(id: string) returns (found: Option<Order>)
      requires Valid()
      ensures match found
        case Some(o) => o in Expected(history, maxSize) && o.id == id
        case None => !HasId(Expected(history, maxSize), id)
    {
      if id in orders { return Some(orders[id]); }
      return None;
    }
  }

  lemma NothingExpected(history: seq<Order>, maxSize: int)
    requires maxSize < 0
    ensures Expected(history, maxSize) == []
  {
  }

  lemma PutDistinct(xs: seq<Order>, o: Order)
    requires DistinctIds(xs)
    ensures DistinctIds(Without(xs, o.id) + [o])
  {
    WithoutMeaning(xs, o.id);
    WithoutDistinct(xs, o.id);
  }

  lemma {:induction false} WithoutDistinct(xs: seq<Order>, id: string)
    requires DistinctIds(xs)
    ensures DistinctIds(Without(xs, id))
    ensures forall i | 0 <= i < |Without(xs, id)| :: HasId(xs, Without(xs, id)[i].id)
  {
    if xs != [] {
      WithoutDistinct(xs[1..], id);
      assert xs == [xs[0]] + xs[1..];
      forall i | 0 <= i < |Without(xs, id)| ensures HasId(xs, Without(xs, id)[i].id) {
        HasIdConcat([xs[0]], xs[1..], Without(xs, id)[i].id);
        assert HasId([xs[0]], xs[0].id);
      }
      assert forall i | 0 <= i < |xs[1..]| :: xs[1..][i] == xs[i + 1];
    }
  }

  /** Removing the entry at its place. */
  lemma WithoutAt(xs: seq<Order>, id: string, at: nat)
    requires DistinctIds(xs) && at <= |xs| && (forall i | 0 <= i < at :: xs[i].id != id) &&
      (at < |xs| ==> xs[at].id == id)
    ensures Without(xs, id) == if at < |xs| then xs[..at] + xs[at + 1..] else xs
  {
    hide Without, DistinctIds;
    WithoutMeaning(xs[..at], id);
    if at < |xs| {
      assert xs == xs[..at] + ([xs[at]] + xs[at + 1..]);
      WithoutConcat(xs[..at], [xs[at]] + xs[at + 1..], id);
      WithoutStep(xs[at], xs[at + 1..], id);
      NotAgain(xs, at);
      WithoutMeaning(xs[at + 1..], id);
    } else {
      assert xs[..at] == xs;
    }
  }

  lemma NotAgain(xs: seq<Order>, at: nat)
    requires DistinctIds(xs) && at < |xs|
    ensures !HasId(xs[at + 1..], xs[at].id)
  {
  }
}
