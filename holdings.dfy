/**
 * An agent's `ticket_db`: a Python dict from ticket id to the price the agent
 * paid. A dict iterates in insertion order, so it is modelled as a sequence of
 * entries with distinct ids; assigning to an existing key keeps its place.
 */
module Holdings {
  import opened Wrappers

  datatype Holding = Holding(id: string, price: int)

  predicate DistinctIds(h: seq<Holding>) {
    forall i, j :: 0 <= i < j < |h| ==> h[i].id != h[j].id
  }

  /** The ids in iteration order. */
  function Keys(h: seq<Holding>): seq<string> {
    seq(|h|, i requires 0 <= i < |h| => h[i].id)
  }

  /**
   * Position of the first entry for `id`, or `|h|` when there is none. The
   * exchange's ticket table has its own search, `Exchange.IndexOfId`: the two
   * programs keep unrelated records that only share an `id` field.
   */
  function IndexOf(h: seq<Holding>, id: string): (k: nat)
    ensures k <= |h|
    ensures k < |h| ==> h[k].id == id
    ensures forall j :: 0 <= j < k ==> h[j].id != id
  {
    if h == [] then 0 else if h[0].id == id then 0 else 1 + IndexOf(h[1..], id)
  }

  /** `d.get(id)`. */
  function Lookup(h: seq<Holding>, id: string): Option<int> {
    var k := IndexOf(h, id);
    if k < |h| then Some(h[k].price) else None
  }

  /** The price recorded for `id`, or 0 when it is not held. */
  function HeldPrice(h: seq<Holding>, id: string): int {
    match Lookup(h, id)
    case Some(p) => p
    case None => 0
  }

  /** The sum of the recorded prices. */
  function Total(h: seq<Holding>): int {
    if h == [] then 0 else Total(h[..|h| - 1]) + h[|h| - 1].price
  }

  lemma IndexOfAt(h: seq<Holding>, id: string, k: nat)
    requires k < |h| && h[k].id == id
    requires forall j :: 0 <= j < k ==> h[j].id != id
    ensures IndexOf(h, id) == k
  {
  }

  /** Two entry lists with the same keys in the same order find every key at the same place. */
  lemma IndexOfSameKeys(h: seq<Holding>, g: seq<Holding>, x: string)
    requires Keys(h) == Keys(g)
    ensures IndexOf(h, x) == IndexOf(g, x)
  {
    assert |h| == |Keys(h)| == |g|;
    var k := IndexOf(h, x);
    assert forall j :: 0 <= j < |h| ==> h[j].id == Keys(h)[j] == g[j].id;
    if k < |h| {
      IndexOfAt(g, x, k);
    }
  }

  /** `id in d`: a key is found exactly when it is one of the ids. */
  lemma LookupIffKey(h: seq<Holding>, id: string)
    ensures Lookup(h, id).Some? <==> id in Keys(h)
  {
    var k := IndexOf(h, id);
    if k < |h| {
      assert Keys(h)[k] == id;
    }
    if id in Keys(h) {
      var j :| 0 <= j < |h| && Keys(h)[j] == id;
      assert h[j].id == id;
    }
  }

  /** `d[id] = price`: a new key goes to the end; an existing key keeps its place and takes the new price. */
  function Put(h: seq<Holding>, id: string, price: int): (r: seq<Holding>)
    ensures DistinctIds(h) ==> DistinctIds(r)
    ensures Lookup(r, id) == Some(price)
    ensures forall x :: x != id ==> Lookup(r, x) == Lookup(h, x)
    ensures Keys(r) == if Lookup(h, id).Some? then Keys(h) else Keys(h) + [id]
  {
    var k := IndexOf(h, id);
    if k < |h| then
      PutExisting(h, id, price, k);
      h[k := Holding(id, price)]
    else
      PutNew(h, id, price);
      h + [Holding(id, price)]
  }

  lemma PutExisting(h: seq<Holding>, id: string, price: int, k: nat)
    requires k == IndexOf(h, id) && k < |h|
    ensures var r := h[k := Holding(id, price)];
      && (DistinctIds(h) ==> DistinctIds(r))
      && Lookup(r, id) == Some(price)
      && (forall x :: x != id ==> Lookup(r, x) == Lookup(h, x))
      && Keys(r) == Keys(h)
  {
    var r := h[k := Holding(id, price)];
    assert Keys(r) == Keys(h);
    IndexOfAt(r, id, k);
    forall x | x != id ensures Lookup(r, x) == Lookup(h, x) {
      IndexOfSameKeys(r, h, x);
    }
  }

  lemma PutNew(h: seq<Holding>, id: string, price: int)
    requires IndexOf(h, id) == |h|
    ensures var r := h + [Holding(id, price)];
      && (DistinctIds(h) ==> DistinctIds(r))
      && Lookup(r, id) == Some(price)
      && (forall x :: x != id ==> Lookup(r, x) == Lookup(h, x))
      && Keys(r) == Keys(h) + [id]
  {
    var r := h + [Holding(id, price)];
    assert Keys(r) == Keys(h) + [id];
    IndexOfAt(r, id, |h|);
    forall x | x != id ensures Lookup(r, x) == Lookup(h, x) {
      var j := IndexOf(h, x);
      if j < |h| { IndexOfAt(r, x, j); } else { assert IndexOf(r, x) == |r|; }
    }
  }

  /** `del d[h[k].id]`: the entry at position `k` leaves, the others keep their order. */
  function RemoveAt(h: seq<Holding>, k: nat): (r: seq<Holding>)
    requires k < |h|
    ensures DistinctIds(h) ==> DistinctIds(r) && Lookup(r, h[k].id) == None
    ensures Keys(r) == Keys(h)[..k] + Keys(h)[k + 1..]
    ensures forall x :: x != h[k].id ==> Lookup(r, x) == Lookup(h, x)
  {
    var r := h[..k] + h[k + 1..];
    assert Keys(r) == Keys(h)[..k] + Keys(h)[k + 1..];
    assert forall j :: 0 <= j < |r| ==> r[j] == (if j < k then h[j] else h[j + 1]);
    forall x | x != h[k].id ensures Lookup(r, x) == Lookup(h, x) {
      RemoveAtKeepsOther(h, k, x);
    }
    r
  }

  /** Removing the entry at `k` leaves every other key where `d.get` finds the same price. */
  lemma RemoveAtKeepsOther(h: seq<Holding>, k: nat, x: string)
    requires k < |h| && x != h[k].id
    ensures Lookup(h[..k] + h[k + 1..], x) == Lookup(h, x)
  {
    var r := h[..k] + h[k + 1..];
    assert forall j :: 0 <= j < |r| ==> r[j] == (if j < k then h[j] else h[j + 1]);
    var i := IndexOf(h, x);
    if i < k {
      IndexOfAt(r, x, i);
    } else if i < |h| {
      assert i != k;
      IndexOfAt(r, x, i - 1);
    }
  }

  /**
   * `min(d.items(), key=lambda x: x[1])`: the position of a lowest price; among
   * equal lowest prices Python's `min` keeps the first one it met.
   */
  function Cheapest(h: seq<Holding>): (k: nat)
    requires h != []
    ensures k < |h|
    ensures forall j :: 0 <= j < |h| ==> h[k].price <= h[j].price
    ensures forall j :: 0 <= j < k ==> h[j].price > h[k].price
    decreases |h|
  {
    if |h| == 1 then 0
    else
      var k := Cheapest(h[..|h| - 1]);
      if h[|h| - 1].price < h[k].price then |h| - 1 else k
  }

  lemma {:induction false} TotalAppend(h: seq<Holding>, x: Holding)
    ensures Total(h + [x]) == Total(h) + x.price
  {
    assert (h + [x])[..|h|] == h;
  }

  lemma {:induction false} TotalUpdate(h: seq<Holding>, k: nat, x: Holding)
    requires k < |h|
    ensures Total(h[k := x]) == Total(h) - h[k].price + x.price
    decreases |h|
  {
    var last := |h| - 1;
    if k < last {
      assert h[k := x][..last] == h[..last][k := x];
      TotalUpdate(h[..last], k, x);
    } else {
      assert h[k := x][..last] == h[..last];
    }
  }

  lemma {:induction false} TotalRemoveAt(h: seq<Holding>, k: nat)
    requires k < |h|
    ensures Total(h[..k] + h[k + 1..]) == Total(h) - h[k].price
    decreases |h|
  {
    var last := |h| - 1;
    var r := h[..k] + h[k + 1..];
    if k == last {
      assert r == h[..last];
    } else {
      var r' := h[..last][..k] + h[..last][k + 1..];
      assert r[..|r| - 1] == r' && r[|r| - 1] == h[last];
      TotalRemoveAt(h[..last], k);
    }
  }

  /** Recording a price for `id` changes the sum by the new price less the one it replaces. */
  lemma TotalPut(h: seq<Holding>, id: string, price: int)
    ensures Total(Put(h, id, price)) == Total(h) - HeldPrice(h, id) + price
  {
    var k := IndexOf(h, id);
    if k < |h| {
      TotalUpdate(h, k, Holding(id, price));
    } else {
      TotalAppend(h, Holding(id, price));
    }
  }

  /** Deleting an entry lowers the sum by exactly its recorded price. */
  lemma TotalRemove(h: seq<Holding>, k: nat)
    requires k < |h|
    ensures Total(RemoveAt(h, k)) == Total(h) - h[k].price
  {
    TotalRemoveAt(h, k);
  }
}
