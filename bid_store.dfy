/** The bid store: the saved bids and the bid currently open, with the
    save, load, update and delete actions and the newest-first listing. */
module BidStore {
  import opened Seqs
  import opened CalculatorTypes
  import opened BidTypes

  /** `Partial<Omit<Bid, 'id' | 'createdAt'>>`. */
  datatype BidUpdate = BidUpdate(
    calculatorType: Option<CalculatorType>,
    customer: Option<CustomerInfo>,
    inputs: Option<CalculatorInputs>,
    result: Option<BidResult>,
    updatedAt: Option<int>)

  function Pick<T>(update: Option<T>, current: T): T
  {
    if update.Some? then update.value else current
  }

  /** `saveBid`'s new record, with the generated id and the two clock reads passed in. */
  function SavedBid(draft: BidDraft, id: string, createdAt: int, updatedAt: int): Bid
  {
    Bid(id, draft.calculatorType, draft.customer, draft.inputs, draft.result, createdAt, updatedAt)
  }

  /** `{ ...bid, ...updates, updatedAt: now }`: the id and creation time are
      kept, every other key the update carries replaces the bid's, every key
      it omits keeps it, and the update's own `updatedAt` is overridden by
      the clock. */
  function ApplyBidUpdate(bid: Bid, u: BidUpdate, now: int): (r: Bid)
    ensures r.id == bid.id && r.createdAt == bid.createdAt && r.updatedAt == now
    ensures u.calculatorType.Some? ==> r.calculatorType == u.calculatorType.value
    ensures u.calculatorType.None? ==> r.calculatorType == bid.calculatorType
    ensures u.customer.Some? ==> r.customer == u.customer.value
    ensures u.customer.None? ==> r.customer == bid.customer
    ensures u.inputs.Some? ==> r.inputs == u.inputs.value
    ensures u.inputs.None? ==> r.inputs == bid.inputs
    ensures u.result.Some? ==> r.result == u.result.value
    ensures u.result.None? ==> r.result == bid.result
  {
    Bid(bid.id, Pick(u.calculatorType, bid.calculatorType), Pick(u.customer, bid.customer),
      Pick(u.inputs, bid.inputs), Pick(u.result, bid.result), bid.createdAt, now)
  }

  function BidIdIs(id: string): Bid -> bool
  {
    (bid: Bid) => bid.id == id
  }

  function BidIdIsNot(id: string): Bid -> bool
  {
    (bid: Bid) => bid.id != id
  }

  function BidUpdater(u: BidUpdate, now: int): Bid -> Bid
  {
    (bid: Bid) => ApplyBidUpdate(bid, u, now)
  }

  /** `updateBid`'s new list: the bids with the id are updated and stamped,
      all others kept in place. */
  function UpdatedBids(bids: seq<Bid>, id: string, u: BidUpdate, now: int): (r: seq<Bid>)
    ensures |r| == |bids|
    ensures forall i :: 0 <= i < |bids| ==>
              && r[i].id == bids[i].id && r[i].createdAt == bids[i].createdAt
              && r[i] == if bids[i].id == id then ApplyBidUpdate(bids[i], u, now) else bids[i]
  {
    MapWhere(bids, BidIdIs(id), BidUpdater(u, now))
  }

  /** `updateBid`'s new current bid: refreshed only when it is the one updated. */
  function UpdatedCurrent(current: Option<Bid>, id: string, u: BidUpdate, now: int): Option<Bid>
  {
    if current.Some? && current.value.id == id then Some(ApplyBidUpdate(current.value, u, now)) else current
  }

  /** `deleteBid`'s new current bid: cleared exactly when it is the one deleted. */
  function CurrentAfterDelete(current: Option<Bid>, id: string): (r: Option<Bid>)
    ensures r.None? <==> (current.None? || current.value.id == id)
    ensures r.Some? ==> r == current
  {
    if current.Some? && current.value.id == id then None else current
  }

  /** Repeating an update changes nothing but the update time. */
  lemma ApplyBidUpdateTwice(bid: Bid, u: BidUpdate, first: int, second: int)
    ensures ApplyBidUpdate(ApplyBidUpdate(bid, u, first), u, second) == ApplyBidUpdate(bid, u, second)
  {
  }

  /** A bid saved under a fresh id is what loading that id finds. */
  lemma SaveThenLoad(bids: seq<Bid>, draft: BidDraft, id: string, createdAt: int, updatedAt: int)
    requires forall i :: 0 <= i < |bids| ==> bids[i].id != id
    ensures Find(bids + [SavedBid(draft, id, createdAt, updatedAt)], BidIdIs(id)) == Some(SavedBid(draft, id, createdAt, updatedAt))
  {
    var s := bids + [SavedBid(draft, id, createdAt, updatedAt)];
    assert BidIdIs(id)(s[|bids|]);
    assert forall j :: 0 <= j < |bids| ==> !BidIdIs(id)(s[j]);
    assert FirstIndex(s, BidIdIs(id)) == Some(|bids|);
  }

  /** After a delete, loading the id finds nothing. */
  lemma DeleteThenLoad(bids: seq<Bid>, id: string)
    ensures Find(Filter(bids, BidIdIsNot(id)), BidIdIs(id)).None?
  {
    var r := Filter(bids, BidIdIsNot(id));
    forall j | 0 <= j < |r| ensures !BidIdIs(id)(r[j]) {
      assert BidIdIsNot(id)(r[j]);
    }
  }

  /** A delete keeps every bid with another id. */
  lemma DeleteKeepsOthers(bids: seq<Bid>, id: string, i: nat)
    requires i < |bids| && bids[i].id != id
    ensures bids[i] in Filter(bids, BidIdIsNot(id))
  {
    assert BidIdIsNot(id)(bids[i]);
  }

  /** When the open bid is the k-th saved one, updating it with one clock
      value keeps the open bid equal to its saved copy. */
  lemma UpdateKeepsCurrentInStep(bids: seq<Bid>, k: nat, id: string, u: BidUpdate, now: int)
    requires k < |bids|
    ensures UpdatedCurrent(Some(bids[k]), id, u, now) == Some(UpdatedBids(bids, id, u, now)[k])
  {
  }

  // ---------------------------------------------------------------------
  // The newest-first listing

  /** The listing row of a bid. */
  function ListItem(bid: Bid): BidListItem
  {
    BidListItem(bid.id, bid.customer.name, bid.result.total, bid.createdAt, bid.calculatorType)
  }

  function ListItems(bids: seq<Bid>): seq<BidListItem>
  {
    seq(|bids|, i requires 0 <= i < |bids| => ListItem(bids[i]))
  }

  /** Newest first: creation times never increase along the list. */
  predicate NewestFirstOrder(s: seq<BidListItem>)
  {
    forall i, j :: 0 <= i < j < |s| ==> s[i].createdAt >= s[j].createdAt
  }

  /** Places `x` before the first entry no newer than it: on equal times the
      earlier entry of the input stays first, as in a stable sort. */
  function Insert(x: BidListItem, s: seq<BidListItem>): seq<BidListItem>
  {
    if s == [] || x.createdAt >= s[0].createdAt then [x] + s
    else [s[0]] + Insert(x, s[1..])
  }

  /** `sort((a, b) => b.createdAt - a.createdAt)`, a stable sort: the rows
      come out newest first, and they are exactly the input rows. */
  function NewestFirst(s: seq<BidListItem>): (r: seq<BidListItem>)
    ensures NewestFirstOrder(r)
    ensures multiset(r) == multiset(s)
  {
    if s == [] then []
    else
      var t := NewestFirst(s[1..]);
      InsertSorted(s[0], t);
      assert s == [s[0]] + s[1..];
      Insert(s[0], t)
  }

  function CreatedAtIs(t: int): BidListItem -> bool
  {
    (x: BidListItem) => x.createdAt == t
  }

  lemma {:induction false} InsertSorted(x: BidListItem, s: seq<BidListItem>)
    requires NewestFirstOrder(s)
    ensures NewestFirstOrder(Insert(x, s))
    ensures multiset(Insert(x, s)) == multiset(s) + multiset{x}
  {
    InsertPermutes(x, s);
    if s != [] && x.createdAt < s[0].createdAt {
      var t := Insert(x, s[1..]);
      InsertSorted(x, s[1..]);
      InsertBounded(x, s[1..], s[0].createdAt);
      ConsNewestFirst(s[0], t);
    }
  }

  /** A newest-first list stays newest first behind an entry no older than any of it. */
  lemma ConsNewestFirst(y: BidListItem, t: seq<BidListItem>)
    requires NewestFirstOrder(t)
    requires forall k :: 0 <= k < |t| ==> t[k].createdAt <= y.createdAt
    ensures NewestFirstOrder([y] + t)
  {
    var r := [y] + t;
    forall i, j | 0 <= i < j < |r| ensures r[i].createdAt >= r[j].createdAt {
      assert r[j] == t[j - 1];
      if i > 0 { assert r[i] == t[i - 1]; }
    }
  }

  /** Inserting adds exactly `x`. */
  lemma {:induction false} InsertPermutes(x: BidListItem, s: seq<BidListItem>)
    ensures multiset(Insert(x, s)) == multiset(s) + multiset{x}
  {
    if s != [] && x.createdAt < s[0].createdAt {
      InsertPermutes(x, s[1..]);
      assert s == [s[0]] + s[1..];
    }
  }

  /** No entry becomes newer than a bound that `x` and every entry respect. */
  lemma {:induction false} InsertBounded(x: BidListItem, s: seq<BidListItem>, bound: int)
    requires x.createdAt <= bound
    requires forall k :: 0 <= k < |s| ==> s[k].createdAt <= bound
    ensures forall k :: 0 <= k < |Insert(x, s)| ==> Insert(x, s)[k].createdAt <= bound
  {
    if s != [] && x.createdAt < s[0].createdAt {
      InsertBounded(x, s[1..], bound);
    }
  }

  lemma {:induction false} InsertStable(x: BidListItem, s: seq<BidListItem>, t: int)
    requires NewestFirstOrder(s)
    ensures Filter(Insert(x, s), CreatedAtIs(t)) == Filter([x], CreatedAtIs(t)) + Filter(s, CreatedAtIs(t))
  {
    var p := CreatedAtIs(t);
    if s == [] || x.createdAt >= s[0].createdAt {
      FilterConcat([x], s, p);
    } else {
      InsertStable(x, s[1..], t);
      FilterConcat([s[0]], Insert(x, s[1..]), p);
      FilterConcat([s[0]], s[1..], p);
      assert [s[0]] + s[1..] == s;
      if p(x) {
        assert !p(s[0]);
        FilterConcat([x], [], p);
        FilterConcat([s[0]], [], p);
      }
    }
  }

  /** Rows with equal creation times keep their input order. */
  lemma {:induction false} NewestFirstStable(s: seq<BidListItem>, t: int)
    ensures Filter(NewestFirst(s), CreatedAtIs(t)) == Filter(s, CreatedAtIs(t))
  {
    if s != [] {
      NewestFirstStable(s[1..], t);
      InsertStable(s[0], NewestFirst(s[1..]), t);
      assert s == [s[0]] + s[1..];
      FilterConcat([s[0]], s[1..], CreatedAtIs(t));
    }
  }

  /** Listing an already newest-first list changes nothing. */
  lemma {:induction false} NewestFirstOfSorted(s: seq<BidListItem>)
    requires NewestFirstOrder(s)
    ensures NewestFirst(s) == s
  {
    if s != [] {
      NewestFirstOfSorted(s[1..]);
      assert NewestFirst(s[1..]) == s[1..];
      assert s == [s[0]] + s[1..];
    }
  }

  // ---------------------------------------------------------------------
  // The store

  /** The zustand bid store: the saved bids and the bid currently open. */
  class Store {
    var bids: seq<Bid>
    var currentBid: Option<Bid>

    constructor()
      ensures bids == [] && currentBid == None
    {
      bids := [];
      currentBid := None;
    }

    /** The id and the two timestamps are the caller's `randomUUID` and clock reads. */
    method SaveBid(draft: BidDraft, id: string, createdAt: int, updatedAt: int)
      modifies this
      ensures bids == old(bids) + [SavedBid(draft, id, createdAt, updatedAt)]
      ensures currentBid == Some(SavedBid(draft, id, createdAt, updatedAt))
    {
      var newBid := SavedBid(draft, id, createdAt, updatedAt);
      bids := bids + [newBid];
      currentBid := Some(newBid);
    }

    /** Opens and returns the first bid with the id; without one, nothing changes. */
    method LoadBid(id: string) returns (bid: Option<Bid>)
      modifies this
      ensures bid == Find(old(bids), BidIdIs(id))
      ensures bids == old(bids)
      ensures currentBid == if bid.Some? then bid else old(currentBid)
    {
      bid := Find(bids, BidIdIs(id));
      if bid.Some? {
        currentBid := bid;
      }
    }

    /** Two successive state changes: first the list, then the open bid, each
        stamped by its own clock read. */
    method UpdateBid(id: string, updates: BidUpdate, listNow: int, currentNow: int)
      modifies this
      ensures bids == UpdatedBids(old(bids), id, updates, listNow)
      ensures currentBid == UpdatedCurrent(old(currentBid), id, updates, currentNow)
    {
      bids := UpdatedBids(bids, id, updates, listNow);
      var current := currentBid;
      if current.Some? && current.value.id == id {
        currentBid := Some(ApplyBidUpdate(current.value, updates, currentNow));
      }
    }

    method DeleteBid(id: string)
      modifies this
      ensures bids == Filter(old(bids), BidIdIsNot(id))
      ensures currentBid == CurrentAfterDelete(old(currentBid), id)
    {
      bids := Filter(bids, BidIdIsNot(id));
      currentBid := CurrentAfterDelete(currentBid, id);
    }

    /** One row per saved bid, newest first, ties in saved order. */
    method GetAllBids() returns (items: seq<BidListItem>)
      ensures NewestFirstOrder(items)
      ensures multiset(items) == multiset(ListItems(bids))
      ensures forall t :: Filter(items, CreatedAtIs(t)) == Filter(ListItems(bids), CreatedAtIs(t))
    {
      items := NewestFirst(ListItems(bids));
      forall t ensures Filter(items, CreatedAtIs(t)) == Filter(ListItems(bids), CreatedAtIs(t)) {
        NewestFirstStable(ListItems(bids), t);
      }
    }

    method SetCurrentBid(bid: Option<Bid>)
      modifies this
      ensures currentBid == bid && bids == old(bids)
    {
      currentBid := bid;
    }

    method ClearCurrentBid()
      modifies this
      ensures currentBid == None && bids == old(bids)
    {
      currentBid := None;
    }
  }
}
