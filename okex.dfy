/** The order-book maintenance of the OKEx client (src/exchange/okex.rs): size
    increments, price-level updates kept in sorted order, the per-instrument
    snapshot-then-delta store, and the chunked subscription messages. */
module Okex {
  import opened Common
  import opened Exchange
  import Chunking

  /** `WEBSOCKET_CHUNK_SIZE`: instruments per subscription message. */
  const WebsocketChunkSize: nat := 100

  /** Largest value of `i8`, the result type of `calculate_size_increment`. */
  const I8Max: int := 127

  // ---------------------------------------------------------------------------
  // Size increments
  // ---------------------------------------------------------------------------

  /** The index of the first '.' of `s`, if any (`bytes.iter().position`). */
  function DotIndex(s: string): (r: Option<nat>)
    ensures r.Some? ==> r.value < |s| && s[r.value] == '.' && '.' !in s[..r.value]
    ensures r.None? ==> '.' !in s
  {
    if |s| == 0 then None
    else if s[0] == '.' then Some(0)
    else
      match DotIndex(s[1..])
      case None => None
      case Some(i) =>
        assert s[..i + 1] == [s[0]] + s[1..][..i];
        Some(i + 1)
  }

  /** `calculate_size_increment`: the number of decimal places of a size increment
      written as text, 0 when it has no '.'. The count is converted to `i8` with
      `unwrap`, which panics beyond 127; that panic is the `Err` case. */
  function SizeIncrement(sizeIncrement: string): (r: Result<int>)
    ensures '.' !in sizeIncrement ==> r == Ok(0)
    ensures r.Ok? ==> 0 <= r.value <= I8Max
    ensures r.Err? ==> '.' in sizeIncrement
  {
    match DotIndex(sizeIncrement)
    case None => Ok(0)
    case Some(p) =>
      var decimals := |sizeIncrement| - p - 1;
      if decimals <= I8Max then Ok(decimals) else Err("out of range integral type conversion attempted")
  }

  /** Written as an integer part without '.', a '.', and a fraction, an increment
      has as many decimal places as the fraction has characters. */
  lemma {:induction false} SizeIncrementDecimals(integerPart: string, fraction: string)
    requires '.' !in integerPart
    ensures SizeIncrement(integerPart + "." + fraction)
         == if |fraction| <= I8Max then Ok(|fraction|) else Err("out of range integral type conversion attempted")
  {
    var s := integerPart + "." + fraction;
    assert s[|integerPart|] == '.';
    assert s[..|integerPart|] == integerPart;
    assert DotIndex(s).value == |integerPart|;
  }

  /** The cases of `calculate_size_increment_test`. */
  lemma SizeIncrementExamples()
    ensures SizeIncrement("0.001") == Ok(3)
    ensures SizeIncrement("1") == Ok(0)
    ensures SizeIncrement("10") == Ok(0)
    ensures SizeIncrement("0.01") == Ok(2)
  {
    SizeIncrementDecimals("0", "001");
    assert "0" + "." + "001" == "0.001";
    SizeIncrementDecimals("0", "01");
    assert "0" + "." + "01" == "0.01";
  }

  // ---------------------------------------------------------------------------
  // Price levels
  // ---------------------------------------------------------------------------

  /** Whether a level at price `a` belongs before one at price `b`: asks are kept
      ascending (`ascending`), bids descending. */
  predicate Ahead(a: real, b: real, ascending: bool)
  {
    if ascending then a < b else a > b
  }

  /** The order `binary_search_by` needs: no level ahead of an earlier one. */
  predicate Sorted(book: seq<Order>, ascending: bool)
  {
    forall i, j :: 0 <= i < j < |book| ==> !Ahead(book[j].price, book[i].price, ascending)
  }

  /** The shape of a well-formed book: one level per price, best price first. */
  predicate StrictlySorted(book: seq<Order>, ascending: bool)
  {
    forall i, j :: 0 <= i < j < |book| ==> Ahead(book[i].price, book[j].price, ascending)
  }

  lemma StrictlySortedIsSorted(book: seq<Order>, ascending: bool)
    requires StrictlySorted(book, ascending)
    ensures Sorted(book, ascending)
  {
  }

  datatype Ordering = Less | Equal | Greater

  /** `f64::partial_cmp` on numbers. */
  function Cmp(x: real, y: real): Ordering
  {
    if x < y then Less else if x > y then Greater else Equal
  }

  /** The comparator given to `binary_search_by`: the level's price against the new
      price for asks, the new price against the level's price for bids. */
  function Compare(levelPrice: real, price: real, ascending: bool): (c: Ordering)
    ensures c == Less <==> Ahead(levelPrice, price, ascending)
    ensures c == Greater <==> Ahead(price, levelPrice, ascending)
    ensures c == Equal <==> levelPrice == price
  {
    if ascending then Cmp(levelPrice, price) else Cmp(price, levelPrice)
  }

  /** The result of `binary_search_by`: `Ok(index)` of a level at the searched
      price, or `Err(index)` where such a level would be inserted. */
  datatype Position = Found(index: nat) | Missing(index: nat)

  /** `binary_search_by` with the comparator `Compare`. The index is always in
      range; on a sorted book a `Found` index holds the price and a `Missing`
      index splits the book into the levels ahead of the price and those behind it
      (on an unsorted book Rust leaves the result unspecified). */
  method BinarySearch(book: seq<Order>, price: real, ascending: bool) returns (position: Position)
    ensures position.Found? ==> position.index < |book| && book[position.index].price == price
    ensures position.Missing? ==> position.index <= |book|
    ensures Sorted(book, ascending) && position.Missing? ==>
      forall i :: 0 <= i < position.index ==> Ahead(book[i].price, price, ascending)
    ensures Sorted(book, ascending) && position.Missing? ==>
      forall i :: position.index <= i < |book| ==> Ahead(price, book[i].price, ascending)
  {
    var left, right := 0, |book|;
    while left < right
      invariant 0 <= left <= right <= |book|
      invariant Sorted(book, ascending) ==> forall i :: 0 <= i < left ==> Ahead(book[i].price, price, ascending)
      invariant Sorted(book, ascending) ==> forall i :: right <= i < |book| ==> Ahead(price, book[i].price, ascending)
    {
      var mid := left + (right - left) / 2;
      match Compare(book[mid].price, price, ascending)
      case Less =>
        left := mid + 1;
      case Greater =>
        right := mid;
      case Equal =>
        return Found(mid);
    }
    position := Missing(left);
  }

  /** `add_to_orders`: at a found position the level is removed and, when the new
      amount is positive, the new level takes its place; at a missing position the
      new level is inserted there when its amount is positive. */
  method AddToOrders(orders: seq<Order>, newOrder: Order, position: Position) returns (updated: seq<Order>)
    requires position.Found? ==> position.index < |orders|
    requires position.Missing? ==> position.index <= |orders|
    ensures position.Found? && newOrder.amount > 0.0 ==> updated == orders[position.index := newOrder]
    ensures position.Found? && newOrder.amount <= 0.0 ==>
      updated == orders[..position.index] + orders[position.index + 1..]
    ensures position.Missing? && newOrder.amount > 0.0 ==>
      updated == orders[..position.index] + [newOrder] + orders[position.index..]
    ensures position.Missing? && newOrder.amount <= 0.0 ==> updated == orders
  {
    updated := orders;
    match position
    case Found(pos) =>
      updated := updated[..pos] + updated[pos + 1..];
      if newOrder.amount > 0.0 {
        updated := updated[..pos] + [newOrder] + updated[pos..];
      }
    case Missing(pos) =>
      if newOrder.amount > 0.0 {
        updated := updated[..pos] + [newOrder] + updated[pos..];
      }
  }

  /** `add_to_ask_orders`: applies one level update to an ascending book. */
  method AddToAskOrders(orders: seq<Order>, newOrder: Order) returns (updated: seq<Order>)
    ensures StrictlySorted(orders, true) ==> updated == Updated(orders, newOrder, true)
  {
    updated := AddToBook(orders, newOrder, true);
  }

  /** `add_to_bid_orders`: applies one level update to a descending book. */
  method AddToBidOrders(orders: seq<Order>, newOrder: Order) returns (updated: seq<Order>)
    ensures StrictlySorted(orders, false) ==> updated == Updated(orders, newOrder, false)
  {
    updated := AddToBook(orders, newOrder, false);
  }

  /** The body shared by `add_to_ask_orders` and `add_to_bid_orders`. */
  method AddToBook(orders: seq<Order>, newOrder: Order, ascending: bool) returns (updated: seq<Order>)
    ensures StrictlySorted(orders, ascending) ==> updated == Updated(orders, newOrder, ascending)
  {
    var position := BinarySearch(orders, newOrder.price, ascending);
    updated := AddToOrders(orders, newOrder, position);
    if StrictlySorted(orders, ascending) {
      StrictlySortedIsSorted(orders, ascending);
      match position
      case Found(i) =>
        ReplaceLevel(orders, newOrder, ascending, i);
      case Missing(i) =>
        InsertLevel(orders, newOrder, ascending, i);
    }
  }

  // ---------------------------------------------------------------------------
  // Reference definition of a level update
  // ---------------------------------------------------------------------------

  /** The book without its levels at `price`, in the same order. */
  function WithoutPrice(book: seq<Order>, price: real): (r: seq<Order>)
    ensures |r| <= |book|
  {
    if book == [] then []
    else (if book[0].price == price then [] else [book[0]]) + WithoutPrice(book[1..], price)
  }

  /** `level` placed after every level ahead of it. */
  function InsertSorted(book: seq<Order>, level: Order, ascending: bool): (r: seq<Order>)
    ensures |r| == |book| + 1
  {
    if book == [] || !Ahead(book[0].price, level.price, ascending) then [level] + book
    else [book[0]] + InsertSorted(book[1..], level, ascending)
  }

  /** What a level update means, independently of how the book is searched: the
      old level at that price goes, and the new one is placed in order when its
      amount is positive. */
  function Updated(book: seq<Order>, level: Order, ascending: bool): seq<Order>
  {
    var rest := WithoutPrice(book, level.price);
    if level.amount > 0.0 then InsertSorted(rest, level, ascending) else rest
  }

  lemma {:induction false} WithoutMembers(book: seq<Order>, price: real)
    ensures forall o :: o in WithoutPrice(book, price) <==> o in book && o.price != price
  {
    if book != [] {
      WithoutMembers(book[1..], price);
      assert book == [book[0]] + book[1..];
    }
  }

  lemma {:induction false} InsertMembers(book: seq<Order>, level: Order, ascending: bool)
    ensures forall o :: o in InsertSorted(book, level, ascending) <==> o in book || o == level
  {
    if book != [] && Ahead(book[0].price, level.price, ascending) {
      InsertMembers(book[1..], level, ascending);
      assert book == [book[0]] + book[1..];
    }
  }

  /** After an update the book holds exactly the levels at other prices it held
      before, plus the new level if its amount is positive. */
  lemma UpdatedMembers(book: seq<Order>, level: Order, ascending: bool)
    ensures forall o :: o in Updated(book, level, ascending) <==>
      (o in book && o.price != level.price) || (o == level && level.amount > 0.0)
  {
    WithoutMembers(book, level.price);
    InsertMembers(WithoutPrice(book, level.price), level, ascending);
  }

  lemma {:induction false} WithoutAbsent(book: seq<Order>, price: real)
    requires forall i :: 0 <= i < |book| ==> book[i].price != price
    ensures WithoutPrice(book, price) == book
  {
    if book != [] {
      WithoutAbsent(book[1..], price);
    }
  }

  lemma {:induction false} WithoutConcat(a: seq<Order>, b: seq<Order>, price: real)
    ensures WithoutPrice(a + b, price) == WithoutPrice(a, price) + WithoutPrice(b, price)
  {
    if a != [] {
      assert (a + b)[0] == a[0];
      assert (a + b)[1..] == a[1..] + b;
      WithoutConcat(a[1..], b, price);
      var head := if a[0].price == price then [] else [a[0]];
      calc {
        WithoutPrice(a + b, price);
        head + WithoutPrice(a[1..] + b, price);
        head + (WithoutPrice(a[1..], price) + WithoutPrice(b, price));
        (head + WithoutPrice(a[1..], price)) + WithoutPrice(b, price);
        WithoutPrice(a, price) + WithoutPrice(b, price);
      }
    } else {
      assert a + b == b;
    }
  }

  /** Inserting at the boundary between the levels ahead of `level` and the rest. */
  lemma {:induction false} InsertAtBoundary(a: seq<Order>, b: seq<Order>, level: Order, ascending: bool)
    requires forall i :: 0 <= i < |a| ==> Ahead(a[i].price, level.price, ascending)
    requires b != [] ==> !Ahead(b[0].price, level.price, ascending)
    ensures InsertSorted(a + b, level, ascending) == a + [level] + b
  {
    if a != [] {
      assert (a + b)[0] == a[0];
      assert (a + b)[1..] == a[1..] + b;
      InsertAtBoundary(a[1..], b, level, ascending);
    }
  }

  /** An update at a price the sorted book holds at `i` replaces that level in
      place (same length) when the amount is positive, and removes it otherwise. */
  lemma ReplaceLevel(book: seq<Order>, level: Order, ascending: bool, i: nat)
    requires StrictlySorted(book, ascending)
    requires i < |book| && book[i].price == level.price
    ensures level.amount > 0.0 ==> Updated(book, level, ascending) == book[i := level]
    ensures level.amount <= 0.0 ==> Updated(book, level, ascending) == book[..i] + book[i + 1..]
  {
    var p := level.price;
    var before, after := book[..i], book[i + 1..];
    assert forall j :: 0 <= j < |before| ==> Ahead(before[j].price, p, ascending) by {
      forall j | 0 <= j < |before| ensures Ahead(before[j].price, p, ascending) {
        assert before[j] == book[j];
      }
    }
    assert forall j :: 0 <= j < |after| ==> Ahead(p, after[j].price, ascending) by {
      forall j | 0 <= j < |after| ensures Ahead(p, after[j].price, ascending) {
        assert after[j] == book[i + 1 + j];
      }
    }
    WithoutAround(before, book[i], after, ascending);
    assert book == before + [book[i]] + after;
    if level.amount > 0.0 {
      InsertAtBoundary(before, after, level, ascending);
      assert before + [level] + after == book[i := level];
    }
  }

  /** Removing the level at `mid`'s price from a book whose other levels all lie on
      either side of it. */
  lemma WithoutAround(before: seq<Order>, mid: Order, after: seq<Order>, ascending: bool)
    requires forall j :: 0 <= j < |before| ==> Ahead(before[j].price, mid.price, ascending)
    requires forall j :: 0 <= j < |after| ==> Ahead(mid.price, after[j].price, ascending)
    ensures WithoutPrice(before + [mid] + after, mid.price) == before + after
  {
    var p := mid.price;
    assert forall j :: 0 <= j < |before| ==> before[j].price != p;
    WithoutAbsent(before, p);
    assert forall j :: 0 <= j < |after| ==> after[j].price != p;
    WithoutAbsent(after, p);
    assert [mid][1..] == [];
    assert WithoutPrice([mid], p) == [];
    WithoutConcat(before, [mid], p);
    assert WithoutPrice(before + [mid], p) == before + [];
    assert before + [] == before;
    WithoutConcat(before + [mid], after, p);
  }

  /** An update at a price the sorted book lacks inserts the level at the search
      position when the amount is positive, and leaves the book unchanged otherwise. */
  lemma InsertLevel(book: seq<Order>, level: Order, ascending: bool, i: nat)
    requires i <= |book|
    requires forall j :: 0 <= j < i ==> Ahead(book[j].price, level.price, ascending)
    requires forall j :: i <= j < |book| ==> Ahead(level.price, book[j].price, ascending)
    ensures level.amount > 0.0 ==> Updated(book, level, ascending) == book[..i] + [level] + book[i..]
    ensures level.amount <= 0.0 ==> Updated(book, level, ascending) == book
  {
    WithoutAbsent(book, level.price);
    if level.amount > 0.0 {
      assert book == book[..i] + book[i..];
      InsertAtBoundary(book[..i], book[i..], level, ascending);
    }
  }

  lemma {:induction false} WithoutKeepsSorted(book: seq<Order>, price: real, ascending: bool)
    requires StrictlySorted(book, ascending)
    ensures StrictlySorted(WithoutPrice(book, price), ascending)
  {
    if book != [] {
      WithoutKeepsSorted(book[1..], price, ascending);
      var rest := WithoutPrice(book[1..], price);
      WithoutMembers(book[1..], price);
      forall o | o in rest
        ensures Ahead(book[0].price, o.price, ascending)
      {
        var j :| 0 <= j < |book[1..]| && book[1..][j] == o;
        assert book[j + 1] == o;
      }
    }
  }

  lemma {:induction false} InsertKeepsSorted(book: seq<Order>, level: Order, ascending: bool)
    requires StrictlySorted(book, ascending)
    requires forall i :: 0 <= i < |book| ==> book[i].price != level.price
    ensures StrictlySorted(InsertSorted(book, level, ascending), ascending)
  {
    if book == [] {
    } else if !Ahead(book[0].price, level.price, ascending) {
      assert Ahead(level.price, book[0].price, ascending);
    } else {
      InsertKeepsSorted(book[1..], level, ascending);
      var rest := InsertSorted(book[1..], level, ascending);
      InsertMembers(book[1..], level, ascending);
      forall o | o in rest
        ensures Ahead(book[0].price, o.price, ascending)
      {
        if o != level {
          var j :| 0 <= j < |book[1..]| && book[1..][j] == o;
          assert book[j + 1] == o;
        }
      }
    }
  }

  /** A level update keeps a well-formed book well formed: strictly ascending asks
      stay strictly ascending, strictly descending bids stay strictly descending. */
  lemma UpdatedKeepsSorted(book: seq<Order>, level: Order, ascending: bool)
    requires StrictlySorted(book, ascending)
    ensures StrictlySorted(Updated(book, level, ascending), ascending)
  {
    var rest := WithoutPrice(book, level.price);
    WithoutKeepsSorted(book, level.price, ascending);
    if level.amount > 0.0 {
      WithoutMembers(book, level.price);
      assert forall i :: 0 <= i < |rest| ==> rest[i] in rest;
      InsertKeepsSorted(rest, level, ascending);
    }
  }

  lemma {:induction false} WithoutInsert(book: seq<Order>, level: Order, ascending: bool)
    ensures WithoutPrice(InsertSorted(book, level, ascending), level.price) == WithoutPrice(book, level.price)
  {
    if book != [] && Ahead(book[0].price, level.price, ascending) {
      WithoutInsert(book[1..], level, ascending);
    } else {
      assert ([level] + book)[1..] == book;
    }
  }

  /** Every level at another price survives an update with the same amount and in
      the same relative order. */
  lemma UpdatedKeepsOtherLevels(book: seq<Order>, level: Order, ascending: bool)
    ensures WithoutPrice(Updated(book, level, ascending), level.price) == WithoutPrice(book, level.price)
  {
    var rest := WithoutPrice(book, level.price);
    WithoutMembers(book, level.price);
    assert forall i :: 0 <= i < |rest| ==> rest[i] in rest;
    WithoutAbsent(rest, level.price);
    if level.amount > 0.0 {
      WithoutInsert(rest, level, ascending);
    }
  }

  /** `unit_test_add_to_ask_orders`, a new price between two levels. */
  method AskInsertScenario()
  {
    var asks := [Order(0.0, 1.0), Order(1.0, 2.0), Order(3.0, 1.0)];
    var updated := AddToAskOrders(asks, Order(2.0, 1.0));
    InsertLevel(asks, Order(2.0, 1.0), true, 2);
    assert updated == [Order(0.0, 1.0), Order(1.0, 2.0), Order(2.0, 1.0), Order(3.0, 1.0)];
  }

  /** `unit_test_add_to_ask_orders`, a new amount at an existing price. */
  method AskReplaceScenario()
  {
    var asks := [Order(0.0, 1.0), Order(1.0, 2.0), Order(2.0, 1.0)];
    var updated := AddToAskOrders(asks, Order(2.0, 2.0));
    ReplaceLevel(asks, Order(2.0, 2.0), true, 2);
    assert updated == [Order(0.0, 1.0), Order(1.0, 2.0), Order(2.0, 2.0)];
  }

  /** `unit_test_add_to_ask_orders`, amount 0 removes the level. */
  method AskRemoveScenario()
  {
    var asks := [Order(0.0, 1.0), Order(1.0, 2.0), Order(2.0, 1.0), Order(3.0, 1.0)];
    var updated := AddToAskOrders(asks, Order(2.0, 0.0));
    ReplaceLevel(asks, Order(2.0, 0.0), true, 2);
    assert updated == [Order(0.0, 1.0), Order(1.0, 2.0), Order(3.0, 1.0)];
  }

  /** `unit_test_add_to_bid_orders`, a new price in a descending book. */
  method BidInsertScenario()
  {
    var bids := [Order(3.0, 1.0), Order(1.0, 2.0), Order(0.0, 1.0)];
    var updated := AddToBidOrders(bids, Order(2.0, 1.0));
    InsertLevel(bids, Order(2.0, 1.0), false, 1);
    assert updated == [Order(3.0, 1.0), Order(2.0, 1.0), Order(1.0, 2.0), Order(0.0, 1.0)];
  }

  // ---------------------------------------------------------------------------
  // The snapshot-then-delta store
  // ---------------------------------------------------------------------------

  /** A sequence of level updates applied one after the other. */
  function ApplyAll(book: seq<Order>, updates: seq<Order>, ascending: bool): seq<Order>
    decreases |updates|
  {
    if updates == [] then book else ApplyAll(Updated(book, updates[0], ascending), updates[1..], ascending)
  }

  /** Applying any number of updates keeps a well-formed book well formed. */
  lemma {:induction false} ApplyAllKeepsSorted(book: seq<Order>, updates: seq<Order>, ascending: bool)
    requires StrictlySorted(book, ascending)
    ensures StrictlySorted(ApplyAll(book, updates, ascending), ascending)
    decreases |updates|
  {
    if updates != [] {
      UpdatedKeepsSorted(book, updates[0], ascending);
      ApplyAllKeepsSorted(Updated(book, updates[0], ascending), updates[1..], ascending);
    }
  }

  /** Bids strictly descending and asks strictly ascending. */
  predicate WellFormed(pair: Pair)
  {
    StrictlySorted(pair.bidOrders, false) && StrictlySorted(pair.askOrders, true)
  }

  /** The `intermediate_pair_store` of the event stream: the latest book of every
      instrument seen so far. */
  class PairStore {
    var pairs: map<Uuid, Pair>

    /** Every stored book is filed under its own id and is well formed. */
    ghost predicate Valid()
      reads this
    {
      forall id :: id in pairs ==> pairs[id].id == id && WellFormed(pairs[id])
    }

    constructor ()
      ensures pairs == map[]
      ensures Valid()
    {
      pairs := map[];
    }

    /** `create_updated_pair`: the first depth message of an instrument is stored and
        returned as it is; a later one is applied level by level (bids, then asks) to
        the stored book, and the updated book is both stored and returned. */
    method CreateUpdatedPair(id: Uuid, bidOrders: seq<Order>, askOrders: seq<Order>) returns (pair: Pair)
      modifies this
      ensures pairs == old(pairs)[id := pair]
      ensures id !in old(pairs) ==> pair == Pair(id, bidOrders, askOrders)
      ensures id in old(pairs) ==> pair.id == old(pairs)[id].id
      ensures id in old(pairs) && WellFormed(old(pairs)[id]) ==>
        pair.bidOrders == ApplyAll(old(pairs)[id].bidOrders, bidOrders, false) &&
        pair.askOrders == ApplyAll(old(pairs)[id].askOrders, askOrders, true)
      ensures old(Valid()) && (id !in old(pairs) ==> WellFormed(Pair(id, bidOrders, askOrders))) ==> Valid()
    {
      if id in pairs {
        var stored := pairs[id];
        var bids := stored.bidOrders;
        for i := 0 to |bidOrders|
          invariant pairs == old(pairs)
          invariant StrictlySorted(stored.bidOrders, false) ==>
            StrictlySorted(bids, false) &&
            ApplyAll(bids, bidOrders[i..], false) == ApplyAll(stored.bidOrders, bidOrders, false)
        {
          ghost var before := bids;
          bids := AddToBidOrders(bids, bidOrders[i]);
          if StrictlySorted(stored.bidOrders, false) {
            UpdatedKeepsSorted(before, bidOrders[i], false);
            assert bidOrders[i..][1..] == bidOrders[i + 1..];
          }
        }
        var asks := stored.askOrders;
        for i := 0 to |askOrders|
          invariant pairs == old(pairs)
          invariant StrictlySorted(stored.askOrders, true) ==>
            StrictlySorted(asks, true) &&
            ApplyAll(asks, askOrders[i..], true) == ApplyAll(stored.askOrders, askOrders, true)
        {
          ghost var before := asks;
          asks := AddToAskOrders(asks, askOrders[i]);
          if StrictlySorted(stored.askOrders, true) {
            UpdatedKeepsSorted(before, askOrders[i], true);
            assert askOrders[i..][1..] == askOrders[i + 1..];
          }
        }
        pair := Pair(stored.id, bids, asks);
        pairs := pairs[id := pair];
      } else {
        pair := Pair(id, bidOrders, askOrders);
        pairs := pairs[id := pair];
      }
    }
  }

  // ---------------------------------------------------------------------------
  // Subscription messages
  // ---------------------------------------------------------------------------

  datatype Instrument = Instrument(instrumentId: string)

  const DepthChannel: string := "spot/depth:"

  /** The `args` of one subscription: the depth channel of each instrument, in order. */
  function SubscriptionArgs(instruments: seq<Instrument>): (args: seq<string>)
    ensures |args| == |instruments|
    ensures forall i :: 0 <= i < |args| ==> args[i] == DepthChannel + instruments[i].instrumentId
  {
    if instruments == [] then []
    else SubscriptionArgs(instruments[..|instruments| - 1]) + [DepthChannel + instruments[|instruments| - 1].instrumentId]
  }

  /** A string as Rust's Debug formatting prints it: in double quotes (the instrument ids
      contain nothing it would escape). */
  function Quoted(s: string): string
  {
    "\"" + s + "\""
  }

  /** The items of a `Vec<String>` as Debug formatting prints them, separated by ", ". */
  function QuotedItems(items: seq<string>): string
  {
    if items == [] then ""
    else if |items| == 1 then Quoted(items[0])
    else Quoted(items[0]) + ", " + QuotedItems(items[1..])
  }

  /** The JSON subscribe request: operation "subscribe" with the arguments as a list. */
  function SubscribeMessage(args: seq<string>): string
  {
    "{\"op\": \"subscribe\", \"args\": [" + QuotedItems(args) + "]}"
  }

  /** The `args` of every message, one entry per chunk of 100 instruments. */
  function ChunkArgs(chunks: seq<seq<Instrument>>): (r: seq<seq<string>>)
    ensures |r| == |chunks|
    ensures forall k :: 0 <= k < |r| ==> r[k] == SubscriptionArgs(chunks[k])
  {
    if chunks == [] then [] else [SubscriptionArgs(chunks[0])] + ChunkArgs(chunks[1..])
  }

  /** `to_subscription_message`: one subscribe message per chunk of 100 instruments. */
  function ToSubscriptionMessage(instruments: seq<Instrument>): (messages: seq<string>)
    ensures |messages| == (|instruments| + WebsocketChunkSize - 1) / WebsocketChunkSize
  {
    Chunking.ChunkBounds(instruments, WebsocketChunkSize);
    var args := ChunkArgs(Chunking.Chunks(instruments, WebsocketChunkSize));
    seq(|args|, k requires 0 <= k < |args| => SubscribeMessage(args[k]))
  }

  /** Message `k` subscribes to instruments `100k .. 100k + 99` (cut at the end), in
      input order. */
  lemma SubscriptionMessageAt(instruments: seq<Instrument>, k: nat)
    requires k < |ToSubscriptionMessage(instruments)|
    ensures 100 * k < |instruments|
    ensures ToSubscriptionMessage(instruments)[k]
         == SubscribeMessage(SubscriptionArgs(instruments[100 * k .. Min(100 * k + 100, |instruments|)]))
  {
    Chunking.ChunkAt(instruments, WebsocketChunkSize, k);
  }

  lemma {:induction false} ArgsOfConcat(a: seq<Instrument>, b: seq<Instrument>)
    ensures SubscriptionArgs(a + b) == SubscriptionArgs(a) + SubscriptionArgs(b)
  {
    var l, r := SubscriptionArgs(a + b), SubscriptionArgs(a) + SubscriptionArgs(b);
    assert |l| == |r|;
    forall i | 0 <= i < |l|
      ensures l[i] == r[i]
    {
      if i < |a| {
        assert (a + b)[i] == a[i];
      } else {
        assert (a + b)[i] == b[i - |a|];
      }
    }
  }

  lemma {:induction false} ArgsOfFlatten(chunks: seq<seq<Instrument>>)
    ensures Chunking.Flatten(ChunkArgs(chunks)) == SubscriptionArgs(Chunking.Flatten(chunks))
  {
    if chunks != [] {
      ArgsOfFlatten(chunks[1..]);
      ArgsOfConcat(chunks[0], Chunking.Flatten(chunks[1..]));
      assert ChunkArgs(chunks)[1..] == ChunkArgs(chunks[1..]);
    }
  }

  /** Across all messages, the `args` are the depth channels of all instruments in
      input order: nothing is lost, repeated or reordered by the chunking. */
  lemma SubscriptionArgsInOrder(instruments: seq<Instrument>)
    ensures Chunking.Flatten(ChunkArgs(Chunking.Chunks(instruments, WebsocketChunkSize))) == SubscriptionArgs(instruments)
  {
    ArgsOfFlatten(Chunking.Chunks(instruments, WebsocketChunkSize));
    Chunking.FlattenChunks(instruments, WebsocketChunkSize);
  }

  lemma ExampleArgs()
    ensures SubscriptionArgs([Instrument("LTC-BTC"), Instrument("ETH-USDT")])
         == ["spot/depth:LTC-BTC", "spot/depth:ETH-USDT"]
  {
    assert DepthChannel + "LTC-BTC" == "spot/depth:LTC-BTC";
    assert DepthChannel + "ETH-USDT" == "spot/depth:ETH-USDT";
  }

  /** `test_make_subscription_message` (the expected text is written in pieces:
      the opening, each quoted argument with its separator, and the closing). */
  lemma SubscriptionMessageExample()
    ensures ToSubscriptionMessage([Instrument("LTC-BTC"), Instrument("ETH-USDT")])
         == ["{\"op\": \"subscribe\", \"args\": [" + "\"spot/depth:LTC-BTC\"" + ", " + "\"spot/depth:ETH-USDT\"" + "]}"]
  {
    var instruments := [Instrument("LTC-BTC"), Instrument("ETH-USDT")];
    assert Chunking.Chunks(instruments, WebsocketChunkSize) == [instruments];
    ExampleArgs();
    var first, second := "spot/depth:LTC-BTC", "spot/depth:ETH-USDT";
    assert [first, second][1..] == [second];
    assert Quoted(first) == "\"spot/depth:LTC-BTC\"";
    assert Quoted(second) == "\"spot/depth:ETH-USDT\"";
    var open, q1, q2 := "{\"op\": \"subscribe\", \"args\": [", Quoted(first), Quoted(second);
    assert QuotedItems([first, second]) == q1 + ", " + q2;
    var message := SubscribeMessage(SubscriptionArgs(instruments));
    assert message == open + (q1 + ", " + q2) + "]}";
    assert open + (q1 + ", " + q2) + "]}" == open + q1 + ", " + q2 + "]}";
    assert ToSubscriptionMessage(instruments) == [message];
  }
}
