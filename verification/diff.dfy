/** The per-cycle stock diff: walk the normalised items in list order, compare
    each item's raw status with the stored status of its SKU, queue a
    notification and overwrite the stored status on every mismatch. Pure: the
    loaded map and the item list go in, the queue and the map to save come out.
    The queue is kept as the notified items; the text sent for each is
    `Message(item)`, a pure function of the item. */
module StockDiff {
  import opened Records

  /** The persisted state: SKU to the last raw status string seen. */
  type StatusMap = map<string, string>

  /** What one diff produces: the notified items in queue order, and the map
      to save. */
  datatype DiffResult = DiffResult(notified: seq<Item>, state: StatusMap)

  /** The texts of a queue of notified items, in order. */
  function Messages(notified: seq<Item>): seq<string> {
    seq(|notified|, i requires 0 <= i < |notified| => Message(notified[i]))
  }

  /** The stored status of the item's SKU is missing or differs from the
      item's status (`previous[sku] !== status`). A SKU never stored always
      counts as changed, whatever the status. */
  function Changed(state: StatusMap, it: Item): (changed: bool)
    ensures it.sku !in state ==> changed
  {
    it.sku !in state || state[it.sku] != it.status
  }

  /** An item is changed exactly when writing its status into the map would
      alter the map: the skipped write of an unchanged item loses nothing. */
  lemma {:induction false} ChangedIffWriteAlters(state: StatusMap, it: Item)
    ensures Changed(state, it) <==> state[it.sku := it.status] != state
  {
    if Changed(state, it) && it.sku in state {
      assert state[it.sku := it.status][it.sku] != state[it.sku];
    }
  }

  /** The diff over a whole list, defined on its last item: the list without
      it is diffed first, then that item is compared against the map so far. */
  function Diff(state: StatusMap, items: seq<Item>): (r: DiffResult)
    ensures |r.notified| <= |items|
    ensures forall k :: k in state ==> k in r.state
    ensures forall i :: 0 <= i < |items| ==> items[i].sku in r.state
    decreases |items|
  {
    if |items| == 0 then DiffResult([], state)
    else
      var prev := Diff(state, items[..|items| - 1]);
      var it := items[|items| - 1];
      assert forall i :: 0 <= i < |items| - 1 ==> items[..|items| - 1][i] == items[i];
      if Changed(prev.state, it) then
        DiffResult(prev.notified + [it], prev.state[it.sku := it.status])
      else
        prev
  }

  /** Reference for the map: the loaded map overwritten, in list order, by the
      status of every item, with no comparison at all. */
  function Overwrite(state: StatusMap, items: seq<Item>): StatusMap
    decreases |items|
  {
    if |items| == 0 then state
    else Overwrite(state, items[..|items| - 1])[items[|items| - 1].sku := items[|items| - 1].status]
  }

  /** Item `i` is notified: its status differs from the map as left by the
      items before it. */
  predicate ChangedAt(state: StatusMap, items: seq<Item>, i: nat)
    requires i < |items|
  {
    Changed(Overwrite(state, items[..i]), items[i])
  }

  /** Reference for the queue: the positions of the notified items. */
  function ChangedIndices(state: StatusMap, items: seq<Item>): seq<nat>
    decreases |items|
  {
    if |items| == 0 then []
    else
      var n := |items| - 1;
      ChangedIndices(state, items[..n]) + (if ChangedAt(state, items, n) then [n] else [])
  }

  /** Every SKU carries one status throughout the list. */
  predicate SkuConsistent(items: seq<Item>) {
    forall i, j :: 0 <= i < |items| && 0 <= j < |items| && items[i].sku == items[j].sku ==>
      items[i].status == items[j].status
  }

  /** The stored status of every item's SKU equals the item's status. */
  predicate Settled(state: StatusMap, items: seq<Item>) {
    forall i :: 0 <= i < |items| ==> !Changed(state, items[i])
  }

  /** All SKUs of the list are different. */
  predicate DistinctSkus(items: seq<Item>) {
    forall i, j :: 0 <= i < j < |items| ==> items[i].sku != items[j].sku
  }

  // ---------------------------------------------------------------------
  // The map

  /** The map the diff leaves is the loaded map overwritten by every item:
      updating only on a mismatch loses nothing. */
  lemma {:induction false} DiffStateIsOverwrite(state: StatusMap, items: seq<Item>)
    ensures Diff(state, items).state == Overwrite(state, items)
    decreases |items|
  {
    if |items| > 0 {
      var n := |items| - 1;
      DiffStateIsOverwrite(state, items[..n]);
      var prev := Diff(state, items[..n]);
      if !Changed(prev.state, items[n]) {
        assert prev.state[items[n].sku := items[n].status] == prev.state;
      }
    }
  }

  /** Last write wins: for an item no later item shares a SKU with, the map
      after the diff holds that item's status. */
  lemma {:induction false} LastWriteWins(state: StatusMap, items: seq<Item>, i: nat)
    requires i < |items|
    requires forall j :: i < j < |items| ==> items[j].sku != items[i].sku
    ensures items[i].sku in Diff(state, items).state
    ensures Diff(state, items).state[items[i].sku] == items[i].status
    decreases |items|
  {
    var n := |items| - 1;
    if i < n {
      var init := items[..n];
      assert init[i] == items[i];
      LastWriteWins(state, init, i);
    }
  }

  /** No pruning: a SKU that no item carries keeps exactly its loaded entry,
      or stays absent. */
  lemma {:induction false} NoPruning(state: StatusMap, items: seq<Item>, sku: string)
    requires forall i :: 0 <= i < |items| ==> items[i].sku != sku
    ensures sku in Diff(state, items).state <==> sku in state
    ensures sku in state ==> Diff(state, items).state[sku] == state[sku]
    decreases |items|
  {
    if |items| > 0 {
      var init := items[..|items| - 1];
      assert forall i :: 0 <= i < |init| ==> init[i] == items[i];
      NoPruning(state, init, sku);
    }
  }

  /** The keys after the diff are the loaded keys plus the SKUs of the list. */
  lemma {:induction false} DiffKeys(state: StatusMap, items: seq<Item>)
    ensures Diff(state, items).state.Keys == state.Keys + (set i | 0 <= i < |items| :: items[i].sku)
  {
    var skus := set i | 0 <= i < |items| :: items[i].sku;
    var keys := Diff(state, items).state.Keys;
    forall k | k in keys
      ensures k in state.Keys + skus
    {
      if k !in skus {
        NoPruning(state, items, k);
      }
    }
  }

  // ---------------------------------------------------------------------
  // The queue

  /** The reference positions are increasing and are exactly the items
      whose status differs from the map as the items before them left it. */
  lemma {:induction false} ChangedIndicesExact(state: StatusMap, items: seq<Item>)
    ensures var idx := ChangedIndices(state, items);
      && (forall j :: 0 <= j < |idx| ==> idx[j] < |items|)
      && (forall j, j' :: 0 <= j < j' < |idx| ==> idx[j] < idx[j'])
      && (forall i :: 0 <= i < |items| ==> (i in idx <==> ChangedAt(state, items, i)))
    decreases |items|
  {
    if |items| > 0 {
      var n := |items| - 1;
      var init := items[..n];
      ChangedIndicesExact(state, init);
      var idx0 := ChangedIndices(state, init);
      assert ChangedIndices(state, items) == idx0 + (if ChangedAt(state, items, n) then [n] else []);
      assert n !in idx0;
      forall i | 0 <= i < n
        ensures ChangedAt(state, init, i) == ChangedAt(state, items, i)
      {
        assert init[..i] == items[..i];
      }
    }
  }

  /** The queue holds the items at the reference positions, in order. */
  lemma {:induction false} NotifiedAtChangedIndices(state: StatusMap, items: seq<Item>)
    ensures var idx := ChangedIndices(state, items);
      && |Diff(state, items).notified| == |idx|
      && (forall j :: 0 <= j < |idx| ==> idx[j] < |items| && Diff(state, items).notified[j] == items[idx[j]])
    decreases |items|
  {
    if |items| > 0 {
      var n := |items| - 1;
      var init := items[..n];
      NotifiedAtChangedIndices(state, init);
      DiffStateIsOverwrite(state, init);
      var idx0 := ChangedIndices(state, init);
      forall j | 0 <= j < |idx0|
        ensures init[idx0[j]] == items[idx0[j]]
      {
      }
    }
  }

  /** Notifications are queued in list order, one per item whose status
      differs from the stored status of its SKU at the moment the item is
      visited; the queued text of each is its message. */
  lemma {:induction false} MessagesInListOrder(state: StatusMap, items: seq<Item>)
    ensures var idx := ChangedIndices(state, items);
      var msgs := Messages(Diff(state, items).notified);
      && |msgs| == |idx|
      && (forall j :: 0 <= j < |idx| ==> idx[j] < |items| && msgs[j] == Message(items[idx[j]]))
      && (forall j, j' :: 0 <= j < j' < |idx| ==> idx[j] < idx[j'])
      && (forall i :: 0 <= i < |items| ==> (i in idx <==> ChangedAt(state, items, i)))
  {
    ChangedIndicesExact(state, items);
    NotifiedAtChangedIndices(state, items);
  }

  /** First-seen semantics: the first item with a SKU absent from the loaded
      map is always notified, whatever its status. */
  lemma {:induction false} FirstSeenNotified(state: StatusMap, items: seq<Item>, i: nat)
    requires i < |items|
    requires items[i].sku !in state
    requires forall j :: 0 <= j < i ==> items[j].sku != items[i].sku
    ensures ChangedAt(state, items, i)
    ensures i in ChangedIndices(state, items)
  {
    var init := items[..i];
    assert forall j :: 0 <= j < |init| ==> init[j] == items[j];
    DiffStateIsOverwrite(state, init);
    NoPruning(state, init, items[i].sku);
    ChangedIndicesExact(state, items);
  }

  /** A quiet diff: nothing is queued exactly when every item is already
      settled in the loaded map, and then the map comes back unchanged. */
  lemma {:induction false} QuietIff(state: StatusMap, items: seq<Item>)
    ensures Diff(state, items).notified == [] <==> Settled(state, items)
    ensures Settled(state, items) ==> Diff(state, items).state == state
    decreases |items|
  {
    if |items| > 0 {
      var n := |items| - 1;
      var init := items[..n];
      QuietIff(state, init);
      assert forall i :: 0 <= i < n ==> init[i] == items[i];
      if Settled(state, items) {
        assert Settled(state, init);
      }
    }
  }

  /** The last position carrying the same SKU as position `i`. */
  function LastWithSku(items: seq<Item>, i: nat): (last: nat)
    requires i < |items|
    ensures i <= last < |items| && items[last].sku == items[i].sku
    ensures forall j :: last < j < |items| ==> items[j].sku != items[i].sku
    decreases |items| - i
  {
    if exists j :: i < j < |items| && items[j].sku == items[i].sku then
      var j :| i < j < |items| && items[j].sku == items[i].sku;
      LastWithSku(items, j)
    else
      i
  }

  /** After a diff, every item's SKU holds the item's status exactly when the
      list is SKU-consistent. */
  lemma {:induction false} SettledAfterDiffIff(state: StatusMap, items: seq<Item>)
    ensures Settled(Diff(state, items).state, items) <==> SkuConsistent(items)
  {
    var after := Diff(state, items).state;
    if SkuConsistent(items) {
      forall i | 0 <= i < |items|
        ensures !Changed(after, items[i])
      {
        var last := LastWithSku(items, i);
        LastWriteWins(state, items, last);
      }
    }
  }

  /** Idempotence: a second diff of the same list against the map the first
      one produced queues nothing and leaves the map unchanged, and it queues
      nothing only when the list is SKU-consistent. */
  lemma {:induction false} Idempotence(state: StatusMap, items: seq<Item>)
    ensures var after := Diff(state, items).state;
      && (Diff(after, items).notified == [] <==> SkuConsistent(items))
      && (SkuConsistent(items) ==> Diff(after, items) == DiffResult([], after))
  {
    var after := Diff(state, items).state;
    SettledAfterDiffIff(state, items);
    QuietIff(after, items);
  }

  /** Without a stored map and with distinct SKUs every item is notified, in
      list order. */
  lemma {:induction false} FreshStateNotifiesAll(items: seq<Item>)
    requires DistinctSkus(items)
    ensures Diff(map[], items).notified == items
    decreases |items|
  {
    if |items| > 0 {
      var n := |items| - 1;
      var init := items[..n];
      assert forall i :: 0 <= i < n ==> init[i] == items[i];
      FreshStateNotifiesAll(init);
      NoPruning(map[], init, items[n].sku);
      assert Changed(Diff(map[], init).state, items[n]);
      assert Diff(map[], items).notified == init + [items[n]];
      assert items == init + [items[n]];
    }
  }

  // ---------------------------------------------------------------------
  // The loop as written

  /** The diff of one more item of the list. */
  lemma {:induction false} DiffSnoc(state: StatusMap, items: seq<Item>, i: nat)
    requires i < |items|
    ensures var prev := Diff(state, items[..i]);
      Diff(state, items[..i + 1]) ==
        if Changed(prev.state, items[i]) then
          DiffResult(prev.notified + [items[i]], prev.state[items[i].sku := items[i].status])
        else prev
  {
    assert items[..i + 1][..i] == items[..i];
  }

  /** The loop of the stock check: normalise each record where it is visited,
      compare, queue the message text and overwrite. It queues exactly the
      messages of the items the diff of the normalised list notifies, and
      leaves exactly its map. */
  method DiffRecords(loaded: StatusMap, products: seq<RawRecord>) returns (messages: seq<string>, state: StatusMap)
    ensures messages == Messages(Diff(loaded, NormaliseAll(products)).notified)
    ensures state == Diff(loaded, NormaliseAll(products)).state
  {
    ghost var items := NormaliseAll(products);
    ghost var notified: seq<Item> := [];
    messages := [];
    state := loaded;
    var i := 0;
    while i < |products|
      invariant i <= |products|
      invariant DiffResult(notified, state) == Diff(loaded, items[..i])
      invariant |messages| == |notified|
      invariant forall j :: 0 <= j < |messages| ==> messages[j] == Message(notified[j])
    {
      var it := Normalise(products[i]);
      DiffSnoc(loaded, items, i);
      if it.sku !in state || state[it.sku] != it.status {
        messages := messages + [Message(it)];
        notified := notified + [it];
        state := state[it.sku := it.status];
      }
      i := i + 1;
    }
    assert items[..|products|] == items;
    assert messages == Messages(notified);
  }
}
