/** One polling cycle of the stock monitor, the startup "announce all" pass
    and the bounded run that chains them, each as a trace of abstract effects.
    The catalog fetch and the state-file load are parameters (what they
    returned); saving and sending are recorded effects. */
module Monitor {
  import opened Wrappers
  import opened Records
  import opened StockDiff

  /** The part of the catalog response the monitor reads:
      `searchedProducts.productDetails`, either level possibly missing. */
  datatype SearchedProducts = SearchedProducts(productDetails: Option<seq<RawRecord>>)
  datatype Payload = Payload(searchedProducts: Option<SearchedProducts>)

  /** `data.searchedProducts?.productDetails || []`: a missing level reads as
      an empty product list. */
  function Products(data: Payload): (products: seq<RawRecord>)
    ensures data.searchedProducts.Some? && data.searchedProducts.value.productDetails.Some? ==>
      products == data.searchedProducts.value.productDetails.value
    ensures products == [] <==>
      data.searchedProducts.None? || data.searchedProducts.value.productDetails.GetOr([]) == []
  {
    match data.searchedProducts
    case None => []
    case Some(found) => found.productDetails.GetOr([])
  }

  /** The state file's content as the loader returns it: the stored map, or
      the empty map when the file is missing or unreadable (`None`). */
  function LoadState(stored: Option<StatusMap>): StatusMap {
    stored.GetOr(map[])
  }

  /** The observable effects of the monitor, in the order they happen. */
  datatype Effect = Fetch | Load | Save(state: StatusMap) | Send(message: string)

  datatype Kind = FetchKind | LoadKind | SaveKind | SendKind

  function KindOf(e: Effect): Kind {
    match e
    case Fetch => FetchKind
    case Load => LoadKind
    case Save(_) => SaveKind
    case Send(_) => SendKind
  }

  /** How many effects of one kind a trace holds. */
  function Tally(trace: seq<Effect>, kind: Kind): nat
    decreases |trace|
  {
    if |trace| == 0 then 0
    else Tally(trace[..|trace| - 1], kind) + (if KindOf(trace[|trace| - 1]) == kind then 1 else 0)
  }

  /** One send per queued message, in queue order. */
  function Drain(messages: seq<string>): seq<Effect> {
    seq(|messages|, i requires 0 <= i < |messages| => Send(messages[i]))
  }

  /** The effects of one cycle of the stock check: fetch; stop when it
      returned nothing; otherwise load, diff, save the diffed map, then send
      the queued messages. So the fetch comes first and, when it returned
      nothing, nothing else happens; otherwise the state is loaded once, the
      new map is saved exactly once, and every send comes after the save,
      whether or not anything changed. */
  function CycleTrace(fetched: Option<Payload>, stored: Option<StatusMap>): (trace: seq<Effect>)
    ensures |trace| >= 1 && trace[0] == Fetch
    ensures fetched.None? <==> trace == [Fetch]
    ensures fetched.Some? ==> |trace| >= 3 && trace[1] == Load && trace[2].Save?
    ensures forall j :: 0 < j < |trace| ==> !trace[j].Fetch?
    ensures forall j :: 0 <= j < |trace| && trace[j].Load? ==> j == 1
    ensures forall j :: 0 <= j < |trace| && trace[j].Save? ==> j == 2
    ensures forall j :: 0 <= j < |trace| && trace[j].Send? ==> 2 < j
  {
    match fetched
    case None => [Fetch]
    case Some(data) =>
      var r := Diff(LoadState(stored), NormaliseAll(Products(data)));
      [Fetch, Load, Save(r.state)] + Drain(Messages(r.notified))
  }

  /** The effects of the startup pass: one fetch, then, if it returned data,
      one send per product, in list order, ungated by any stored state. It
      neither loads nor saves. */
  function StartupTrace(fetched: Option<Payload>): (trace: seq<Effect>)
    ensures |trace| >= 1 && trace[0] == Fetch
    ensures fetched.None? ==> trace == [Fetch]
    ensures fetched.Some? ==>
      && |trace| == 1 + |Products(fetched.value)|
      && forall i :: 0 <= i < |Products(fetched.value)| ==>
           trace[1 + i] == Send(Message(Normalise(Products(fetched.value)[i])))
    ensures forall j :: 0 < j < |trace| ==> trace[j].Send?
  {
    match fetched
    case None => [Fetch]
    case Some(data) => [Fetch] + Drain(Messages(NormaliseAll(Products(data))))
  }

  /** What one cycle had to work with: the fetch result and the state file. */
  datatype CycleInput = CycleInput(fetched: Option<Payload>, stored: Option<StatusMap>)

  /** The cycles of a run, one after the other. */
  function CyclesTrace(cycles: seq<CycleInput>): seq<Effect>
    decreases |cycles|
  {
    if |cycles| == 0 then []
    else
      var n := |cycles| - 1;
      CyclesTrace(cycles[..n]) + CycleTrace(cycles[n].fetched, cycles[n].stored)
  }

  /** A run of the monitor cut after finitely many cycles: the startup pass,
      then the cycles. */
  function RunTrace(startup: Option<Payload>, cycles: seq<CycleInput>): seq<Effect> {
    StartupTrace(startup) + CyclesTrace(cycles)
  }

  /** How many cycles got data from their fetch. */
  function Fetched(cycles: seq<CycleInput>): nat
    decreases |cycles|
  {
    if |cycles| == 0 then 0
    else Fetched(cycles[..|cycles| - 1]) + (if cycles[|cycles| - 1].fetched.Some? then 1 else 0)
  }

  // ---------------------------------------------------------------------
  // The loops as written

  /** The send loop of the startup pass: one notification per product, in
      list order, whatever the stored state says. */
  method SendInitialStatus(products: seq<RawRecord>) returns (sends: seq<Effect>)
    ensures |sends| == |products|
    ensures forall i :: 0 <= i < |products| ==> sends[i] == Send(Message(Normalise(products[i])))
  {
    sends := [];
    var i := 0;
    while i < |products|
      invariant i <= |products|
      invariant |sends| == i
      invariant forall j :: 0 <= j < i ==> sends[j] == Send(Message(Normalise(products[j])))
    {
      sends := sends + [Send(Message(Normalise(products[i])))];
      i := i + 1;
    }
  }

  /** One stock check as written: fetch, stop on no data, load, diff, save,
      then drain the queue in order. */
  method CheckStock(fetched: Option<Payload>, stored: Option<StatusMap>) returns (trace: seq<Effect>)
    ensures trace == CycleTrace(fetched, stored)
  {
    trace := [Fetch];
    if fetched.None? {
      return;
    }
    var products := Products(fetched.value);
    trace := trace + [Load];
    var messages, state := DiffRecords(LoadState(stored), products);
    trace := trace + [Save(state)];
    trace := SendAll(trace, messages);
  }

  /** The send loop of the stock check: the queued messages are sent one by
      one, in queue order, after whatever happened before. */
  method SendAll(before: seq<Effect>, messages: seq<string>) returns (trace: seq<Effect>)
    ensures trace == before + Drain(messages)
  {
    trace := before;
    var i := 0;
    while i < |messages|
      invariant i <= |messages|
      invariant trace == before + Drain(messages[..i])
    {
      assert Drain(messages[..i + 1]) == Drain(messages[..i]) + [Send(messages[i])];
      trace := trace + [Send(messages[i])];
      i := i + 1;
    }
    assert messages[..|messages|] == messages;
  }

  /** The startup pass as written: fetch once and, if that returned data,
      announce every product. */
  method Startup(fetched: Option<Payload>) returns (trace: seq<Effect>)
    ensures trace == StartupTrace(fetched)
  {
    trace := [Fetch];
    if fetched.Some? {
      var sends := SendInitialStatus(Products(fetched.value));
      trace := trace + sends;
    }
  }

  /** The program's entry: the startup pass, then the checks in turn. */
  method Run(startup: Option<Payload>, cycles: seq<CycleInput>) returns (trace: seq<Effect>)
    ensures trace == RunTrace(startup, cycles)
  {
    var announced := Startup(startup);
    var checked := [];
    var i := 0;
    while i < |cycles|
      invariant i <= |cycles|
      invariant checked == CyclesTrace(cycles[..i])
    {
      var t := CheckStock(cycles[i].fetched, cycles[i].stored);
      CyclesTraceSnoc(cycles, i);
      checked := checked + t;
      i := i + 1;
    }
    assert cycles[..|cycles|] == cycles;
    trace := announced + checked;
  }

  /** Extending the cycles run so far by the next one. */
  lemma {:induction false} CyclesTraceSnoc(cycles: seq<CycleInput>, i: nat)
    requires i < |cycles|
    ensures CyclesTrace(cycles[..i + 1]) == CyclesTrace(cycles[..i]) + CycleTrace(cycles[i].fetched, cycles[i].stored)
  {
    assert cycles[..i + 1][..i] == cycles[..i];
  }

  // ---------------------------------------------------------------------
  // Properties

  /** Tallies add up over concatenation. */
  lemma {:induction false} TallyAppend(a: seq<Effect>, b: seq<Effect>, kind: Kind)
    ensures Tally(a + b, kind) == Tally(a, kind) + Tally(b, kind)
    decreases |b|
  {
    if |b| > 0 {
      var n := |b| - 1;
      assert (a + b)[..|a + b| - 1] == a + b[..n];
      assert (a + b)[|a + b| - 1] == b[n];
      TallyAppend(a, b[..n], kind);
      assert Tally(a + b, kind) == Tally(a + b[..n], kind) + (if KindOf(b[n]) == kind then 1 else 0);
    } else {
      assert a + b == a;
    }
  }

  /** A trace of sends only holds no effect of another kind. */
  lemma {:induction false} TallySendsOnly(trace: seq<Effect>, kind: Kind)
    requires forall j :: 0 <= j < |trace| ==> trace[j].Send?
    requires kind != SendKind
    ensures Tally(trace, kind) == 0
    decreases |trace|
  {
    if |trace| > 0 {
      TallySendsOnly(trace[..|trace| - 1], kind);
    }
  }

  /** The counts of one cycle, sends aside: one fetch; one load and one
      save when the fetch returned data, none otherwise. */
  lemma {:induction false} CycleCount(fetched: Option<Payload>, stored: Option<StatusMap>, kind: Kind)
    requires kind != SendKind
    ensures Tally(CycleTrace(fetched, stored), kind) ==
      if kind == FetchKind || fetched.Some? then 1 else 0
  {
    assert [Fetch][..0] == [];
    match fetched
    case None =>
    case Some(data) =>
      var r := Diff(LoadState(stored), NormaliseAll(Products(data)));
      var head := [Fetch, Load, Save(r.state)];
      var sends := Drain(Messages(r.notified));
      assert head[..2] == [Fetch, Load] && [Fetch, Load][..1] == [Fetch];
      assert Tally(head, kind) == 1;
      TallyAppend(head, sends, kind);
      TallySendsOnly(sends, kind);
  }

  /** The startup pass fetches once and neither loads nor saves. */
  lemma {:induction false} StartupCount(startup: Option<Payload>, kind: Kind)
    requires kind != SendKind
    ensures Tally(StartupTrace(startup), kind) == if kind == FetchKind then 1 else 0
  {
    assert [Fetch][..0] == [];
    match startup
    case None =>
    case Some(data) =>
      var sends := Drain(Messages(NormaliseAll(Products(data))));
      TallyAppend([Fetch], sends, kind);
      TallySendsOnly(sends, kind);
  }

  /** n cycles fetch n times, and load and save once per cycle whose fetch
      returned data. */
  lemma {:induction false} CyclesCount(cycles: seq<CycleInput>, kind: Kind)
    requires kind != SendKind
    ensures Tally(CyclesTrace(cycles), kind) == if kind == FetchKind then |cycles| else Fetched(cycles)
    decreases |cycles|
  {
    if |cycles| > 0 {
      var n := |cycles| - 1;
      var init := cycles[..n];
      var last := CycleTrace(cycles[n].fetched, cycles[n].stored);
      assert CyclesTrace(cycles) == CyclesTrace(init) + last;
      assert Fetched(cycles) == Fetched(init) + (if cycles[n].fetched.Some? then 1 else 0);
      CyclesCount(init, kind);
      CycleCount(cycles[n].fetched, cycles[n].stored, kind);
      TallyAppend(CyclesTrace(init), last, kind);
    }
  }

  /** A run of n cycles fetches n + 1 times (the startup fetch included), and
      loads and saves once per cycle whose fetch returned data: the startup
      pass contributes no load and no save. */
  lemma {:induction false} RunCounts(startup: Option<Payload>, cycles: seq<CycleInput>)
    ensures Tally(RunTrace(startup, cycles), FetchKind) == 1 + |cycles|
    ensures Tally(RunTrace(startup, cycles), LoadKind) == Fetched(cycles)
    ensures Tally(RunTrace(startup, cycles), SaveKind) == Fetched(cycles)
  {
    forall kind | kind != SendKind
      ensures Tally(RunTrace(startup, cycles), kind) ==
        (if kind == FetchKind then 1 + |cycles| else Fetched(cycles))
    {
      StartupCount(startup, kind);
      CyclesCount(cycles, kind);
      TallyAppend(StartupTrace(startup), CyclesTrace(cycles), kind);
    }
  }

  /** A payload without `searchedProducts`, without `productDetails`, or with
      an empty product list costs one load and saves the loaded map
      unchanged, sending nothing. */
  lemma {:induction false} EmptyPayloadSavesUnchanged(data: Payload, stored: Option<StatusMap>)
    requires data.searchedProducts.None? || data.searchedProducts.value.productDetails.GetOr([]) == []
    ensures CycleTrace(Some(data), stored) == [Fetch, Load, Save(LoadState(stored))]
  {
    assert Products(data) == [];
    assert Diff(LoadState(stored), []) == DiffResult([], LoadState(stored));
  }

  /** The cycle saves the diffed map and then sends the message of each item
      the diff notified, in queue order. */
  lemma {:induction false} CycleSavesThenSendsDiff(data: Payload, stored: Option<StatusMap>)
    ensures var r := Diff(LoadState(stored), NormaliseAll(Products(data)));
      var t := CycleTrace(Some(data), stored);
      && t[2] == Save(r.state)
      && |t| == 3 + |r.notified|
      && forall j :: 0 <= j < |r.notified| ==> t[3 + j] == Send(Message(r.notified[j]))
  {
    var r := Diff(LoadState(stored), NormaliseAll(Products(data)));
    var sends := Drain(Messages(r.notified));
    var t := CycleTrace(Some(data), stored);
    assert t == [Fetch, Load, Save(r.state)] + sends;
    forall j | 0 <= j < |r.notified|
      ensures t[3 + j] == Send(Message(r.notified[j]))
    {
      assert t[3 + j] == sends[j];
    }
  }

  /** Across two cycles that fetch the same snapshot, where the second loads
      what the first saved: the second sends nothing and saves the same map,
      exactly when the snapshot is SKU-consistent. */
  lemma {:induction false} RepeatedSnapshotIsQuiet(data: Payload, stored: Option<StatusMap>)
    ensures var saved := CycleTrace(Some(data), stored)[2].state;
      SkuConsistent(NormaliseAll(Products(data))) <==>
        CycleTrace(Some(data), Some(saved)) == [Fetch, Load, Save(saved)]
  {
    var items := NormaliseAll(Products(data));
    Idempotence(LoadState(stored), items);
  }

  /** Two products of one snapshot that both lack a SKU share the default
      key; with different statuses the second cycle notifies both again. */
  lemma {:induction false} SharedDefaultSkuRenotifies()
    ensures var a := RawRecord(Some("A"), None, None, Some(BuyNow), None);
      var b := RawRecord(Some("B"), None, None, None, None);
      var data := Payload(Some(SearchedProducts(Some([a, b]))));
      var saved := CycleTrace(Some(data), None)[2].state;
      |CycleTrace(Some(data), Some(saved))| == 5
  {
    var a := RawRecord(Some("A"), None, None, Some(BuyNow), None);
    var b := RawRecord(Some("B"), None, None, None, None);
    var data := Payload(Some(SearchedProducts(Some([a, b]))));
    assert Products(data) == [a, b];
    var items := NormaliseAll([a, b]);
    assert items[0].sku == items[1].sku == DefaultSku;
    assert items[0].status == BuyNow && items[1].status == DefaultStatus;
    var saved := Diff(map[], items).state;
    LastWriteWins(map[], items, 1);
    assert saved[DefaultSku] == DefaultStatus;
    var first := items[..1];
    assert first == [items[0]] && first[..0] == [];
    assert first[|first| - 1] == items[0];
    assert Changed(saved, items[0]);
    assert Diff(saved, first[..0]) == DiffResult([], saved);
    var mid := Diff(saved, first);
    assert mid.notified == [items[0]] && mid.state[DefaultSku] == BuyNow;
    assert |Diff(saved, items).notified| == 2;
  }

  /** With no state file and distinct SKUs, the first cycle after startup
      sends again exactly the messages the startup pass sent. */
  lemma {:induction false} BootAnnouncesTwice(data: Payload)
    requires DistinctSkus(NormaliseAll(Products(data)))
    ensures CycleTrace(Some(data), None)[3..] == StartupTrace(Some(data))[1..]
  {
    FreshStateNotifiesAll(NormaliseAll(Products(data)));
  }

  /** In a snapshot holding only that product, a product that turns
      `buy_now` is announced as available: one message carrying its SKU and
      the available label, and the saved map records the new status. */
  lemma {:induction false} BackInStockNotifies(raw: RawRecord, stored: StatusMap)
    requires Truthy(raw.productSKU) && raw.prdStatus == Some(BuyNow)
    requires raw.productSKU.value in stored && stored[raw.productSKU.value] != BuyNow
    ensures var t := CycleTrace(Some(Payload(Some(SearchedProducts(Some([raw]))))), Some(stored));
      && |t| == 4
      && t[2] == Save(stored[raw.productSKU.value := BuyNow])
      && t[3].Send?
      && Contains(t[3].message, "\n" + (SkuTag + raw.productSKU.value + "\n"))
      && Contains(t[3].message, "\n" + (StatusTag + AvailableLabel + "\n"))
  {
    var it := Normalise(raw);
    var data := Payload(Some(SearchedProducts(Some([raw]))));
    assert Products(data) == [raw];
    assert NormaliseAll([raw]) == [it];
    assert [it][..0] == [];
    assert Diff(stored, [it]) == DiffResult([it], stored[it.sku := BuyNow]);
    MessageShape(it);
    PrecedesContains(Message(it), "\n" + (SkuTag + it.sku + "\n"), "\n" + (PriceTag + it.price + "\n"));
    PrecedesContains(Message(it), "\n" + (PriceTag + it.price + "\n"), "\n" + (StatusTag + Label(it.status) + "\n"));
  }
}
