/** The order-summarising pass of `main` (rust/src/main.rs:86-111) and the totals it
    reports (rust/src/main.rs:113-132). */
module Donations {
  import opened Orders
  import opened Decimal

  /** The five accumulators of the pass. */
  datatype Totals = Totals(
    typeractiveDonations: real,
    ordersFlat: nat,
    ordersPercent: nat,
    replacementsRefunds: nat,
    customerDonations: real)

  const Zero := Totals(0.0, 0, 0, 0, 0.0)

  /** The string that failed to parse (each is an `unwrap` that aborts the run). */
  datatype SummaryError = InvalidSubtotal(subtotal: string) | InvalidTipPrice(price: string)

  /** The refund test is string equality, not a numeric comparison. */
  predicate IsRefund(o: Order)
  {
    o.financialStatus == "refunded" || o.currentSubtotalPrice == "0.00"
  }

  /** The sum of the prices of the items named exactly "Tip", or the first tip price that
      does not parse. */
  function TipTotal(items: seq<LineItem>): (r: Result<real, SummaryError>)
    ensures r.Err? ==> r.error.InvalidTipPrice?
  {
    if items == [] then Ok(0.0)
    else
      match TipTotal(items[..|items| - 1])
      case Err(e) => Err(e)
      case Ok(sum) =>
        var item := items[|items| - 1];
        if item.name != "Tip" then Ok(sum)
        else match ParseFloat(item.price)
          case None => Err(InvalidTipPrice(item.price))
          case Some(price) => Ok(sum + price)
  }

  /** The effect of one order on the accumulators. */
  function Tally(acc: Totals, o: Order): (r: Result<Totals, SummaryError>)
    ensures r.Err? ==> !IsRefund(o)
    ensures r.Ok? ==> (r.value.ordersFlat + r.value.ordersPercent + r.value.replacementsRefunds
                       == acc.ordersFlat + acc.ordersPercent + acc.replacementsRefunds + 1)
    ensures r.Ok? ==> (r.value.replacementsRefunds == acc.replacementsRefunds + 1 <==> IsRefund(o))
    ensures r.Ok? && IsRefund(o) ==> r.value.typeractiveDonations == acc.typeractiveDonations
    ensures r.Ok? && IsRefund(o) ==> r.value.customerDonations == acc.customerDonations
  {
    if IsRefund(o) then Ok(acc.(replacementsRefunds := acc.replacementsRefunds + 1))
    else match ParseFloat(o.currentSubtotalPrice)
      case None => Err(InvalidSubtotal(o.currentSubtotalPrice))
      case Some(subtotal) =>
        var donated :=
          if subtotal > 100.0 then
            acc.(typeractiveDonations := acc.typeractiveDonations + subtotal * 0.01,
                 ordersPercent := acc.ordersPercent + 1)
          else
            acc.(typeractiveDonations := acc.typeractiveDonations + 1.0,
                 ordersFlat := acc.ordersFlat + 1);
        match TipTotal(o.lineItems)
        case Err(e) => Err(e)
        case Ok(tips) => Ok(donated.(customerDonations := donated.customerDonations + tips))
  }

  /** The accumulators after the pass over `orders`, or the first parse failure in input
      order. Every order is counted exactly once. */
  function Summarize(orders: seq<Order>): (r: Result<Totals, SummaryError>)
    ensures r.Ok? ==>
      r.value.ordersFlat + r.value.ordersPercent + r.value.replacementsRefunds == |orders|
  {
    if orders == [] then Ok(Zero)
    else
      match Summarize(orders[..|orders| - 1])
      case Err(e) => Err(e)
      case Ok(acc) => Tally(acc, orders[|orders| - 1])
  }

  /** The loop of `main`: five mutable accumulators, a nested loop over line items. */
  method SummarizeOrders(orders: seq<Order>) returns (r: Result<Totals, SummaryError>)
    ensures r == Summarize(orders)
    ensures r.Ok? ==>
      r.value.ordersFlat + r.value.ordersPercent + r.value.replacementsRefunds == |orders|
  {
    var typeractiveDonations := 0.0;
    var ordersFlat := 0;
    var ordersPercent := 0;
    var replacementsRefunds := 0;
    var customerDonations := 0.0;

    var i := 0;
    while i < |orders|
      invariant 0 <= i <= |orders|
      invariant Summarize(orders[..i]) ==
        Ok(Totals(typeractiveDonations, ordersFlat, ordersPercent, replacementsRefunds, customerDonations))
    {
      var order := orders[i];
      ghost var acc :=
        Totals(typeractiveDonations, ordersFlat, ordersPercent, replacementsRefunds, customerDonations);
      if order.financialStatus != "refunded" && order.currentSubtotalPrice != "0.00" {
        var parsed := ParseFloat(order.currentSubtotalPrice);
        if parsed.None? {
          r := Err(InvalidSubtotal(order.currentSubtotalPrice));
          SummarizeStep(orders, i);
          TallyInvalidSubtotal(acc, order);
          SummarizeErrorPersists(orders, i + 1);
          return;
        }
        var subtotal := parsed.value;
        if subtotal > 100.0 {
          typeractiveDonations := typeractiveDonations + subtotal * 0.01;
          ordersPercent := ordersPercent + 1;
        } else {
          typeractiveDonations := typeractiveDonations + 1.0;
          ordersFlat := ordersFlat + 1;
        }
        var tipped := AddTips(order.lineItems, customerDonations);
        if tipped.Err? {
          r := Err(tipped.error);
          SummarizeStep(orders, i);
          TallyInvalidTip(acc, order);
          SummarizeErrorPersists(orders, i + 1);
          return;
        }
        customerDonations := tipped.value;
        SummarizeStep(orders, i);
        if subtotal > 100.0 {
          TallyPercent(acc, order, subtotal, TipTotal(order.lineItems).value);
        } else {
          TallyFlat(acc, order, subtotal, TipTotal(order.lineItems).value);
        }
        assert Summarize(orders[..i + 1]) == Ok(Totals(typeractiveDonations, ordersFlat, ordersPercent, replacementsRefunds, customerDonations));
      } else {
        replacementsRefunds := replacementsRefunds + 1;
        SummarizeStep(orders, i);
        TallyRefund(acc, order);
        assert Summarize(orders[..i + 1]) == Ok(Totals(typeractiveDonations, ordersFlat, ordersPercent, replacementsRefunds, customerDonations));
      }
      i := i + 1;
    }
    assert orders[..i] == orders;
    r := Ok(Totals(typeractiveDonations, ordersFlat, ordersPercent, replacementsRefunds, customerDonations));
  }

  /** An order above 100.00 donates 1% of its subtotal and counts as a percent order. */
  lemma TallyPercent(acc: Totals, o: Order, subtotal: real, tips: real)
    requires !IsRefund(o)
    requires ParseFloat(o.currentSubtotalPrice) == Some(subtotal) && subtotal > 100.0
    requires TipTotal(o.lineItems) == Ok(tips)
    ensures Tally(acc, o) == Ok(acc.(
      typeractiveDonations := acc.typeractiveDonations + subtotal * 0.01,
      ordersPercent := acc.ordersPercent + 1,
      customerDonations := acc.customerDonations + tips))
  {
  }

  /** An order of at most 100.00 donates a flat 1.00 and counts as a flat order. */
  lemma TallyFlat(acc: Totals, o: Order, subtotal: real, tips: real)
    requires !IsRefund(o)
    requires ParseFloat(o.currentSubtotalPrice) == Some(subtotal) && subtotal <= 100.0
    requires TipTotal(o.lineItems) == Ok(tips)
    ensures Tally(acc, o) == Ok(acc.(
      typeractiveDonations := acc.typeractiveDonations + 1.0,
      ordersFlat := acc.ordersFlat + 1,
      customerDonations := acc.customerDonations + tips))
  {
  }

  /** A tallied order adds one to exactly one counter and leaves the other two as they were. */
  lemma TallyOneCounter(acc: Totals, o: Order)
    requires Tally(acc, o).Ok?
    ensures
      var t := Tally(acc, o).value;
      || (t.replacementsRefunds == acc.replacementsRefunds + 1
          && t.ordersFlat == acc.ordersFlat && t.ordersPercent == acc.ordersPercent)
      || (t.ordersFlat == acc.ordersFlat + 1
          && t.replacementsRefunds == acc.replacementsRefunds && t.ordersPercent == acc.ordersPercent)
      || (t.ordersPercent == acc.ordersPercent + 1
          && t.replacementsRefunds == acc.replacementsRefunds && t.ordersFlat == acc.ordersFlat)
  {
  }

  /** The inner loop of the pass: add the price of every "Tip" line item to `customerDonations`. */
  method AddTips(items: seq<LineItem>, customerDonations: real) returns (r: Result<real, SummaryError>)
    ensures TipTotal(items).Err? ==> r == Err(TipTotal(items).error)
    ensures TipTotal(items).Ok? ==> r == Ok(customerDonations + TipTotal(items).value)
  {
    var sum := customerDonations;
    var j := 0;
    while j < |items|
      invariant 0 <= j <= |items|
      invariant TipTotal(items[..j]) == Ok(sum - customerDonations)
    {
      var item := items[j];
      TipTotalStep(items, j);
      if item.name == "Tip" {
        var price := ParseFloat(item.price);
        if price.None? {
          TipErrorPersists(items, j + 1);
          return Err(InvalidTipPrice(item.price));
        }
        sum := sum + price.value;
      }
      j := j + 1;
    }
    assert items[..j] == items;
    return Ok(sum);
  }

  lemma SummarizeStep(orders: seq<Order>, i: nat)
    requires i < |orders| && Summarize(orders[..i]).Ok?
    ensures Summarize(orders[..i + 1]) == Tally(Summarize(orders[..i]).value, orders[i])
  {
    assert orders[..i + 1][..i] == orders[..i];
  }

  /** One more line item: a "Tip" adds its parsed price, anything else adds nothing. */
  lemma TipTotalStep(items: seq<LineItem>, j: nat)
    requires j < |items| && TipTotal(items[..j]).Ok?
    ensures TipTotal(items[..j + 1]) ==
      if items[j].name != "Tip" then TipTotal(items[..j])
      else match ParseFloat(items[j].price)
        case None => Err(InvalidTipPrice(items[j].price))
        case Some(price) => Ok(TipTotal(items[..j]).value + price)
  {
    assert items[..j + 1][..j] == items[..j];
  }

  lemma {:induction false} TipErrorPersists(items: seq<LineItem>, n: nat)
    requires n <= |items| && TipTotal(items[..n]).Err?
    ensures TipTotal(items) == TipTotal(items[..n])
    decreases |items| - n
  {
    if n < |items| {
      assert items[..n + 1][..n] == items[..n];
      TipErrorPersists(items, n + 1);
    } else {
      assert items[..n] == items;
    }
  }

  lemma {:induction false} SummarizeErrorPersists(orders: seq<Order>, n: nat)
    requires n <= |orders| && Summarize(orders[..n]).Err?
    ensures Summarize(orders) == Summarize(orders[..n])
    decreases |orders| - n
  {
    if n < |orders| {
      assert orders[..n + 1][..n] == orders[..n];
      SummarizeErrorPersists(orders, n + 1);
    } else {
      assert orders[..n] == orders;
    }
  }

  /** A refund or replacement only counts itself: no donation, no tips, even when its
      subtotal would not parse. */
  lemma TallyRefund(acc: Totals, o: Order)
    requires IsRefund(o)
    ensures Tally(acc, o) == Ok(acc.(replacementsRefunds := acc.replacementsRefunds + 1))
  {
  }

  /** A counted order whose subtotal does not parse aborts the pass. */
  lemma TallyInvalidSubtotal(acc: Totals, o: Order)
    requires !IsRefund(o) && ParseFloat(o.currentSubtotalPrice).None?
    ensures Tally(acc, o) == Err(InvalidSubtotal(o.currentSubtotalPrice))
  {
  }

  /** A counted order with a tip price that does not parse aborts the pass with that price. */
  lemma TallyInvalidTip(acc: Totals, o: Order)
    requires !IsRefund(o) && ParseFloat(o.currentSubtotalPrice).Some? && TipTotal(o.lineItems).Err?
    ensures Tally(acc, o) == Err(TipTotal(o.lineItems).error)
  {
  }

  // ---------------------------------------------------------------------------
  // The pass is a sum of per-order contributions

  function Add(a: Totals, b: Totals): Totals
  {
    Totals(a.typeractiveDonations + b.typeractiveDonations, a.ordersFlat + b.ordersFlat,
           a.ordersPercent + b.ordersPercent, a.replacementsRefunds + b.replacementsRefunds,
           a.customerDonations + b.customerDonations)
  }

  /** Adds two partial results; the first error, left to right, wins. */
  function Combine(x: Result<Totals, SummaryError>, y: Result<Totals, SummaryError>): Result<Totals, SummaryError>
  {
    match x
    case Err(e) => Err(e)
    case Ok(a) => match y
      case Err(e) => Err(e)
      case Ok(b) => Ok(Add(a, b))
  }

  lemma TallyAdds(acc: Totals, o: Order)
    ensures Tally(acc, o) == Combine(Ok(acc), Tally(Zero, o))
  {
    if !IsRefund(o) && ParseFloat(o.currentSubtotalPrice).Some? && TipTotal(o.lineItems).Ok? {
      var subtotal, tips := ParseFloat(o.currentSubtotalPrice).value, TipTotal(o.lineItems).value;
      if subtotal > 100.0 {
        TallyPercent(acc, o, subtotal, tips);
        TallyPercent(Zero, o, subtotal, tips);
      } else {
        TallyFlat(acc, o, subtotal, tips);
        TallyFlat(Zero, o, subtotal, tips);
      }
    }
  }

  /** Summarising two runs of orders one after the other adds their totals; an error in
      the first run is the one reported. */
  lemma {:induction false} SummarizeAppend(a: seq<Order>, b: seq<Order>)
    ensures Summarize(a + b) == Combine(Summarize(a), Summarize(b))
    decreases |b|
  {
    if b == [] {
      assert a + b == a;
    } else {
      var init, o := b[..|b| - 1], b[|b| - 1];
      assert (a + b)[..|a + b| - 1] == a + init;
      assert (a + b)[|a + b| - 1] == o;
      SummarizeAppend(a, init);
      match Summarize(a)
      case Err(_) =>
      case Ok(x) =>
        match Summarize(init)
        case Err(_) =>
        case Ok(y) =>
          assert Summarize(a + b) == Tally(Add(x, y), o);
          assert Summarize(b) == Tally(y, o);
          TallyAdds(Add(x, y), o);
          TallyAdds(y, o);
          match Tally(Zero, o)
          case Err(_) =>
          case Ok(z) => assert Add(Add(x, y), z) == Add(x, Add(y, z));
    }
  }

  /** When no order fails to parse, swapping two runs of orders leaves the totals unchanged. */
  lemma SummarizeCommutes(a: seq<Order>, b: seq<Order>)
    requires Summarize(a + b).Ok?
    ensures Summarize(b + a) == Summarize(a + b)
  {
    SummarizeAppend(a, b);
    SummarizeAppend(b, a);
  }

  lemma SummarizeSingle(o: Order)
    ensures Summarize([o]) == Tally(Zero, o)
  {
    assert [o][..0] == [];
  }

  lemma SplitAt<T>(b: seq<T>, k: nat)
    requires k < |b|
    ensures b == b[..k] + ([b[k]] + b[k + 1..])
  {
    assert b[k..] == [b[k]] + b[k + 1..];
    assert b == b[..k] + b[k..];
  }

  /** Taking the last element off `a`, and the same element at `k` out of a rearrangement
      `b` of `a`, leaves rearrangements of each other. */
  lemma RemoveMatching<T>(a: seq<T>, b: seq<T>, k: nat)
    requires |a| > 0 && k < |b| && b[k] == a[|a| - 1] && multiset(a) == multiset(b)
    ensures multiset(a[..|a| - 1]) == multiset(b[..k] + b[k + 1..])
  {
    var init, o, left, right := a[..|a| - 1], a[|a| - 1], b[..k], b[k + 1..];
    var rest := multiset(left) + multiset(right);
    assert a == init + [o];
    SplitAt(b, k);
    assert multiset(init) + multiset{o} == rest + multiset{o} by {
      assert multiset(b) == multiset(left) + (multiset{o} + multiset(right));
    }
    CancelOne(multiset(init), rest, o);
    assert multiset(left + right) == rest;
  }

  lemma CancelOne<T>(m: multiset<T>, n: multiset<T>, x: T)
    requires m + multiset{x} == n + multiset{x}
    ensures m == n
  {
    assert m == (m + multiset{x}) - multiset{x};
    assert n == (n + multiset{x}) - multiset{x};
  }

  lemma IndexOf<T>(b: seq<T>, x: T) returns (k: nat)
    requires x in multiset(b)
    ensures k < |b| && b[k] == x
  {
    k :| 0 <= k < |b| && b[k] == x;
  }

  /** Splits a pass around the order at `k`. */
  lemma SummarizeAround(b: seq<Order>, k: nat)
    requires k < |b|
    ensures Summarize(b) == Combine(Summarize(b[..k]), Combine(Tally(Zero, b[k]), Summarize(b[k + 1..])))
  {
    SplitAt(b, k);
    SummarizeAppend(b[..k], [b[k]] + b[k + 1..]);
    SummarizeAppend([b[k]], b[k + 1..]);
    SummarizeSingle(b[k]);
  }

  lemma AddRearranged(x: Totals, y: Totals, z: Totals)
    ensures Add(x, Add(z, y)) == Add(Add(x, y), z)
  {
  }

  /** When no order fails to parse, the totals do not depend on the order in which the orders
      arrive: any rearrangement of them gives the same totals. */
  lemma {:induction false} SummarizePermutation(a: seq<Order>, b: seq<Order>)
    requires multiset(a) == multiset(b) && Summarize(a).Ok?
    ensures Summarize(b) == Summarize(a)
    decreases |a|
  {
    if a == [] {
      assert |b| == |multiset(b)| == 0;
    } else {
      var init, o := a[..|a| - 1], a[|a| - 1];
      var k := IndexOf(b, o);
      var left, right := b[..k], b[k + 1..];
      RemoveMatching(a, b, k);
      assert a == init + [o];
      SummarizeAppend(init, [o]);
      SummarizeSingle(o);
      SummarizePermutation(init, left + right);
      SummarizeAppend(left, right);
      SummarizeAround(b, k);
      AddRearranged(Summarize(left).value, Summarize(right).value, Tally(Zero, o).value);
    }
  }

  // ---------------------------------------------------------------------------
  // Every order falls into exactly one of three kinds

  datatype Kind = RefundOrReplacement | FlatDonation | PercentDonation

  /** The kind of an order, or `None` when its subtotal has to be parsed and does not parse. */
  function Classify(o: Order): Option<Kind>
  {
    if IsRefund(o) then Some(RefundOrReplacement)
    else match ParseFloat(o.currentSubtotalPrice)
      case None => None
      case Some(subtotal) => Some(if subtotal > 100.0 then PercentDonation else FlatDonation)
  }

  function CountOf(orders: seq<Order>, k: Kind): nat
  {
    if orders == [] then 0
    else CountOf(orders[..|orders| - 1], k) + (if Classify(orders[|orders| - 1]) == Some(k) then 1 else 0)
  }

  /** Each counter holds the number of orders of its kind. */
  lemma {:induction false} KindCounts(orders: seq<Order>)
    requires Summarize(orders).Ok?
    ensures Summarize(orders).value.replacementsRefunds == CountOf(orders, RefundOrReplacement)
    ensures Summarize(orders).value.ordersFlat == CountOf(orders, FlatDonation)
    ensures Summarize(orders).value.ordersPercent == CountOf(orders, PercentDonation)
  {
    if orders != [] {
      var init, o := orders[..|orders| - 1], orders[|orders| - 1];
      KindCounts(init);
      var acc := Summarize(init).value;
      if IsRefund(o) {
        TallyRefund(acc, o);
      } else {
        var subtotal, tips := ParseFloat(o.currentSubtotalPrice).value, TipTotal(o.lineItems).value;
        if subtotal > 100.0 { TallyPercent(acc, o, subtotal, tips); }
        else { TallyFlat(acc, o, subtotal, tips); }
      }
    }
  }

  // ---------------------------------------------------------------------------
  // Customer donations are the tips of the counted orders

  /** The prices of the items named exactly "Tip", in order. */
  function TipPricesOf(items: seq<LineItem>): seq<string>
  {
    if items == [] then []
    else
      var last := items[|items| - 1];
      TipPricesOf(items[..|items| - 1]) + (if last.name == "Tip" then [last.price] else [])
  }

  /** The tip prices of every order that is not a refund or replacement, in order. */
  function TipPrices(orders: seq<Order>): seq<string>
  {
    if orders == [] then []
    else
      var last := orders[|orders| - 1];
      TipPrices(orders[..|orders| - 1]) + (if IsRefund(last) then [] else TipPricesOf(last.lineItems))
  }

  /** The sum of a list of prices, or the first that does not parse. */
  function SumPrices(prices: seq<string>): Result<real, SummaryError>
  {
    if prices == [] then Ok(0.0)
    else match SumPrices(prices[..|prices| - 1])
      case Err(e) => Err(e)
      case Ok(sum) =>
        var p := prices[|prices| - 1];
        match ParseFloat(p)
        case None => Err(InvalidTipPrice(p))
        case Some(v) => Ok(sum + v)
  }

  lemma {:induction false} SumPricesAppend(a: seq<string>, b: seq<string>)
    ensures SumPrices(a + b) ==
      match SumPrices(a)
      case Err(e) => Err(e)
      case Ok(x) => match SumPrices(b)
        case Err(e) => Err(e)
        case Ok(y) => Ok(x + y)
    decreases |b|
  {
    if b == [] {
      assert a + b == a;
    } else {
      assert (a + b)[..|a + b| - 1] == a + b[..|b| - 1];
      assert (a + b)[|a + b| - 1] == b[|b| - 1];
      SumPricesAppend(a, b[..|b| - 1]);
    }
  }

  lemma SumPricesSnoc(prices: seq<string>, p: string)
    ensures SumPrices(prices + [p]) ==
      match SumPrices(prices)
      case Err(e) => Err(e)
      case Ok(sum) => match ParseFloat(p)
        case None => Err(InvalidTipPrice(p))
        case Some(v) => Ok(sum + v)
  {
    assert (prices + [p])[..|prices|] == prices;
  }

  /** The error of a failed tip sum names the price of an item called "Tip" that does not
      parse. */
  lemma {:induction false} TipErrorNamesItem(items: seq<LineItem>)
    requires TipTotal(items).Err?
    ensures
      exists i :: 0 <= i < |items| && items[i].name == "Tip" && ParseFloat(items[i].price).None?
                  && TipTotal(items).error == InvalidTipPrice(items[i].price)
  {
    var init := items[..|items| - 1];
    if TipTotal(init).Err? {
      TipErrorNamesItem(init);
      var i :| 0 <= i < |init| && init[i].name == "Tip"
        && ParseFloat(init[i].price).None? && TipTotal(init).error == InvalidTipPrice(init[i].price);
      assert items[i] == init[i];
    } else {
      assert items[|items| - 1].name == "Tip";
    }
  }

  lemma TipTotalSnoc(init: seq<LineItem>, last: LineItem)
    ensures TipTotal(init + [last]) ==
      match TipTotal(init)
      case Err(e) => Err(e)
      case Ok(sum) =>
        if last.name != "Tip" then Ok(sum)
        else match ParseFloat(last.price)
          case None => Err(InvalidTipPrice(last.price))
          case Some(price) => Ok(sum + price)
  {
    assert (init + [last])[..|init|] == init;
  }

  lemma TipPricesSnoc(init: seq<LineItem>, last: LineItem)
    ensures TipPricesOf(init + [last]) == TipPricesOf(init) + (if last.name == "Tip" then [last.price] else [])
  {
    assert (init + [last])[..|init|] == init;
  }

  /** Summing as the inner loop does equals summing the filtered tip prices. */
  lemma {:induction false} TipTotalIsSum(items: seq<LineItem>)
    ensures TipTotal(items) == SumPrices(TipPricesOf(items))
  {
    if items != [] {
      var init, last := items[..|items| - 1], items[|items| - 1];
      assert items == init + [last];
      TipTotalIsSum(init);
      TipTotalSnoc(init, last);
      TipPricesSnoc(init, last);
      if last.name == "Tip" {
        SumPricesSnoc(TipPricesOf(init), last.price);
      } else {
        assert TipPricesOf(init) + [] == TipPricesOf(init);
      }
    }
  }

  /** A counted order that is tallied adds exactly its tip total to `customerDonations`. */
  lemma TallyTips(acc: Totals, o: Order)
    requires !IsRefund(o) && Tally(acc, o).Ok?
    ensures TipTotal(o.lineItems).Ok?
    ensures Tally(acc, o).value.customerDonations
         == acc.customerDonations + TipTotal(o.lineItems).value
  {
    var subtotal := ParseFloat(o.currentSubtotalPrice).value;
    var tips := TipTotal(o.lineItems).value;
    if subtotal > 100.0 { TallyPercent(acc, o, subtotal, tips); }
    else { TallyFlat(acc, o, subtotal, tips); }
  }

  /** One order more: its tips, unless it is a refund or replacement, join the sum. */
  lemma TipsOfOneMore(prices: seq<string>, acc: Totals, o: Order)
    requires SumPrices(prices) == Ok(acc.customerDonations) && Tally(acc, o).Ok?
    ensures SumPrices(prices + (if IsRefund(o) then [] else TipPricesOf(o.lineItems)))
         == Ok(Tally(acc, o).value.customerDonations)
  {
    if IsRefund(o) {
      TallyRefund(acc, o);
      assert prices + [] == prices;
    } else {
      TallyTips(acc, o);
      TipTotalIsSum(o.lineItems);
      SumPricesAppend(prices, TipPricesOf(o.lineItems));
    }
  }

  /** `customerDonations` is the sum of the prices of all "Tip" items on orders that are not
      refunds or replacements; other items and refunded orders add nothing. */
  lemma {:induction false} CustomerDonationsAreTips(orders: seq<Order>)
    requires Summarize(orders).Ok?
    ensures SumPrices(TipPrices(orders)) == Ok(Summarize(orders).value.customerDonations)
  {
    if orders != [] {
      var init, o := orders[..|orders| - 1], orders[|orders| - 1];
      CustomerDonationsAreTips(init);
      TipsOfOneMore(TipPrices(init), Summarize(init).value, o);
    }
  }

  // ---------------------------------------------------------------------------
  // When the pass aborts

  /** An order the pass can process: a refund or replacement, or an order whose subtotal and
      tip prices all parse. */
  predicate Processable(o: Order)
  {
    IsRefund(o)
    || (ParseFloat(o.currentSubtotalPrice).Some?
        && forall p :: p in TipPricesOf(o.lineItems) ==> ParseFloat(p).Some?)
  }

  lemma {:induction false} SumPricesOk(prices: seq<string>)
    ensures SumPrices(prices).Ok? <==> forall p :: p in prices ==> ParseFloat(p).Some?
  {
    if prices != [] {
      var init := prices[..|prices| - 1];
      SumPricesOk(init);
      assert prices == init + [prices[|prices| - 1]];
    }
  }

  lemma TallyOk(acc: Totals, o: Order)
    ensures Tally(acc, o).Ok? <==> Processable(o)
  {
    TipTotalIsSum(o.lineItems);
    SumPricesOk(TipPricesOf(o.lineItems));
  }

  /** The pass completes exactly when every order is processable. */
  lemma {:induction false} SummarizeOk(orders: seq<Order>)
    ensures Summarize(orders).Ok? <==> forall i :: 0 <= i < |orders| ==> Processable(orders[i])
  {
    if orders != [] {
      var init, o := orders[..|orders| - 1], orders[|orders| - 1];
      SummarizeOk(init);
      if Summarize(init).Ok? {
        TallyOk(Summarize(init).value, o);
      }
      assert forall i :: 0 <= i < |init| ==> init[i] == orders[i];
    }
  }

  // ---------------------------------------------------------------------------
  // Boundaries

  /** "0" and "0.0" are not the refund marker: such an order is parsed and donates the flat 1.00. */
  lemma ZeroNotWrittenAsRefundMarkerIsFlat(acc: Totals, items: seq<LineItem>, status: string, subtotal: string, tips: real)
    requires status != "refunded" && (subtotal == "0" || subtotal == "0.0")
    requires TipTotal(items) == Ok(tips)
    ensures Tally(acc, Order(items, status, subtotal)) == Ok(acc.(
      typeractiveDonations := acc.typeractiveDonations + 1.0,
      ordersFlat := acc.ordersFlat + 1,
      customerDonations := acc.customerDonations + tips))
  {
    if subtotal == "0" {
      calc {
        ParseFloat("0");
        Scan("0"[1..], Whole(false, 0));
        { assert "0"[1..] == []; }
        Finish(Whole(false, 0));
      }
    } else {
      calc {
        ParseFloat("0.0");
        Scan("0.0"[1..], Whole(false, 0));
        { assert "0.0"[1..] == ".0" && ".0"[1..] == "0" && "0"[1..] == []; }
        Scan(".0", Whole(false, 0));
        Scan("0", Fraction(false, 0, true, 0, 0));
        Finish(Fraction(false, 0, true, 0, 1));
      }
    }
    TallyFlat(acc, Order(items, status, subtotal), 0.0, tips);
  }

  /** A subtotal of exactly "100.00" is a flat donation, not a percent one. */
  lemma HundredIsFlat(acc: Totals, items: seq<LineItem>, status: string, tips: real)
    requires status != "refunded" && TipTotal(items) == Ok(tips)
    ensures Tally(acc, Order(items, status, "100.00")) == Ok(acc.(
      typeractiveDonations := acc.typeractiveDonations + 1.0,
      ordersFlat := acc.ordersFlat + 1,
      customerDonations := acc.customerDonations + tips))
  {
    assert FormatAmount(10000) == "100.00" by {
      assert NatDigits(100) == NatDigits(10) + "0" == "100";
      assert [DigitChar(0), DigitChar(0)] == "00";
    }
    AmountLiteral(10000, "100.00");
    TallyFlat(acc, Order(items, status, "100.00"), 100.0, tips);
  }

  /** A subtotal of "100.01" is just above the limit and donates 1% of it. */
  lemma JustAboveHundredIsPercent(acc: Totals, items: seq<LineItem>, status: string, tips: real)
    requires status != "refunded" && TipTotal(items) == Ok(tips)
    ensures Tally(acc, Order(items, status, "100.01")) == Ok(acc.(
      typeractiveDonations := acc.typeractiveDonations + 1.0001,
      ordersPercent := acc.ordersPercent + 1,
      customerDonations := acc.customerDonations + tips))
  {
    assert FormatAmount(10001) == "100.01" by {
      assert NatDigits(100) == NatDigits(10) + "0" == "100";
      assert [DigitChar(0), DigitChar(1)] == "01";
    }
    AmountLiteral(10001, "100.01");
    TallyPercent(acc, Order(items, status, "100.01"), 100.01, tips);
  }

  lemma AmountLiteral(cents: nat, s: string)
    requires FormatAmount(cents) == s
    ensures ParseFloat(s) == Some(cents as real / 100.0)
  {
    ParseFormattedAmount(cents);
  }

  lemma ExampleTip()
    ensures ParseFloat("5.00") == Some(5.0)
  {
    assert [DigitChar(0), DigitChar(0)] == "00";
    assert TwoDecimals(5, 0) == "5" + "." + "00";
    AmountLiteral(500, "5.00");
  }

  lemma ExampleFlatSubtotal()
    ensures ParseFloat("50.00") == Some(50.0)
  {
    assert NatDigits(50) == "50";
    assert [DigitChar(0), DigitChar(0)] == "00";
    assert TwoDecimals(50, 0) == "50" + "." + "00";
    AmountLiteral(5000, "50.00");
  }

  lemma ExamplePercentSubtotal()
    ensures ParseFloat("150.00") == Some(150.0)
  {
    assert NatDigits(150) == "150" by {
      assert NatDigits(15) == NatDigits(1) + [DigitChar(5)];
    }
    assert [DigitChar(0), DigitChar(0)] == "00";
    assert TwoDecimals(150, 0) == "150" + "." + "00";
    AmountLiteral(15000, "150.00");
  }

  lemma ExampleFlatOrder()
    ensures Tally(Zero, Order([LineItem("Tip", "5.00")], "paid", "50.00")) == Ok(Totals(1.0, 1, 0, 0, 5.0))
  {
    var o := Order([LineItem("Tip", "5.00")], "paid", "50.00");
    ExampleTip();
    ExampleFlatSubtotal();
    assert o.lineItems[..0] == [];
    assert TipTotal(o.lineItems) == Ok(5.0);
    TallyFlat(Zero, o, 50.0, 5.0);
  }

  lemma ExamplePercentOrder(acc: Totals)
    ensures Tally(acc, Order([], "paid", "150.00")) == Ok(acc.(
      typeractiveDonations := acc.typeractiveDonations + 1.5,
      ordersPercent := acc.ordersPercent + 1))
  {
    ExamplePercentSubtotal();
    TallyPercent(acc, Order([], "paid", "150.00"), 150.0, 0.0);
  }

  lemma SummarizeThree(o1: Order, o2: Order, o3: Order, t1: Totals, t2: Totals, t3: Totals)
    requires Tally(Zero, o1) == Ok(t1) && Tally(t1, o2) == Ok(t2) && Tally(t2, o3) == Ok(t3)
    ensures Summarize([o1, o2, o3]) == Ok(t3)
  {
    var orders := [o1, o2, o3];
    assert orders[..1] == [o1];
    SummarizeSingle(o1);
    SummarizeStep(orders, 1);
    SummarizeStep(orders, 2);
    assert orders[..3] == orders;
  }

  /** The worked example: a paid 50.00 order with a 5.00 tip, a refunded order and a paid
      150.00 order. */
  lemma Example()
    ensures Summarize([
      Order([LineItem("Tip", "5.00")], "paid", "50.00"),
      Order([], "refunded", "30.00"),
      Order([], "paid", "150.00")]) == Ok(Totals(2.5, 1, 1, 1, 5.0))
  {
    var o1 := Order([LineItem("Tip", "5.00")], "paid", "50.00");
    var o2 := Order([], "refunded", "30.00");
    var o3 := Order([], "paid", "150.00");
    var t1, t2 := Totals(1.0, 1, 0, 0, 5.0), Totals(1.0, 1, 0, 1, 5.0);
    ExampleFlatOrder();
    TallyRefund(t1, o2);
    ExamplePercentOrder(t2);
    SummarizeThree(o1, o2, o3, t1, t2, Totals(2.5, 1, 1, 1, 5.0));
  }

  // ---------------------------------------------------------------------------
  // The reported figures

  /** The figures printed after the pass, before their rounding to two decimals. */
  datatype Report = Report(
    totalOrders: nat,
    replacementsRefunds: nat,
    flatDonations: nat,
    percentDonations: nat,
    customerDonations: real,
    donationMatch: real,
    orderDonations: real,
    typeractiveTotal: real,
    totalDonations: real)

  /** Typeractive matches the customers' tips one for one; the grand total is the customers'
      tips plus everything Typeractive gives. */
  function MakeReport(t: Totals): (r: Report)
    ensures r.totalOrders == r.replacementsRefunds + r.flatDonations + r.percentDonations
    ensures r.replacementsRefunds == t.replacementsRefunds
    ensures r.flatDonations == t.ordersFlat && r.percentDonations == t.ordersPercent
    ensures r.customerDonations == t.customerDonations && r.orderDonations == t.typeractiveDonations
    ensures r.donationMatch == r.customerDonations
    ensures r.typeractiveTotal == r.orderDonations + r.donationMatch
    ensures r.totalDonations == r.customerDonations + r.typeractiveTotal
  {
    Report(
      t.ordersFlat + t.ordersPercent + t.replacementsRefunds,
      t.replacementsRefunds,
      t.ordersFlat,
      t.ordersPercent,
      t.customerDonations,
      t.customerDonations,
      t.typeractiveDonations,
      t.typeractiveDonations + t.customerDonations,
      t.typeractiveDonations + t.customerDonations * 2.0)
  }

  /** "Total Orders" is the number of orders fetched. */
  lemma ReportedTotalOrders(orders: seq<Order>, t: Totals)
    requires Summarize(orders) == Ok(t)
    ensures MakeReport(t).totalOrders == |orders|
  {
  }
}
