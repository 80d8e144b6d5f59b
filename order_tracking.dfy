/** The order tracking page: an order whose status a timer moves one step along the chain
    CONFIRMED, PREPARING, OUT_FOR_DELIVERY, DELIVERED, stamping each new status, and a
    progress value that grows by 33 up to 100. The timer is a discrete `Tick`, and the
    time it stamps is an opaque token passed in. */
module OrderTracking {
  import opened Optional
  import opened Seqs
  import opened StatusTracker
  import Cart

  /** A `toLocaleTimeString()` value, treated as an opaque token. */
  type Timestamp = string

  datatype OrderItem = OrderItem(name: string, quantity: int, price: real)

  datatype Order = Order(
    id: string,
    items: seq<OrderItem>,
    totalAmount: real,
    restaurantName: string,
    estimatedDeliveryTime: string,
    currentStatus: StatusKey,
    timestamps: map<StatusKey, Timestamp>)

  /** The order the page starts with; `confirmedAt` and `preparingAt` stand for the
      times ten and two minutes before the page loaded. */
  function SampleOrder(confirmedAt: Timestamp, preparingAt: Timestamp): Order {
    Order(
      "my-new-order-124",
      [OrderItem("Margherita Pizza", 1, 12.99), OrderItem("Garlic Bread", 2, 5.99)],
      29.96,
      "Pizza Heaven",
      "30-40 minutes",
      Preparing,
      map[Confirmed := confirmedAt, Preparing := preparingAt])
  }

  /** The statuses the timer walks through, in order. */
  function StatusProgression(): seq<StatusKey> {
    [Confirmed, Preparing, OutForDelivery, Delivered]
  }

  /** `statusProgression.indexOf(status)`: the position in the chain, -1 off the chain. */
  function Rank(s: StatusKey): int {
    IndexOf(StatusProgression(), s)
  }

  /** The chain is CONFIRMED < PREPARING < OUT_FOR_DELIVERY < DELIVERED, and PENDING and
      CANCELLED are not on it. */
  lemma Ranks()
    ensures Rank(Confirmed) == 0 && Rank(Preparing) == 1
    ensures Rank(OutForDelivery) == 2 && Rank(Delivered) == 3
    ensures Rank(Pending) == -1 && Rank(Cancelled) == -1
  {
    var p := StatusProgression();
    assert p[0] == Confirmed && p[1] == Preparing && p[2] == OutForDelivery && p[3] == Delivered;
  }

  /** The status one timer firing moves to, if the timer is armed at all: it is armed
      only when the status is on the chain and is not its last element. */
  function NextStatus(s: StatusKey): (r: Option<StatusKey>)
    ensures r.Some? <==> s in {Confirmed, Preparing, OutForDelivery}
    ensures r.Some? ==> Rank(r.value) == Rank(s) + 1
  {
    Ranks();
    var progression := StatusProgression();
    var currentIdx := IndexOf(progression, s);
    if currentIdx < |progression| - 1 && currentIdx != -1 then Some(progression[currentIdx + 1]) else None
  }

  /** The progress value after a timer firing: 33 more, capped at 100. */
  function BumpProgress(p: int): (r: int)
    ensures r <= 100
    ensures p <= 100 ==> p <= r
    ensures p <= 67 ==> r == p + 33
    ensures p + 33 >= 100 ==> r == 100
  {
    if p + 33 < 100 then p + 33 else 100
  }

  /** The order after one timer firing at time `now`. */
  function Advance(order: Order, now: Timestamp): (r: Order)
    ensures NextStatus(order.currentStatus).None? ==> r == order
    ensures NextStatus(order.currentStatus).Some? ==>
      r.currentStatus == NextStatus(order.currentStatus).value &&
      r.timestamps == order.timestamps[r.currentStatus := now]
    ensures r.(currentStatus := order.currentStatus, timestamps := order.timestamps) == order
    ensures order.timestamps.Keys <= r.timestamps.Keys
    ensures forall k :: k in order.timestamps && k != r.currentStatus ==> r.timestamps[k] == order.timestamps[k]
    ensures Rank(order.currentStatus) <= Rank(r.currentStatus)
  {
    match NextStatus(order.currentStatus)
    case None => order
    case Some(nextStatus) =>
      order.(currentStatus := nextStatus, timestamps := order.timestamps[nextStatus := now])
  }

  /** The order after the timer fired once for each token of `stamps`, in order. */
  function AdvanceAll(order: Order, stamps: seq<Timestamp>): Order
    decreases |stamps|
  {
    if |stamps| == 0 then order else AdvanceAll(Advance(order, stamps[0]), stamps[1..])
  }

  /** DELIVERED and every status off the chain are fixed points of the timer. */
  lemma {:induction false} FixedPointsStay(order: Order, stamps: seq<Timestamp>)
    requires order.currentStatus in {Delivered, Pending, Cancelled}
    ensures AdvanceAll(order, stamps) == order
    decreases |stamps|
  {
    if |stamps| > 0 {
      FixedPointsStay(Advance(order, stamps[0]), stamps[1..]);
    }
  }

  /** However often the timer fires, the status never moves back along the chain and no
      timestamp entry is lost. */
  lemma {:induction false} AdvanceAllMonotone(order: Order, stamps: seq<Timestamp>)
    ensures Rank(order.currentStatus) <= Rank(AdvanceAll(order, stamps).currentStatus)
    ensures order.timestamps.Keys <= AdvanceAll(order, stamps).timestamps.Keys
    decreases |stamps|
  {
    if |stamps| > 0 {
      AdvanceAllMonotone(Advance(order, stamps[0]), stamps[1..]);
    }
  }

  /** From the sample order (PREPARING), two firings reach DELIVERED, stamping
      OUT_FOR_DELIVERY and DELIVERED, and any further firing changes nothing; the rating
      button appears then and not before. */
  lemma SampleReachesDelivered(c: Timestamp, p: Timestamp, t1: Timestamp, t2: Timestamp, later: seq<Timestamp>)
    ensures !RateButtonShown(SampleOrder(c, p))
    ensures var o := AdvanceAll(SampleOrder(c, p), [t1, t2]);
      o.currentStatus == Delivered && RateButtonShown(o) &&
      o.timestamps == map[Confirmed := c, Preparing := p, OutForDelivery := t1, Delivered := t2] &&
      AdvanceAll(o, later) == o
  {
    var o0 := SampleOrder(c, p);
    var o1 := Advance(o0, t1);
    assert o1.currentStatus == OutForDelivery;
    var o2 := Advance(o1, t2);
    assert o2.currentStatus == Delivered;
    assert [t1, t2][1..] == [t2];
    assert AdvanceAll(o1, [t2]) == AdvanceAll(o2, []);
    FixedPointsStay(o2, later);
  }

  /** From CONFIRMED, exactly three firings reach DELIVERED. */
  lemma ConfirmedReachesDeliveredInThree(order: Order, t1: Timestamp, t2: Timestamp, t3: Timestamp)
    requires order.currentStatus == Confirmed
    ensures AdvanceAll(order, [t1, t2]).currentStatus == OutForDelivery
    ensures AdvanceAll(order, [t1, t2, t3]).currentStatus == Delivered
  {
    var o1 := Advance(order, t1);
    var o2 := Advance(o1, t2);
    var o3 := Advance(o2, t3);
    assert [t1, t2][1..] == [t2];
    assert [t1, t2, t3][1..] == [t2, t3];
    assert [t2, t3][1..] == [t3];
    assert AdvanceAll(o1, [t2]) == AdvanceAll(o2, []);
    assert AdvanceAll(o2, [t3]) == AdvanceAll(o3, []);
  }

  /** The sum of price times quantity over the ordered items, accumulated from the first
      item to the last (a left fold). */
  function OrderTotal(items: seq<OrderItem>): (r: real)
    ensures items == [] ==> r == 0.0
  {
    if |items| == 0 then 0.0
    else OrderTotal(items[..|items| - 1]) + items[|items| - 1].price * (items[|items| - 1].quantity as real)
  }

  /** The ordered items as cart lines: the name doubles as the id, and there are no
      customizations. */
  function AsCartLines(items: seq<OrderItem>): (r: seq<Cart.CartItem>)
    ensures |r| == |items|
    ensures forall i :: 0 <= i < |items| ==>
      r[i] == Cart.CartItem(items[i].name, items[i].name, items[i].price, items[i].quantity, None)
  {
    seq(|items|, i requires 0 <= i < |items| =>
      Cart.CartItem(items[i].name, items[i].name, items[i].price, items[i].quantity, None))
  }

  /** The order summary's total is computed exactly as the cart's subtotal: for every list
      of items, it is the subtotal of the same lines in the cart. */
  lemma {:induction false} OrderTotalIsCartSubtotal(items: seq<OrderItem>)
    ensures OrderTotal(items) == Cart.Subtotal(AsCartLines(items))
  {
    if |items| > 0 {
      var n := |items|;
      var lines := AsCartLines(items);
      assert lines[..n - 1] == AsCartLines(items[..n - 1]);
      OrderTotalIsCartSubtotal(items[..n - 1]);
      assert Cart.LineTotal(lines[n - 1]) == items[n - 1].price * (items[n - 1].quantity as real);
    }
  }

  /** The sample items total 24.97 (the hard-coded `totalAmount` 29.96 is not this sum). */
  lemma SampleOrderTotal(c: Timestamp, p: Timestamp)
    ensures OrderTotal(SampleOrder(c, p).items) == 24.97
  {
    var items := SampleOrder(c, p).items;
    assert items[..1] == [items[0]];
    assert [items[0]][..0] == [];
  }

  /** The sample order carries the starting cart's lines, and its hard-coded
      `totalAmount` is the cart's grand total (29.9576) rounded to cents. */
  lemma SampleOrderMatchesCart(c: Timestamp, p: Timestamp)
    ensures OrderTotal(SampleOrder(c, p).items) == Cart.CartTotals(Cart.InitialCartItems()).subtotal
    ensures var g := Cart.CartTotals(Cart.InitialCartItems()).grandTotal;
      SampleOrder(c, p).totalAmount - 0.005 <= g < SampleOrder(c, p).totalAmount + 0.005
  {
    SampleOrderTotal(c, p);
    Cart.InitialCartTotals();
  }

  /** The short id shown in the header: the last six characters, or the whole id when it is shorter. */
  function ShortId(id: string): (r: string)
    ensures |r| == if |id| < 6 then |id| else 6
    ensures id == id[..|id| - |r|] + r
  {
    id[if |id| < 6 then 0 else |id| - 6..]
  }

  /** The key name with its first underscore, if any, turned into a space; any later
      underscore stays (a string pattern replaces one occurrence only). */
  function ReplaceFirstUnderscore(s: string): (r: string)
    ensures |r| == |s|
    ensures '_' !in s ==> r == s
  {
    var k := IndexOf(s, '_');
    if k == -1 then s else s[..k] + " " + s[k + 1..]
  }

  /** The "Order Status: ..." title: the key name with its first underscore turned into a
      space, so OUT_FOR_DELIVERY keeps its second underscore and every other key, having
      none, is shown as it is. */
  function StatusTitle(s: StatusKey): (r: string)
    ensures s == OutForDelivery ==> r == "OUT FOR_DELIVERY"
    ensures s != OutForDelivery ==> r == KeyName(s)
  {
    if s == OutForDelivery then
      OutForDeliveryTitle();
      ReplaceFirstUnderscore(KeyName(s))
    else
      KeysWithoutUnderscore(s);
      ReplaceFirstUnderscore(KeyName(s))
  }

  /** OUT_FOR_DELIVERY is the only key name with an underscore. */
  lemma KeysWithoutUnderscore(k: StatusKey)
    requires k != OutForDelivery
    ensures '_' !in KeyName(k)
  {
    match k
    case Pending => assert KeyName(k) == ['P', 'E', 'N', 'D', 'I', 'N', 'G'];
    case Confirmed => assert KeyName(k) == ['C', 'O', 'N', 'F', 'I', 'R', 'M', 'E', 'D'];
    case Preparing => assert KeyName(k) == ['P', 'R', 'E', 'P', 'A', 'R', 'I', 'N', 'G'];
    case Delivered => assert KeyName(k) == ['D', 'E', 'L', 'I', 'V', 'E', 'R', 'E', 'D'];
    case Cancelled => assert KeyName(k) == ['C', 'A', 'N', 'C', 'E', 'L', 'L', 'E', 'D'];
  }

  /** Only the first underscore is replaced: whatever follows it is kept verbatim. */
  lemma ReplaceAtFirstUnderscore(a: string, b: string)
    requires '_' !in a
    ensures ReplaceFirstUnderscore(a + "_" + b) == a + " " + b
  {
    var s := a + "_" + b;
    assert s[|a|] == '_';
    assert forall j :: 0 <= j < |a| ==> s[j] == a[j];
    var k := IndexOf(s, '_');
    assert k == |a|;
    assert s[..k] == a && s[k + 1..] == b;
  }

  /** The title of the status with two underscores keeps its second one. */
  lemma OutForDeliveryTitle()
    ensures ReplaceFirstUnderscore(KeyName(OutForDelivery)) == "OUT FOR_DELIVERY"
  {
    var a, b := "OUT", "FOR_DELIVERY";
    assert '_' !in a by {
      assert a == ['O', 'U', 'T'];
    }
    KeyNameSpelled();
    ReplaceAtFirstUnderscore(a, b);
    TitleSpelled();
  }

  lemma KeyNameSpelled()
    ensures KeyName(OutForDelivery) == "OUT" + "_" + "FOR_DELIVERY"
  {
  }

  lemma TitleSpelled()
    ensures "OUT" + " " + "FOR_DELIVERY" == "OUT FOR_DELIVERY"
  {
  }

  lemma SampleHeader(c: Timestamp, p: Timestamp)
    ensures ShortId(SampleOrder(c, p).id) == "er-124"
  {
  }

  /** "Rate Your Order" is offered only once the order is delivered: the status is the
      last one of the chain, where the timer is no longer armed. */
  function RateButtonShown(order: Order): (r: bool)
    ensures r <==> Rank(order.currentStatus) == |StatusProgression()| - 1
    ensures r ==> NextStatus(order.currentStatus).None?
  {
    Ranks();
    order.currentStatus == Delivered
  }

  /** The page's `order` and `progressValue` state and its timer. */
  class OrderTrackingPage {
    var order: Order
    var progressValue: int

    ghost predicate Valid()
      reads this
    {
      33 <= progressValue <= 100
    }

    constructor (confirmedAt: Timestamp, preparingAt: Timestamp)
      ensures Valid()
      ensures order == SampleOrder(confirmedAt, preparingAt) && progressValue == 33
    {
      order := SampleOrder(confirmedAt, preparingAt);
      progressValue := 33;
    }

    /** Whether the effect arms the 15-second timer for the current status. */
    predicate TimerArmed()
      reads this
    {
      NextStatus(order.currentStatus).Some?
    }

    /** The timer callback, fired at time `now`. It only fires when armed; an unarmed
        timer leaves everything as it is. */
    method Tick(now: Timestamp)
      requires Valid()
      modifies this
      ensures Valid()
      ensures order == Advance(old(order), now)
      ensures old(TimerArmed()) ==> progressValue == BumpProgress(old(progressValue))
      ensures !old(TimerArmed()) ==> progressValue == old(progressValue)
      ensures old(progressValue) <= progressValue
    {
      var progression := StatusProgression();
      var currentIdx := IndexOf(progression, order.currentStatus);
      if currentIdx < |progression| - 1 && currentIdx != -1 {
        var nextStatus := progression[currentIdx + 1];
        order := order.(currentStatus := nextStatus, timestamps := order.timestamps[nextStatus := now]);
        progressValue := BumpProgress(progressValue);
      }
    }
  }
}
