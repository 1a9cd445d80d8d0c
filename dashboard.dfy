/** The rider dashboard: the order list with its optimistic accept and complete
    transitions, the delivery PIN dialog of one order row, overdue detection,
    the action buttons a row offers, and the wallet and daily-target snapshot
    taken from the dashboard fetch. Times are integer milliseconds. */
module Dashboard {
  import opened Common

  datatype Status = Pending | Accepted | InTransit | Delivered | Cancelled

  datatype PaymentStatus = Paid | Unpaid

  /** An order as the dashboard holds it; `estimatedDeliveryTime` is in hours. */
  datatype Order = Order(
    id: string,
    orderId: string,
    status: Status,
    paymentStatus: PaymentStatus,
    receiverName: string,
    receiversAddress: string,
    cost: string,
    acceptedAt: Option<int>,
    deliveredAt: Option<int>,
    createdAt: int,
    updatedAt: int,
    estimatedDeliveryTime: Option<real>,
    penaltyApplied: Option<bool>,
    penaltyAmount: Option<real>)

  datatype Wallet = Wallet(balance: int, totalEarnings: int, totalPenalties: int)

  datatype TargetType = Daily | Weekly

  datatype Target = Target(kind: TargetType, targetOrders: int, completedOrders: int,
                           period: string, isAchieved: bool)

  /** The optimistic transition applied to an order. */
  datatype Transition = Accept | Deliver

  /** The action buttons an order row can show. */
  datatype Action = AcceptAction | CompleteAction

  // ----- The `/api/wallets` reply, every field optional as in the JSON -----

  datatype WalletJson = WalletJson(balance: Option<int>, totalEarnings: Option<int>,
                                   totalPenalties: Option<int>)

  datatype OrdersPage = OrdersPage(docs: Option<seq<Order>>, hasMore: bool)

  datatype DashboardJson = DashboardJson(
    wallet: Option<WalletJson>,
    orders: Option<OrdersPage>,
    completedOrders: Option<int>,
    notDeliveredOrders: Option<int>,
    message: Option<string>)

  const DailyTargetOrders := 10
  const MsPerHour := 1000 * 60 * 60
  const PinLength := 4

  /** JavaScript `n || fallback` on an optional number: 0 is falsy. */
  function NumOr(n: Option<int>, fallback: int): (r: int)
    ensures n.Some? && n.value != 0 ==> r == n.value
    ensures r == fallback || (n == Some(r) && r != 0)
  {
    if n.Some? && n.value != 0 then n.value else fallback
  }

  // ----- Order-list transforms -----

  /** The one order rewritten by a transition, stamped with time `at`. */
  function Apply(o: Order, t: Transition, at: int): (r: Order)
    ensures r.id == o.id
    ensures t == Accept ==> r.status == Accepted && r.acceptedAt == Some(at) &&
                            r.(status := o.status, acceptedAt := o.acceptedAt) == o
    ensures t == Deliver ==> r.status == Delivered && r.deliveredAt == Some(at) &&
                             r.(status := o.status, deliveredAt := o.deliveredAt) == o
  {
    match t
    case Accept => o.(status := Accepted, acceptedAt := Some(at))
    case Deliver => o.(status := Delivered, deliveredAt := Some(at))
  }

  /** `orders.map(o => o._id === id ? transition(o) : o)`. */
  function Rewrite(os: seq<Order>, id: string, t: Transition, at: int): (r: seq<Order>)
    ensures |r| == |os|
  {
    if os == [] then []
    else [if os[0].id == id then Apply(os[0], t, at) else os[0]] + Rewrite(os[1..], id, t, at)
  }

  function Ids(os: seq<Order>): (r: seq<string>)
    ensures |r| == |os|
  {
    if os == [] then [] else [os[0].id] + Ids(os[1..])
  }

  /** `prevOrders?.map(...) || []`: a list that was never loaded becomes empty. */
  function OrEmpty(os: Option<seq<Order>>): seq<Order>
  {
    if os.Some? then os.value else []
  }

  /** Rewriting touches exactly the orders whose id matches: each of them
      gets the new status and its stamp, every other field of it and every
      other order stays as it was. */
  lemma {:induction false} RewriteAt(os: seq<Order>, id: string, t: Transition, at: int, i: int)
    requires 0 <= i < |os|
    ensures var r := Rewrite(os, id, t, at)[i];
      if os[i].id == id then
        r == Apply(os[i], t, at) &&
        r.(status := os[i].status, acceptedAt := os[i].acceptedAt, deliveredAt := os[i].deliveredAt) == os[i] &&
        (t == Accept ==> r.status == Accepted && r.acceptedAt == Some(at) &&
                         r.deliveredAt == os[i].deliveredAt) &&
        (t == Deliver ==> r.status == Delivered && r.deliveredAt == Some(at) &&
                          r.acceptedAt == os[i].acceptedAt)
      else r == os[i]
  {
    if i > 0 {
      RewriteAt(os[1..], id, t, at, i - 1);
    }
  }

  /** Rewriting keeps the ids, so the length and the order of the list. */
  lemma {:induction false} RewriteKeepsIds(os: seq<Order>, id: string, t: Transition, at: int)
    ensures Ids(Rewrite(os, id, t, at)) == Ids(os)
  {
    if os != [] {
      RewriteKeepsIds(os[1..], id, t, at);
    }
  }

  /** An id that no order carries leaves the list as it is. */
  lemma {:induction false} RewriteAbsentId(os: seq<Order>, id: string, t: Transition, at: int)
    requires id !in Ids(os)
    ensures Rewrite(os, id, t, at) == os
  {
    if os != [] {
      assert Ids(os) == [os[0].id] + Ids(os[1..]);
      RewriteAbsentId(os[1..], id, t, at);
    }
  }

  /** Applying the same transition twice at the same time is the same as once. */
  lemma {:induction false} RewriteIdempotent(os: seq<Order>, id: string, t: Transition, at: int)
    ensures Rewrite(Rewrite(os, id, t, at), id, t, at) == Rewrite(os, id, t, at)
  {
    if os != [] {
      RewriteIdempotent(os[1..], id, t, at);
      var r := Rewrite(os, id, t, at);
      assert r[1..] == Rewrite(os[1..], id, t, at);
    }
  }

  // ----- Counters -----

  /** `Math.max(0, prev - 1)`. */
  function DecPending(p: int): (r: int)
    ensures r >= 0
    ensures p >= 1 ==> r == p - 1
    ensures p <= 1 ==> r == 0
  {
    if p - 1 > 0 then p - 1 else 0
  }

  /** The pending counter after `n` completions. */
  function PendingAfter(p: int, n: nat): int
  {
    if n == 0 then p else DecPending(PendingAfter(p, n - 1))
  }

  /** After any positive number of completions the pending counter is the
      old value minus that number, floored at zero; so it is never negative,
      whatever the fetch put there. */
  lemma {:induction false} PendingAfterCompletions(p: int, n: nat)
    requires n >= 1
    ensures PendingAfter(p, n) == if p - n > 0 then p - n else 0
    ensures PendingAfter(p, n) >= 0
  {
    if n > 1 {
      PendingAfterCompletions(p, n - 1);
    }
  }

  // ----- Row decisions -----

  /** `isOverdue()` of an order row at time `now`, hours computed by division
      as the source does. */
  function IsOverdue(o: Order, now: int): (r: bool)
    ensures r ==> o.status == Accepted && o.acceptedAt.Some? && o.estimatedDeliveryTime.Some?
    ensures r ==> o.estimatedDeliveryTime.value != 0.0
  {
    if o.acceptedAt.Some? && o.status == Accepted &&
       o.estimatedDeliveryTime.Some? && o.estimatedDeliveryTime.value != 0.0
    then (now - o.acceptedAt.value) as real / (MsPerHour as real) > o.estimatedDeliveryTime.value
    else false
  }

  /** Overdue means: accepted, stamped, a non-zero estimate, and strictly more
      milliseconds elapsed than the estimate in hours allows. */
  lemma OverdueIff(o: Order, now: int)
    ensures IsOverdue(o, now) <==>
      o.acceptedAt.Some? && o.status == Accepted &&
      o.estimatedDeliveryTime.Some? && o.estimatedDeliveryTime.value != 0.0 &&
      (now - o.acceptedAt.value) as real > o.estimatedDeliveryTime.value * 3600000.0
  {
    if o.acceptedAt.Some? && o.status == Accepted &&
       o.estimatedDeliveryTime.Some? && o.estimatedDeliveryTime.value != 0.0 {
      var e := (now - o.acceptedAt.value) as real;
      var h := o.estimatedDeliveryTime.value;
      assert e / 3600000.0 > h <==> e > h * 3600000.0 by {
        assert e == (e / 3600000.0) * 3600000.0;
      }
    }
  }

  /** Being overdue is never undone by time passing. */
  lemma OverdueStaysOverdue(o: Order, now: int, later: int)
    requires now <= later && IsOverdue(o, now)
    ensures IsOverdue(o, later)
  {
    OverdueIff(o, now);
    OverdueIff(o, later);
  }

  /** The buttons a row renders: Accept on a pending order, Mark as Delivered
      on an accepted one, and nothing unless `showActions`. */
  function ActionsOffered(o: Order, showActions: bool, hasAccept: bool, hasComplete: bool): (r: set<Action>)
    ensures r != {} ==> showActions
    ensures AcceptAction in r ==> o.status == Pending && hasAccept
    ensures CompleteAction in r ==> o.status == Accepted && hasComplete
    ensures !(AcceptAction in r && CompleteAction in r)
  {
    if !showActions then {}
    else (if o.status == Pending && hasAccept then {AcceptAction} else {}) +
         (if o.status == Accepted && hasComplete then {CompleteAction} else {})
  }

  /** The dashboard passes `showActions` only for pending and accepted orders. */
  function ShowActionsFor(o: Order): (r: bool)
    ensures r <==> ActionsOffered(o, true, true, true) != {}
  {
    o.status == Pending || o.status == Accepted
  }

  /** On the dashboard a row offers Accept exactly when the order is pending,
      Complete exactly when it is accepted, never both, and nothing for an
      order in transit, delivered or cancelled. */
  lemma DashboardRowActions(o: Order)
    ensures var acts := ActionsOffered(o, ShowActionsFor(o), true, true);
      (AcceptAction in acts <==> o.status == Pending) &&
      (CompleteAction in acts <==> o.status == Accepted) &&
      (acts != {} <==> ShowActionsFor(o)) &&
      !(AcceptAction in acts && CompleteAction in acts)
  {
  }

  // ----- Snapshot taken from the dashboard fetch -----

  /** The wallet built from `data.wallet`: each amount falls back to 0, and
      total earnings fall back to the balance first. */
  function WalletFrom(w: Option<WalletJson>): (r: Wallet)
    ensures w.None? ==> r == Wallet(0, 0, 0)
    ensures w.Some? ==> r.balance == NumOr(w.value.balance, 0) &&
                        r.totalPenalties == NumOr(w.value.totalPenalties, 0)
    ensures w.Some? ==>
              r.totalEarnings == (if w.value.totalEarnings.Some? && w.value.totalEarnings.value != 0
                                  then w.value.totalEarnings.value else r.balance)
  {
    match w
    case None => Wallet(0, 0, 0)
    case Some(j) =>
      Wallet(NumOr(j.balance, 0), NumOr(j.totalEarnings, NumOr(j.balance, 0)), NumOr(j.totalPenalties, 0))
  }

  /** The daily target built from `data.completedOrders` on day `today`. */
  function TargetFrom(completed: Option<int>, today: string): (r: Target)
    ensures r.kind == Daily && r.targetOrders == DailyTargetOrders && r.period == today
    ensures r.completedOrders == NumOr(completed, 0)
    ensures r.isAchieved <==> r.completedOrders >= r.targetOrders
  {
    var c := NumOr(completed, 0);
    Target(Daily, DailyTargetOrders, c, today, c >= 10)
  }

  /** The dashboard's own state: the loaded wallet, order list, counters and
      target. `orders` is `None` until the first fetch, as the source's
      `null`. */
  class WalletDashboard {
    var wallet: Option<Wallet>
    var orders: Option<seq<Order>>
    var target: Option<Target>
    var isLoading: bool
    var completedOrders: int
    var pendingOrders: int

    constructor ()
      ensures wallet.None? && orders.None? && target.None? && isLoading
      ensures completedOrders == 0 && pendingOrders == 0
    {
      wallet, orders, target := None, None, None;
      isLoading := true;
      completedOrders, pendingOrders := 0, 0;
    }

    /** Optimistically marks order `id` accepted at time `now`. */
    method HandleAcceptOrder(id: string, now: int)
      modifies this
      ensures orders == Some(Rewrite(OrEmpty(old(orders)), id, Accept, now))
      ensures completedOrders == old(completedOrders) && pendingOrders == old(pendingOrders)
      ensures wallet == old(wallet) && target == old(target) && isLoading == old(isLoading)
    {
      orders := Some(Rewrite(OrEmpty(orders), id, Accept, now));
    }

    /** Optimistically marks order `id` delivered when the PIN has four
        characters, and moves one order from pending to completed. */
    method HandleCompleteOrder(id: string, pin: string, now: int)
      modifies this
      ensures |pin| != PinLength ==>
        orders == old(orders) && completedOrders == old(completedOrders) &&
        pendingOrders == old(pendingOrders)
      ensures |pin| == PinLength ==>
        orders == Some(Rewrite(OrEmpty(old(orders)), id, Deliver, now)) &&
        completedOrders == old(completedOrders) + 1 &&
        pendingOrders == DecPending(old(pendingOrders))
      ensures wallet == old(wallet) && target == old(target) && isLoading == old(isLoading)
    {
      if |pin| == PinLength {
        orders := Some(Rewrite(OrEmpty(orders), id, Deliver, now));
        completedOrders := completedOrders + 1;
        pendingOrders := DecPending(pendingOrders);
      }
    }

    /** `fetchDashboardData`: without a token or on a failed reply only the
        loading flag drops; on success the snapshot replaces wallet, orders,
        counters and target. */
    method FetchDashboardData(hasToken: bool, reply: Reply<DashboardJson>, today: string)
      modifies this
      ensures !isLoading
      ensures !(hasToken && reply.Ok?) ==>
        wallet == old(wallet) && orders == old(orders) && target == old(target) &&
        completedOrders == old(completedOrders) && pendingOrders == old(pendingOrders)
      ensures hasToken && reply.Ok? ==>
        var d := reply.body;
        wallet == Some(WalletFrom(d.wallet)) &&
        orders == Some(if d.orders.Some? && d.orders.value.docs.Some? then d.orders.value.docs.value else []) &&
        completedOrders == NumOr(d.completedOrders, 0) &&
        pendingOrders == NumOr(d.notDeliveredOrders, 0) &&
        target == Some(TargetFrom(d.completedOrders, today))
    {
      if !hasToken {
        isLoading := false;
        return;
      }
      if reply.Ok? {
        var d := reply.body;
        wallet := Some(WalletFrom(d.wallet));
        orders := Some(if d.orders.Some? && d.orders.value.docs.Some? then d.orders.value.docs.value else []);
        completedOrders := NumOr(d.completedOrders, 0);
        pendingOrders := NumOr(d.notDeliveredOrders, 0);
        target := Some(TargetFrom(d.completedOrders, today));
      }
      isLoading := false;
    }
  }

  /** The PIN dialog of one order row. */
  class OrderItem {
    const order: Order
    var pin: string
    var showPinDialog: bool

    ghost predicate Valid()
      reads this
    {
      |pin| <= PinLength
    }

    constructor (o: Order)
      ensures Valid() && order == o && pin == "" && !showPinDialog
    {
      order := o;
      pin := "";
      showPinDialog := false;
    }

    /** The PIN input keeps at most the first four characters typed. */
    method ChangePin(input: string)
      requires Valid()
      modifies this
      ensures Valid()
      ensures pin == Take(input, PinLength) && showPinDialog == old(showPinDialog)
    {
      pin := Take(input, PinLength);
    }

    /** "Mark as Delivered" opens the dialog; the button exists only on an
        accepted order's row. */
    method OpenPinDialog()
      requires Valid()
      requires CompleteAction in ActionsOffered(order, ShowActionsFor(order), true, true)
      modifies this
      ensures Valid() && showPinDialog && pin == old(pin)
    {
      showPinDialog := true;
    }

    /** The dialog's `onOpenChange` (Escape, a click outside): the dialog
        closes and the PIN typed so far stays. */
    method DismissPinDialog()
      requires Valid()
      modifies this
      ensures Valid() && !showPinDialog && pin == old(pin)
    {
      showPinDialog := false;
    }

    /** Cancel clears the PIN and closes the dialog. */
    method CancelPinDialog()
      requires Valid()
      modifies this
      ensures Valid() && pin == "" && !showPinDialog
    {
      pin := "";
      showPinDialog := false;
    }

    /** Forwards `(order id, PIN)` to the dashboard only with a full four
        character PIN and a completion handler, then clears the PIN and
        closes the dialog; otherwise nothing happens. */
    method HandleCompleteOrder(hasOnComplete: bool) returns (forwarded: Option<(string, string)>)
      requires Valid()
      modifies this
      ensures Valid()
      ensures forwarded.Some? <==> |old(pin)| == PinLength && hasOnComplete
      ensures forwarded.Some? ==>
        forwarded.value == (order.id, old(pin)) && |forwarded.value.1| == PinLength &&
        pin == "" && !showPinDialog
      ensures forwarded.None? ==> pin == old(pin) && showPinDialog == old(showPinDialog)
    {
      if |pin| == PinLength && hasOnComplete {
        forwarded := Some((order.id, pin));
        pin := "";
        showPinDialog := false;
      } else {
        forwarded := None;
      }
    }
  }

  /** A row's completion reaching the dashboard: the forwarded PIN always
      passes the dashboard's own length check, so the order is delivered
      and the counters move exactly when the row's PIN had four characters;
      wallet, target and loading flag never change. */
  method CompleteFromRow(d: WalletDashboard, item: OrderItem, now: int) returns (sent: bool)
    requires item.Valid()
    modifies d, item
    ensures item.Valid()
    ensures sent <==> |old(item.pin)| == PinLength
    ensures sent ==>
      d.orders == Some(Rewrite(OrEmpty(old(d.orders)), item.order.id, Deliver, now)) &&
      d.completedOrders == old(d.completedOrders) + 1 &&
      d.pendingOrders == DecPending(old(d.pendingOrders))
    ensures sent ==> item.pin == "" && !item.showPinDialog
    ensures !sent ==>
      d.orders == old(d.orders) && d.completedOrders == old(d.completedOrders) &&
      d.pendingOrders == old(d.pendingOrders) &&
      item.pin == old(item.pin) && item.showPinDialog == old(item.showPinDialog)
    ensures d.wallet == old(d.wallet) && d.target == old(d.target) && d.isLoading == old(d.isLoading)
  {
    var f := item.HandleCompleteOrder(true);
    sent := f.Some?;
    if f.Some? {
      d.HandleCompleteOrder(f.value.0, f.value.1, now);
    }
  }
}
