/** The orders page: a buyer's reservations, which are cancelled or completed,
    and the review left on a completed order.

    The handlers rewrite orders by id and check nothing; which action is
    offered for which order is decided only by what the page renders. That is
    modelled by `Enabled`, and the lemmas about `Run` state what holds of every
    sequence of actions the page offers. */
module Orders {
  import opened Lists

  datatype Status = Reserved | Completed | Cancelled

  datatype Review = Review(rating: int, comment: string)

  /** An order as the page holds it. The product and the seller are reduced to
      the fields that identify them; `completedDate` is an opaque stamp (the
      page formats the current date into it). An order that was never
      completed has `reviewed == false`, as the absent field reads. */
  datatype Order = Order(
    id: int,
    productTitle: string,
    price: int,
    sellerId: string,
    status: Status,
    reservedDate: string,
    completedDate: Option<string>,
    reviewed: bool,
    review: Option<Review>)

  /** The component state: the orders, the order whose review dialog was
      opened last, and the rating and comment entered in that dialog. */
  datatype PageState = PageState(orders: seq<Order>, selected: Option<Order>, rating: int, comment: string)

  const InitialRating := 5

  // ----- The handlers -----

  function AsCancelled(o: Order): Order { o.(status := Cancelled) }

  function AsCompleted(o: Order, stamp: string): Order
  {
    o.(status := Completed, completedDate := Some(stamp), reviewed := false)
  }

  function AsReviewed(o: Order, rating: int, comment: string): Order
  {
    o.(reviewed := true, review := Some(Review(rating, comment)))
  }

  /** The list after cancelling `id`: the orders with that id become
      Cancelled, nothing else changes. */
  function CancelById(orders: seq<Order>, id: int): (r: seq<Order>)
    ensures |r| == |orders|
    ensures forall i :: 0 <= i < |orders| && orders[i].id == id ==> r[i] == orders[i].(status := Cancelled)
    ensures forall i :: 0 <= i < |orders| && orders[i].id != id ==> r[i] == orders[i]
  {
    MapWhere(orders, (o: Order) => o.id == id, AsCancelled)
  }

  /** The list after completing `id`: those orders become Completed, carry the
      completion stamp and are marked not reviewed; nothing else changes. */
  function CompleteById(orders: seq<Order>, id: int, stamp: string): (r: seq<Order>)
    ensures |r| == |orders|
    ensures forall i :: 0 <= i < |orders| && orders[i].id == id ==>
      r[i] == orders[i].(status := Completed, completedDate := Some(stamp), reviewed := false)
    ensures forall i :: 0 <= i < |orders| && orders[i].id != id ==> r[i] == orders[i]
  {
    MapWhere(orders, (o: Order) => o.id == id, (o: Order) => AsCompleted(o, stamp))
  }

  /** The list after reviewing `id`: those orders are marked reviewed and
      carry the review; nothing else changes. */
  function ReviewById(orders: seq<Order>, id: int, rating: int, comment: string): (r: seq<Order>)
    ensures |r| == |orders|
    ensures forall i :: 0 <= i < |orders| && orders[i].id == id ==>
      r[i] == orders[i].(reviewed := true, review := Some(Review(rating, comment)))
    ensures forall i :: 0 <= i < |orders| && orders[i].id != id ==> r[i] == orders[i]
  {
    MapWhere(orders, (o: Order) => o.id == id, (o: Order) => AsReviewed(o, rating, comment))
  }

  function CancelReservation(s: PageState, orderId: int): PageState
  {
    s.(orders := CancelById(s.orders, orderId))
  }

  function CompleteOrder(s: PageState, orderId: int, stamp: string): PageState
  {
    s.(orders := CompleteById(s.orders, orderId, stamp))
  }

  /** Without a selected order nothing happens. Otherwise the selected order
      gets the review and the dialog state is reset: no selection, rating 5,
      empty comment. */
  function SubmitReview(s: PageState): (r: PageState)
    ensures s.selected.None? ==> r == s
    ensures s.selected.Some? ==> r.selected.None? && r.rating == InitialRating && r.comment == ""
    ensures s.selected.Some? ==> |r.orders| == |s.orders|
    ensures s.selected.Some? ==>
      forall i :: 0 <= i < |s.orders| ==>
        r.orders[i] == if s.orders[i].id == s.selected.value.id
                       then s.orders[i].(reviewed := true, review := Some(Review(s.rating, s.comment)))
                       else s.orders[i]
  {
    if s.selected.None? then s
    else PageState(ReviewById(s.orders, s.selected.value.id, s.rating, s.comment), None, InitialRating, "")
  }

  // ----- The tabs -----

  predicate IsReserved(o: Order) { o.status == Reserved }
  predicate IsCompleted(o: Order) { o.status == Completed }

  /** The Active tab: exactly the Reserved orders, each as often as it
      occurs, in list order. */
  function ActiveTab(orders: seq<Order>): (r: seq<Order>)
    ensures forall o :: o in r <==> o in orders && o.status == Reserved
    ensures forall o :: multiset(r)[o] == if o.status == Reserved then multiset(orders)[o] else 0
    ensures IsSubsequence(r, orders)
  {
    FilterMembers(orders, IsReserved);
    FilterCounts(orders, IsReserved);
    FilterIsSubsequence(orders, IsReserved);
    Filter(orders, IsReserved)
  }

  /** The Completed tab: exactly the Completed orders, each as often as it
      occurs, in list order. */
  function CompletedTab(orders: seq<Order>): (r: seq<Order>)
    ensures forall o :: o in r <==> o in orders && o.status == Completed
    ensures forall o :: multiset(r)[o] == if o.status == Completed then multiset(orders)[o] else 0
    ensures IsSubsequence(r, orders)
  {
    FilterMembers(orders, IsCompleted);
    FilterCounts(orders, IsCompleted);
    FilterIsSubsequence(orders, IsCompleted);
    Filter(orders, IsCompleted)
  }

  // ----- What the page offers -----

  /** Cancel and Complete are rendered only on Reserved orders. */
  predicate CanCancelOrComplete(o: Order) { o.status == Reserved }

  /** Leave Review is rendered only on Completed orders not yet reviewed. */
  predicate CanLeaveReview(o: Order) { o.status == Completed && !o.reviewed }

  /** A user action on the page; an index names the order card it is taken on. */
  datatype Action =
    | CancelAt(index: int)
    | CompleteAt(index: int, stamp: string)
    | LeaveReviewAt(index: int)
    | RateStar(star: int)
    | EditComment(text: string)
    | Submit

  /** The action is rendered in state `s`. The five star buttons are numbered
      0 to 4. Submit is allowed in every state, which over-approximates the
      dialog that holds it. */
  predicate Enabled(s: PageState, a: Action)
  {
    match a
    case CancelAt(i) => 0 <= i < |s.orders| && CanCancelOrComplete(s.orders[i])
    case CompleteAt(i, _) => 0 <= i < |s.orders| && CanCancelOrComplete(s.orders[i])
    case LeaveReviewAt(i) => 0 <= i < |s.orders| && CanLeaveReview(s.orders[i])
    case RateStar(k) => 0 <= k < 5
    case EditComment(_) => true
    case Submit => true
  }

  function Step(s: PageState, a: Action): PageState
    requires Enabled(s, a)
  {
    match a
    case CancelAt(i) => CancelReservation(s, s.orders[i].id)
    case CompleteAt(i, stamp) => CompleteOrder(s, s.orders[i].id, stamp)
    case LeaveReviewAt(i) => s.(selected := Some(s.orders[i]))
    case RateStar(k) => s.(rating := k + 1)
    case EditComment(t) => s.(comment := t)
    case Submit => SubmitReview(s)
  }

  /** The state after `actions`, or None if one of them is not rendered. */
  function Run(s: PageState, actions: seq<Action>): Option<PageState>
    decreases |actions|
  {
    if actions == [] then Some(s)
    else if !Enabled(s, actions[0]) then None
    else Run(Step(s, actions[0]), actions[1..])
  }

  // ----- Invariant of the page -----

  predicate UniqueIds(orders: seq<Order>)
  {
    forall i, j :: 0 <= i < j < |orders| ==> orders[i].id != orders[j].id
  }

  /** A completion date exactly on Completed orders; a review exactly on
      reviewed ones, which are Completed; ratings from one to five. */
  predicate WellFormed(o: Order)
  {
    && (o.completedDate.Some? <==> o.status == Completed)
    && (o.review.Some? <==> o.reviewed)
    && (o.reviewed ==> o.status == Completed)
    && (o.review.Some? ==> 1 <= o.review.value.rating <= 5)
  }

  predicate Inv(s: PageState)
  {
    && UniqueIds(s.orders)
    && (forall i :: 0 <= i < |s.orders| ==> WellFormed(s.orders[i]))
    && 1 <= s.rating <= 5
    && (s.selected.Some? ==>
          forall i :: 0 <= i < |s.orders| && s.orders[i].id == s.selected.value.id ==> CanLeaveReview(s.orders[i]))
  }

  lemma StepPreservesInv(s: PageState, a: Action)
    requires Inv(s) && Enabled(s, a)
    ensures Inv(Step(s, a))
  {
    match a
    case CancelAt(i) => KeepsInv(s, Step(s, a));
    case CompleteAt(i, stamp) => KeepsInv(s, Step(s, a));
    case LeaveReviewAt(i) =>
    case RateStar(k) =>
    case EditComment(_) =>
    case Submit => KeepsInv(s, Step(s, a));
  }

  /** A rewrite of the orders that keeps every id and position, and keeps
      every order well formed, keeps the invariant of the page, provided the
      review dialog either still holds an order that can be reviewed or was
      reset. */
  lemma KeepsInv(s: PageState, t: PageState)
    requires Inv(s)
    requires |t.orders| == |s.orders|
    requires forall j :: 0 <= j < |s.orders| ==> t.orders[j].id == s.orders[j].id
    requires forall j :: 0 <= j < |t.orders| ==> WellFormed(t.orders[j])
    requires 1 <= t.rating <= 5
    requires t.selected.Some? ==> t.selected == s.selected
    requires t.selected.Some? ==>
      forall j :: 0 <= j < |t.orders| && t.orders[j].id == t.selected.value.id ==> t.orders[j] == s.orders[j]
    ensures Inv(t)
  {
  }

  /** One rendered action changes no Cancelled order, no order's status unless
      it was Reserved, and no reviewed order at all. */
  lemma StepKeepsSettledOrders(s: PageState, a: Action)
    requires Inv(s) && Enabled(s, a)
    ensures |Step(s, a).orders| == |s.orders|
    ensures forall i :: 0 <= i < |s.orders| && s.orders[i].status != Reserved ==>
      Step(s, a).orders[i].status == s.orders[i].status
    ensures forall i :: 0 <= i < |s.orders| && (s.orders[i].status == Cancelled || s.orders[i].reviewed) ==>
      Step(s, a).orders[i] == s.orders[i]
  {
  }

  /** Along every sequence of rendered actions the invariant holds, the list
      keeps its length, Completed and Cancelled orders keep their status,
      and a reviewed or Cancelled order never changes again: through the page
      an order is reviewed at most once. */
  lemma {:induction false} RunKeepsSettledOrders(s: PageState, actions: seq<Action>, t: PageState)
    requires Inv(s) && Run(s, actions) == Some(t)
    ensures Inv(t) && |t.orders| == |s.orders|
    ensures forall i :: 0 <= i < |s.orders| && s.orders[i].status != Reserved ==>
      t.orders[i].status == s.orders[i].status
    ensures forall i :: 0 <= i < |s.orders| && (s.orders[i].status == Cancelled || s.orders[i].reviewed) ==>
      t.orders[i] == s.orders[i]
    decreases |actions|
  {
    if actions != [] {
      var u := Step(s, actions[0]);
      StepPreservesInv(s, actions[0]);
      StepKeepsSettledOrders(s, actions[0]);
      RunKeepsSettledOrders(u, actions[1..], t);
    }
  }

  /** A rendered star button sets a rating from one to five. */
  lemma StarRatingInRange(s: PageState, k: int)
    requires Enabled(s, RateStar(k))
    ensures 1 <= Step(s, RateStar(k)).rating <= 5
  {
  }

  // ----- The page's initial data -----

  function InitialOrders(): seq<Order>
  {
    [ Order(1, "Engineering Mechanics Textbook", 45, "seller1", Reserved, "May 15, 2023", None, false, None),
      Order(2, "Scientific Calculator TI-84", 58, "seller2", Completed, "May 10, 2023", Some("May 12, 2023"), false, None),
      Order(3, "Lab Coat (Size M)", 25, "seller3", Completed, "April 28, 2023", Some("May 1, 2023"), true,
            Some(Review(5, "Great product, exactly as described!"))) ]
  }

  function InitialState(): PageState
  {
    PageState(InitialOrders(), None, InitialRating, "")
  }

  /** Every state the page reaches from its initial data satisfies `Inv`, and
      order 3, reviewed from the start, is never changed. */
  lemma ReachableStatesValid(actions: seq<Action>, t: PageState)
    requires Run(InitialState(), actions) == Some(t)
    ensures Inv(t) && |t.orders| == 3
    ensures t.orders[2] == InitialOrders()[2]
  {
    InitialStateValid();
    RunKeepsSettledOrders(InitialState(), actions, t);
  }

  lemma InitialStateValid()
    ensures Inv(InitialState())
  {
    var o := InitialOrders();
    assert WellFormed(o[0]) && WellFormed(o[1]) && WellFormed(o[2]);
  }

  // ----- The component -----

  /** The page component: its state hooks are fields, and each handler
      overwrites them as the source does. */
  class OrdersPage {
    var orders: seq<Order>
    var selected: Option<Order>
    var rating: int
    var comment: string

    function State(): PageState
      reads this
    {
      PageState(orders, selected, rating, comment)
    }

    constructor (initial: seq<Order>)
      ensures State() == PageState(initial, None, InitialRating, "")
    {
      orders := initial;
      selected := None;
      rating := InitialRating;
      comment := "";
    }

    method HandleCancelReservation(orderId: int)
      modifies this
      ensures State() == CancelReservation(old(State()), orderId)
    {
      orders := CancelById(orders, orderId);
    }

    method HandleCompleteOrder(orderId: int, stamp: string)
      modifies this
      ensures State() == CompleteOrder(old(State()), orderId, stamp)
    {
      orders := CompleteById(orders, orderId, stamp);
    }

    method HandleSubmitReview()
      modifies this
      ensures State() == SubmitReview(old(State()))
    {
      if selected.None? {
        return;
      }
      orders := ReviewById(orders, selected.value.id, rating, comment);
      selected := None;
      rating := InitialRating;
      comment := "";
    }

    /** Leave Review opens the dialog for `o`. */
    method SelectOrder(o: Order)
      modifies this
      ensures State() == old(State()).(selected := Some(o))
    {
      selected := Some(o);
    }

    method SetRating(value: int)
      modifies this
      ensures State() == old(State()).(rating := value)
    {
      rating := value;
    }

    method SetReviewComment(text: string)
      modifies this
      ensures State() == old(State()).(comment := text)
    {
      comment := text;
    }
  }
}
