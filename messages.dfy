/** The messages page: a thread of plain messages and offers, the accept and
    reject actions on an offer, and the offer panel whose amount is stepped
    by 100 and bounded by the listing's price.

    As on the orders page, the handlers check nothing; only the rendering
    decides which offer can be answered. `Enabled` models that, and the
    lemmas about `Run` state what holds along every sequence of actions. */
module Messages {
  import opened Lists
  import Text

  datatype OfferStatus = Pending | Accepted | Rejected

  /** A message of the thread. Plain messages have no amount and no status;
      accept and reject nevertheless write a status into whatever message
      carries the id they are given. */
  datatype Message = Message(
    id: int,
    sender: string,
    text: string,
    timestamp: string,
    isOffer: bool,
    offerAmount: Option<int>,
    offerStatus: Option<OfferStatus>)

  const Me := "me"
  const JustNow := "Just now"
  const AmountStep := 100

  /** The component state. `price` is the list price of the listing of the
      open conversation. */
  datatype ChatState = ChatState(
    messages: seq<Message>,
    newMessage: string,
    showOfferPanel: bool,
    offerAmount: int,
    price: int)

  // ----- Sending -----

  // The fixed parts of an offer's text, around the amount.
  const OfferLead := "I'm offering \U{20B9}"
  const OfferTail := " for this item."

  function OfferText(amount: int): string
  {
    OfferLead + Text.NumberString(amount) + OfferTail
  }

  function OfferMessage(id: int, amount: int): Message
  {
    Message(id, Me, OfferText(amount), JustNow, true, Some(amount), Some(Pending))
  }

  function TextMessage(id: int, text: string): Message
  {
    Message(id, Me, text, JustNow, false, None, None)
  }

  /** The send guard's `!newMessage.trim()`: by `Text.TrimIsEmptyIff` the
      trimmed input is empty exactly when every character is whitespace. */
  predicate IsBlank(text: string)
  {
    Text.AllWhitespace(text)
  }

  /** Sending. With the panel closed and a blank input nothing happens. With
      the panel open one pending offer of the current amount is appended and
      the panel closes; otherwise the typed text is appended as a plain
      message. The new message has id length + 1, every earlier message is
      kept, and the input is cleared. */
  function SendMessage(s: ChatState): ChatState
  {
    if IsBlank(s.newMessage) && !s.showOfferPanel then s
    else if s.showOfferPanel then
      s.(messages := s.messages + [OfferMessage(|s.messages| + 1, s.offerAmount)],
         showOfferPanel := false, newMessage := "")
    else
      s.(messages := s.messages + [TextMessage(|s.messages| + 1, s.newMessage)], newMessage := "")
  }

  /** What sending does, case by case. */
  lemma SendMessageEffect(s: ChatState, r: ChatState)
    requires r == SendMessage(s)
    ensures IsBlank(s.newMessage) && !s.showOfferPanel ==> r == s
    ensures !(IsBlank(s.newMessage) && !s.showOfferPanel) ==>
      && |r.messages| == |s.messages| + 1
      && r.messages[..|s.messages|] == s.messages
      && r.messages[|s.messages|].id == |s.messages| + 1
      && r.messages[|s.messages|].sender == Me
      && r.newMessage == ""
      && !r.showOfferPanel
    ensures s.showOfferPanel ==>
      && r.messages[|s.messages|].isOffer
      && r.messages[|s.messages|].offerAmount == Some(s.offerAmount)
      && r.messages[|s.messages|].offerStatus == Some(Pending)
    ensures !s.showOfferPanel && !IsBlank(s.newMessage) ==>
      && !r.messages[|s.messages|].isOffer
      && r.messages[|s.messages|].text == s.newMessage
    ensures r.offerAmount == s.offerAmount && r.price == s.price
  {
  }

  /** With the panel closed, a message that trims to nothing is not sent. */
  lemma WhitespaceIsNotSent(s: ChatState)
    requires !s.showOfferPanel && Text.Trim(s.newMessage) == []
    ensures SendMessage(s) == s
  {
    Text.TrimIsEmptyIff(s.newMessage);
  }

  /** With the panel closed, a message that does not trim to nothing is
      sent as typed. */
  lemma VisibleTextIsSent(s: ChatState)
    requires !s.showOfferPanel && Text.Trim(s.newMessage) != []
    ensures |SendMessage(s).messages| == |s.messages| + 1
    ensures SendMessage(s).messages[|s.messages|] == TextMessage(|s.messages| + 1, s.newMessage)
  {
    Text.TrimIsEmptyIff(s.newMessage);
  }

  // ----- Answering an offer -----

  /** The thread after setting the offer status of `id`: the messages with
      that id get `status`, nothing else changes. */
  function SetOfferStatus(messages: seq<Message>, id: int, status: OfferStatus): (r: seq<Message>)
    ensures |r| == |messages|
    ensures forall i :: 0 <= i < |messages| && messages[i].id == id ==>
      r[i] == messages[i].(offerStatus := Some(status))
    ensures forall i :: 0 <= i < |messages| && messages[i].id != id ==> r[i] == messages[i]
  {
    MapWhere(messages, (m: Message) => m.id == id, (m: Message) => m.(offerStatus := Some(status)))
  }

  function AcceptOffer(s: ChatState, offerId: int): ChatState
  {
    s.(messages := SetOfferStatus(s.messages, offerId, Accepted))
  }

  function RejectOffer(s: ChatState, offerId: int): ChatState
  {
    s.(messages := SetOfferStatus(s.messages, offerId, Rejected))
  }

  /** Counter only opens the offer panel; no message changes. */
  function CounterOffer(s: ChatState): (r: ChatState)
    ensures r.messages == s.messages && r.showOfferPanel
    ensures r.offerAmount == s.offerAmount && r.newMessage == s.newMessage
  {
    s.(showOfferPanel := true)
  }

  // ----- The offer amount -----

  /** The step-down button: 100 less, but never below zero. */
  function StepDown(s: ChatState): (r: ChatState)
    ensures r.offerAmount >= 0
    ensures s.offerAmount >= AmountStep ==> r.offerAmount == s.offerAmount - AmountStep
    ensures s.offerAmount < AmountStep ==> r.offerAmount == 0
    ensures r == s.(offerAmount := r.offerAmount)
  {
    s.(offerAmount := Max(s.offerAmount - AmountStep, 0))
  }

  /** The step-up button: 100 more, but never above the list price. */
  function StepUp(s: ChatState): (r: ChatState)
    ensures r.offerAmount <= s.price
    ensures s.offerAmount + AmountStep <= s.price ==> r.offerAmount == s.offerAmount + AmountStep
    ensures s.offerAmount + AmountStep > s.price ==> r.offerAmount == s.price
    ensures r == s.(offerAmount := r.offerAmount)
  {
    s.(offerAmount := Min(s.offerAmount + AmountStep, s.price))
  }

  /** The slider offers the amounts from half the price to the price; `2 * v`
      compares with the price without the fraction `price * 0.5`. */
  predicate OnSlider(price: int, v: int)
  {
    price <= 2 * v && v <= price
  }

  /** Switching conversations as the page does it: only the conversation
      changes, so the price becomes the new listing's and the amount typed
      for the old one stays. */
  function SelectConversationAsWritten(s: ChatState, price: int): ChatState
  {
    s.(price := price)
  }

  /** Switching conversations with the amount brought within the new price:
      the corrected behaviour, not what the page does. */
  function SelectConversation(s: ChatState, price: int): (r: ChatState)
    requires price >= 0
    ensures 0 <= s.offerAmount ==> 0 <= r.offerAmount <= r.price
    ensures r.price == price && r.messages == s.messages
    ensures s.offerAmount <= price ==> r.offerAmount == s.offerAmount
  {
    s.(price := price, offerAmount := Min(s.offerAmount, price))
  }

  // ----- What the page offers -----

  /** Accept, Reject and Counter are rendered only on offers that someone
      else sent and that are still pending. */
  predicate CanRespond(m: Message)
  {
    m.isOffer && m.sender != Me && m.offerStatus == Some(Pending)
  }

  /** A user action; an index names the message whose buttons are used. */
  datatype Action =
    | Send
    | AcceptAt(index: int)
    | RejectAt(index: int)
    | CounterAt(index: int)
    | StepAmountDown
    | StepAmountUp
    | Slide(amount: int)
    | ToggleOfferPanel
    | CloseOfferPanel
    | Type(text: string)
    | OpenConversation(listPrice: int)

  /** The action is rendered in state `s`. The slider and the step buttons
      sit in the offer panel; the text input is disabled while it is open. */
  predicate Enabled(s: ChatState, a: Action)
  {
    match a
    case Send => true
    case AcceptAt(i) => 0 <= i < |s.messages| && CanRespond(s.messages[i])
    case RejectAt(i) => 0 <= i < |s.messages| && CanRespond(s.messages[i])
    case CounterAt(i) => 0 <= i < |s.messages| && CanRespond(s.messages[i])
    case StepAmountDown => s.showOfferPanel
    case StepAmountUp => s.showOfferPanel
    case Slide(v) => s.showOfferPanel && OnSlider(s.price, v)
    case ToggleOfferPanel => true
    case CloseOfferPanel => s.showOfferPanel
    case Type(_) => !s.showOfferPanel
    case OpenConversation(p) => p > 0
  }

  function Step(s: ChatState, a: Action): ChatState
    requires Enabled(s, a)
  {
    match a
    case Send => SendMessage(s)
    case AcceptAt(i) => AcceptOffer(s, s.messages[i].id)
    case RejectAt(i) => RejectOffer(s, s.messages[i].id)
    case CounterAt(_) => CounterOffer(s)
    case StepAmountDown => StepDown(s)
    case StepAmountUp => StepUp(s)
    case Slide(v) => s.(offerAmount := v)
    case ToggleOfferPanel => s.(showOfferPanel := !s.showOfferPanel)
    case CloseOfferPanel => s.(showOfferPanel := false)
    case Type(t) => s.(newMessage := t)
    case OpenConversation(p) => SelectConversationAsWritten(s, p)
  }

  function Run(s: ChatState, actions: seq<Action>): Option<ChatState>
    decreases |actions|
  {
    if actions == [] then Some(s)
    else if !Enabled(s, actions[0]) then None
    else Run(Step(s, actions[0]), actions[1..])
  }

  // ----- Invariant of the page -----

  /** The ids are exactly 1..n in thread order. */
  predicate SequentialIds(messages: seq<Message>)
  {
    forall i :: 0 <= i < |messages| ==> messages[i].id == i + 1
  }

  /** A message sent now gets an id no earlier message has. */
  lemma NewIdIsFresh(s: ChatState)
    requires SequentialIds(s.messages)
    ensures forall i :: 0 <= i < |s.messages| ==> s.messages[i].id != |s.messages| + 1
    ensures SequentialIds(SendMessage(s).messages)
  {
  }

  /** What every reachable state keeps: sequential ids, an amount that is
      not negative and a positive price. The amount is not kept within the
      price: switching conversations leaves it as it was. */
  predicate Inv(s: ChatState)
  {
    SequentialIds(s.messages) && 0 <= s.offerAmount && 0 < s.price
  }

  /** The amount the panel shows lies between 0 and the list price. */
  predicate AmountWithinPrice(s: ChatState)
  {
    0 <= s.offerAmount <= s.price
  }

  lemma StepPreservesInv(s: ChatState, a: Action)
    requires Inv(s) && Enabled(s, a)
    ensures Inv(Step(s, a))
  {
    match a
    case AcceptAt(i) =>
    case RejectAt(i) =>
    case _ =>
  }

  /** The step buttons and the slider keep the amount within the price; of
      the rendered actions only a conversation switch can leave it. */
  lemma StepKeepsAmountWithinPrice(s: ChatState, a: Action)
    requires AmountWithinPrice(s) && Enabled(s, a) && !a.OpenConversation?
    ensures AmountWithinPrice(Step(s, a))
  {
    match a
    case AcceptAt(i) =>
    case RejectAt(i) =>
    case _ =>
  }

  /** One rendered action changes only the message it is taken on, and only
      if that message is an offer from someone else that is still pending;
      messages are never removed. Ids name one message each, so an answer
      reaches no other message. */
  lemma StepKeepsSettledMessages(s: ChatState, a: Action)
    requires SequentialIds(s.messages) && Enabled(s, a)
    ensures |Step(s, a).messages| >= |s.messages|
    ensures forall i :: 0 <= i < |s.messages| && !CanRespond(s.messages[i]) ==>
      Step(s, a).messages[i] == s.messages[i]
  {
    var t := Step(s, a);
    match a
    case Send =>
      if !(IsBlank(s.newMessage) && !s.showOfferPanel) {
        assert forall i :: 0 <= i < |s.messages| ==> t.messages[i] == t.messages[..|s.messages|][i];
      }
    case _ =>
  }

  /** Along every sequence of rendered actions the invariant holds, the thread
      only grows, and an offer that is accepted or rejected, an offer sent by
      this user and a plain message never change again. */
  lemma {:induction false} RunKeepsSettledMessages(s: ChatState, actions: seq<Action>, t: ChatState)
    requires Inv(s) && Run(s, actions) == Some(t)
    ensures Inv(t) && |t.messages| >= |s.messages|
    ensures forall i :: 0 <= i < |s.messages| && !CanRespond(s.messages[i]) ==> t.messages[i] == s.messages[i]
    decreases |actions|
  {
    if actions != [] {
      var u := Step(s, actions[0]);
      StepPreservesInv(s, actions[0]);
      StepKeepsSettledMessages(s, actions[0]);
      RunKeepsSettledMessages(u, actions[1..], t);
      forall i | 0 <= i < |s.messages| && !CanRespond(s.messages[i])
        ensures t.messages[i] == s.messages[i]
      {
        assert u.messages[i] == s.messages[i];
      }
    }
  }

  /** Every offer sent while the amount is within the price is for an amount
      from 0 to the list price. */
  lemma SentOffersWithinPrice(s: ChatState)
    requires AmountWithinPrice(s) && s.showOfferPanel
    ensures var m := SendMessage(s).messages[|s.messages|];
      m.offerAmount.Some? && 0 <= m.offerAmount.value <= s.price
  {
  }

  // ----- The corrected page -----

  /** The page with the corrected conversation switch; every other action
      is the page's own. */
  function StepCorrected(s: ChatState, a: Action): ChatState
    requires Enabled(s, a)
  {
    match a
    case OpenConversation(p) => SelectConversation(s, p)
    case _ => Step(s, a)
  }

  function RunCorrected(s: ChatState, actions: seq<Action>): Option<ChatState>
    decreases |actions|
  {
    if actions == [] then Some(s)
    else if !Enabled(s, actions[0]) then None
    else RunCorrected(StepCorrected(s, actions[0]), actions[1..])
  }

  /** With the corrected switch the amount stays within the price of the open
      conversation along every sequence of rendered actions, so every offer
      sent is for at most the list price. */
  lemma {:induction false} RunCorrectedKeepsAmountWithinPrice(s: ChatState, actions: seq<Action>, t: ChatState)
    requires Inv(s) && AmountWithinPrice(s) && RunCorrected(s, actions) == Some(t)
    ensures Inv(t) && AmountWithinPrice(t)
    decreases |actions|
  {
    if actions != [] {
      var a := actions[0];
      if !a.OpenConversation? {
        StepPreservesInv(s, a);
        StepKeepsAmountWithinPrice(s, a);
      }
      RunCorrectedKeepsAmountWithinPrice(StepCorrected(s, a), actions[1..], t);
    }
  }

  // ----- The page's initial data -----

  // The texts of the initial thread.
  const Line1 := "Hi there! I'm interested in your Scientific Calculator TI-84."
  const Line2 := "Hello! Yes, it's still available. It's in good condition with all functions working properly."
  const Line3 := "Great! What's the lowest you can go on the price?"
  const Line4 := "I'm asking \U{20B9}1800, but I could do \U{20B9}1650 if you can pick it up this week."
  const Line5 := "Would you take \U{20B9}1500 for it?"
  const Line6 := "I can meet you at \U{20B9}1600, that's the lowest I can go."
  const Line7 := "Let me think about it. How about \U{20B9}1550?"

  function InitialMessages(): seq<Message>
  {
    [ Message(1, "user2", Line1, "Yesterday, 2:30 PM", false, None, None),
      Message(2, Me, Line2, "Yesterday, 2:45 PM", false, None, None),
      Message(3, "user2", Line3, "Yesterday, 3:00 PM", false, None, None),
      Message(4, Me, Line4, "Yesterday, 3:15 PM", false, None, None),
      Message(5, "user2", Line5, "Yesterday, 3:30 PM", true, Some(1500), Some(Pending)),
      Message(6, Me, Line6, "Yesterday, 3:45 PM", true, Some(1600), Some(Pending)),
      Message(7, "user2", Line7, "Yesterday, 4:00 PM", true, Some(1550), Some(Pending)) ]
  }

  /** The page opens on the conversation about a listing priced 1800, with
      the amount at 90% of it. */
  function InitialState(): ChatState
  {
    ChatState(InitialMessages(), "", false, 1620, 1800)
  }

  lemma InitialStateValid()
    ensures Inv(InitialState()) && AmountWithinPrice(InitialState())
  {
  }

  /** The page does not keep a thread to one accepted offer: any two offers
      that can be answered can both be accepted, one after the other. */
  lemma TwoOffersCanBeAccepted(s: ChatState, i: int, j: int)
    requires 0 <= i < |s.messages| && 0 <= j < |s.messages| && s.messages[i].id != s.messages[j].id
    requires CanRespond(s.messages[i]) && CanRespond(s.messages[j])
    ensures Run(s, [AcceptAt(i), AcceptAt(j)]).Some?
    ensures var t := Run(s, [AcceptAt(i), AcceptAt(j)]).value;
      |t.messages| == |s.messages|
      && t.messages[i].offerStatus == Some(Accepted) && t.messages[j].offerStatus == Some(Accepted)
  {
    var s1 := Step(s, AcceptAt(i));
    assert s1.messages[j] == s.messages[j];
    var s2 := Step(s1, AcceptAt(j));
    assert [AcceptAt(i), AcceptAt(j)][1..] == [AcceptAt(j)];
    assert Run(s1, [AcceptAt(j)]) == Some(s2);
  }

  /** The initial thread holds two such offers, from the other party. */
  lemma InitialThreadHasTwoOpenOffers()
    ensures CanRespond(InitialMessages()[4]) && CanRespond(InitialMessages()[6])
    ensures InitialMessages()[4].id != InitialMessages()[6].id
  {
  }

  /** As written, switching to the conversation about a listing priced 600
      keeps the amount 1620, and the offer sent next exceeds the list price.
      With the corrected switch the same actions offer 600. */
  lemma OfferAbovePriceAsWritten()
    ensures var r := Run(InitialState(), SwitchAndOffer);
      r.Some? && r.value.price == 600 && |r.value.messages| == 8
      && r.value.messages[7].offerAmount == Some(1620)
    ensures var r := RunCorrected(InitialState(), SwitchAndOffer);
      r.Some? && |r.value.messages| == 8 && r.value.messages[7].offerAmount == Some(600)
  {
    var s0 := InitialState();
    var s1 := SelectConversationAsWritten(s0, 600);
    var s2 := s1.(showOfferPanel := true);
    var s3 := SendMessage(s2);
    assert SwitchAndOffer[1..][1..][1..] == [];
    assert Run(s2, [Send]) == Some(s3);
    assert Run(s1, [ToggleOfferPanel, Send]) == Some(s3);
    var c1 := SelectConversation(s0, 600);
    var c2 := c1.(showOfferPanel := true);
    var c3 := SendMessage(c2);
    assert RunCorrected(c2, [Send]) == Some(c3);
    assert RunCorrected(c1, [ToggleOfferPanel, Send]) == Some(c3);
  }

  /** Open the conversation about the listing priced 600, open the offer
      panel and send. */
  const SwitchAndOffer := [OpenConversation(600), ToggleOfferPanel, Send]

  // ----- The component -----

  /** The page component: its state hooks are fields, and each handler
      overwrites them as the source does. */
  class MessagesPage {
    var messages: seq<Message>
    var newMessage: string
    var showOfferPanel: bool
    var offerAmount: int
    var price: int

    function State(): ChatState
      reads this
    {
      ChatState(messages, newMessage, showOfferPanel, offerAmount, price)
    }

    constructor (initial: seq<Message>, listPrice: int, openingAmount: int)
      ensures State() == ChatState(initial, "", false, openingAmount, listPrice)
    {
      messages := initial;
      newMessage := "";
      showOfferPanel := false;
      offerAmount := openingAmount;
      price := listPrice;
    }

    method HandleSendMessage()
      modifies this
      ensures State() == SendMessage(old(State()))
    {
      if IsBlank(newMessage) && !showOfferPanel {
        return;
      }
      if showOfferPanel {
        var msg := OfferMessage(|messages| + 1, offerAmount);
        messages := messages + [msg];
        showOfferPanel := false;
      } else {
        var msg := TextMessage(|messages| + 1, newMessage);
        messages := messages + [msg];
      }
      newMessage := "";
    }

    method HandleAcceptOffer(offerId: int)
      modifies this
      ensures State() == AcceptOffer(old(State()), offerId)
    {
      messages := SetOfferStatus(messages, offerId, Accepted);
    }

    method HandleRejectOffer(offerId: int)
      modifies this
      ensures State() == RejectOffer(old(State()), offerId)
    {
      messages := SetOfferStatus(messages, offerId, Rejected);
    }

    method HandleCounterOffer()
      modifies this
      ensures State() == CounterOffer(old(State()))
    {
      showOfferPanel := true;
    }

    method StepAmountDown()
      modifies this
      ensures State() == StepDown(old(State()))
    {
      offerAmount := Max(offerAmount - AmountStep, 0);
    }

    method StepAmountUp()
      modifies this
      ensures State() == StepUp(old(State()))
    {
      offerAmount := Min(offerAmount + AmountStep, price);
    }

    /** Choosing a conversation in the list: the price becomes the new
        listing's, the amount stays. */
    method HandleSelectConversation(listPrice: int)
      modifies this
      ensures State() == SelectConversationAsWritten(old(State()), listPrice)
    {
      price := listPrice;
    }

    method SetOfferAmount(amount: int)
      modifies this
      ensures State() == old(State()).(offerAmount := amount)
    {
      offerAmount := amount;
    }

    method SetShowOfferPanel(show: bool)
      modifies this
      ensures State() == old(State()).(showOfferPanel := show)
    {
      showOfferPanel := show;
    }

    method SetNewMessage(text: string)
      modifies this
      ensures State() == old(State()).(newMessage := text)
    {
      newMessage := text;
    }
  }
}
