# Student marketplace pages, modelled in Dafny

The marketplace is a Next.js front end in which students buy and sell
engineering gear. All its data lives in mock arrays held in React state. The
behaviour worth modelling sits in the event handlers and render filters of
five pages:

- **Orders** (`orders.dfy`): a buyer's reservations are cancelled or
  completed, and a completed order receives one review. The handlers rewrite
  orders by id and check nothing themselves. Only the page's rendering decides
  which button appears on which order. That rendering is modelled as a
  predicate `Enabled` over user actions, and `Run` replays a sequence of
  actions. The lemmas about `Run` state what holds along every sequence of
  actions the page offers: a Cancelled or reviewed order never changes again,
  and a Completed order stays Completed.
- **Messages** (`messages.dfy`): a thread of plain messages and offers. Offers
  from the other party can be accepted, rejected or countered while pending.
  The offer panel's step buttons and slider keep its amount between 0 and the
  listing's price, but switching conversations keeps the amount typed for the
  previous listing (see Findings). It uses the same `Enabled`/`Run` style as
  the orders page, and `RunCorrected` replays the page with that switch
  corrected.
- **Browse** (`browse.dfy`): the product filter (search text, price range,
  category, department with the "All" wildcard, condition), the checkbox
  handlers that build its selection lists, and the Books tab.
- **My Listings** (`listings.dfy`): delete-by-id behind a confirmation dialog
  whose guard is a truthiness test, the status badge colour, and the Active
  and Sold tabs.
- **Create listing** (`create_listing.dfy`): the image previews, capped at
  four, removal by position, and the form schema.

Two supporting modules give the JavaScript library functions the pages use:

- `lists.dfy`: `filter`, a `map` that rewrites the elements picked by a
  predicate, and filtering by index. Each is specified pointwise, with lemmas
  on membership, order and partition.
- `text.dfy`: `trim` with the ECMAScript whitespace set, ASCII `toLowerCase`,
  `includes`, and how a template string prints an integer below 10^21 in
  magnitude.

The orders and messages pages hold several pieces of state that every
handler overwrites. Each is modelled as a class whose fields are the state
hooks. Every method ensures that the new state equals a pure function of the
old state, and the properties are proved about those functions. The
create-listing page's `images` hook is a class field in the same way. Browse
and My Listings compute values only and are modelled as functions.

The mock data of the orders, messages and create-listing pages is the
initial state of their models. Values the browser
supplies (the current date, object URLs for uploaded files) are parameters.

## Model

| member | source | states |
|---|---|---|
| Orders.CancelById | app/orders/page.tsx:100-101 | orders carrying the id become Cancelled; every other order and the length are unchanged |
| Orders.CompleteById | app/orders/page.tsx:108-124 | orders carrying the id become Completed, get the completion date and are marked not reviewed; all else unchanged |
| Orders.ReviewById | app/orders/page.tsx:134-147 | orders carrying the id are marked reviewed and carry the review (rating, comment); all else unchanged |
| Orders.SubmitReview | app/orders/page.tsx:131-155 | with no selected order nothing changes; otherwise the selected order gets the review and the dialog resets to no selection, rating 5, empty comment |
| Orders.ActiveTab | app/orders/page.tsx:173-174 | the Active tab shows exactly the Reserved orders, each as often as the list holds it, in list order |
| Orders.CompletedTab | app/orders/page.tsx:253-254 | the Completed tab shows exactly the Completed orders, each as often as the list holds it, in list order |
| Orders.StepPreservesInv | app/orders/page.tsx:452-467 | every action the page renders keeps ids unique, a completion date exactly on Completed orders, a review exactly on reviewed (Completed) orders, and the rating within 1..5 |
| Orders.StepKeepsSettledOrders | app/orders/page.tsx:452-467 | one rendered action changes no Cancelled or reviewed order and no status other than Reserved |
| Orders.RunKeepsSettledOrders | app/orders/page.tsx:452-467 | along every sequence of rendered actions the invariant holds, Completed and Cancelled are terminal, and a reviewed order never changes again, so an order is reviewed at most once |
| Orders.StarRatingInRange | app/orders/page.tsx:335-339 | a star button sets a rating from 1 to 5 |
| Orders.InitialStateValid | app/orders/page.tsx:26-91 | the page's initial orders satisfy the invariant |
| Orders.ReachableStatesValid | app/orders/page.tsx:94-97 | every state reached from the page's initial orders satisfies the invariant, and the order reviewed from the start is never changed |
| Orders.OrdersPage.constructor | app/orders/page.tsx:94-97 | the initial hooks: the orders, no selection, rating 5, empty comment |
| Orders.OrdersPage.HandleCancelReservation | app/orders/page.tsx:100-106 | the new state is `CancelReservation` of the old one |
| Orders.OrdersPage.HandleCompleteOrder | app/orders/page.tsx:108-129 | the new state is `CompleteOrder` of the old one, with the date as a parameter |
| Orders.OrdersPage.HandleSubmitReview | app/orders/page.tsx:131-155 | the early return and the update: the new state is `SubmitReview` of the old one |
| Orders.OrdersPage.SelectOrder | app/orders/page.tsx:321 | Leave Review selects the order and changes nothing else |
| Orders.OrdersPage.SetRating | app/orders/page.tsx:339 | a star button sets the rating and nothing else |
| Orders.OrdersPage.SetReviewComment | app/orders/page.tsx:353 | typing sets the comment and nothing else |
| Messages.SendMessageEffect | app/messages/page.tsx:160-189 | panel closed and blank input: nothing happens; panel open: one pending offer of the current amount is appended and the panel closes; otherwise the typed text is appended; the new message has id length+1 and sender "me", earlier messages are kept, the input is cleared |
| Messages.WhitespaceIsNotSent | app/messages/page.tsx:162 | with the panel closed, input that trims to the empty string sends nothing |
| Messages.VisibleTextIsSent | app/messages/page.tsx:162-187 | with the panel closed, input that does not trim to the empty string is appended as typed, as a plain message |
| Messages.SetOfferStatus | app/messages/page.tsx:191-200 | accept/reject set the status of the messages with that id only; the thread keeps its length |
| Messages.CounterOffer | app/messages/page.tsx:207-209 | Counter opens the offer panel and changes no message, amount or input |
| Messages.StepDown | app/messages/page.tsx:395 | the minus button lowers the amount by 100 but never below 0, changing nothing else |
| Messages.StepUp | app/messages/page.tsx:412 | the plus button raises the amount by 100 but never above the list price, changing nothing else |
| Messages.SelectConversation | app/messages/page.tsx:233 | the corrected conversation switch (see Findings): it sets the new price and brings the amount within 0..price, keeping an amount that already fits |
| Messages.NewIdIsFresh | app/messages/page.tsx:167 | with ids 1..n, a sent message gets an id no earlier message has, and the ids stay 1..n+1 |
| Messages.StepPreservesInv | app/messages/page.tsx:160-412 | every rendered action, the conversation switch as written included, keeps ids sequential, the amount not negative and the price positive |
| Messages.StepKeepsAmountWithinPrice | app/messages/page.tsx:393-412 | every rendered action but a conversation switch keeps the amount within 0..price |
| Messages.StepKeepsSettledMessages | app/messages/page.tsx:339 | with ids 1..n, one rendered action changes no message except a pending offer from the other party, and removes none |
| Messages.RunKeepsSettledMessages | app/messages/page.tsx:339 | along every sequence of rendered actions of the page as written, the invariant holds, the thread only grows, and accepted or rejected offers, own offers and plain messages never change again |
| Messages.RunCorrectedKeepsAmountWithinPrice | app/messages/page.tsx:233 | with the corrected switch, along every sequence of rendered actions the invariant holds and the amount stays within 0..price of the open conversation |
| Messages.SentOffersWithinPrice | app/messages/page.tsx:164-175 | an offer sent while the amount is within 0..price carries that amount, so it does not exceed the list price |
| Messages.InitialStateValid | app/messages/page.tsx:153-157 | the page's initial thread and amount satisfy the invariant, and 1620 lies within the price 1800 |
| Messages.TwoOffersCanBeAccepted | app/messages/page.tsx:191-192 | the page does not keep a thread to one accepted offer: any two answerable offers with different ids can both be accepted, one after the other |
| Messages.InitialThreadHasTwoOpenOffers | app/messages/page.tsx:124-148 | the initial thread holds two pending offers from the other party, so two acceptances are reachable from the start |
| Messages.OfferAbovePriceAsWritten | app/messages/page.tsx:233 | from the initial state, the rendered actions switch to the listing priced 600, open the panel and send: the page as written sends an offer of 1620, the corrected page one of 600 |
| Messages.MessagesPage.constructor | app/messages/page.tsx:153-157 | the initial hooks: the thread, empty input, panel closed, the given amount and price |
| Messages.MessagesPage.HandleSendMessage | app/messages/page.tsx:160-189 | the early return and both branches: the new state is `SendMessage` of the old one |
| Messages.MessagesPage.HandleAcceptOffer | app/messages/page.tsx:191-197 | the thread becomes `SetOfferStatus(…, Accepted)` of the old one; nothing else changes |
| Messages.MessagesPage.HandleRejectOffer | app/messages/page.tsx:199-205 | the thread becomes `SetOfferStatus(…, Rejected)` of the old one; nothing else changes |
| Messages.MessagesPage.HandleCounterOffer | app/messages/page.tsx:207-209 | the new state is `CounterOffer` of the old one |
| Messages.MessagesPage.StepAmountDown | app/messages/page.tsx:395 | the new state is `StepDown` of the old one |
| Messages.MessagesPage.StepAmountUp | app/messages/page.tsx:412 | the new state is `StepUp` of the old one |
| Messages.MessagesPage.HandleSelectConversation | app/messages/page.tsx:233 | choosing a conversation sets the new listing's price and nothing else, as `SelectConversationAsWritten` |
| Messages.MessagesPage.SetOfferAmount | app/messages/page.tsx:405 | the slider sets the amount and nothing else |
| Messages.MessagesPage.SetShowOfferPanel | app/messages/page.tsx:434 | the offer button sets the panel flag and nothing else |
| Messages.MessagesPage.SetNewMessage | app/messages/page.tsx:426 | typing sets the input and nothing else |
| Browse.Matches | app/browse/page.tsx:132-163 | the early-return filter accepts a product exactly when the query, price, category, department and condition checks all hold |
| Browse.FilteredProducts | app/browse/page.tsx:132-163 | the listed products are exactly the matching ones, each as often as the catalogue holds it, in catalogue order |
| Browse.QueryMatchesSubstring | app/browse/page.tsx:134 | a non-empty query passes exactly when its lower-cased text occurs at some position of the lower-cased title |
| Browse.NoFiltersKeepsPriceRange | app/browse/page.tsx:138-141 | with no query and nothing checked, the list is exactly the products priced within the range, inclusive at both ends |
| Browse.AllDepartmentsIsWildcard | app/browse/page.tsx:148-155 | with "All" checked, the list is the one with no department checked |
| Browse.BooksTab | app/browse/page.tsx:382-383 | the Books tab shows exactly the listed products of category Books, the same as filtering once by both conditions |
| Browse.OnCheckedChange | app/browse/page.tsx:223-229 | checking appends the value; unchecking removes every occurrence of it, keeps every copy of every other value and keeps the order |
| Browse.ClickKeepsNoDuplicates | app/browse/page.tsx:222-229 | since a box shows whether its value is selected, clicks keep a selection list free of duplicates |
| Browse.CheckThenUncheck | app/browse/page.tsx:223-229 | checking an absent value and unchecking it again restores the list |
| Listings.StatusColor | app/listings/page.tsx:97-108 | Available is green, Reserved is yellow, and Sold and every other status are gray (both directions) |
| Listings.ActiveTab | app/listings/page.tsx:152 | the Active tab shows exactly the listings not sold, each as often as the list holds it, in order |
| Listings.SoldTab | app/listings/page.tsx:230 | the Sold tab shows exactly the sold listings, each as often as the list holds it, in order |
| Listings.TabsPartitionListings | app/listings/page.tsx:152 | the two tabs together hold every listing exactly as often as the list does, and no listing is in both |
| Listings.EditableIffActive | app/listings/page.tsx:323 | Edit is offered for a listing exactly when the Active tab shows it; a listing without Edit is in the Sold tab with a gray badge |
| Listings.HandleDelete | app/listings/page.tsx:88-90 | delete drops exactly the listings with the id, keeps every copy of the rest in order, and clears the held id |
| Listings.RequestDelete | app/listings/page.tsx:183 | the menu's Delete Listing holds the card's id and leaves the listings alone |
| Listings.ConfirmDelete | app/listings/page.tsx:390 | with no id held, or id 0, nothing changes; otherwise it is `HandleDelete` of the held id: exactly the listings with that id go, every copy of the rest stays in order, and nothing is held |
| Listings.ConfirmedRequestRemovesListing | app/listings/page.tsx:390 | requesting and confirming the deletion of a listing with a non-zero id removes it and every listing sharing its id, keeps the rest in order, and shrinks the list by their number |
| CreateListing.Upload | app/create-listing/page.tsx:51-67 | no files or four images: unchanged; otherwise the old images followed by as many new ones as fit under four |
| CreateListing.UploadKeepsImagesWithinCap | app/create-listing/page.tsx:64-65 | the old images stay a prefix, the list never exceeds four, at least one file is taken while there is room, and nothing but old and new images appears |
| CreateListing.RemoveImage | app/create-listing/page.tsx:69-71 | an index in range drops exactly that image and shifts the later ones; any other index changes nothing |
| CreateListing.UploadThenRemove | app/create-listing/page.tsx:69-71 | uploading one image into a free slot and deleting it again restores the list |
| CreateListing.RunKeepsAtMostFour | app/create-listing/page.tsx:246 | along every sequence of uploads (offered while fewer than four are shown) and deletions, the form never shows more than four images |
| CreateListing.Issues | app/create-listing/page.tsx:21-28 | a field is reported exactly when its rule fails, each once, in schema order |
| CreateListing.ValidIff | app/create-listing/page.tsx:21-28 | the form is valid exactly when the title has 3 or more characters, category, department and condition are chosen, the price is at least 1, and the description has 10 or more characters |
| CreateListing.DefaultsFailEveryRule | app/create-listing/page.tsx:40-47 | the untouched form fails every rule |
| CreateListing.CreateListingPage.constructor | app/create-listing/page.tsx:33-34 | the form starts with no images and not submitting |
| CreateListing.CreateListingPage.HandleImageUpload | app/create-listing/page.tsx:51-67 | the early return and the update: the images become `Upload` of the old ones |
| CreateListing.CreateListingPage.HandleRemoveImage | app/create-listing/page.tsx:69-71 | the images become `RemoveImage` of the old ones |
| CreateListing.CreateListingPage.HandleSubmit | app/create-listing/page.tsx:73-74 | the schema's issues are reported, and only a valid form sets the submitting flag |
| Text.TrimIsEmptyIff | app/messages/page.tsx:162 | `trim` gives the empty string exactly when every character is ECMAScript whitespace |
| Text.Lower | app/browse/page.tsx:134 | lower-casing keeps the length and maps each character on its own |
| Text.IncludesIff | app/browse/page.tsx:134 | `includes` holds exactly when the needle occurs at some position |
| Text.NumberString | app/messages/page.tsx:169 | an integer prints as a minus sign exactly when it is negative, followed by the decimal digits of its magnitude |
| Text.NaturalString | app/messages/page.tsx:169 | the digits printed for a natural number denote that number, with no leading zero except for 0 itself |

## Left out

- Rendering, CSS classes, toasts, dialog open/close state and navigation
  (`router.push`, `router.back`, links) are presentation. The landing page and
  the navbar hold no logic beyond a string comparison.
- The orders page's search input (app/orders/page.tsx:384),
  the listings page's search and status select (app/listings/page.tsx:127-139),
  the browse page's sort menu and its empty Apply button, and the messages
  page's conversation search are not wired to any state. They are not
  modelled.
- Messages.InitialState: the opening amount is 90% of the price
  (app/messages/page.tsx:157), a float. The model starts from its value for
  the opening conversation, 1620. The class constructor takes the amount as a
  parameter.
- Messages.OnSlider: the slider's lower end `price * 0.5` is compared without
  the fraction. Its step of 50 is not modelled: `Slide` may set any amount
  between half the price and the price.
- The messages page shows one thread for every conversation. Conversation
  switching is modelled only as the change of price, which is what the page
  does to the offer panel; the conversation list itself is not modelled.
- Messages.StepPreservesInv, Messages.RunKeepsSettledMessages: their
  invariant `Inv` bounds the amount below by 0 but not above by the price,
  because the page's `Step` uses the conversation switch as written and the
  page does not keep that bound (see Findings). The 0..price bound is proved
  along `RunCorrected`, the page with the corrected switch.
- The browse page's product catalogue (app/browse/page.tsx:33-122) and the
  listings page's mock listings (app/listings/page.tsx:32-81) are not
  modelled as constants. Every property of those two pages is stated for any
  list of products or listings, so it holds of the mock data in particular.
- Text.NumberString: integers of magnitude 10^21 or more, which JavaScript
  prints in exponent notation, are not modelled. The amounts the messages
  page prints stay far below that.
- Orders.CompleteOrder: the completion date is `toLocaleDateString` of the
  current time. It is a string parameter `stamp`.
- Orders.Enabled: Submit is allowed in every state. This over-approximates the
  review dialog, which is reachable only through Leave Review.
- CreateListing.Upload: `URL.createObjectURL` is a foreign call. Its results
  are the `urls` parameter, opaque strings.
- CreateListing.FormValues: `price` is the finite number that
  `z.coerce.number()` produces. NaN and the infinities are not modelled.
  String lengths count Unicode scalar values, where zod counts UTF-16 code
  units. The same holds for `trim` and `toLowerCase`.
- Text.Lower: `toLowerCase` is modelled on ASCII letters only. Other
  characters are kept as they are.
- CreateListing.CreateListingPage.HandleSubmit: the submit handler's
  `setTimeout` that clears the submitting flag, and the navigation after it,
  are not modelled. The button is disabled while submitting, so a second
  submit is not offered.
- The delete dialog of the listings page has no trigger, so nothing in the
  page opens it. The model treats Delete as available whenever an id is held.
- The design of the marketplace describes a richer negotiation and order core
  with errors (`InvalidAmount`, `InvalidTransition`, `NotFound`,
  `ThreadAlreadySettled`, `AlreadyReserved`, `AlreadyReviewed`,
  `InvalidRating`). The pages raise none of them: handlers rewrite by id
  without checking, and only the rendering limits what can be done. The model
  follows the code. Where the rendering gives a design guarantee, it is
  proved over `Run` (terminal order states, one review per order, settled
  offers frozen). Where it does not, this is shown:
  `Messages.TwoOffersCanBeAccepted` shows that two offers of one thread can
  be accepted.

## Findings

| source | as written | input that shows it | evidently intended | confidence | as-written member | corrected member |
|---|---|---|---|---|---|---|
| app/messages/page.tsx:233 | choosing another conversation replaces only the conversation; the offer amount typed for the previous listing is kept, while the plus button (line 412) and the slider cap it by the new listing's price | open the conversation about the listing priced 1800 (amount 1620), switch to the listing priced 600, open the panel and send: an offer of 1620 for a 600 item | the amount is brought within the new listing's price when the conversation changes, so that it stays within 0..price along every run (Messages.RunCorrectedKeepsAmountWithinPrice) | medium, not executed | Messages.OfferAbovePriceAsWritten | Messages.SelectConversation |
