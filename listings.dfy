/** The seller's "My Listings" page: deleting a listing after confirmation, the
    colour of a status badge, and the tabs that split the listings by status. */
module Listings {
  import opened Lists

  datatype Listing = Listing(
    id: int,
    title: string,
    category: string,
    price: int,
    condition: string,
    status: string,
    views: nat,
    messages: nat,
    listedDate: string)

  /** The listings shown and the id held for the delete dialog (`null` is `None`). */
  datatype PageState = PageState(listings: seq<Listing>, deleteId: Option<int>)

  const Sold := "Sold"

  // ----- The status badge -----

  datatype Color = Green | Yellow | Gray

  /** The badge colour: Available is green, Reserved is yellow, and Sold as
      well as every status the page does not know is gray. */
  function StatusColor(status: string): (c: Color)
    ensures c == Green <==> status == "Available"
    ensures c == Yellow <==> status == "Reserved"
    ensures c == Gray <==> status != "Available" && status != "Reserved"
  {
    match status
    case "Available" => Green
    case "Reserved" => Yellow
    case "Sold" => Gray
    case _ => Gray
  }

  // ----- The tabs -----

  predicate IsSold(l: Listing) { l.status == Sold }

  predicate IsActive(l: Listing) { l.status != Sold }

  /** The Active Listings tab: every listing not sold, in order. */
  function ActiveTab(listings: seq<Listing>): (r: seq<Listing>)
    ensures forall l :: l in r <==> l in listings && l.status != Sold
    ensures forall l :: multiset(r)[l] == if l.status != Sold then multiset(listings)[l] else 0
    ensures IsSubsequence(r, listings)
  {
    FilterMembers(listings, IsActive);
    FilterCounts(listings, IsActive);
    FilterIsSubsequence(listings, IsActive);
    Filter(listings, IsActive)
  }

  /** The Sold Items tab: every sold listing, in order. */
  function SoldTab(listings: seq<Listing>): (r: seq<Listing>)
    ensures forall l :: l in r <==> l in listings && l.status == Sold
    ensures forall l :: multiset(r)[l] == if l.status == Sold then multiset(listings)[l] else 0
    ensures IsSubsequence(r, listings)
  {
    FilterMembers(listings, IsSold);
    FilterCounts(listings, IsSold);
    FilterIsSubsequence(listings, IsSold);
    Filter(listings, IsSold)
  }

  /** The two tabs split the All Listings tab: between them they show every
      listing exactly as often as it occurs, and no listing in both. */
  lemma TabsPartitionListings(listings: seq<Listing>)
    ensures multiset(ActiveTab(listings)) + multiset(SoldTab(listings)) == multiset(listings)
    ensures |ActiveTab(listings)| + |SoldTab(listings)| == |listings|
    ensures forall l :: l in listings ==> (l in ActiveTab(listings) <==> l !in SoldTab(listings))
  {
    FilterPartition(listings, IsActive, IsSold);
  }

  /** In the All Listings tab the Edit Listing entry is offered for a listing
      that is not sold. */
  predicate CanEdit(l: Listing) { l.status != Sold }

  /** A listing of the page can be edited exactly when the Active tab shows
      it; one that cannot be edited is sold, sits in the Sold tab and wears
      the gray badge. */
  lemma EditableIffActive(listings: seq<Listing>, l: Listing)
    requires l in listings
    ensures CanEdit(l) <==> l in ActiveTab(listings)
    ensures !CanEdit(l) ==> l in SoldTab(listings) && StatusColor(l.status) == Gray
  {
  }

  // ----- Deleting -----

  function KeepOthers(id: int): Listing -> bool
  {
    (l: Listing) => l.id != id
  }

  /** Delete: drops exactly the listings with the given id, keeps every copy
      of the others in order, and clears the id held for the dialog. */
  function HandleDelete(s: PageState, id: int): (t: PageState)
    ensures forall l :: l in t.listings <==> l in s.listings && l.id != id
    ensures forall l :: multiset(t.listings)[l] == if l.id != id then multiset(s.listings)[l] else 0
    ensures IsSubsequence(t.listings, s.listings)
    ensures t.deleteId == None
  {
    FilterMembers(s.listings, KeepOthers(id));
    FilterCounts(s.listings, KeepOthers(id));
    FilterIsSubsequence(s.listings, KeepOthers(id));
    PageState(Filter(s.listings, KeepOthers(id)), None)
  }

  /** Choosing Delete Listing in a card's menu holds that card's id. */
  function RequestDelete(s: PageState, id: int): (t: PageState)
    ensures t.listings == s.listings && t.deleteId == Some(id)
  {
    s.(deleteId := Some(id))
  }

  /** The dialog's Delete button: `deleteId && handleDelete(deleteId)`. The
      guard is a truthiness test, so an id of 0 is ignored like no id. */
  function ConfirmDelete(s: PageState): (t: PageState)
    ensures s.deleteId == None || s.deleteId == Some(0) ==> t == s
    ensures s.deleteId.Some? && s.deleteId.value != 0 ==> t == HandleDelete(s, s.deleteId.value)
    ensures s.deleteId.Some? && s.deleteId.value != 0 ==>
      t.deleteId == None && forall l :: l in t.listings <==> l in s.listings && l.id != s.deleteId.value
  {
    match s.deleteId
    case None => s
    case Some(id) => if id == 0 then s else HandleDelete(s, id)
  }

  /** Requesting the deletion of a listing and confirming it removes that
      listing and every other with its id, keeps every other listing in
      order, and leaves nothing held. The count of listings drops by the
      number that carried the id. */
  lemma {:induction false} ConfirmedRequestRemovesListing(s: PageState, l: Listing)
    requires l in s.listings && l.id != 0
    ensures var t := ConfirmDelete(RequestDelete(s, l.id));
      l !in t.listings && t.deleteId == None && IsSubsequence(t.listings, s.listings)
      && |t.listings| + |Filter(s.listings, WithId(l.id))| == |s.listings|
  {
    FilterPartition(s.listings, WithId(l.id), KeepOthers(l.id));
  }

  function WithId(id: int): Listing -> bool
  {
    (l: Listing) => l.id == id
  }
}
