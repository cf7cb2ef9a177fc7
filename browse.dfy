/** The browse page: the filter that decides which products are listed, the
    checkboxes that build its selection lists, and the Books tab. */
module Browse {
  import opened Lists
  import Text

  datatype Product = Product(
    id: int,
    title: string,
    category: string,
    price: int,
    condition: string,
    department: string,
    seller: string)

  /** The filter state: the search text, the price range `[lo, hi]` of the
      slider, and the checked categories, departments and conditions. */
  datatype Filters = Filters(
    query: string,
    lo: int,
    hi: int,
    categories: seq<string>,
    departments: seq<string>,
    conditions: seq<string>)

  /** The department that, when checked, lets every department through. */
  const AnyDepartment := "All"

  function NoFilters(lo: int, hi: int): Filters
  {
    Filters("", lo, hi, [], [], [])
  }

  // The five checks of the filter, one clause each.
  predicate QueryOk(p: Product, f: Filters)
  {
    f.query == [] || Text.Includes(Text.Lower(p.title), Text.Lower(f.query))
  }

  predicate PriceOk(p: Product, f: Filters) { InPriceRange(p, f.lo, f.hi) }

  predicate InPriceRange(p: Product, lo: int, hi: int) { lo <= p.price <= hi }

  predicate CategoryOk(p: Product, f: Filters)
  {
    |f.categories| == 0 || p.category in f.categories
  }

  predicate DepartmentOk(p: Product, f: Filters)
  {
    |f.departments| == 0 || p.department in f.departments || AnyDepartment in f.departments
  }

  predicate ConditionOk(p: Product, f: Filters)
  {
    |f.conditions| == 0 || p.condition in f.conditions
  }

  /** The filter callback with its early returns: the first failing check
      rejects the product. It passes exactly when all five checks hold. */
  predicate Matches(p: Product, f: Filters)
    ensures Matches(p, f) <==>
      QueryOk(p, f) && PriceOk(p, f) && CategoryOk(p, f) && DepartmentOk(p, f) && ConditionOk(p, f)
  {
    if f.query != [] && !Text.Includes(Text.Lower(p.title), Text.Lower(f.query)) then false
    else if p.price < f.lo || p.price > f.hi then false
    else if |f.categories| > 0 && p.category !in f.categories then false
    else if |f.departments| > 0 && p.department !in f.departments && AnyDepartment !in f.departments then false
    else if |f.conditions| > 0 && p.condition !in f.conditions then false
    else true
  }

  /** The filter callback, as the function passed to `filter`. */
  function MatchesAll(f: Filters): Product -> bool
  {
    p => Matches(p, f)
  }

  /** The listed products: exactly those that match, each as often as it
      occurs, in catalogue order. */
  function FilteredProducts(products: seq<Product>, f: Filters): (r: seq<Product>)
    ensures forall p :: p in r <==> p in products && Matches(p, f)
    ensures forall p :: multiset(r)[p] == if Matches(p, f) then multiset(products)[p] else 0
    ensures IsSubsequence(r, products)
  {
    FilterMembers(products, MatchesAll(f));
    FilterCounts(products, MatchesAll(f));
    FilterIsSubsequence(products, MatchesAll(f));
    Filter(products, MatchesAll(f))
  }

  /** A query matches case-insensitively (over ASCII letters) when it occurs
      somewhere in the title. */
  lemma QueryMatchesSubstring(p: Product, f: Filters)
    requires f.query != []
    ensures QueryOk(p, f) <==> exists i :: Text.OccursAt(Text.Lower(p.title), Text.Lower(f.query), i)
  {
    assert QueryOk(p, f) == Text.Includes(Text.Lower(p.title), Text.Lower(f.query));
    Text.IncludesIff(Text.Lower(p.title), Text.Lower(f.query));
  }

  /** With no search text and nothing checked, the list is exactly the
      products whose price lies in the range, in order. */
  lemma NoFiltersKeepsPriceRange(products: seq<Product>, lo: int, hi: int)
    ensures FilteredProducts(products, NoFilters(lo, hi)) == Filter(products, PriceRange(lo, hi))
  {
    FilterCongruent(products, MatchesAll(NoFilters(lo, hi)), PriceRange(lo, hi));
  }

  function PriceRange(lo: int, hi: int): Product -> bool
  {
    p => InPriceRange(p, lo, hi)
  }

  /** Checking "All" turns the department check off: the list is the one
      with no department checked at all. */
  lemma AllDepartmentsIsWildcard(products: seq<Product>, f: Filters)
    requires AnyDepartment in f.departments
    ensures FilteredProducts(products, f) == FilteredProducts(products, f.(departments := []))
  {
    FilterCongruent(products, MatchesAll(f), MatchesAll(f.(departments := [])));
  }

  // ----- The Books tab -----

  predicate IsBook(p: Product) { p.category == "Books" }

  predicate IsListedBook(p: Product, f: Filters) { Matches(p, f) && IsBook(p) }

  /** The Books tab: exactly the listed products in category Books, in order;
      the same list as filtering the catalogue once by both conditions. */
  function BooksTab(products: seq<Product>, f: Filters): (r: seq<Product>)
    ensures forall p :: p in r <==> p in products && Matches(p, f) && p.category == "Books"
    ensures r == Filter(products, ListedBook(f))
  {
    var listed := FilteredProducts(products, f);
    FilterMembers(listed, IsBook);
    FilterFilter(products, MatchesAll(f), IsBook, ListedBook(f));
    Filter(listed, IsBook)
  }

  function ListedBook(f: Filters): Product -> bool
  {
    p => IsListedBook(p, f)
  }

  // ----- The checkboxes -----

  /** A checkbox's change handler: checking appends the value, unchecking
      removes every occurrence of it. */
  function OnCheckedChange(selection: seq<string>, value: string, checked: bool): (r: seq<string>)
    ensures checked ==> r == selection + [value]
    ensures !checked ==> value !in r && IsSubsequence(r, selection)
    ensures !checked ==> forall v :: v != value ==> (v in r <==> v in selection)
    ensures !checked ==> forall v :: v != value ==> multiset(r)[v] == multiset(selection)[v]
  {
    if checked then selection + [value]
    else
      FilterMembers(selection, Other(value));
      FilterCounts(selection, Other(value));
      FilterIsSubsequence(selection, Other(value));
      Filter(selection, Other(value))
  }

  /** The callback that keeps every value but `value`. */
  function Other(value: string): string -> bool
  {
    c => c != value
  }

  /** A selection list without repeated values. */
  predicate NoDuplicates(s: seq<string>)
  {
    forall i, j :: 0 <= i < j < |s| ==> s[i] != s[j]
  }

  /** A checkbox shows whether its value is selected, so a click checks an
      absent value and unchecks a present one. Clicks keep the list free of
      duplicates. */
  lemma {:induction false} ClickKeepsNoDuplicates(selection: seq<string>, value: string)
    requires NoDuplicates(selection)
    ensures value !in selection ==> NoDuplicates(OnCheckedChange(selection, value, true))
    ensures value in selection ==> NoDuplicates(OnCheckedChange(selection, value, false))
  {
    if value in selection {
      var r := OnCheckedChange(selection, value, false);
      SubsequenceNoDuplicates(r, selection);
    }
  }

  lemma {:induction false} SubsequenceNoDuplicates(r: seq<string>, s: seq<string>)
    requires IsSubsequence(r, s) && NoDuplicates(s)
    ensures NoDuplicates(r)
    decreases |s|
  {
    if r != [] {
      if r[0] == s[0] && IsSubsequence(r[1..], s[1..]) {
        SubsequenceNoDuplicates(r[1..], s[1..]);
        SubsequenceMembers(r[1..], s[1..]);
        assert forall j :: 0 < j < |r| ==> r[j] in s[1..];
        assert s[0] !in s[1..];
      } else {
        SubsequenceNoDuplicates(r, s[1..]);
      }
    }
  }

  lemma {:induction false} SubsequenceMembers(r: seq<string>, s: seq<string>)
    requires IsSubsequence(r, s)
    ensures forall x :: x in r ==> x in s
    decreases |s|
  {
    if r != [] {
      if r[0] == s[0] && IsSubsequence(r[1..], s[1..]) {
        SubsequenceMembers(r[1..], s[1..]);
        assert r == [r[0]] + r[1..];
      } else {
        SubsequenceMembers(r, s[1..]);
      }
    }
  }

  /** Checking an absent value and unchecking it again restores the list. */
  lemma CheckThenUncheck(selection: seq<string>, value: string)
    requires value !in selection
    ensures OnCheckedChange(OnCheckedChange(selection, value, true), value, false) == selection
  {
    FilterConcat(selection, [value], Other(value));
    FilterKeepsAll(selection, Other(value));
  }
}
