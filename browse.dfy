// The category browse page: it loads every category, resolves the one named
// by the URL parameter by exact comparison with the decimal form of its id,
// loads that category's products, and derives the sidebar (active categories
// by ascending sort order, with the current one highlighted) and the header.
//
// The two service calls are not modelled; each is replaced by a parameter
// saying whether it threw or what it returned.

module Browse {
  import opened Common

  datatype Category = Category(
    categoryId: int,
    categoryName: string,
    sortOrder: int,
    notes: string,
    isActive: bool)

  /** A product card as the category's product list returns it; only its id is modelled. */
  datatype ProductCard = ProductCard(productId: int)

  /** How an awaited service call ended. */
  datatype Outcome<T> = Threw | Returned(value: T)

  const NoProductsNotice: string := "Không có sản phẩm nào trong danh mục này"
  const NotFoundNotice: string := "Không tìm thấy danh mục sản phẩm"
  const LoadFailedNotice: string := "Không thể tải dữ liệu. Vui lòng thử lại sau."
  const DefaultTitle: string := "Sản phẩm"
  const DefaultDescription: string := "Khám phá các sản phẩm chất lượng cao của chúng tôi"

  // ---------------------------------------------------------------------
  // Decimal form of an id (`categoryId.toString()` on an integer)

  predicate IsDigit(c: char)
  {
    '0' <= c <= '9'
  }

  predicate AllDigits(s: string)
  {
    forall i :: 0 <= i < |s| ==> IsDigit(s[i])
  }

  function DigitChar(d: nat): (c: char)
    requires d < 10
    ensures IsDigit(c)
  {
    ('0' as int + d) as char
  }

  function DigitValue(c: char): nat
    requires IsDigit(c)
  {
    c as int - '0' as int
  }

  /** The decimal digits of `n`, most significant first, without leading zeros. */
  function NatToString(n: nat): (r: string)
    ensures |r| >= 1 && AllDigits(r)
    ensures r[0] == '0' ==> n == 0 && r == "0"
  {
    if n < 10 then [DigitChar(n)]
    else NatToString(n / 10) + [DigitChar(n % 10)]
  }

  /** The number a string of digits denotes. */
  function DecimalValue(s: string): nat
    requires AllDigits(s)
  {
    if s == [] then 0
    else DecimalValue(s[..|s| - 1]) * 10 + DigitValue(s[|s| - 1])
  }

  /** Reading back the decimal form of `n` gives `n`. */
  lemma {:induction false} DecimalRoundTrip(n: nat)
    ensures DecimalValue(NatToString(n)) == n
  {
    var s := NatToString(n);
    if n < 10 {
      assert s[..|s| - 1] == [];
    } else {
      DecimalRoundTrip(n / 10);
      assert s[..|s| - 1] == NatToString(n / 10);
    }
  }

  /** `id.toString()`: a minus sign before the digits of a negative id. */
  function IdString(id: int): (r: string)
    ensures |r| >= 1
    ensures r[0] == '-' <==> id < 0
  {
    if id < 0 then "-" + NatToString(-id) else NatToString(id)
  }

  /** Different ids have different decimal forms. */
  lemma IdStringInjective(a: int, b: int)
    requires IdString(a) == IdString(b)
    ensures a == b
  {
    if a < 0 {
      assert b < 0;
      assert NatToString(-a) == IdString(a)[1..] == IdString(b)[1..] == NatToString(-b);
      DecimalRoundTrip(-a);
      DecimalRoundTrip(-b);
    } else {
      DecimalRoundTrip(a);
      DecimalRoundTrip(b);
    }
  }

  /** A string with a leading zero and more digits is the form of no id ("07" names nothing). */
  lemma LeadingZeroIsNoId(id: int, key: string)
    requires |key| >= 2 && key[0] == '0'
    ensures IdString(id) != key
  {
  }

  // ---------------------------------------------------------------------
  // Resolving the URL parameter

  /** The parameter counts only when present and non-empty (`if (categoryId)`). */
  predicate HasParam(param: Option<string>)
  {
    param.Some? && param.value != ""
  }

  predicate NamedBy(c: Category, key: string)
  {
    IdString(c.categoryId) == key
  }

  /** `categories.find(c => c.categoryId.toString() === key)`: the first category named by `key`. */
  function FindCategory(cats: seq<Category>, key: string): (r: Option<Category>)
    ensures r.None? <==> forall i :: 0 <= i < |cats| ==> !NamedBy(cats[i], key)
    ensures r.Some? ==> exists i :: 0 <= i < |cats| && cats[i] == r.value && NamedBy(cats[i], key)
                                    && forall j :: 0 <= j < i ==> !NamedBy(cats[j], key)
  {
    if cats == [] then None
    else if NamedBy(cats[0], key) then Some(cats[0])
    else
      var r := FindCategory(cats[1..], key);
      assert forall i :: 0 <= i < |cats| - 1 ==> cats[1..][i] == cats[i + 1];
      r
  }

  /** Looking up the decimal form of an id finds a category exactly when one has that id,
      and what it finds has that id. */
  lemma FindById(cats: seq<Category>, id: int)
    ensures FindCategory(cats, IdString(id)).Some? <==> exists i :: 0 <= i < |cats| && cats[i].categoryId == id
    ensures FindCategory(cats, IdString(id)).Some? ==> FindCategory(cats, IdString(id)).value.categoryId == id
  {
    var r := FindCategory(cats, IdString(id));
    if r.Some? {
      var i :| 0 <= i < |cats| && cats[i] == r.value && NamedBy(cats[i], IdString(id));
      IdStringInjective(cats[i].categoryId, id);
    }
  }

  /** The parameter "7" with no category of id 7 resolves to nothing. */
  lemma UnknownIdNotFound(cats: seq<Category>)
    requires forall i :: 0 <= i < |cats| ==> cats[i].categoryId != 7
    ensures FindCategory(cats, "7") == None
  {
    assert IdString(7) == "7";
    FindById(cats, 7);
  }

  // ---------------------------------------------------------------------
  // Sidebar

  predicate SortedByOrder(s: seq<Category>)
  {
    forall i, j :: 0 <= i < j < |s| ==> s[i].sortOrder <= s[j].sortOrder
  }

  /** Put `c` before the first entry whose sort order is not smaller. */
  function Insert(c: Category, s: seq<Category>): (r: seq<Category>)
    ensures multiset(r) == multiset{c} + multiset(s)
  {
    if s == [] || c.sortOrder <= s[0].sortOrder then [c] + s
    else
      assert s == [s[0]] + s[1..];
      [s[0]] + Insert(c, s[1..])
  }

  /** Inserting into a sorted list keeps it sorted. */
  lemma {:induction false} InsertSorted(c: Category, s: seq<Category>)
    requires SortedByOrder(s)
    ensures SortedByOrder(Insert(c, s))
  {
    if s != [] && s[0].sortOrder < c.sortOrder {
      var rest := Insert(c, s[1..]);
      InsertSorted(c, s[1..]);
      forall k | 0 <= k < |rest| ensures s[0].sortOrder <= rest[k].sortOrder {
        assert rest[k] in multiset(rest);
        assert rest[k] == c || rest[k] in multiset(s[1..]);
      }
      assert Insert(c, s) == [s[0]] + rest;
    }
  }

  /** A stable sort by ascending sort order (JavaScript's `sort` is stable). */
  function SortByOrder(s: seq<Category>): (r: seq<Category>)
    ensures SortedByOrder(r)
    ensures multiset(r) == multiset(s)
  {
    if s == [] then []
    else
      assert s == [s[0]] + s[1..];
      InsertSorted(s[0], SortByOrder(s[1..]));
      Insert(s[0], SortByOrder(s[1..]))
  }

  /** The entries with sort order `k`, in list order. */
  function WithOrder(s: seq<Category>, k: int): seq<Category>
  {
    Filter(s, (c: Category) => c.sortOrder == k)
  }

  lemma {:induction false} InsertKeepsTies(c: Category, s: seq<Category>, k: int)
    ensures WithOrder(Insert(c, s), k) == (if c.sortOrder == k then [c] else []) + WithOrder(s, k)
  {
    if s == [] || c.sortOrder <= s[0].sortOrder {
      assert ([c] + s)[1..] == s;
    } else {
      InsertKeepsTies(c, s[1..], k);
      assert ([s[0]] + Insert(c, s[1..]))[1..] == Insert(c, s[1..]);
    }
  }

  /** Stability: entries with equal sort order keep their relative order. */
  lemma {:induction false} SortKeepsTies(s: seq<Category>, k: int)
    ensures WithOrder(SortByOrder(s), k) == WithOrder(s, k)
  {
    if s != [] {
      SortKeepsTies(s[1..], k);
      InsertKeepsTies(s[0], SortByOrder(s[1..]), k);
    }
  }

  function ActiveOnly(cats: seq<Category>): seq<Category>
  {
    Filter(cats, (c: Category) => c.isActive)
  }

  /** The sidebar's links: the active categories, ascending by sort order. */
  function Sidebar(cats: seq<Category>): (r: seq<Category>)
    ensures SortedByOrder(r)
    ensures multiset(r) == multiset(ActiveOnly(cats))
    ensures forall i :: 0 <= i < |r| ==> r[i].isActive
  {
    var r := SortByOrder(ActiveOnly(cats));
    assert forall i :: 0 <= i < |r| ==> r[i] in multiset(ActiveOnly(cats));
    r
  }

  /** Every active category has a sidebar link. */
  lemma SidebarListsActive(cats: seq<Category>, i: nat)
    requires i < |cats| && cats[i].isActive
    ensures cats[i] in Sidebar(cats)
  {
    assert cats[i] in multiset(ActiveOnly(cats));
  }

  /** A link is highlighted when its id's decimal form is the URL parameter. */
  predicate IsHighlighted(param: Option<string>, c: Category)
  {
    param.Some? && param.value == IdString(c.categoryId)
  }

  /** All highlighted links carry the same id. */
  lemma HighlightedShareId(param: Option<string>, a: Category, b: Category)
    requires IsHighlighted(param, a) && IsHighlighted(param, b)
    ensures a.categoryId == b.categoryId
  {
    IdStringInjective(a.categoryId, b.categoryId);
  }

  /** The category the parameter resolves to is the highlighted one. */
  lemma ResolvedIsHighlighted(cats: seq<Category>, param: Option<string>, c: Category)
    requires HasParam(param) && FindCategory(cats, param.value) == Some(c)
    ensures IsHighlighted(param, c)
    ensures forall d :: IsHighlighted(param, d) ==> d.categoryId == c.categoryId
  {
    forall d | IsHighlighted(param, d) ensures d.categoryId == c.categoryId {
      HighlightedShareId(param, c, d);
    }
  }

  /** The header title: the current category's name, or the default when there
      is no current category or its name is empty. */
  function Title(current: Option<Category>): (r: string)
    ensures r != ""
    ensures current.Some? && current.value.categoryName != "" ==> r == current.value.categoryName
    ensures current.None? || current.value.categoryName == "" ==> r == DefaultTitle
  {
    if current.Some? && current.value.categoryName != "" then current.value.categoryName
    else DefaultTitle
  }

  /** The header description: the current category's notes, or the default text. */
  function Description(current: Option<Category>): (r: string)
    ensures r != ""
    ensures current.Some? && current.value.notes != "" ==> r == current.value.notes
    ensures current.None? || current.value.notes == "" ==> r == DefaultDescription
  {
    if current.Some? && current.value.notes != "" then current.value.notes
    else DefaultDescription
  }

  // ---------------------------------------------------------------------
  // The page's state and its loader

  class CategoryPage {
    var categories: seq<Category>
    var currentCategory: Option<Category>
    var products: seq<ProductCard>
    var loading: bool
    var error: Option<string>

    constructor ()
      ensures categories == [] && currentCategory == None && products == []
      ensures loading && error == None
    {
      categories, currentCategory, products := [], None, [];
      loading, error := true, None;
    }

    /** One run of the loader for URL parameter `param`. It returns the id whose
        products were requested, or None when that request was never made. */
    method LoadData(param: Option<string>, categoriesCall: Outcome<seq<Category>>,
                    productsCall: Outcome<seq<ProductCard>>) returns (requested: Option<int>)
      modifies this
      ensures !loading
      ensures categoriesCall.Threw? ==>
                && error == Some(LoadFailedNotice) && requested == None
                && categories == old(categories) && currentCategory == old(currentCategory)
                && products == old(products)
      ensures categoriesCall.Returned? ==> categories == categoriesCall.value
      ensures categoriesCall.Returned? && !HasParam(param) ==>
                && products == [] && error == None && requested == None
                && currentCategory == old(currentCategory)
      ensures categoriesCall.Returned? && HasParam(param) ==>
                var found := FindCategory(categoriesCall.value, param.value);
                && currentCategory == found
                && (found.None? ==>
                      error == Some(NotFoundNotice) && products == [] && requested == None)
                && (found.Some? ==> requested == Some(found.value.categoryId))
                && (found.Some? && productsCall.Threw? ==>
                      error == Some(LoadFailedNotice) && products == old(products))
                && (found.Some? && productsCall.Returned? ==>
                      && products == productsCall.value
                      && error == if productsCall.value == [] then Some(NoProductsNotice) else None)
    {
      loading := true;
      error := None;
      requested := None;
      match categoriesCall {
        case Threw =>
          error := Some(LoadFailedNotice);
        case Returned(cats) =>
          categories := cats;
          if HasParam(param) {
            var category := FindCategory(cats, param.value);
            currentCategory := category;
            if category.Some? {
              requested := Some(category.value.categoryId);
              match productsCall {
                case Threw =>
                  error := Some(LoadFailedNotice);
                case Returned(cards) =>
                  products := cards;
                  if |cards| == 0 {
                    error := Some(NoProductsNotice);
                  }
              }
            } else {
              error := Some(NotFoundNotice);
              products := [];
            }
          } else {
            products := [];
          }
      }
      loading := false;
    }
  }
}
