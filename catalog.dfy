// The catalog administration screen: a product table with search, the
// product and category loaders, and the add / edit / delete dialogs with
// their image-upload sub-flow.
//
// Every asynchronous handler is one atomic step. The network is not
// modelled: each call is replaced by a parameter saying what came back
// (`Fetch`), and a handler that sends a request returns that request so
// that callers can see which call was made and with what.

module Catalog {
  import opened Common

  /** A product as the list endpoint returns it. */
  datatype Product = Product(
    productId: int,
    productCode: string,
    productName: string,
    unit: string,
    defaultExpiration: int,
    categoryId: int,
    description: string,
    taxId: int,
    createdBy: string,
    createdDate: string,
    updatedBy: string,
    updatedDate: string,
    availableStock: int,
    images: seq<string>)

  datatype Category = Category(
    categoryId: int,
    categoryName: string,
    sortOrder: int,
    notes: string,
    isActive: bool,
    createdBy: string,
    createdDate: string)

  /** The contents of the add form or of the edit form, sent as the request body. */
  datatype ProductDraft = ProductDraft(
    productCode: string,
    productName: string,
    unit: string,
    defaultExpiration: int,
    categoryId: int,
    description: string,
    taxId: int,
    images: seq<string>)

  /** The add form's initial contents, restored after a successful create. */
  const EmptyDraft := ProductDraft("", "", "", 30, 0, "", 1, [])

  /** A file chosen in the file input; its bytes are not modelled. */
  datatype ImageFile = ImageFile(name: string)

  /** How a call to the backend ended: no stored bearer token (nothing sent),
      a non-2xx status or a thrown error, or success with the parsed body. */
  datatype Fetch<T> = MissingToken | Fail | Ok(payload: T)

  /** A parsed JSON body that should be an array. */
  datatype Body<T> = NotArray | Array(items: seq<T>)

  /** One element of the product-list array: something that is not a
      (non-null) object, or an object that may lack `productId` or `productName`. */
  datatype Item = NotObject | Object(hasProductId: bool, hasProductName: bool, product: Product)

  /** The upload endpoint's JSON reply; each field may be absent. */
  datatype UploadReply = UploadReply(url: Option<string>, imageUrl: Option<string>, path: Option<string>)

  /** The requests the screen sends that change something on the backend. */
  datatype Request =
    | PostProduct(draft: ProductDraft)
    | PutProduct(id: int, draft: ProductDraft)
    | DeleteById(id: int)
    | PostImage(file: ImageFile)

  // ---------------------------------------------------------------------
  // Search

  /** `toLowerCase` on ASCII letters; every other character is left as it is. */
  function LowerChar(c: char): char
  {
    if 'A' <= c <= 'Z' then (c as int + 32) as char else c
  }

  function Lower(s: string): (r: string)
    ensures |r| == |s|
    ensures forall i :: 0 <= i < |s| && 'A' <= s[i] <= 'Z' ==> r[i] == (s[i] as int + 32) as char
    ensures forall i :: 0 <= i < |r| ==> !('A' <= r[i] <= 'Z')
    ensures forall i :: 0 <= i < |s| && !('A' <= s[i] <= 'Z') ==> r[i] == s[i]
  {
    seq(|s|, i requires 0 <= i < |s| => LowerChar(s[i]))
  }

  /** Lowering twice is lowering once, so the search ignores the case of the term. */
  lemma LowerIdempotent(s: string)
    ensures Lower(Lower(s)) == Lower(s)
  {
  }

  predicate OccursAt(hay: string, needle: string, i: nat)
  {
    i + |needle| <= |hay| && hay[i..i + |needle|] == needle
  }

  /** `hay.includes(needle)`. */
  predicate Includes(hay: string, needle: string)
  {
    exists i: nat :: i <= |hay| && OccursAt(hay, needle, i)
  }

  /** Every string includes the empty string. */
  lemma IncludesEmpty(hay: string)
    ensures Includes(hay, "")
  {
    assert OccursAt(hay, "", 0);
  }

  /** The search predicate: the lowered name or the lowered code contains the lowered term. */
  predicate Matches(p: Product, term: string)
  {
    Includes(Lower(p.productName), Lower(term)) || Includes(Lower(p.productCode), Lower(term))
  }

  /** The visible list for a search term: the products that match, in list order. */
  function FilterProducts(products: seq<Product>, term: string): (r: seq<Product>)
    ensures IsSubsequence(r, products)
    ensures forall i :: 0 <= i < |r| ==> Matches(r[i], term)
    ensures forall i :: 0 <= i < |products| && Matches(products[i], term) ==> products[i] in r
    ensures forall p :: multiset(r)[p] == if Matches(p, term) then multiset(products)[p] else 0
  {
    Filter(products, p => Matches(p, term))
  }

  /** With an empty search term the visible list is the whole list. */
  lemma EmptySearchShowsAll(products: seq<Product>)
    ensures FilterProducts(products, "") == products
  {
    forall i | 0 <= i < |products| ensures Matches(products[i], "") {
      IncludesEmpty(Lower(products[i].productName));
    }
    FilterKeepsAll(products, p => Matches(p, ""));
  }

  /** Two terms that lower to the same string show the same products. */
  lemma SearchDependsOnLoweredTerm(products: seq<Product>, t1: string, t2: string)
    requires Lower(t1) == Lower(t2)
    ensures FilterProducts(products, t1) == FilterProducts(products, t2)
  {
    FilterCongruent(products, p => Matches(p, t1), p => Matches(p, t2));
  }

  /** Searching for a term and for its lower-case form shows the same products. */
  lemma SearchIgnoresTermCase(products: seq<Product>, term: string)
    ensures FilterProducts(products, Lower(term)) == FilterProducts(products, term)
  {
    LowerIdempotent(term);
    SearchDependsOnLoweredTerm(products, Lower(term), term);
  }

  /** "SU01" and "su01" are the same term to the search. */
  lemma SearchCaseExample(products: seq<Product>)
    ensures FilterProducts(products, "SU01") == FilterProducts(products, "su01")
  {
    assert Lower("SU01") == "su01" == Lower("su01");
    SearchDependsOnLoweredTerm(products, "SU01", "su01");
  }

  /** Searching "su" in a milk (code SU01) and a cake (code BA01) product keeps only the milk. */
  lemma SearchExample(milk: Product, cake: Product)
    requires milk.productName == "Sữa" && milk.productCode == "SU01"
    requires cake.productName == "Bánh" && cake.productCode == "BA01"
    ensures FilterProducts([milk, cake], "su") == [milk]
  {
    assert Lower("su") == "su";
    assert Lower("SU01") == "su01";
    assert OccursAt(Lower("SU01"), "su", 0);
    assert Lower("Bánh") == "bánh";
    assert Lower("BA01") == "ba01";
    forall i: nat ensures !OccursAt("bánh", "su", i) && !OccursAt("ba01", "su", i) {
      if i + 2 <= 4 {
        assert "bánh"[i] != 's';
        assert "ba01"[i] != 's';
      }
    }
    assert !Matches(cake, "su");
    assert Matches(milk, "su");
  }

  // ---------------------------------------------------------------------
  // Response validation

  /** The element check of the product loader: a non-null object with both
      a `productId` and a `productName` key. */
  predicate IsProductShaped(item: Item)
  {
    item.Object? && item.hasProductId && item.hasProductName
  }

  /** The products of the well-shaped elements, in array order; the others are dropped. */
  function ValidProducts(items: seq<Item>): (r: seq<Product>)
    ensures |r| <= |items|
    ensures forall i :: 0 <= i < |items| && IsProductShaped(items[i]) ==> items[i].product in r
  {
    if items == [] then []
    else if IsProductShaped(items[0]) then [items[0].product] + ValidProducts(items[1..])
    else ValidProducts(items[1..])
  }

  /** The kept products are exactly the well-shaped items, in order and with repeats:
      `ValidProducts` is `items.filter(isProductShaped)` read back as products. */
  lemma {:induction false} ValidProductsIsFilter(items: seq<Item>)
    ensures |ValidProducts(items)| == |Filter(items, IsProductShaped)|
    ensures forall k :: 0 <= k < |ValidProducts(items)| ==>
              ValidProducts(items)[k] == Filter(items, IsProductShaped)[k].product
  {
    if items != [] {
      ValidProductsIsFilter(items[1..]);
      FilterStep(items, IsProductShaped);
      if IsProductShaped(items[0]) {
        ShapedHeadStep(ValidProducts(items[1..]), Filter(items[1..], IsProductShaped), items[0]);
      }
    }
  }

  /** Putting a well-shaped item in front of both lists keeps them in step. */
  lemma ShapedHeadStep(vt: seq<Product>, ft: seq<Item>, head: Item)
    requires head.Object? && forall k :: 0 <= k < |ft| ==> ft[k].Object?
    requires |vt| == |ft| && forall k :: 0 <= k < |vt| ==> vt[k] == ft[k].product
    ensures var v, f := [head.product] + vt, [head] + ft;
            |v| == |f| && forall k :: 0 <= k < |v| ==> v[k] == f[k].product
  {
  }

  /** Every loaded product comes from a well-shaped element of the array. */
  lemma {:induction false} ValidProductsSound(items: seq<Item>, k: nat)
    requires k < |ValidProducts(items)|
    ensures exists i :: 0 <= i < |items| && IsProductShaped(items[i])
                        && items[i].product == ValidProducts(items)[k]
  {
    var tail := items[1..];
    if IsProductShaped(items[0]) && k == 0 {
      assert IsProductShaped(items[0]) && items[0].product == ValidProducts(items)[k];
    } else {
      var k' := if IsProductShaped(items[0]) then k - 1 else k;
      ValidProductsSound(tail, k');
      var i :| 0 <= i < |tail| && IsProductShaped(tail[i]) && tail[i].product == ValidProducts(tail)[k'];
      assert items[i + 1] == tail[i];
    }
  }

  /** When every element is well shaped, nothing is dropped and the order is kept. */
  lemma {:induction false} ValidProductsKeepsWellShaped(items: seq<Item>)
    requires forall i :: 0 <= i < |items| ==> IsProductShaped(items[i])
    ensures |ValidProducts(items)| == |items|
    ensures forall i :: 0 <= i < |items| ==> ValidProducts(items)[i] == items[i].product
  {
    if items != [] {
      ValidProductsKeepsWellShaped(items[1..]);
    }
  }

  /** When no element is well shaped, the product list comes out empty. */
  lemma {:induction false} ValidProductsDropsMalformed(items: seq<Item>)
    requires forall i :: 0 <= i < |items| ==> !IsProductShaped(items[i])
    ensures ValidProducts(items) == []
  {
    if items != [] {
      ValidProductsDropsMalformed(items[1..]);
    }
  }

  /** The category loader keeps the active categories only. */
  function ActiveCategories(cats: seq<Category>): (r: seq<Category>)
    ensures IsSubsequence(r, cats)
    ensures forall i :: 0 <= i < |r| ==> r[i].isActive
    ensures forall i :: 0 <= i < |cats| && cats[i].isActive ==> cats[i] in r
    ensures forall c :: multiset(r)[c] == if c.isActive then multiset(cats)[c] else 0
  {
    Filter(cats, (c: Category) => c.isActive)
  }

  // ---------------------------------------------------------------------
  // Images

  predicate Truthy(field: Option<string>)
  {
    field.Some? && field.value != ""
  }

  /** `data.url || data.imageUrl || data.path`, with None for a falsy result. */
  function UploadedUrl(reply: UploadReply): (r: Option<string>)
    ensures r.Some? <==> Truthy(reply.url) || Truthy(reply.imageUrl) || Truthy(reply.path)
    ensures r.Some? ==> r.value != "" && (r == reply.url || r == reply.imageUrl || r == reply.path)
    ensures Truthy(reply.url) ==> r == reply.url
    ensures !Truthy(reply.url) && Truthy(reply.imageUrl) ==> r == reply.imageUrl
  {
    if Truthy(reply.url) then reply.url
    else if Truthy(reply.imageUrl) then reply.imageUrl
    else if Truthy(reply.path) then reply.path
    else None
  }

  /** The list with the entry at `index` deleted and the later entries moved down by one. */
  function Without(urls: seq<string>, index: nat): (r: seq<string>)
    requires index < |urls|
    ensures |r| == |urls| - 1
    ensures forall k :: 0 <= k < index ==> r[k] == urls[k]
    ensures forall k :: index <= k < |r| ==> r[k] == urls[k + 1]
  {
    urls[..index] + urls[index + 1..]
  }

  /** Removing the entry just appended gives back the list as it was. */
  lemma RemoveUndoesAppend(urls: seq<string>, url: string)
    ensures Without(urls + [url], |urls|) == urls
  {
    assert (urls + [url])[..|urls|] == urls;
  }

  /** Removing an entry keeps exactly the other entries (as a multiset). */
  lemma WithoutMultiset(urls: seq<string>, index: nat)
    requires index < |urls|
    ensures multiset(Without(urls, index)) + multiset{urls[index]} == multiset(urls)
  {
    assert urls == urls[..index] + [urls[index]] + urls[index + 1..];
  }

  /** `const copy = [...urls]; copy.splice(index, 1)`: copy into a fresh array,
      then close the gap in place by moving every later entry one slot down. */
  method SpliceOut(urls: seq<string>, index: nat) returns (r: seq<string>)
    requires index < |urls|
    ensures r == Without(urls, index)
  {
    var copy := new string[|urls|](k requires 0 <= k < |urls| => urls[k]);
    var k := index;
    while k < copy.Length - 1
      invariant index <= k <= copy.Length - 1
      invariant forall j :: 0 <= j < index ==> copy[j] == urls[j]
      invariant forall j :: index <= j < k ==> copy[j] == urls[j + 1]
      invariant forall j :: k < j < copy.Length ==> copy[j] == urls[j]
    {
      copy[k] := copy[k + 1];
      k := k + 1;
    }
    r := copy[..copy.Length - 1];
  }

  /** The edit form's contents for a product (missing description and images read as empty). */
  function DraftOf(p: Product): ProductDraft
  {
    ProductDraft(p.productCode, p.productName, p.unit, p.defaultExpiration,
                 p.categoryId, p.description, p.taxId, p.images)
  }

  // ---------------------------------------------------------------------
  // The screen's state and handlers

  class CatalogScreen {
    var products: seq<Product>
    var filteredProducts: seq<Product>
    var isLoading: bool
    var searchTerm: string
    var selectedProduct: Option<Product>
    var isDialogOpen: bool
    var isAddDialogOpen: bool
    var isEditDialogOpen: bool
    var isSubmitting: bool
    var categories: seq<Category>
    var newProduct: ProductDraft
    var editProduct: ProductDraft
    var imageUrls: seq<string>
    var editImageUrls: seq<string>
    var imageFile: Option<ImageFile>
    var uploadingImage: bool
    var isDeleteDialogOpen: bool
    var isDeleting: bool
    var productToDelete: Option<Product>
    /** How many product-list reloads the mutation handlers have started. */
    var reloadsIssued: nat

    /** What holds between any two steps: the visible list is drawn from the
        loaded list, only active categories are kept, each draft's images are
        its image-URL list, and no submission, deletion or upload is in flight. */
    ghost predicate Valid()
      reads this
    {
      && IsSubsequence(filteredProducts, products)
      && (forall i :: 0 <= i < |categories| ==> categories[i].isActive)
      && newProduct.images == imageUrls
      && editProduct.images == editImageUrls
      && !isSubmitting && !isDeleting && !uploadingImage
    }

    /** Every product in the visible list is a loaded product. */
    lemma VisibleAreLoaded(p: Product)
      requires Valid() && p in filteredProducts
      ensures p in products
    {
      SubsequenceElements(filteredProducts, products, p);
    }

    /** The initial state of the component. */
    constructor ()
      ensures Valid()
      ensures products == [] && filteredProducts == [] && categories == []
      ensures isLoading && searchTerm == ""
      ensures selectedProduct == None && productToDelete == None && imageFile == None
      ensures !isDialogOpen && !isAddDialogOpen && !isEditDialogOpen && !isDeleteDialogOpen
      ensures newProduct == EmptyDraft && editProduct == EmptyDraft
      ensures imageUrls == [] && editImageUrls == []
      ensures reloadsIssued == 0
    {
      products, filteredProducts, categories := [], [], [];
      isLoading, searchTerm := true, "";
      selectedProduct, productToDelete, imageFile := None, None, None;
      isDialogOpen, isAddDialogOpen, isEditDialogOpen, isDeleteDialogOpen := false, false, false, false;
      isSubmitting, isDeleting, uploadingImage := false, false, false;
      newProduct, editProduct := EmptyDraft, EmptyDraft;
      imageUrls, editImageUrls := [], [];
      reloadsIssued := 0;
    }

    /** The search box's change handler. */
    method SetSearchTerm(term: string)
      modifies this`searchTerm
      ensures searchTerm == term
    {
      searchTerm := term;
    }

    /** The effect that runs after the product list or the search term changes:
        when the list is non-empty, recompute the visible list from it. */
    method FilterEffect()
      requires Valid()
      modifies this`filteredProducts
      ensures Valid()
      ensures filteredProducts == if products == [] then old(filteredProducts)
                                  else FilterProducts(products, searchTerm)
    {
      if |products| > 0 {
        filteredProducts := FilterProducts(products, searchTerm);
      }
    }

    /** Load the product list. Without a token nothing is loaded; a failed call or
        a body that is not an array empties both lists; an array fills both lists
        with its well-shaped elements. The loading flag ends false on every path. */
    method FetchProducts(outcome: Fetch<Body<Item>>)
      requires Valid()
      modifies this`products, this`filteredProducts, this`isLoading
      ensures Valid() && !isLoading
      ensures outcome.MissingToken? ==>
                products == old(products) && filteredProducts == old(filteredProducts)
      ensures outcome.Fail? || outcome == Ok(NotArray) ==> products == [] && filteredProducts == []
      ensures outcome.Ok? && outcome.payload.Array? ==>
                products == ValidProducts(outcome.payload.items) && filteredProducts == products
    {
      isLoading := true;
      match outcome {
        case MissingToken =>
        case Fail =>
          products, filteredProducts := [], [];
        case Ok(NotArray) =>
          products, filteredProducts := [], [];
        case Ok(Array(items)) =>
          var valid := ValidProducts(items);
          SubsequenceReflexive(valid);
          products, filteredProducts := valid, valid;
      }
      isLoading := false;
    }

    /** Load the categories: on success keep the active ones; without a token, on
        failure, or when the body is not an array (its `filter` throws) keep the old list. */
    method FetchCategories(outcome: Fetch<Body<Category>>)
      requires Valid()
      modifies this`categories
      ensures Valid()
      ensures categories == if outcome.Ok? && outcome.payload.Array?
                            then ActiveCategories(outcome.payload.items)
                            else old(categories)
    {
      if outcome.Ok? && outcome.payload.Array? {
        categories := ActiveCategories(outcome.payload.items);
      }
    }

    /** The mount effect: load the products, then the categories. */
    method Mount(productsOutcome: Fetch<Body<Item>>, categoriesOutcome: Fetch<Body<Category>>)
      requires Valid()
      modifies this`products, this`filteredProducts, this`isLoading, this`categories
      ensures Valid() && !isLoading
      ensures productsOutcome.MissingToken? ==>
                products == old(products) && filteredProducts == old(filteredProducts)
      ensures productsOutcome.Fail? || productsOutcome == Ok(NotArray) ==>
                products == [] && filteredProducts == []
      ensures productsOutcome.Ok? && productsOutcome.payload.Array? ==>
                products == ValidProducts(productsOutcome.payload.items) && filteredProducts == products
      ensures categories == if categoriesOutcome.Ok? && categoriesOutcome.payload.Array?
                            then ActiveCategories(categoriesOutcome.payload.items)
                            else old(categories)
    {
      FetchProducts(productsOutcome);
      FetchCategories(categoriesOutcome);
    }

    /** Open the read-only detail dialog for a product. */
    method ViewProductDetail(p: Product)
      modifies this`selectedProduct, this`isDialogOpen
      ensures selectedProduct == Some(p) && isDialogOpen
    {
      selectedProduct := Some(p);
      isDialogOpen := true;
    }

    method CloseViewDialog()
      modifies this`isDialogOpen
      ensures !isDialogOpen
    {
      isDialogOpen := false;
    }

    /** Open the edit dialog with a fresh copy of the product's editable fields. */
    method EditProduct(p: Product)
      requires Valid()
      modifies this`selectedProduct, this`editProduct, this`editImageUrls, this`isEditDialogOpen
      ensures Valid()
      ensures selectedProduct == Some(p) && isEditDialogOpen
      ensures editProduct == DraftOf(p) && editImageUrls == p.images
    {
      selectedProduct := Some(p);
      editProduct := DraftOf(p);
      editImageUrls := p.images;
      isEditDialogOpen := true;
    }

    /** The detail dialog's edit button: close it and edit the shown product. */
    method EditFromView()
      requires Valid() && selectedProduct.Some?
      modifies this`isDialogOpen, this`selectedProduct, this`editProduct, this`editImageUrls,
               this`isEditDialogOpen
      ensures Valid()
      ensures !isDialogOpen && isEditDialogOpen && selectedProduct == old(selectedProduct)
      ensures editProduct == DraftOf(old(selectedProduct).value)
    {
      isDialogOpen := false;
      EditProduct(selectedProduct.value);
    }

    method OpenAddDialog()
      modifies this`isAddDialogOpen
      ensures isAddDialogOpen
    {
      isAddDialogOpen := true;
    }

    /** Cancelling the add dialog keeps the draft for the next time it opens. */
    method CloseAddDialog()
      modifies this`isAddDialogOpen
      ensures !isAddDialogOpen
    {
      isAddDialogOpen := false;
    }

    method CloseEditDialog()
      modifies this`isEditDialogOpen
      ensures !isEditDialogOpen
    {
      isEditDialogOpen := false;
    }

    /** The file input's change handler: stage the chosen file, if any. */
    method StageImage(chosen: Option<ImageFile>)
      modifies this`imageFile
      ensures imageFile == if chosen.Some? then chosen else old(imageFile)
    {
      if chosen.Some? {
        imageFile := chosen;
      }
    }

    /** Upload the staged file and append the returned URL to the edit form's
        list (`isEdit`) or the add form's list, keeping that draft's images equal
        to the list. Nothing changes when no file is staged, without a token, on a
        failed call, or when the reply holds no URL; the file stays staged then. */
    method UploadImage(isEdit: bool, outcome: Fetch<UploadReply>) returns (sent: Option<Request>)
      requires Valid()
      modifies this`uploadingImage, this`imageFile, this`imageUrls, this`newProduct,
               this`editImageUrls, this`editProduct
      ensures Valid()
      ensures sent == if old(imageFile).None? || outcome.MissingToken? then None
                      else Some(PostImage(old(imageFile).value))
      ensures var url := if outcome.Ok? then UploadedUrl(outcome.payload) else None;
              if old(imageFile).Some? && url.Some? then
                && imageFile == None
                && (isEdit ==> editImageUrls == old(editImageUrls) + [url.value]
                               && imageUrls == old(imageUrls) && newProduct == old(newProduct))
                && (!isEdit ==> imageUrls == old(imageUrls) + [url.value]
                                && editImageUrls == old(editImageUrls) && editProduct == old(editProduct))
                && newProduct == old(newProduct).(images := imageUrls)
                && editProduct == old(editProduct).(images := editImageUrls)
              else
                && imageFile == old(imageFile)
                && imageUrls == old(imageUrls) && newProduct == old(newProduct)
                && editImageUrls == old(editImageUrls) && editProduct == old(editProduct)
    {
      sent := None;
      if imageFile.None? {
        return;
      }
      uploadingImage := true;
      if outcome.MissingToken? {
        uploadingImage := false;
        return;
      }
      sent := Some(PostImage(imageFile.value));
      if outcome.Ok? {
        var url := UploadedUrl(outcome.payload);
        if url.Some? {
          if isEdit {
            var newUrls := editImageUrls + [url.value];
            editImageUrls := newUrls;
            editProduct := editProduct.(images := newUrls);
          } else {
            var newUrls := imageUrls + [url.value];
            imageUrls := newUrls;
            newProduct := newProduct.(images := newUrls);
          }
          imageFile := None;
        }
      }
      uploadingImage := false;
    }

    /** Remove entry `index` from the add form's image list and its draft. */
    method RemoveNewImage(index: nat)
      requires Valid() && index < |imageUrls|
      modifies this`imageUrls, this`newProduct
      ensures Valid()
      ensures imageUrls == Without(old(imageUrls), index)
      ensures newProduct == old(newProduct).(images := imageUrls)
    {
      var newUrls := SpliceOut(imageUrls, index);
      imageUrls := newUrls;
      newProduct := newProduct.(images := newUrls);
    }

    /** Remove entry `index` from the edit form's image list and its draft. */
    method RemoveEditImage(index: nat)
      requires Valid() && index < |editImageUrls|
      modifies this`editImageUrls, this`editProduct
      ensures Valid()
      ensures editImageUrls == Without(old(editImageUrls), index)
      ensures editProduct == old(editProduct).(images := editImageUrls)
    {
      var newUrls := SpliceOut(editImageUrls, index);
      editImageUrls := newUrls;
      editProduct := editProduct.(images := newUrls);
    }

    /** The part of the product loader that runs before its first await when a
        token is present: it marks the list as loading. */
    method IssueReload()
      modifies this`isLoading, this`reloadsIssued
      ensures isLoading && reloadsIssued == old(reloadsIssued) + 1
    {
      isLoading := true;
      reloadsIssued := reloadsIssued + 1;
    }

    /** Submit the add form. On success the draft and its image list are reset,
        the dialog closes and a reload starts; otherwise all of them are kept. */
    method AddProduct(outcome: Fetch<()>) returns (sent: Option<Request>)
      requires Valid()
      modifies this`isSubmitting, this`newProduct, this`imageUrls, this`isAddDialogOpen,
               this`isLoading, this`reloadsIssued
      ensures Valid() && !isSubmitting
      ensures sent == if outcome.MissingToken? then None else Some(PostProduct(old(newProduct)))
      ensures outcome.Ok? ==>
                && newProduct == EmptyDraft && imageUrls == [] && !isAddDialogOpen
                && isLoading && reloadsIssued == old(reloadsIssued) + 1
      ensures !outcome.Ok? ==>
                && newProduct == old(newProduct) && imageUrls == old(imageUrls)
                && isAddDialogOpen == old(isAddDialogOpen)
                && isLoading == old(isLoading) && reloadsIssued == old(reloadsIssued)
    {
      sent := None;
      isSubmitting := true;
      if outcome.MissingToken? {
        isSubmitting := false;
        return;
      }
      sent := Some(PostProduct(newProduct));
      if outcome.Ok? {
        newProduct := EmptyDraft;
        imageUrls := [];
        isAddDialogOpen := false;
        IssueReload();
      }
      isSubmitting := false;
    }

    /** Submit the edit form as a full replacement of the selected product. On
        success the dialog closes and a reload starts; the draft is kept either way. */
    method UpdateProduct(outcome: Fetch<()>) returns (sent: Option<Request>)
      requires Valid()
      modifies this`isSubmitting, this`isEditDialogOpen, this`isLoading, this`reloadsIssued
      ensures Valid() && !isSubmitting
      ensures sent == if selectedProduct.None? || outcome.MissingToken? then None
                      else Some(PutProduct(selectedProduct.value.productId, editProduct))
      ensures sent.Some? && outcome.Ok? ==>
                !isEditDialogOpen && isLoading && reloadsIssued == old(reloadsIssued) + 1
      ensures !(sent.Some? && outcome.Ok?) ==>
                && isEditDialogOpen == old(isEditDialogOpen)
                && isLoading == old(isLoading) && reloadsIssued == old(reloadsIssued)
    {
      sent := None;
      if selectedProduct.None? {
        return;
      }
      isSubmitting := true;
      if outcome.MissingToken? {
        isSubmitting := false;
        return;
      }
      sent := Some(PutProduct(selectedProduct.value.productId, editProduct));
      if outcome.Ok? {
        isEditDialogOpen := false;
        IssueReload();
      }
      isSubmitting := false;
    }

    /** A row's delete button: remember the target and ask for confirmation. */
    method DeleteProduct(p: Product)
      modifies this`productToDelete, this`isDeleteDialogOpen
      ensures productToDelete == Some(p) && isDeleteDialogOpen
    {
      productToDelete := Some(p);
      isDeleteDialogOpen := true;
    }

    /** Cancelling the confirmation closes the dialog but keeps the target. */
    method CloseDeleteDialog()
      modifies this`isDeleteDialogOpen
      ensures !isDeleteDialogOpen
    {
      isDeleteDialogOpen := false;
    }

    /** Confirm the deletion. On success the dialog closes, the target is cleared
        and a reload starts; on failure both stay so that the user can retry. */
    method ConfirmDelete(outcome: Fetch<()>) returns (sent: Option<Request>)
      requires Valid()
      modifies this`isDeleting, this`isDeleteDialogOpen, this`productToDelete,
               this`isLoading, this`reloadsIssued
      ensures Valid() && !isDeleting
      ensures sent == if old(productToDelete).None? || outcome.MissingToken? then None
                      else Some(DeleteById(old(productToDelete).value.productId))
      ensures sent.Some? && outcome.Ok? ==>
                && !isDeleteDialogOpen && productToDelete == None
                && isLoading && reloadsIssued == old(reloadsIssued) + 1
      ensures !(sent.Some? && outcome.Ok?) ==>
                && isDeleteDialogOpen == old(isDeleteDialogOpen)
                && productToDelete == old(productToDelete)
                && isLoading == old(isLoading) && reloadsIssued == old(reloadsIssued)
    {
      sent := None;
      if productToDelete.None? {
        return;
      }
      isDeleting := true;
      if outcome.MissingToken? {
        isDeleting := false;
        return;
      }
      sent := Some(DeleteById(productToDelete.value.productId));
      if outcome.Ok? {
        isDeleteDialogOpen := false;
        productToDelete := None;
        IssueReload();
      }
      isDeleting := false;
    }
  }

  // ---------------------------------------------------------------------
  // Scenarios: what a caller can conclude from the contracts alone

  /** A product list body that is not an array leaves both lists empty. */
  method NotAnArrayScenario(items: seq<Item>)
  {
    var screen := new CatalogScreen();
    screen.FetchProducts(Ok(Array(items)));
    screen.FetchProducts(Ok(NotArray));
    assert screen.products == [] && screen.filteredProducts == [] && !screen.isLoading;
  }

  /** A failed delete keeps the dialog open on the same target, so a retry deletes it. */
  method DeleteRetryScenario(p: Product)
  {
    var screen := new CatalogScreen();
    screen.DeleteProduct(p);
    var sent := screen.ConfirmDelete(Fail);
    assert sent == Some(DeleteById(p.productId));
    assert screen.isDeleteDialogOpen && screen.productToDelete == Some(p);
    sent := screen.ConfirmDelete(Ok(()));
    assert sent == Some(DeleteById(p.productId));
    assert !screen.isDeleteDialogOpen && screen.productToDelete == None && screen.isLoading;
  }

  /** Uploading an image into the add form and removing it again restores the form. */
  method UploadThenRemoveScenario(file: ImageFile, url: string)
    requires url != ""
  {
    var screen := new CatalogScreen();
    screen.StageImage(Some(file));
    var sent := screen.UploadImage(false, Ok(UploadReply(Some(url), None, None)));
    assert screen.imageUrls == [url] && screen.newProduct.images == [url] && screen.imageFile == None;
    screen.RemoveNewImage(0);
    assert screen.imageUrls == [] && screen.newProduct == EmptyDraft;
  }
}
