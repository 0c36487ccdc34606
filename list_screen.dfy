/** The product list screen: the displayed list, the search term, the product
    chosen for editing and the popup flag. Every backend request it issues is
    recorded, in order, in `requests`; each awaited request's outcome and the
    array of products it returned are parameters. */
module ListScreen {
  import opened Catalog
  import opened ProductUpdate

  /** The sequence in reverse order, defined by recursion. */
  function Reversed(s: seq<Product>): (r: seq<Product>)
    ensures |r| == |s|
  {
    if s == [] then [] else Reversed(s[1..]) + [s[0]]
  }

  /** Position `k` of the reversal holds position `|s| - 1 - k` of the input. */
  lemma {:induction false} ReversedAt(s: seq<Product>, k: nat)
    requires k < |s|
    ensures Reversed(s)[k] == s[|s| - 1 - k]
  {
    if k < |s| - 1 {
      ReversedAt(s[1..], k);
    }
  }

  /** The first product displayed is the last one returned, and the last
      displayed is the first returned. */
  lemma ReversedEnds(s: seq<Product>)
    requires s != []
    ensures Reversed(s)[0] == s[|s| - 1] && Reversed(s)[|s| - 1] == s[0]
  {
    ReversedAt(s, 0);
    ReversedAt(s, |s| - 1);
  }

  /** Reversing twice gives the fetched order back. */
  lemma ReversedTwice(s: seq<Product>)
    ensures Reversed(Reversed(s)) == s
  {
    forall k | 0 <= k < |s| ensures Reversed(Reversed(s))[k] == s[k] {
      ReversedAt(Reversed(s), k);
      ReversedAt(s, |s| - 1 - k);
    }
  }

  /** A sequence that mirrors another position by position is its reversal. */
  lemma MirroredIsReversed(s: seq<Product>, t: seq<Product>)
    requires |t| == |s|
    requires forall k :: 0 <= k < |s| ==> t[k] == s[|s| - 1 - k]
    ensures t == Reversed(s)
  {
    forall k | 0 <= k < |s| ensures t[k] == Reversed(s)[k] {
      ReversedAt(s, k);
    }
  }

  /** `Array.prototype.reverse`: the array is reversed in place. */
  method ReverseInPlace(a: array<Product>)
    modifies a
    ensures a[..] == Reversed(old(a[..]))
  {
    ghost var was := a[..];
    var lo, hi := 0, a.Length - 1;
    while lo < hi
      invariant 0 <= lo <= hi + 1 <= a.Length && lo + hi == a.Length - 1
      invariant |a[..]| == |was|
      invariant forall k :: 0 <= k < lo || hi < k < a.Length ==> a[..][k] == was[a.Length - 1 - k]
      invariant forall k :: lo <= k <= hi ==> a[..][k] == was[k]
    {
      var t := a[lo];
      a[lo] := a[hi];
      a[hi] := t;
      lo, hi := lo + 1, hi - 1;
    }
    MirroredIsReversed(was, a[..]);
  }

  datatype Request = FetchProducts(search: string) | DeleteProduct(id: string)

  class ProductList {
    var list: seq<Product>
    var searchTerm: string
    var selectedProduct: Option<Product>
    var isPopupOpen: bool
    var requests: seq<Request>

    /** The popup flag and the selected product change together. */
    predicate Valid()
      reads this
    {
      isPopupOpen <==> selectedProduct.Some?
    }

    /** The edit popup is mounted only while the flag holds. */
    predicate PopupShown()
      reads this
    {
      isPopupOpen
    }

    /** Mounting: empty state, then the effect fetches with the initial empty
        search term. */
    constructor (reply: Reply, products: array<Product>)
      modifies products
      ensures Valid() && !isPopupOpen && searchTerm == ""
      ensures requests == [FetchProducts("")]
      ensures list == if reply == Succeeded then Reversed(old(products[..])) else []
      ensures products[..] == if reply == Succeeded then list else old(products[..])
    {
      list := [];
      searchTerm := "";
      selectedProduct := None;
      isPopupOpen := false;
      requests := [FetchProducts("")];
      new;
      if reply == Succeeded {
        ReverseInPlace(products);
        list := products[..];
      }
    }

    /** `fetchList(search)`: on success the returned array is reversed in place
        and replaces the list wholesale; on a rejection or an exception the
        list is kept. */
    method FetchList(search: string, reply: Reply, products: array<Product>)
      modifies this, products
      ensures requests == old(requests) + [FetchProducts(search)]
      ensures reply == Succeeded ==> list == Reversed(old(products[..])) && products[..] == list
      ensures reply != Succeeded ==> list == old(list) && products[..] == old(products[..])
      ensures searchTerm == old(searchTerm) && selectedProduct == old(selectedProduct)
      ensures isPopupOpen == old(isPopupOpen)
    {
      requests := requests + [FetchProducts(search)];
      if reply == Succeeded {
        ReverseInPlace(products);
        list := products[..];
      }
    }

    /** `handleSearch` sets the term; the effect keyed on the term then fetches
        with it whenever it actually changed. */
    method HandleSearch(value: string, reply: Reply, products: array<Product>)
      modifies this, products
      ensures searchTerm == value
      ensures requests == old(requests) + (if value != old(searchTerm) then [FetchProducts(value)] else [])
      ensures list == if value != old(searchTerm) && reply == Succeeded
                      then Reversed(old(products[..])) else old(list)
      ensures products[..] == if value != old(searchTerm) && reply == Succeeded then list else old(products[..])
      ensures selectedProduct == old(selectedProduct) && isPopupOpen == old(isPopupOpen)
    {
      var changed := value != searchTerm;
      searchTerm := value;
      if changed {
        FetchList(searchTerm, reply, products);
      }
    }

    /** `removeProduct(id)`: the list is never edited locally; only a confirmed
        deletion refetches, with the current search term. */
    method RemoveProduct(id: string, deleteReply: Reply, fetchReply: Reply, products: array<Product>)
      modifies this, products
      ensures requests == old(requests) + [DeleteProduct(id)] +
                          (if deleteReply == Succeeded then [FetchProducts(searchTerm)] else [])
      ensures list == if deleteReply == Succeeded && fetchReply == Succeeded
                      then Reversed(old(products[..])) else old(list)
      ensures products[..] == if deleteReply == Succeeded && fetchReply == Succeeded then list else old(products[..])
      ensures searchTerm == old(searchTerm) && selectedProduct == old(selectedProduct)
      ensures isPopupOpen == old(isPopupOpen)
    {
      requests := requests + [DeleteProduct(id)];
      if deleteReply == Succeeded {
        FetchList(searchTerm, fetchReply, products);
      }
    }

    method OpenUpdatePopup(p: Product)
      modifies this
      ensures Valid() && selectedProduct == Some(p) && isPopupOpen
      ensures list == old(list) && searchTerm == old(searchTerm) && requests == old(requests)
    {
      selectedProduct := Some(p);
      isPopupOpen := true;
    }

    method ClosePopup()
      modifies this
      ensures Valid() && selectedProduct == None && !isPopupOpen
      ensures list == old(list) && searchTerm == old(searchTerm) && requests == old(requests)
    {
      selectedProduct := None;
      isPopupOpen := false;
    }

    /** The refresh callback handed to the popup: it refetches with `search`,
        the term the callback captured in the render the popup's update was
        started from, which need not be the current term. A popup cancelled
        while its update was in flight still calls it when the update succeeds,
        so it may run with no popup shown, or with the popup of another product
        shown. */
    method RefreshFromPopup(search: string, reply: Reply, products: array<Product>)
      modifies this, products
      ensures requests == old(requests) + [FetchProducts(search)]
      ensures list == if reply == Succeeded then Reversed(old(products[..])) else old(list)
      ensures products[..] == if reply == Succeeded then list else old(products[..])
      ensures searchTerm == old(searchTerm) && selectedProduct == old(selectedProduct)
      ensures isPopupOpen == old(isPopupOpen)
    {
      FetchList(search, reply, products);
    }
  }

  /** One edit end to end, driven only through the contracts of the list and
      the popup: the list shows product `p`; the popup is opened on it and
      saved unedited; the backend accepts; the popup's callbacks run in the
      order it returns them, so the list is refetched (now holding `q`) and
      then the popup is closed. */
  method EditFlowExample(p: Product, q: Product) returns (shown: seq<Product>, open: bool, sent: UpdateRequest)
    ensures shown == [q] && !open
    ensures sent == UpdateRequest(p.id, PayloadOf(Snapshot(p)))
    ensures p.color != [] && (forall k :: 0 <= k < |p.color| ==> ',' !in p.color[k] && Trimmed(p.color[k])) ==>
              sent.body == UpdatePayload(p.name, p.description, p.pricing, p.category, p.stock, p.color)
  {
    var first := new Product[1] [p];
    var screen := new ProductList(Succeeded, first);
    assert screen.list == [p];
    screen.OpenUpdatePopup(screen.list[0]);
    var popup := new UpdateProductPopup(screen.selectedProduct.value);
    var captured := screen.searchTerm;
    sent := popup.StartUpdate();
    var calls := popup.FinishUpdate(Succeeded);
    var refreshed := new Product[1] [q];
    assert calls == [RefreshList, Close];
    screen.RefreshFromPopup(captured, Succeeded, refreshed);
    screen.ClosePopup();
    assert Reversed([q]) == [q];
    shown, open := screen.list, screen.isPopupOpen;
    if p.color != [] && (forall k :: 0 <= k < |p.color| ==> ',' !in p.color[k] && Trimmed(p.color[k])) {
      UneditedUpdate(p);
    }
  }

  /** Cancel is never disabled: the popup of `p` is cancelled while its update
      is in flight, the operator searches for "x" (the backend refuses that
      fetch) and opens the popup of `q`. When the update of `p` then succeeds,
      its callbacks still run: the list is refetched with the empty term the
      callback captured, while the search box holds "x", and the close callback
      closes the popup of `q`, which the operator did not dismiss. */
  method CancelledUpdateExample(p: Product, q: Product, r: Product)
    returns (shown: seq<Product>, open: bool, term: string, lastFetch: Request)
    ensures shown == [r] && !open
    ensures term == "x" && lastFetch == FetchProducts("")
  {
    var first := new Product[1] [p];
    var screen := new ProductList(Succeeded, first);
    screen.OpenUpdatePopup(p);
    var popup := new UpdateProductPopup(p);
    var captured := screen.searchTerm;
    var sent := popup.StartUpdate();
    screen.ClosePopup();
    screen.HandleSearch("x", Rejected, first);
    screen.OpenUpdatePopup(q);
    var calls := popup.FinishUpdate(Succeeded);
    assert calls == [RefreshList, Close];
    var refreshed := new Product[1] [r];
    screen.RefreshFromPopup(captured, Succeeded, refreshed);
    screen.ClosePopup();
    assert Reversed([r]) == [r];
    shown, open, term := screen.list, screen.isPopupOpen, screen.searchTerm;
    lastFetch := screen.requests[|screen.requests| - 1];
  }
}
