/** The dashboard's product statistics: the number of products returned and
    how many of them are marked in stock and out of stock. */
module Dashboard {
  import opened Catalog

  datatype Stats = Stats(totalProducts: nat, inStock: nat, outOfStock: nat)

  /** The stats request's answer: a body with a products field, a body without
      one, or a thrown exception. */
  datatype StatsReply = Products(products: seq<Product>) | NoProducts | Threw

  /** `products.filter(p => p.stock.status === status)`. */
  function WithStatus(products: seq<Product>, status: string): (r: seq<Product>)
    ensures |r| <= |products|
    ensures forall p :: p in r <==> p in products && p.stock.status == status
    ensures forall p :: multiset(r)[p] == if p.stock.status == status then multiset(products)[p] else 0
  {
    if products == [] then []
    else
      assert products == [products[0]] + products[1..];
      if products[0].stock.status == status then [products[0]] + WithStatus(products[1..], status)
      else WithStatus(products[1..], status)
  }

  /** `filter(...).length`: how many products carry the status, duplicates
      included; zero exactly when none does. */
  function CountStatus(products: seq<Product>, status: string): (c: nat)
    ensures c <= |products|
    ensures c == 0 <==> forall p :: p in products ==> p.stock.status != status
  {
    var r := WithStatus(products, status);
    assert r != [] ==> r[0] in r;
    |r|
  }

  /** One more product adds one to its own status's count and nothing to any
      other. */
  lemma CountAppend(products: seq<Product>, p: Product, status: string)
    ensures CountStatus(products + [p], status) ==
            CountStatus(products, status) + (if p.stock.status == status then 1 else 0)
  {
    WithStatusConcat(products, [p], status);
  }

  /** The filter distributes over concatenation. */
  lemma {:induction false} WithStatusConcat(a: seq<Product>, b: seq<Product>, status: string)
    ensures WithStatus(a + b, status) == WithStatus(a, status) + WithStatus(b, status)
  {
    if a == [] {
      assert a + b == b;
    } else {
      assert (a + b)[1..] == a[1..] + b;
      WithStatusConcat(a[1..], b, status);
    }
  }

  /** No product is counted under two different statuses. */
  lemma {:induction false} DisjointCounts(products: seq<Product>, s1: string, s2: string)
    requires s1 != s2
    ensures CountStatus(products, s1) + CountStatus(products, s2) <= |products|
  {
    if products != [] {
      DisjointCounts(products[1..], s1, s2);
    }
  }

  /** Taking one product out of the list takes it out of its count only. */
  lemma CountWithout(b: seq<Product>, i: nat, status: string)
    requires i < |b|
    ensures CountStatus(b, status) ==
            CountStatus(b[..i] + b[i + 1..], status) + (if b[i].stock.status == status then 1 else 0)
  {
    assert b == b[..i] + ([b[i]] + b[i + 1..]);
    WithStatusConcat(b[..i], [b[i]] + b[i + 1..], status);
    WithStatusConcat([b[i]], b[i + 1..], status);
    WithStatusConcat(b[..i], b[i + 1..], status);
  }

  /** Removing a matching element from two equal multisets leaves equal ones. */
  lemma MultisetWithout(a: seq<Product>, b: seq<Product>, i: nat)
    requires a != [] && i < |b| && b[i] == a[0] && multiset(a) == multiset(b)
    ensures multiset(a[1..]) == multiset(b[..i] + b[i + 1..])
  {
    var x := a[0];
    assert a == [x] + a[1..];
    assert b == b[..i] + [x] + b[i + 1..];
    assert multiset(a[1..]) == multiset(a) - multiset{x};
    assert multiset(b[..i] + b[i + 1..]) == multiset(b) - multiset{x};
  }

  /** The counts depend only on which products there are, not on their order. */
  lemma {:induction false} CountPermutation(a: seq<Product>, b: seq<Product>, status: string)
    requires multiset(a) == multiset(b)
    ensures CountStatus(a, status) == CountStatus(b, status)
    decreases |a|
  {
    if a == [] {
      assert |multiset(b)| == 0;
    } else {
      assert a[0] in multiset(b);
      var i :| 0 <= i < |b| && b[i] == a[0];
      MultisetWithout(a, b, i);
      CountPermutation(a[1..], b[..i] + b[i + 1..], status);
      CountWithout(b, i, status);
    }
  }

  /** The stats record computed from the returned products. */
  function ComputeStats(products: seq<Product>): (s: Stats)
    ensures s.totalProducts == |products|
    ensures s.inStock == CountStatus(products, InStock)
    ensures s.outOfStock == CountStatus(products, OutOfStock)
    ensures s.inStock + s.outOfStock <= s.totalProducts
  {
    DisjointCounts(products, InStock, OutOfStock);
    Stats(|products|, CountStatus(products, InStock), CountStatus(products, OutOfStock))
  }

  /** The three counts do not depend on the order of the products. */
  lemma StatsOrderIndependent(a: seq<Product>, b: seq<Product>)
    requires multiset(a) == multiset(b)
    ensures ComputeStats(a) == ComputeStats(b)
  {
    CountPermutation(a, b, InStock);
    CountPermutation(a, b, OutOfStock);
    assert |a| == |multiset(a)| == |multiset(b)| == |b|;
  }

  /** A product with any other status, such as "low_stock", adds to the total
      only. */
  lemma OtherStatusCountsInTotalOnly(products: seq<Product>, p: Product)
    requires p.stock.status != InStock && p.stock.status != OutOfStock
    ensures ComputeStats(products + [p]) ==
            ComputeStats(products).(totalProducts := |products| + 1)
  {
    WithStatusConcat(products, [p], InStock);
    WithStatusConcat(products, [p], OutOfStock);
  }

  /** A product marked in stock adds one to the total and to the in-stock count. */
  lemma InStockAddsToTotalAndInStock(products: seq<Product>, p: Product)
    requires p.stock.status == InStock
    ensures ComputeStats(products + [p]) ==
            Stats(|products| + 1, ComputeStats(products).inStock + 1, ComputeStats(products).outOfStock)
  {
    WithStatusConcat(products, [p], InStock);
    WithStatusConcat(products, [p], OutOfStock);
  }

  /** The stats start empty. */
  const InitialStats: Option<Stats> := None

  /** The stats update of `fetchProductStats`: a body with products replaces
      the stats (an empty array counts as present), anything else keeps them. */
  function FetchProductStats(current: Option<Stats>, reply: StatsReply): (r: Option<Stats>)
    ensures reply.Products? ==> r == Some(ComputeStats(reply.products))
    ensures reply.Products? ==> r.value.totalProducts == |reply.products|
    ensures reply.Products? ==> r.value.inStock + r.value.outOfStock <= r.value.totalProducts
    ensures !reply.Products? ==> r == current
  {
    match reply
    case Products(products) => Some(ComputeStats(products))
    case NoProducts => current
    case Threw => current
  }
}
