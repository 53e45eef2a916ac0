/**
 * The home page's offers: the products on sale, with full image URLs, in a random
 * order, at most nine of them. The random order is a parameter: any rearrangement
 * of the on-sale products.
 */
module CatalogoOfertas {
  import opened Common
  import opened ListProducts

  const ShownLimit := 9

  /** The on-sale products with their image URLs, before shuffling. */
  function Prepared(data: seq<Product>): (r: seq<Product>)
    ensures forall p :: p in r ==> p.enOferta
    ensures |r| == |FilterOnSale(data)| <= |data|
  {
    WithImageBase(FilterOnSale(data))
  }

  /** `.slice(0, 9)` of the shuffled list. */
  function Selected(shuffled: seq<Product>): (r: seq<Product>)
    ensures |r| == if |shuffled| < ShownLimit then |shuffled| else ShownLimit
    ensures r == shuffled[..|r|]
  {
    if |shuffled| < ShownLimit then shuffled else shuffled[..ShownLimit]
  }

  class Offers {
    var products: seq<Product>
    var loading: bool
    var error: bool

    constructor ()
      ensures products == [] && loading && !error
    {
      products := [];
      loading := true;
      error := false;
    }

    /**
     * The load effect. `shuffled` is the order `sort(() => 0.5 - Math.random())` produced:
     * some rearrangement of the prepared products.
     */
    method Load(reply: HttpResult<seq<Product>>, shuffled: seq<Product>)
      requires reply.Ok? ==> multiset(shuffled) == multiset(Prepared(reply.data))
      modifies this
      ensures reply.Ok? ==> products == Selected(shuffled) && !loading && !error
      ensures reply.Err? ==> products == old(products) && loading && error
      ensures reply.Ok? ==> forall p :: p in products ==> p.enOferta && p in Prepared(reply.data)
      ensures reply.Ok? ==> |products| == if |Prepared(reply.data)| < ShownLimit then |Prepared(reply.data)| else ShownLimit
    {
      if reply.Ok? {
        products := Selected(shuffled);
        assert |shuffled| == |multiset(shuffled)|;
        forall p | p in products
          ensures p in Prepared(reply.data)
        {
          assert p in multiset(shuffled);
        }
        loading := false;
        error := false;
      } else {
        loading := true;
        error := true;
      }
    }
  }

  /** The offers shown come from the catalogue's on-sale products, with the uploads prefix. */
  lemma ShownAreOnSaleUploads(data: seq<Product>, p: Product)
    requires p in Prepared(data)
    ensures exists q :: q in data && q.enOferta && p == q.(imageProduct := BaseImageUrl + q.imageProduct)
  {
    var on := FilterOnSale(data);
    var i :| 0 <= i < |WithImageBase(on)| && WithImageBase(on)[i] == p;
    assert on[i] in on;
  }
}
