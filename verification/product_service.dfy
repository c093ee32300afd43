/** `ProductService`: validation of product ids and product documents, and the
    guards it puts in front of the product table. */
module Products {
  import opened CTypes
  import opened Text

  /** A product document as the service reads it: `name` and `category` are the JSON
      text `dump()` yields (quoted), `price` is what `std::stoi` reads from the
      price's dump. */
  datatype ProductDoc = ProductDoc(name: Bytes, price: int32, category: Bytes)

  const MAX_NAME_LENGTH: nat := 100
  const MAX_PRICE: int32 := 100_000_000
  const MAX_CATEGORY_LENGTH: nat := 50

  /** `d.substr(1, d.length() - 2)` on a non-empty dump: the length is a `size_t`,
      so a one-byte dump asks for 2^64 - 1 bytes and gets the (empty) rest. */
  function StripQuotes(d: Bytes): (r: Bytes)
    requires 1 <= |d| < SIZE_MODULUS
    ensures |r| == if |d| >= 2 then |d| - 2 else 0
    ensures forall k :: 0 <= k < |r| ==> r[k] == d[k + 1]
  {
    Substr(d, 1, SizeMinus(|d|, 2))
  }

  /** `validateProduct`, check by check in the order of the source. Read off the
      dumps, it accepts exactly: a name dump of 3..102 bytes, a price of
      0..100000000, and a category dump of 3..52 bytes (one quote on each side of
      1..100 and 1..50 bytes of text). */
  function ValidateProduct(p: ProductDoc): (ok: bool)
    requires |p.name| < SIZE_MODULUS && |p.category| < SIZE_MODULUS
    ensures ok <==> && 3 <= |p.name| <= MAX_NAME_LENGTH + 2
                    && 0 <= p.price <= MAX_PRICE
                    && 3 <= |p.category| <= MAX_CATEGORY_LENGTH + 2
  {
    if |p.name| == 0 || |p.category| == 0 then false
    else
      var name := StripQuotes(p.name);
      if |name| < 1 || |name| > MAX_NAME_LENGTH then false
      else if p.price < 0 || p.price > MAX_PRICE then false
      else
        var category := StripQuotes(p.category);
        if |category| < 1 || |category| > MAX_CATEGORY_LENGTH then false
        else true
  }

  /** Unlike member names, product names and categories are not checked byte by
      byte: any text of the right length passes, quotes and control bytes included. */
  lemma NameContentUnchecked(p: ProductDoc, name: Bytes)
    requires |p.name| < SIZE_MODULUS && |p.category| < SIZE_MODULUS
    requires |name| == |p.name|
    ensures ValidateProduct(p) == ValidateProduct(p.(name := name))
  {
  }

  /** The service in front of the product table (`MySQLProductRepository`), which is
      modelled as a map from id to stored document. */
  class ProductService {
    var products: map<Bytes, ProductDoc>

    /** Every row of the table passes validation; the service keeps this true. */
    ghost predicate Consistent()
      reads this
    {
      forall id :: id in products ==>
        && ValidId(id)
        && |products[id].name| < SIZE_MODULUS && |products[id].category| < SIZE_MODULUS
        && ValidateProduct(products[id])
    }

    constructor (repository: map<Bytes, ProductDoc>)
      ensures products == repository
    {
      products := repository;
    }

    /** `validateId`: scans the id and stops at the first byte outside the id set. */
    method ValidateId(id: Bytes) returns (ok: bool)
      ensures ok == ValidId(id)
    {
      if |id| == 0 || |id| > 50 {
        return false;
      }
      for i := 0 to |id|
        invariant forall k :: 0 <= k < i ==> IsIdByte(id[k])
      {
        if !IsIdByte(id[i]) {
          return false;
        }
      }
      return true;
    }

    /** `getProductById`: an invalid id yields the empty document without a lookup. */
    method GetProductById(id: Bytes) returns (r: Option<ProductDoc>)
      ensures !ValidId(id) ==> r == None
      ensures ValidId(id) ==> r == if id in products then Some(products[id]) else None
    {
      var valid := ValidateId(id);
      if !valid {
        return None;
      }
      if id in products {
        return Some(products[id]);
      }
      return None;
    }

    /** `productExists`: false for an invalid id without a lookup. */
    method ProductExists(id: Bytes) returns (b: bool)
      ensures b <==> ValidId(id) && id in products
    {
      var valid := ValidateId(id);
      if !valid {
        return false;
      }
      return id in products;
    }

    /** `addProduct`: inserts only a valid product under a valid id that is not yet taken. */
    method AddProduct(id: Bytes, p: ProductDoc) returns (ok: bool)
      requires |p.name| < SIZE_MODULUS && |p.category| < SIZE_MODULUS
      modifies this
      ensures ok <==> ValidId(id) && ValidateProduct(p) && id !in old(products)
      ensures products == if ok then old(products)[id := p] else old(products)
      ensures old(Consistent()) ==> Consistent()
    {
      var valid := ValidateId(id);
      if !valid || !ValidateProduct(p) {
        return false;
      }
      if id in products {
        return false;
      }
      products := products[id := p];
      return true;
    }

    /** `updateProduct`: replaces the entry of an existing valid id with a valid product. */
    method UpdateProduct(id: Bytes, p: ProductDoc) returns (ok: bool)
      requires |p.name| < SIZE_MODULUS && |p.category| < SIZE_MODULUS
      modifies this
      ensures ok <==> ValidId(id) && ValidateProduct(p) && id in old(products)
      ensures products == if ok then old(products)[id := p] else old(products)
      ensures products.Keys == old(products).Keys
      ensures old(Consistent()) ==> Consistent()
    {
      var valid := ValidateId(id);
      if !valid || !ValidateProduct(p) {
        return false;
      }
      if id !in products {
        return false;
      }
      products := products[id := p];
      return true;
    }

    /** `deleteProduct`: removes the entry of an existing valid id. */
    method DeleteProduct(id: Bytes) returns (ok: bool)
      modifies this
      ensures ok <==> ValidId(id) && id in old(products)
      ensures products == if ok then old(products) - {id} else old(products)
      ensures id !in products || !ok
      ensures old(Consistent()) ==> Consistent()
    {
      var valid := ValidateId(id);
      if !valid {
        return false;
      }
      if id !in products {
        return false;
      }
      products := products - {id};
      return true;
    }
  }
}
