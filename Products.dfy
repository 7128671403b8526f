/** The base product of the store (`Producto`): a stock-keeping unit with a
    quantity in stock, a price, a minimum-stock threshold, a restock priority
    and a manufacturer. Order fulfilment lowers the stock in place; the
    setters re-check the whole validity condition before committing. */
module Products {
  import opened JavaInt
  import opened Identifiers
  import opened Results

  /** Units added by a restock, per priority tier. The restock operation
      itself is not part of this model; only the amounts are. */
  const RestockLowPriority: int := 25
  const RestockMediumPriority: int := 75
  const RestockHighPriority: int := 150

  /** The three restock amounts, from the lowest tier to the highest. */
  lemma RestockAmounts()
    ensures RestockLowPriority == 25 && RestockMediumPriority == 75 && RestockHighPriority == 150
    ensures RestockLowPriority < RestockMediumPriority < RestockHighPriority
  {
  }

  /** Restock priority tier (the `PRIORIDAD_PRODUCTO` enumeration). */
  datatype Priority = Low | Medium | High

  /** Manufacturer (the `FABRICANTES` enumeration, whose values are not
      part of this model). */
  datatype Manufacturer = Manufacturer(name: string)

  /** Raised by the constructor on invalid quantity, price or minimum stock
      (`IllegalArgumentException`). */
  datatype InvalidArgument = InvalidArgument

  /** Every attribute of a product, as one value. */
  datatype ProductState = ProductState(
    name: string,
    id: Identifier,
    quantity: Int32,
    price: real,
    minStock: Int32,
    priority: Priority,
    manufacturer: Manufacturer)

  /** The validity check `esCorrecto`. The minimum stock must be strictly
      positive, although the constructor's message says 0 is allowed. */
  predicate IsCorrect(quantity: int, price: real, minStock: int): (ok: bool)
    ensures ok <==> 0 <= quantity && 0.0 < price && 1 <= minStock
    ensures minStock == 0 ==> !ok
  {
    quantity >= 0 && price > 0.0 && minStock > 0
  }

  class Product {
    var name: string
    const id: Identifier
    var quantity: Int32
    var price: real
    var minStock: Int32
    var priority: Priority
    var manufacturer: Manufacturer

    /** All attributes of the product. */
    function State(): ProductState
      reads this
    {
      ProductState(name, id, quantity, price, minStock, priority, manufacturer)
    }

    /** The invariant construction establishes and every checked mutation keeps. */
    ghost predicate Valid()
      reads this
    {
      IsCorrect(quantity, price, minStock)
    }

    /** The field assignments of the constructor, once the arguments are known
        to be correct (`Create` performs the check). */
    constructor (name: string, id: Identifier, quantity: Int32, price: real, minStock: Int32,
                 manufacturer: Manufacturer, priority: Priority)
      requires IsCorrect(quantity, price, minStock)
      ensures Valid()
      ensures State() == ProductState(name, id, quantity, price, minStock, priority, manufacturer)
    {
      this.name := name;
      this.quantity := quantity;
      this.price := price;
      this.minStock := minStock;
      this.manufacturer := manufacturer;
      this.priority := priority;
      this.id := id;
    }

    /** The constructor of `Producto`: rejects an invalid combination of
        quantity, price and minimum stock, so that no object exists;
        otherwise builds the product with the given fresh identifier. */
    static method Create(name: string, id: Identifier, quantity: Int32, price: real, minStock: Int32,
                         manufacturer: Manufacturer, priority: Priority)
      returns (r: Result<Product, InvalidArgument>)
      ensures r.Failure? <==> !(quantity >= 0 && price > 0.0 && minStock > 0)
      ensures r.Success? ==> fresh(r.value) && r.value.Valid()
      ensures r.Success? ==>
        r.value.State() == ProductState(name, id, quantity, price, minStock, priority, manufacturer)
    {
      if !IsCorrect(quantity, price, minStock) {
        return Failure(InvalidArgument);
      }
      var p := new Product(name, id, quantity, price, minStock, manufacturer, priority);
      return Success(p);
    }

    /** `haySuficienteStock`: the order amount is positive and the stock
        covers it. The subtraction is Java `int` arithmetic. */
    function HasSufficientStock(amount: Int32): (ok: bool)
      reads this
      ensures quantity >= 0 ==> (ok <==> 0 < amount <= quantity)
    {
      amount > 0 && Wrap(quantity - amount) >= 0
    }

    /** `enStockMinimo`: the stock is strictly below the threshold. */
    function BelowMinimum(): (below: bool)
      reads this
      ensures below <==> quantity < minStock
      ensures quantity == minStock ==> !below
      ensures Valid() && quantity == 0 ==> below
    {
      quantity < minStock
    }

    /** `varCantidad`: adds `delta` to the stock with no check at all. */
    method AdjustQuantity(delta: Int32)
      modifies this
      ensures State() == old(State()).(quantity := Wrap(old(quantity) + delta))
      ensures MinInt32 <= old(quantity) + delta <= MaxInt32 ==> quantity == old(quantity) + delta
      ensures old(Valid()) && 0 <= old(quantity) + delta <= MaxInt32 ==> Valid()
    {
      quantity := Wrap(quantity + delta);
    }

    /** `entregar`: serves an order of `amount` units if there is enough
        stock, lowering the stock by exactly that amount; otherwise reports
        failure and changes nothing. */
    method Deliver(amount: Int32) returns (delivered: bool)
      modifies this
      ensures delivered == old(HasSufficientStock(amount))
      ensures old(quantity) >= 0 ==> (delivered <==> 0 < amount <= old(quantity))
      ensures delivered ==> State() == old(State()).(quantity := Wrap(old(quantity) - amount))
      ensures old(quantity) >= 0 && delivered ==> quantity == old(quantity) - amount
      ensures !delivered ==> State() == old(State())
      ensures old(Valid()) ==> Valid()
    {
      if HasSufficientStock(amount) {
        AdjustQuantity(-amount);
      } else {
        return false;
      }
      return true;
    }

    /** `setPrecio`: commits the new price, and reports true, only if the
        product stays correct with it; otherwise nothing changes. */
    method SetPrice(newPrice: real) returns (accepted: bool)
      modifies this
      ensures accepted <==> IsCorrect(old(quantity), newPrice, old(minStock))
      ensures accepted ==> State() == old(State()).(price := newPrice)
      ensures !accepted ==> State() == old(State())
      ensures old(Valid()) ==> Valid()
    {
      accepted := IsCorrect(quantity, newPrice, minStock);
      if accepted {
        price := newPrice;
      }
    }

    /** `setStockMinimo`: commits the new threshold, and reports true, only
        if the product stays correct with it; otherwise nothing changes. */
    method SetMinStock(newMinStock: Int32) returns (accepted: bool)
      modifies this
      ensures accepted <==> IsCorrect(old(quantity), old(price), newMinStock)
      ensures accepted ==> State() == old(State()).(minStock := newMinStock)
      ensures !accepted ==> State() == old(State())
      ensures old(Valid()) ==> Valid()
    {
      accepted := IsCorrect(quantity, price, newMinStock);
      if accepted {
        minStock := newMinStock;
      }
    }

    /** `equals`: the same object, or equal in every attribute, the
        identifier included. */
    function Equals(other: Product): (same: bool)
      reads this, other
      ensures same <==> State() == other.State()
      ensures same ==> id == other.id
    {
      this == other ||
      (name == other.name &&
       id == other.id &&
       quantity == other.quantity &&
       price == other.price &&
       minStock == other.minStock &&
       priority == other.priority &&
       manufacturer == other.manufacturer)
    }
  }

  /** Two orders served one after the other lower the stock by their sum. */
  method DeliverTwice(p: Product, first: Int32, second: Int32) returns (both: bool)
    requires p.Valid()
    modifies p
    ensures both <==> 0 < first && 0 < second && first + second <= old(p.quantity)
    ensures both ==> p.quantity == old(p.quantity) - (first + second)
    ensures p.Valid()
  {
    var a := p.Deliver(first);
    var b := p.Deliver(second);
    both := a && b;
  }

  /** Setting the minimum stock to 0 is refused, whatever the product. */
  method ZeroMinimumRejected(p: Product) returns (accepted: bool)
    modifies p
    ensures !accepted
    ensures p.State() == old(p.State())
  {
    accepted := p.SetMinStock(0);
  }
}
