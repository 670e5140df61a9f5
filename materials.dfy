/** A purchased ingredient and the per-unit price derived from its purchase record (app/models/material.py). */
module Materials {

  /**
   * The per-unit price of a purchase. A quantity that is not positive prices
   * the material at zero instead of dividing by it.
   */
  function UnitPrice(purchasePrice: real, purchaseQuantity: real): (r: real)
    ensures purchaseQuantity > 0.0 ==> r * purchaseQuantity == purchasePrice
    ensures purchaseQuantity <= 0.0 ==> r == 0.0
  {
    if purchaseQuantity > 0.0 then purchasePrice / purchaseQuantity else 0.0
  }

  /** The part of a material that recipes and labels read: identity, name, unit and unit price. */
  datatype MaterialInfo = MaterialInfo(id: int, name: string, unit: string, unitPrice: real)

  class Material {
    const id: int
    var userId: int
    var name: string
    var purchasePrice: real
    var purchaseQuantity: real
    var unit: string
    var unitPrice: real

    /** A new row as `create_material` builds it, with unit price 0 until a separate call derives it. */
    constructor (id: int, userId: int, name: string, purchasePrice: real, purchaseQuantity: real, unit: string)
      ensures this.id == id && this.userId == userId && this.name == name && this.unit == unit
      ensures this.purchasePrice == purchasePrice && this.purchaseQuantity == purchaseQuantity
      ensures unitPrice == 0.0
    {
      this.id := id;
      this.userId := userId;
      this.name := name;
      this.purchasePrice := purchasePrice;
      this.purchaseQuantity := purchaseQuantity;
      this.unit := unit;
      unitPrice := 0.0;
    }

    function Info(): MaterialInfo
      reads this
    {
      MaterialInfo(id, name, unit, unitPrice)
    }

    /** Re-derives `unitPrice` from the purchase record; no other field is written. */
    method CalculateUnitPrice()
      modifies this`unitPrice
      ensures unitPrice == UnitPrice(purchasePrice, purchaseQuantity)
      ensures purchaseQuantity > 0.0 ==> unitPrice * purchaseQuantity == purchasePrice
      ensures purchaseQuantity <= 0.0 ==> unitPrice == 0.0
      ensures name == old(name) && unit == old(unit) && userId == old(userId)
      ensures purchasePrice == old(purchasePrice) && purchaseQuantity == old(purchaseQuantity)
    {
      if purchaseQuantity > 0.0 {
        unitPrice := purchasePrice / purchaseQuantity;
      } else {
        unitPrice := 0.0;
      }
    }
  }

  /** With the price and quantity the material schema demands (both positive), the unit price is positive. */
  lemma UnitPricePositive(purchasePrice: real, purchaseQuantity: real)
    requires purchasePrice > 0.0 && purchaseQuantity > 0.0
    ensures UnitPrice(purchasePrice, purchaseQuantity) > 0.0
  {
  }

  /**
   * The material round trip of the API tests: 500 for 1000 g prices at 0.5,
   * re-pricing the purchase at 600 gives 0.6, and a second derivation with
   * unchanged inputs leaves the price as it was.
   */
  method PriceLifecycle() returns (first: real, second: real, again: real)
    ensures first == 0.5 && second == 0.6 && again == second
  {
    var m := new Material(1, 1, "flour", 500.0, 1000.0, "g");
    m.CalculateUnitPrice();
    first := m.unitPrice;
    m.purchasePrice := 600.0;
    m.CalculateUnitPrice();
    second := m.unitPrice;
    m.CalculateUnitPrice();
    again := m.unitPrice;
  }
}
