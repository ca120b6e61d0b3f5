/**
 * The product catalogue of the inventory request form (`availableProducts`):
 * every product a buyer can request, with its base price, the currency that
 * price is in, and the distributor the form lists it under.
 */
module Catalog {
  import opened Wrappers
  import opened ExchangeRates

  /** The distributor a product is listed under in the form. */
  datatype Tag = D1 | D2 | D3

  /** A catalogue entry. Its description always equals its name and is not kept. */
  datatype Product = Product(
    id: string,
    name: string,
    price: real,
    currency: Code,
    availableQuantity: int,
    distributor: Tag)

  /** The number of products in the catalogue. */
  const Size := 33

  /** The product at position `i` of `availableProducts`. */
  function ProductAt(i: nat): Product
    requires i < Size
  {
    Product(IdAt(i), NameAt(i), PriceAt(i), CurrencyAt(i), 100, DistributorAt(i))
  }

  /** The id of the product at position `i`. */
  function IdAt(i: nat): string
    requires i < Size
  {
    if i == 0 then "PKA0020KYSSDPKK"
    else if i == 1 then "PKI0020KYSSDPKK"
    else if i == 2 then "SFI0012KPPSXZZZ"
    else if i == 3 then "GFJ0012KUPSXZZZ"
    else if i == 4 then "GFE0012KPPSDZZZ"
    else if i == 5 then "TGE0012KPPSDZZZ"
    else if i == 6 then "NGE0006KUPSXZZZ"
    else if i == 7 then "SFM0012KPPSXZZZ"
    else if i == 8 then "DGF0006KUPSXZZZ"
    else if i == 9 then "SFL0012KPPSXZZZ"
    else if i == 10 then "CCT0005KPPSXZZZ"
    else if i == 11 then "TDP0K070PPIXZZZ"
    else if i == 12 then "XGC0K070PPIXZZZ"
    else if i == 13 then "XGF0K070PPIXZZZ"
    else if i == 14 then "NGEPPFAUS"
    else if i == 15 then "KCPFLambCat"
    else if i == 16 then "KCPFBeefCat"
    else if i == 17 then "KCPFLamb1"
    else if i == 18 then "KCPFChicken2"
    else if i == 19 then "6009688702712"
    else if i == 20 then "6009688702583"
    else if i == 21 then "6009688702576"
    else if i == 22 then "6009688700145"
    else if i == 23 then "6009688700046"
    else if i == 24 then "6001651024463"
    else if i == 25 then "6009688701036"
    else if i == 26 then "6009688701005"
    else if i == 27 then "6009688701210"
    else if i == 28 then "6009688702958"
    else if i == 29 then "6009688702194"
    else if i == 30 then "6009688701883"
    else if i == 31 then "6009688703115"
    else "6009688703078"
  }

  /** The name of the product at position `i`. */
  function NameAt(i: nat): string
    requires i < Size
  {
    if i == 0 then "20kg Planet Pet CP Chicken & Turkey"
    else if i == 1 then "20kg Planet Pet CP Lamb, Sweet Potato & Apple"
    else if i == 2 then "12kg Superfood 65 Scottish Salmon Small Breed Dog"
    else if i == 3 then "12kg GF Duck with Sweet Potato & Orange"
    else if i == 4 then "12kg Light GF Trout with Salmon & Asparagus"
    else if i == 5 then "12kg Light GF Turkey with Sweet Potato, Cranberry"
    else if i == 6 then "6kg Small Breed Lamb Sweet Potato & Mint"
    else if i == 7 then "12kg Superfood 65 Free Range Turkey SmBrd Senior"
    else if i == 8 then "6kg Small Breed GF Duck with Sweet Potato & Orange"
    else if i == 9 then "12kg Superfood 65 British Grass Fed Lamb Adult Dog"
    else if i == 10 then "5kg Connoisseur Cat Adult Turkey & Chicken"
    else if i == 11 then "25 x70g. Dental Treat"
    else if i == 12 then "25 x70g. Calming Treat"
    else if i == 13 then "25 x70g Immune Treat"
    else if i == 14 then "20kg   CP Lamb, Sweet Potato & Apple"
    else if i == 15 then "12.5kg  NZ Grass Fed Lamb Cat"
    else if i == 16 then "12.5kg  NZ Grass Fed Beef Cat"
    else if i == 17 then "12.5kg Grain Free New Zeland Grass Fed Lamb Formula - Dogs (NZ)"
    else if i == 18 then "12.5kg Grain Free New Zeland Chicken Formula - Cats (NZ)"
    else if i == 19 then "Premier+ Gas"
    else if i == 20 then "COBB Pro Black (Matte base)"
    else if i == 21 then "COBB Pro Gas"
    else if i == 22 then "Frying Pan and fork"
    else if i == 23 then "Frying Dish (Wok)"
    else if i == 24 then "Carrier Bag"
    else if i == 25 then "Fenced Roast Rack"
    else if i == 26 then "Dome Extension with Chicken Roasting Stand in box"
    else if i == 27 then "Dome Holder (Pro and Premier)"
    else if i == 28 then "BBQ Kit with Fire Grid"
    else if i == 29 then "Griddle+"
    else if i == 30 then "Stainless Steel Grill Grid"
    else if i == 31 then "Round carrier bag in Grey colour"
    else "Gas COBB Grey Carrier bag"
  }

  /** The base price of the product at position `i`. */
  function PriceAt(i: nat): real
    requires i < Size
  {
    if i == 0 then 17000.0
    else if i == 1 then 20000.0
    else if i == 2 then 11000.0
    else if i == 3 then 10000.0
    else if i == 4 then 10500.0
    else if i == 5 then 10500.0
    else if i == 6 then 6000.0
    else if i == 7 then 10500.0
    else if i == 8 then 5500.0
    else if i == 9 then 11500.0
    else if i == 10 then 6000.0
    else if i == 11 then 10500.0
    else if i == 12 then 10500.0
    else if i == 13 then 10500.0
    else if i == 14 then 9000.0
    else if i == 15 then 9000.0
    else if i == 16 then 9000.0
    else if i == 17 then 6112.0
    else if i == 18 then 6112.0
    else if i == 19 then 89.90
    else if i == 20 then 45.00
    else if i == 21 then 69.50
    else if i == 22 then 19.75
    else if i == 23 then 16.80
    else if i == 24 then 6.00
    else if i == 25 then 6.40
    else if i == 26 then 10.90
    else if i == 27 then 4.10
    else if i == 28 then 18.00
    else if i == 29 then 15.90
    else if i == 30 then 10.50
    else if i == 31 then 6.50
    else 7.80
  }

  /** The currency of the base price of the product at position `i`. */
  function CurrencyAt(i: nat): Code
    requires i < Size
  {
    if i == 0 then JPY
    else if i == 1 then JPY
    else if i == 2 then JPY
    else if i == 3 then JPY
    else if i == 4 then JPY
    else if i == 5 then JPY
    else if i == 6 then JPY
    else if i == 7 then JPY
    else if i == 8 then JPY
    else if i == 9 then JPY
    else if i == 10 then JPY
    else if i == 11 then JPY
    else if i == 12 then JPY
    else if i == 13 then JPY
    else if i == 14 then JPY
    else if i == 15 then JPY
    else if i == 16 then JPY
    else if i == 17 then JPY
    else if i == 18 then JPY
    else if i == 19 then USD
    else if i == 20 then USD
    else if i == 21 then USD
    else if i == 22 then USD
    else if i == 23 then USD
    else if i == 24 then USD
    else if i == 25 then USD
    else if i == 26 then USD
    else if i == 27 then USD
    else if i == 28 then USD
    else if i == 29 then USD
    else if i == 30 then USD
    else if i == 31 then USD
    else USD
  }

  /** The distributor the product at position `i` is listed under. */
  function DistributorAt(i: nat): Tag
    requires i < Size
  {
    if i == 0 then D2
    else if i == 1 then D2
    else if i == 2 then D2
    else if i == 3 then D2
    else if i == 4 then D2
    else if i == 5 then D2
    else if i == 6 then D1
    else if i == 7 then D2
    else if i == 8 then D2
    else if i == 9 then D1
    else if i == 10 then D1
    else if i == 11 then D1
    else if i == 12 then D1
    else if i == 13 then D1
    else if i == 14 then D1
    else if i == 15 then D1
    else if i == 16 then D1
    else if i == 17 then D2
    else if i == 18 then D2
    else if i == 19 then D3
    else if i == 20 then D3
    else if i == 21 then D3
    else if i == 22 then D3
    else if i == 23 then D3
    else if i == 24 then D3
    else if i == 25 then D3
    else if i == 26 then D3
    else if i == 27 then D3
    else if i == 28 then D3
    else if i == 29 then D3
    else if i == 30 then D3
    else if i == 31 then D3
    else D3
  }

  /** `availableProducts`, in source order. */
  function Products(): (r: seq<Product>)
    ensures |r| == Size
  {
    seq(Size, i requires 0 <= i < Size => ProductAt(i))
  }

  /** `ps.find(p => p.id === id)`: the first product of `ps` with that id. */
  function FindIn(ps: seq<Product>, id: string): (r: Option<Product>)
    ensures r.None? <==> forall p | p in ps :: p.id != id
    ensures r.Some? ==> r.value in ps && r.value.id == id
  {
    if ps == [] then None
    else if ps[0].id == id then Some(ps[0])
    else FindIn(ps[1..], id)
  }

  /** The first match comes before any other product with the same id. */
  lemma {:induction false} FindInFirst(ps: seq<Product>, id: string, j: nat)
    requires j < |ps| && ps[j].id == id
    ensures FindIn(ps, id).Some?
    ensures exists i | 0 <= i <= j :: ps[i] == FindIn(ps, id).value && forall k | 0 <= k < i :: ps[k].id != id
  {
    if ps[0].id != id {
      FindInFirst(ps[1..], id, j - 1);
      var i :| 0 <= i <= j - 1 && ps[1..][i] == FindIn(ps[1..], id).value &&
        forall k | 0 <= k < i :: ps[1..][k].id != id;
      assert ps[i + 1] == FindIn(ps, id).value;
      forall k | 0 <= k < i + 1
        ensures ps[k].id != id
      {
        if k > 0 {
          assert ps[k] == ps[1..][k - 1];
        }
      }
    } else {
      assert ps[0] == FindIn(ps, id).value;
    }
  }

  /** `availableProducts.find(p => p.id === id)`. */
  function FindProduct(id: string): (r: Option<Product>)
    ensures r.Some? ==> r.value in Products() && r.value.id == id
    ensures r.None? <==> forall p | p in Products() :: p.id != id
  {
    FindIn(Products(), id)
  }

  /** The first 19 products (distributors 1 and 2) are priced in JPY. */
  lemma PricedInYen(i: nat)
    requires i < 19
    ensures ProductAt(i).price > 0.0 && ProductAt(i).currency == JPY
  {
  }

  /** The remaining products (distributor 3) are priced in USD. */
  lemma PricedInDollars(i: nat)
    requires 19 <= i < Size
    ensures ProductAt(i).price > 0.0 && ProductAt(i).currency == USD
  {
  }

  /** Every catalogue price is positive and is in JPY or in USD. */
  lemma CatalogCurrencies()
    ensures forall p | p in Products() :: p.price > 0.0 && (p.currency == JPY || p.currency == USD)
  {
    forall p | p in Products()
      ensures p.price > 0.0 && (p.currency == JPY || p.currency == USD)
    {
      var i :| 0 <= i < Size && Products()[i] == p;
      if i < 19 {
        PricedInYen(i);
      } else {
        PricedInDollars(i);
      }
    }
  }
}
