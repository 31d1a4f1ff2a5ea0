/**
  * The product carousel of the home page: three cards show three consecutive products of the
  * catalogue, starting at `currentIndex`, and every call of `updateCarousel` fills the cards and
  * then moves the start on by one, wrapping around the end of the catalogue. The five-second
  * timer that calls it is left out; each call is one `Update`.
  */
module Carousel {

  /** One catalogue entry: the image path, the title and the description a card shows. */
  datatype Product = Product(img: string, title: string, desc: string)

  /** The number of cards on the page (`card1` to `card3`). */
  const CardCount := 3

  /** The page's catalogue, in the order the carousel walks through it. */
  const Catalogue: seq<Product> := [
    Product("images/oil-pump.png", "Brake Levers",
      "High-precision brake levers designed for optimal braking performance. Material: Aluminum alloy. Applications: Two-wheelers, three-wheelers."),
    Product("images/plant .png", "Brake Cylinders",
      "Durable brake cylinders available in cast iron and aluminum variants. Material: Cast iron, Aluminum. Applications: Automotive braking systems."),
    Product("images/Partners.png", "Wiping System Components",
      "Essential components for vehicle windshield wiper systems. Material: Aluminum, Steel. Applications: Automotive wiper mechanisms."),
    Product("images/factory PNG.png", "Alternator Covers",
      "Protective covers for alternator assemblies ensuring optimal performance. Material: Aluminum die-cast. Applications: Automotive electrical systems."),
    Product("images/about-home.jpg", "Clutch Housing",
      "Robust clutch housings for smooth transmission operations. Material: Cast iron, Aluminum. Applications: Vehicle transmission systems."),
    Product("images/about-home1.jpg", "Custom Machined Components",
      "Tailored precision-machined parts for specific automotive requirements. Material: Various metals. Applications: Custom automotive assemblies.")
  ]

  /** `products.length`: the catalogue has six products. */
  const ProductCount := 6

  lemma CatalogueSize()
    ensures |Catalogue| == ProductCount
  {
  }

  /** The start index after one call: one further on, wrapping around the catalogue. */
  function NextIndex(index: nat): (r: nat)
    ensures r < ProductCount
  {
    (index + 1) % ProductCount
  }

  /** The start index after `n` calls. */
  function IndexAfter(index: nat, n: nat): nat {
    if n == 0 then index else NextIndex(IndexAfter(index, n - 1))
  }

  /** After `n` calls the start index has moved on by `n`, modulo the catalogue size. */
  lemma {:induction false} IndexAfterWraps(index: nat, n: nat)
    requires index < ProductCount
    ensures IndexAfter(index, n) == (index + n) % ProductCount
  {
    if n > 0 {
      IndexAfterWraps(index, n - 1);
    }
  }

  /** After one call per product the carousel starts where it started. */
  lemma FullTurn(index: nat)
    requires index < ProductCount
    ensures IndexAfter(index, ProductCount) == index
  {
    IndexAfterWraps(index, ProductCount);
  }

  /** The catalogue position card `k` shows when the carousel starts at `index`. */
  function Position(index: nat, k: nat): (r: nat)
    ensures r < ProductCount
  {
    (index + k) % ProductCount
  }

  /** The products the three cards show when the carousel starts at `index`. */
  function Window(index: nat): (w: seq<Product>)
    ensures |w| == CardCount
    ensures forall k :: 0 <= k < CardCount ==> w[k] == Catalogue[Position(index, k)]
  {
    CatalogueSize();
    seq(CardCount, k requires 0 <= k < CardCount => Catalogue[Position(index, k)])
  }

  /**
    * Each call moves every product one card to the left: what card `k + 1` showed, card `k`
    * shows after the next call.
    */
  lemma WindowShifts(index: nat, k: nat)
    requires k + 1 < CardCount
    ensures Window(NextIndex(index))[k] == Window(index)[k + 1]
  {
    assert Position(NextIndex(index), k) == Position(index, k + 1);
  }

  /** The three cards always show three different products of the catalogue. */
  lemma WindowDistinct(index: nat, j: nat, k: nat)
    requires j < k < CardCount
    ensures Position(index, j) != Position(index, k)
    ensures Window(index)[j] != Window(index)[k]
  {
  }

  /** The carousel's state: the global `currentIndex` and the three cards. */
  class ProductCarousel {
    var currentIndex: nat
    const cards: array<Product>

    predicate Valid()
      reads this
    {
      currentIndex < ProductCount && cards.Length == CardCount
    }

    /**
      * The page's start-up: `currentIndex` is 0 and `updateCarousel()` runs once, so the cards
      * show the first three products and the next call starts at the second.
      */
    constructor ()
      ensures Valid() && fresh(cards)
      ensures cards[..] == Window(0)
      ensures currentIndex == 1
    {
      CatalogueSize();
      currentIndex := 0;
      cards := new Product[CardCount](_ => Catalogue[0]);
      new;
      Update();
    }

    /**
      * `updateCarousel`: card `i` (for `i` = 0, 1, 2) gets the product `i` places after the start,
      * wrapping around the catalogue, and the start moves on by one.
      */
    method Update()
      requires Valid()
      modifies this, cards
      ensures Valid()
      ensures cards[..] == Window(old(currentIndex))
      ensures currentIndex == NextIndex(old(currentIndex))
    {
      CatalogueSize();
      for i := 0 to CardCount
        invariant forall k :: 0 <= k < i ==> cards[k] == Catalogue[Position(currentIndex, k)]
        modifies cards
      {
        cards[i] := Catalogue[(currentIndex + i) % |Catalogue|];
      }
      assert forall k :: 0 <= k < CardCount ==> cards[..][k] == Window(currentIndex)[k];
      currentIndex := (currentIndex + 1) % |Catalogue|;
    }
  }
}
