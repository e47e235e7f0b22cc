/**
  The `<brand-carousel>` element as an object: its navigation fields, the
  children of its track container, the transform it applies, the content of
  its product region and the titles it writes. The viewport width is passed
  in where the element reads `window.innerWidth`; a fetch is split into the
  call that issues it and the continuation that runs when it settles.
 */
module Carousel {
  import opened Options
  import opened Navigation
  import opened Track
  import opened Products
  import opened BrandTitle

  /** How a `products.json` request settles: the parsed `products` array,
      or any rejection that reaches the `.catch` handler. */
  datatype FetchOutcome = Success(products: seq<Product>) | Failure

  /** The URL requested for a brand's products. */
  function CollectionUrl(brandHandle: string): string
  {
    "/collections/" + brandHandle + "/products.json"
  }

  /** Distinct handles request distinct URLs. */
  lemma CollectionUrlInjective(h1: string, h2: string)
    requires CollectionUrl(h1) == CollectionUrl(h2)
    ensures h1 == h2
  {
    var u := CollectionUrl(h1);
    assert |h1| == |h2|;
    assert u[13..13 + |h1|] == h1;
    assert CollectionUrl(h2)[13..13 + |h2|] == h2;
  }

  class BrandCarousel {
    /** The declared `<carousel-item>` blocks, in document order. */
    const blocks: seq<Block>
    /** The `data-desktop-items`, `data-tablet-items`, `data-mobile-items` counts. */
    const desktopItems: int
    const tabletItems: int
    const mobileItems: int

    var currentIndex: int
    var totalItems: int
    /** The children of `.carousel-container`. */
    var track: seq<Item>
    /** The container's `translateX` percentage (0 while no transform is set). */
    var offset: real
    /** The content of `.product-list`. */
    var productList: ProductList
    /** The text of the `.brand-title` heading. */
    var heading: string
    /** `document.title`, once the element has written it. */
    var documentTitle: Option<string>

    /** The element is set up for navigation: the counts are positive, the
        track holds the blocks and their two clones, `totalItems` counts the
        whole track and `currentIndex` is a position in it. */
    ghost predicate Ready()
      reads this
    {
      desktopItems > 0 && tabletItems > 0 && mobileItems > 0 &&
      |blocks| >= 1 &&
      track == TrackOf(blocks) &&
      |track| == |blocks| + 2 &&
      totalItems == |track| &&
      0 <= currentIndex < totalItems
    }

    /** The custom element's constructor: the counts come from its dataset,
        nothing is rendered yet. */
    constructor (blocks: seq<Block>, desktopItems: int, tabletItems: int, mobileItems: int)
      ensures this.blocks == blocks
      ensures this.desktopItems == desktopItems && this.tabletItems == tabletItems && this.mobileItems == mobileItems
      ensures currentIndex == 0 && totalItems == 0
      ensures track == [] && offset == 0.0
      ensures productList == Items([]) && heading == "" && documentTitle == None
    {
      this.blocks := blocks;
      this.desktopItems := desktopItems;
      this.tabletItems := tabletItems;
      this.mobileItems := mobileItems;
      currentIndex := 0;
      totalItems := 0;
      track := [];
      offset := 0.0;
      productList := Items([]);
      heading := "";
      documentTitle := None;
    }

    /** `render`: a fresh empty track container, an empty product list and
        the generic heading; the navigation fields are untouched. */
    method Render()
      modifies this`track, this`offset, this`productList, this`heading
      ensures track == [] && offset == 0.0
      ensures productList == Items([]) && heading == DefaultBrandName
    {
      track := [];
      offset := 0.0;
      productList := Items([]);
      heading := DefaultBrandName;
    }

    /** `addCarouselItems`: appends one item per block, then a clone of the
        first child at the end and a clone of the last child in front. */
    method AddCarouselItems()
      requires |track| + |blocks| >= 1
      modifies this`track
      ensures |old(track) + ItemsOf(blocks)| >= 1
      ensures track == WithClones(old(track) + ItemsOf(blocks))
    {
      ItemsOfAt(blocks);
      var i := 0;
      while i < |blocks|
        invariant 0 <= i <= |blocks|
        invariant track == old(track) + ItemsOf(blocks[..i])
      {
        assert blocks[..i + 1][..i] == blocks[..i];
        track := track + [ItemOf(blocks[i])];
        i := i + 1;
      }
      assert blocks[..i] == blocks;
      var firstItem := CloneOf(track[0]);
      var lastItem := CloneOf(track[|track| - 1]);
      track := track + [firstItem];
      track := [lastItem] + track;
    }

    /** `updateCarousel`: the offset for the current index and the number of
        tiles the viewport shows. */
    method UpdateCarousel(screenWidth: int)
      requires desktopItems > 0 && tabletItems > 0 && mobileItems > 0
      modifies this`offset
      ensures offset == Offset(currentIndex, ItemsToShow(screenWidth, desktopItems, tabletItems, mobileItems))
      ensures currentIndex >= 0 ==> offset <= 0.0
    {
      var itemsToShow := ItemsToShow(screenWidth, desktopItems, tabletItems, mobileItems);
      offset := Offset(currentIndex, itemsToShow);
    }

    /** `initializeCarousel`, run on a freshly rendered element: builds the
        track, counts it (clones included) and positions it. */
    method InitializeCarousel(screenWidth: int)
      requires desktopItems > 0 && tabletItems > 0 && mobileItems > 0
      requires |blocks| >= 1 && track == []
      requires 0 <= currentIndex < |blocks| + 2
      modifies this`track, this`totalItems, this`offset
      ensures Ready()
      ensures track == TrackOf(blocks) && totalItems == |blocks| + 2
      ensures currentIndex == old(currentIndex)
      ensures offset == Offset(currentIndex, ItemsToShow(screenWidth, desktopItems, tabletItems, mobileItems))
    {
      AddCarouselItems();
      ItemsOfAt(blocks);
      assert [] + ItemsOf(blocks) == ItemsOf(blocks);
      totalItems := |track|;
      UpdateCarousel(screenWidth);
    }

    /** `connectedCallback` without the listener wiring: render, then
        initialize. */
    method ConnectedCallback(screenWidth: int)
      requires desktopItems > 0 && tabletItems > 0 && mobileItems > 0
      requires |blocks| >= 1
      requires 0 <= currentIndex < |blocks| + 2
      modifies this
      ensures Ready()
      ensures totalItems == |blocks| + 2 && currentIndex == old(currentIndex)
      ensures offset == Offset(currentIndex, ItemsToShow(screenWidth, desktopItems, tabletItems, mobileItems))
      ensures productList == Items([]) && heading == DefaultBrandName
      ensures documentTitle == old(documentTitle)
    {
      Render();
      InitializeCarousel(screenWidth);
    }

    /** `goToNextItem`: one step forward around all `totalItems` positions. */
    method GoToNextItem(screenWidth: int)
      requires Ready()
      modifies this`currentIndex, this`offset
      ensures Ready()
      ensures currentIndex == Next(old(currentIndex), totalItems)
      ensures offset == Offset(currentIndex, ItemsToShow(screenWidth, desktopItems, tabletItems, mobileItems))
    {
      currentIndex := JsRem(currentIndex + 1, totalItems);
      UpdateCarousel(screenWidth);
    }

    /** `goToPrevItem`: one step back around all `totalItems` positions. */
    method GoToPrevItem(screenWidth: int)
      requires Ready()
      modifies this`currentIndex, this`offset
      ensures Ready()
      ensures currentIndex == Prev(old(currentIndex), totalItems)
      ensures offset == Offset(currentIndex, ItemsToShow(screenWidth, desktopItems, tabletItems, mobileItems))
    {
      currentIndex := JsRem(currentIndex - 1 + totalItems, totalItems);
      UpdateCarousel(screenWidth);
    }

    /** `fetchAndDisplayProducts` up to its suspension point: the loading
        message first, then the one request it issues. */
    method FetchAndDisplayProducts(brandHandle: string) returns (url: string)
      modifies this`productList
      ensures productList == Loading
      ensures url == CollectionUrl(brandHandle)
    {
      productList := Loading;
      url := CollectionUrl(brandHandle);
    }

    /** A click on track item `k`: a clone requests what its original does. */
    method ClickItem(k: nat) returns (url: string)
      requires Ready() && k < |track|
      modifies this`productList
      ensures productList == Loading
      ensures url == CollectionUrl(blocks[OriginalIndex(k, |blocks|)].handle)
    {
      TrackItemShowsItsBlock(blocks, k);
      url := FetchAndDisplayProducts(track[k].handle);
    }

    /** `displayProducts`: clears the region, then appends one entry per
        product, or shows the "no products" message. */
    method DisplayProducts(products: seq<Product>)
      modifies this`productList
      ensures productList == Rendered(products)
    {
      productList := Items([]);
      if |products| > 0 {
        var i := 0;
        while i < |products|
          invariant 0 <= i <= |products|
          invariant productList == Items(ItemsFor(products[..i]))
        {
          assert products[..i + 1][..i] == products[..i];
          productList := Items(productList.entries + [ItemFor(products[i])]);
          i := i + 1;
        }
        assert products[..i] == products;
      } else {
        productList := NoProducts;
      }
    }

    /** `updateCollectionPageTitle`: the same "Shop <name>" string goes to
        the document title and to the heading. */
    method UpdateCollectionPageTitle(brandHandle: string)
      modifies this`heading, this`documentTitle
      ensures heading == PageTitle(blocks, brandHandle)
      ensures documentTitle == Some(heading)
    {
      var title := PageTitle(blocks, brandHandle);
      documentTitle := Some(title);
      heading := title;
    }

    /** The continuation of `fetchAndDisplayProducts` for the request made
        for `brandHandle`. It applies whatever request settles, with no check
        that a later request was made since. */
    method SettleFetch(brandHandle: string, outcome: FetchOutcome)
      modifies this`productList, this`heading, this`documentTitle
      ensures outcome.Success? ==> productList == Rendered(outcome.products)
      ensures outcome.Success? ==> heading == PageTitle(blocks, brandHandle) && documentTitle == Some(heading)
      ensures outcome.Failure? ==> productList == LoadError
      ensures outcome.Failure? ==> heading == old(heading) && documentTitle == old(documentTitle)
    {
      match outcome
      case Success(products) =>
        DisplayProducts(products);
        UpdateCollectionPageTitle(brandHandle);
      case Failure =>
        productList := LoadError;
    }
  }

  /** Two declared brands, counts 4 / 3 / 2: a 1200-pixel viewport shows four
      tiles and one "next" moves the track by -25%; a 500-pixel one shows
      two. The track has four positions, so three more steps return to 0. */
  method NavigationScenario() returns (totalItems: int, wideOffset: real, narrowItems: int, back: int)
    ensures totalItems == 4
    ensures wideOffset == -25.0
    ensures narrowItems == 2
    ensures back == 0
  {
    var c := new BrandCarousel([Block("nike", "Nike", "nike.jpg"), Block("adidas", "Adidas", "adidas.jpg")], 4, 3, 2);
    c.ConnectedCallback(1200);
    totalItems := c.totalItems;
    c.GoToNextItem(1200);
    wideOffset := c.offset;
    narrowItems := ItemsToShow(500, c.desktopItems, c.tabletItems, c.mobileItems);
    c.GoToNextItem(500);
    c.GoToNextItem(500);
    c.GoToNextItem(500);
    back := c.currentIndex;
  }

  /** Two requests, "nike" then "adidas", settling in the opposite order:
      the earlier request's response lands last and wins, so the widget
      shows Nike although Adidas was selected last. */
  method StaleResponseScenario() returns (heading: string, productList: ProductList)
    ensures heading == "Shop Nike"
    ensures productList == NoProducts
  {
    var c := new BrandCarousel([Block("nike", "Nike", "nike.jpg"), Block("adidas", "Adidas", "adidas.jpg")], 4, 3, 2);
    c.ConnectedCallback(1200);
    var first := c.FetchAndDisplayProducts("nike");
    var second := c.FetchAndDisplayProducts("adidas");
    c.SettleFetch("adidas", Success([Product("a", "A", None, None, None)]));
    c.SettleFetch("nike", Success([]));
    heading := c.heading;
    productList := c.productList;
  }
}
