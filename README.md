# Brand carousel, modelled in Dafny

This project models the logic of the `<brand-carousel>` custom element. The
element shows a cyclic strip of brand tiles. When a tile is clicked, it loads
that brand's products and renders them. The model covers:

- **Navigation.** `goToNextItem` and `goToPrevItem` step `currentIndex` forward
  or back with JavaScript's `%`, wrapping around `totalItems`. `getItemsToShow`
  picks the desktop, tablet or mobile tile count from the viewport width.
  `updateCarousel` turns the index into a `translateX` percentage,
  `-currentIndex * (100 / itemsToShow)`, as an exact `real`.
- **The track.** `addCarouselItems` creates one `.carousel-item` per declared
  `<carousel-item>` block. It then adds a clone of the first item at the end
  and a clone of the last item at the front. `initializeCarousel` sets
  `totalItems` to the number of children, which includes the two clones.
- **Product rendering.** `displayProducts` writes one entry per product. The
  price is the first variant's price, else 0. The image is `featured_image`,
  else the first of `images`, else `default-image.jpg`. An empty collection
  gives the "no products" message.
- **Brand title.** `updateCollectionPageTitle` writes `"Shop " + name`. The name
  is the `data-name` of the first block with the selected handle. It falls
  back to `Shop by Brand` when no such block exists or its name is empty.
- **The product region.** `fetchAndDisplayProducts` shows the loading message
  first. When the request settles, the region shows the rendered list
  (success) or the error message (failure).

Layout: `options.dfy` (Option), `navigation.dfy`, `track.dfy`, `products.dfy`,
`brand_title.dfy` hold the pure parts as functions and lemmas. `brand_carousel.dfy`
holds class `BrandCarousel`, whose methods update its fields the way the element
updates its own fields and DOM regions. The viewport width is a parameter
wherever the element reads `window.innerWidth`. A fetch is split in two:
`FetchAndDisplayProducts`, which returns the URL it requests, and `SettleFetch`,
the continuation, which takes the outcome as a parameter.

In four places the code does less than such a widget is usually expected to do, and the model follows the code:

- Navigation runs over all `N + 2` track positions, clones included, because
  `totalItems` is counted after the clones are inserted. It does not run over
  the `N` declared tiles.
- There is no staleness check. A response applies when it settles, whichever
  request was made last. `StaleResponseScenario` shows an earlier response
  overwriting a later selection.
- A clone carries its original's handle, and that handle always names a
  declared block (`TrackHandlesAreDeclared`). So a clone never falls back to
  the generic title. The fallback happens only for an unknown handle or a
  nameless block, and then the title reads `Shop Shop by Brand`.
- The price comes only from `variants[0].price`. No top-level price field is
  consulted, and there is no cents conversion.

## Model

| member | source | states |
|---|---|---|
| `Navigation.JsRem` | assets/brand-carousel.js:238 | JavaScript `%` for a positive divisor: `a - r` is a multiple of `b`, and `r` lies in `[0, b)` for a non-negative dividend and in `(-b, 0]` for a negative one, which fixes `r` as the truncated remainder |
| `Navigation.Next` | assets/brand-carousel.js:231-234 | the next index stays in `[0, totalItems)`; from `totalItems - 1` it wraps to 0, otherwise it is `currentIndex + 1` |
| `Navigation.Prev` | assets/brand-carousel.js:237-240 | the previous index stays in `[0, totalItems)`; from 0 it wraps to `totalItems - 1`, otherwise it is `currentIndex - 1` |
| `Navigation.NextPrevInverse` | assets/brand-carousel.js:232-238 | "previous" after "next" restores the index, and so does "next" after "previous" |
| `Navigation.AdvanceIsModular` | assets/brand-carousel.js:231-234 | `k` presses of "next" give `(i + k) mod n`, so no number of steps leaves the range |
| `Navigation.RetreatIsModular` | assets/brand-carousel.js:237-240 | `k` presses of "previous" give `(i - k) mod n`, so no number of steps leaves the range |
| `Navigation.ItemsToShow` | assets/brand-carousel.js:217-228 | width above 1024 gives the desktop count, (768, 1024] the tablet count, 768 and below the mobile count |
| `Navigation.WiderShowsNoFewer` | assets/brand-carousel.js:217-228 | when the configured counts do not grow as the screen shrinks, a wider viewport never shows fewer tiles |
| `Navigation.Offset` | assets/brand-carousel.js:211-212 | the offset is 0 at index 0, never positive for a non-negative index and positive count, and `offset * itemsToShow == -100 * currentIndex` |
| `Navigation.OffsetStep` | assets/brand-carousel.js:212 | each index step moves the track by exactly one tile width, `100 / itemsToShow` percent |
| `Track.ItemsOfAt` | assets/brand-carousel.js:172-183 | the loop appends exactly one item per block, in declared order |
| `Track.TrackLayout` | assets/brand-carousel.js:170-195 | the track has `N + 2` items: a clone of block `N - 1`, blocks `0 .. N - 1` in order, a clone of block 0 |
| `Track.TrackItemShowsItsBlock` | assets/brand-carousel.js:174-194 | every track position carries the handle, name and image of the block it shows; exactly the two end positions are clones |
| `Track.ClonesDispatchLikeOriginals` | assets/brand-carousel.js:186-191 | the front clone dispatches the same handle as the last original, the back clone the same handle as the first |
| `Products.PriceOf` | assets/brand-carousel.js:291-295 | the price is the first variant's price when there is one, else `"0"`; it is never a price the product does not carry |
| `Products.ImageOf` | assets/brand-carousel.js:297-298 | the image is the featured image, else the first of `images`, else `default-image.jpg`; the default is used only when the product has no image |
| `Products.ItemsForAt` | assets/brand-carousel.js:286-308 | the rendered entries correspond one for one, in order, to the products |
| `Products.Rendered` | assets/brand-carousel.js:282-312 | an empty collection gives exactly the "no products" message; a non-empty one gives exactly one entry per product, in order, each the entry of that product (link `/products/<handle>`, its title, `ImageOf`, `PriceOf` + ` USD`) |
| `BrandTitle.FindBlock` | assets/brand-carousel.js:269 | the lookup finds the first block with the handle, or reports correctly that none has it |
| `BrandTitle.BrandName` | assets/brand-carousel.js:269 | the name is never empty; it is the name of the first block with the handle when that name is non-empty, and the generic label when that name is empty or no block has the handle |
| `BrandTitle.FirstMatchNamesTheBrand` | assets/brand-carousel.js:269-277 | the title is `Shop ` + the first matching block's name, or `Shop Shop by Brand` when that name is empty, whatever later blocks with the same handle say |
| `BrandTitle.UnknownHandleTitle` | assets/brand-carousel.js:269-277 | a handle no block declares gives the title `Shop Shop by Brand` |
| `BrandTitle.TrackHandlesAreDeclared` | assets/brand-carousel.js:181-191 | every track item, clones included, dispatches a handle some block declares, and gives the same title as the handle of the block it shows (with duplicate handles, the title of the first block with that handle) |
| `Carousel.CollectionUrlInjective` | assets/brand-carousel.js:252 | the URL `/collections/<handle>/products.json` determines the handle: distinct handles request distinct URLs |
| `Carousel.BrandCarousel.constructor` | assets/brand-carousel.js:2-14 | index 0, `totalItems` 0, the three counts stored, nothing rendered |
| `Carousel.BrandCarousel.Render` | assets/brand-carousel.js:22-153 | an empty track container, an empty product list, the heading `Shop by Brand` |
| `Carousel.BrandCarousel.AddCarouselItems` | assets/brand-carousel.js:170-195 | the children become the old children plus one item per block, with a clone of the last child in front and a clone of the first at the end |
| `Carousel.BrandCarousel.UpdateCarousel` | assets/brand-carousel.js:210-214 | the transform becomes the offset of the current index for the viewport's tile count |
| `Carousel.BrandCarousel.InitializeCarousel` | assets/brand-carousel.js:156-167 | the track is built, `totalItems` is `N + 2`, the index is kept and the offset is set; the navigation invariant holds afterwards |
| `Carousel.BrandCarousel.ConnectedCallback` | assets/brand-carousel.js:16-20 | render, then initialize: the navigation invariant holds, the product list is empty and the heading is generic |
| `Carousel.BrandCarousel.GoToNextItem` | assets/brand-carousel.js:231-234 | the index becomes its cyclic successor over `totalItems`, the offset is updated, and the navigation invariant is kept |
| `Carousel.BrandCarousel.GoToPrevItem` | assets/brand-carousel.js:237-240 | the index becomes its cyclic predecessor over `totalItems`, the offset is updated, and the navigation invariant is kept |
| `Carousel.BrandCarousel.FetchAndDisplayProducts` | assets/brand-carousel.js:249-252 | the region shows the loading message before the request for the handle's URL is issued |
| `Carousel.BrandCarousel.ClickItem` | assets/brand-carousel.js:181-191 | clicking track position `k`, a clone or not, requests the URL of the block shown there |
| `Carousel.BrandCarousel.DisplayProducts` | assets/brand-carousel.js:282-312 | the region becomes the rendered form of the collection |
| `Carousel.BrandCarousel.UpdateCollectionPageTitle` | assets/brand-carousel.js:267-279 | the heading and the document title both become `Shop <brand name>` |
| `Carousel.BrandCarousel.SettleFetch` | assets/brand-carousel.js:253-263 | success renders the products and writes the title; failure shows the error message and leaves the titles untouched |
| `Carousel.NavigationScenario` | assets/brand-carousel.js:209-240 | with two brands and counts 4/3/2, the track has 4 positions; at width 1200, one "next" gives offset -25; width 500 shows 2 tiles; four steps return to 0 |
| `Carousel.StaleResponseScenario` | assets/brand-carousel.js:249-264 | requests for "nike" then "adidas" that settle in reverse order leave the Nike title showing |

## Left out

- Markup and CSS of `render`. The model keeps only its effect on the modelled regions: an empty track, an empty product list and the initial heading.
- Shadow DOM attachment, `customElements.define`, `addEventListeners` and the click-listener wiring. Clicks are modelled as calls (`ClickItem`, `GoToNextItem`, `GoToPrevItem`).
- The `fetch` call and JSON parsing. Each request settles as `Success(products)` or `Failure`. `Failure` stands for every path into the `.catch` handler, including a body without a `products` array and a rejection raised during rendering.
- Autoplay (`startAutoplay`, `stopAutoplay`). It is driven by a timer, and its call is commented out. `Advance` covers any number of automatic steps.
- `console.log` and `console.error`. The write to `document.title` is kept only as the string the field receives.
- Staleness. The code does not compare a settled response with the latest request, so the model claims no last-request-wins property.
- No declared blocks. The code throws on a null `firstElementChild`. `InitializeCarousel` therefore requires at least one block.
- Dataset counts. The code reads them as strings with no defaults. The model takes them as positive integers, required where they are divided by.
- Navigation.JsRem: models only a positive divisor. `totalItems` is positive whenever navigation runs in the model. With `totalItems = 0` the code would compute `NaN`.
- Floating point. The offset is an exact `real`, not a JavaScript double.
- Absent attributes and fields inside a block, variant or image. The code would print `undefined`. The model takes them as strings.
- Value formatting. A price is kept as the string served; a numeric price would be formatted by JavaScript.
- HTML parsing. Tile names and images, product titles, handles and image sources are spliced into `innerHTML` templates without escaping, so markup characters in them are parsed (a `"` in a title ends the `alt` attribute). The model keeps these fields as plain strings. The heading is different: it is set with `textContent`, so it is plain text in the code too.
- `querySelector` matches. The lookup considers only the declared blocks. Other light-DOM elements with a `data-handle`, and handles that need CSS escaping, are not modelled.
