/**
  The arithmetic of carousel navigation: the wrap-around steps of
  `goToNextItem` / `goToPrevItem`, the breakpoint table of `getItemsToShow`
  and the translation offset of `updateCarousel`.
 */
module Navigation {

  /** JavaScript's `%` for a positive divisor: truncated division, so the
      remainder takes the sign of the dividend (Dafny's own `%` is Euclidean). */
  function JsRem(a: int, b: int): (r: int)
    requires b > 0
    ensures a >= 0 ==> 0 <= r < b
    ensures a < 0 ==> -b < r <= 0
    ensures (a - r) % b == 0
  {
    if a >= 0 then
      ModUnique(a - a % b, b, a / b, 0);
      a % b
    else
      ModUnique(a + (-a) % b, b, -((-a) / b), 0);
      -((-a) % b)
  }

  /** Helper: the Euclidean remainder is determined by any quotient/remainder split. */
  lemma ModUnique(y: int, n: int, q: int, s: int)
    requires n > 0 && 0 <= s < n && y == q * n + s
    ensures y % n == s
  {
    var q', s' := y / n, y % n;
    assert y == q' * n + s';
    assert (q - q') * n == s' - s;
    if q > q' {
      MulAtLeast(q - q', n);
    } else if q < q' {
      MulAtLeast(q' - q, n);
    }
  }

  lemma MulAtLeast(d: int, n: int)
    requires d >= 1 && n > 0
    ensures d * n >= n
  {
  }

  /** Helper: one step forward of a Euclidean remainder. */
  lemma ModSucc(x: int, n: int)
    requires n > 0
    ensures x % n == n - 1 ==> (x + 1) % n == 0
    ensures x % n < n - 1 ==> (x + 1) % n == x % n + 1
  {
    var q, r := x / n, x % n;
    assert x == q * n + r;
    if r == n - 1 {
      ModUnique(x + 1, n, q + 1, 0);
    } else {
      ModUnique(x + 1, n, q, r + 1);
    }
  }

  /** Helper: one step back of a Euclidean remainder. */
  lemma ModPred(x: int, n: int)
    requires n > 0
    ensures x % n == 0 ==> (x - 1) % n == n - 1
    ensures x % n > 0 ==> (x - 1) % n == x % n - 1
  {
    var q, r := x / n, x % n;
    assert x == q * n + r;
    if r == 0 {
      ModUnique(x - 1, n, q - 1, n - 1);
    } else {
      ModUnique(x - 1, n, q, r - 1);
    }
  }

  /** `currentIndex` after `goToNextItem` over `totalItems` positions: the
      cyclic successor. */
  function Next(currentIndex: int, totalItems: int): (r: int)
    requires totalItems > 0
    ensures 0 <= currentIndex < totalItems ==> 0 <= r < totalItems
    ensures currentIndex == totalItems - 1 ==> r == 0
    ensures 0 <= currentIndex < totalItems - 1 ==> r == currentIndex + 1
  {
    if 0 <= currentIndex < totalItems then
      ModUnique(currentIndex + 1, totalItems, if currentIndex == totalItems - 1 then 1 else 0,
                if currentIndex == totalItems - 1 then 0 else currentIndex + 1);
      JsRem(currentIndex + 1, totalItems)
    else
      JsRem(currentIndex + 1, totalItems)
  }

  /** `currentIndex` after `goToPrevItem`: the cyclic predecessor; adding
      `totalItems` first keeps the dividend non-negative. */
  function Prev(currentIndex: int, totalItems: int): (r: int)
    requires totalItems > 0
    ensures 0 <= currentIndex < totalItems ==> 0 <= r < totalItems
    ensures currentIndex == 0 ==> r == totalItems - 1
    ensures 0 < currentIndex < totalItems ==> r == currentIndex - 1
  {
    if 0 <= currentIndex < totalItems then
      ModUnique(currentIndex - 1 + totalItems, totalItems, if currentIndex == 0 then 0 else 1,
                if currentIndex == 0 then totalItems - 1 else currentIndex - 1);
      JsRem(currentIndex - 1 + totalItems, totalItems)
    else
      JsRem(currentIndex - 1 + totalItems, totalItems)
  }

  /** Going back undoes going forward, and going forward undoes going back. */
  lemma NextPrevInverse(i: int, n: int)
    requires n > 0 && 0 <= i < n
    ensures Prev(Next(i, n), n) == i
    ensures Next(Prev(i, n), n) == i
  {
  }

  /** The index after `k` presses of "next" (or `k` autoplay ticks). */
  function Advance(i: int, n: int, k: nat): int
    requires n > 0
  {
    if k == 0 then i else Next(Advance(i, n, k - 1), n)
  }

  /** The index after `k` presses of "previous". */
  function Retreat(i: int, n: int, k: nat): int
    requires n > 0
  {
    if k == 0 then i else Prev(Retreat(i, n, k - 1), n)
  }

  /** Any number of "next" steps is addition modulo `n`, and so never leaves
      the range. */
  lemma {:induction false} AdvanceIsModular(i: int, n: int, k: nat)
    requires n > 0 && 0 <= i < n
    ensures Advance(i, n, k) == (i + k) % n
    ensures 0 <= Advance(i, n, k) < n
  {
    if k == 0 {
      ModUnique(i, n, 0, i);
    } else {
      AdvanceIsModular(i, n, k - 1);
      ModSucc(i + k - 1, n);
    }
  }

  /** Any number of "previous" steps is subtraction modulo `n` (Dafny's
      Euclidean `%`), and so never leaves the range. */
  lemma {:induction false} RetreatIsModular(i: int, n: int, k: nat)
    requires n > 0 && 0 <= i < n
    ensures Retreat(i, n, k) == (i - k) % n
    ensures 0 <= Retreat(i, n, k) < n
  {
    if k == 0 {
      ModUnique(i, n, 0, i);
    } else {
      RetreatIsModular(i, n, k - 1);
      ModPred(i - k + 1, n);
    }
  }

  /** The number of tiles visible at a viewport width: desktop above 1024,
      tablet in (768, 1024], mobile at 768 and below. */
  function ItemsToShow(screenWidth: int, desktopItems: int, tabletItems: int, mobileItems: int): (r: int)
    ensures screenWidth > 1024 ==> r == desktopItems
    ensures 768 < screenWidth <= 1024 ==> r == tabletItems
    ensures screenWidth <= 768 ==> r == mobileItems
  {
    if screenWidth <= 1024 && screenWidth > 768 then tabletItems
    else if screenWidth <= 768 then mobileItems
    else desktopItems
  }

  /** With counts that do not grow as the screen shrinks, a wider viewport
      never shows fewer tiles. */
  lemma WiderShowsNoFewer(w1: int, w2: int, desktopItems: int, tabletItems: int, mobileItems: int)
    requires w1 <= w2
    requires mobileItems <= tabletItems <= desktopItems
    ensures ItemsToShow(w1, desktopItems, tabletItems, mobileItems) <= ItemsToShow(w2, desktopItems, tabletItems, mobileItems)
  {
  }

  /** The `translateX` percentage of the track: `-currentIndex * (100 / itemsToShow)`. */
  function Offset(currentIndex: int, itemsToShow: int): (r: real)
    requires itemsToShow != 0
    ensures currentIndex == 0 ==> r == 0.0
    ensures currentIndex >= 0 && itemsToShow > 0 ==> r <= 0.0
    ensures r * (itemsToShow as real) == -100.0 * (currentIndex as real)
  {
    -(currentIndex as real) * (100.0 / (itemsToShow as real))
  }

  /** Each step moves the track by exactly one tile width, `100 / itemsToShow` percent. */
  lemma OffsetStep(currentIndex: int, itemsToShow: int)
    requires itemsToShow > 0
    ensures Offset(currentIndex + 1, itemsToShow) == Offset(currentIndex, itemsToShow) - 100.0 / (itemsToShow as real)
  {
  }
}
