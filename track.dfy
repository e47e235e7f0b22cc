/**
  The physical carousel track built by `addCarouselItems`: one item per
  declared `<carousel-item>` block, in document order, followed by a clone of
  the first item and preceded by a clone of the last one.
 */
module Track {

  /** A declared `<carousel-item>` block: its `data-handle`, `data-name` and
      `data-image` attributes. */
  datatype Block = Block(handle: string, name: string, image: string)

  /** A `.carousel-item` element of the track. `handle` is its
      `dataset.handle` (the one its click listener dispatches), `name` and
      `image` are the values its markup template receives; `cloned` marks a node made by
      `cloneNode`. */
  datatype Item = Item(handle: string, name: string, image: string, cloned: bool)

  /** The element `addCarouselItems` creates for one block. */
  function ItemOf(b: Block): Item
  {
    Item(b.handle, b.name, b.image, false)
  }

  /** A deep copy of an element: same data and markup, a different node. */
  function CloneOf(it: Item): Item
  {
    it.(cloned := true)
  }

  /** The elements appended by the `forEach` loop, one per block. */
  function ItemsOf(blocks: seq<Block>): seq<Item>
  {
    if blocks == [] then [] else ItemsOf(blocks[..|blocks| - 1]) + [ItemOf(blocks[|blocks| - 1])]
  }

  /** The container's children after the two clones are added: a clone of
      the last child in front, a clone of the first child at the end. */
  function WithClones(children: seq<Item>): seq<Item>
    requires |children| >= 1
  {
    [CloneOf(children[|children| - 1])] + children + [CloneOf(children[0])]
  }

  /** The items appended by the loop are the blocks, one for one and in order. */
  lemma {:induction false} ItemsOfAt(blocks: seq<Block>)
    ensures |ItemsOf(blocks)| == |blocks|
    ensures forall j :: 0 <= j < |blocks| ==> ItemsOf(blocks)[j] == ItemOf(blocks[j])
  {
    if blocks != [] {
      ItemsOfAt(blocks[..|blocks| - 1]);
    }
  }

  /** The track built from `blocks` into an empty container. */
  function TrackOf(blocks: seq<Block>): seq<Item>
    requires |blocks| >= 1
  {
    ItemsOfAt(blocks);
    WithClones(ItemsOf(blocks))
  }

  /** Which declared block the physical position `k` shows, out of `n`
      blocks: position 0 is the last block, position `n + 1` the first,
      positions `1 .. n` the blocks in order. */
  function OriginalIndex(k: nat, n: nat): (j: nat)
    requires n >= 1 && k < n + 2
    ensures j < n
  {
    if k == 0 then n - 1 else if k == n + 1 then 0 else k - 1
  }

  /** The layout of the track: `N + 2` items, a clone of block `N - 1` first,
      the blocks in declared order, a clone of block 0 last. */
  lemma TrackLayout(blocks: seq<Block>)
    requires |blocks| >= 1
    ensures |TrackOf(blocks)| == |blocks| + 2
    ensures TrackOf(blocks)[0] == CloneOf(ItemOf(blocks[|blocks| - 1]))
    ensures TrackOf(blocks)[|blocks| + 1] == CloneOf(ItemOf(blocks[0]))
    ensures forall k :: 1 <= k <= |blocks| ==> TrackOf(blocks)[k] == ItemOf(blocks[k - 1])
  {
    ItemsOfAt(blocks);
  }

  /** Every track item, clones included, carries the handle, name and image
      of the block it shows; exactly the two end positions are clones. */
  lemma TrackItemShowsItsBlock(blocks: seq<Block>, k: nat)
    requires |blocks| >= 1 && k < |blocks| + 2
    ensures k < |TrackOf(blocks)|
    ensures TrackOf(blocks)[k].handle == blocks[OriginalIndex(k, |blocks|)].handle
    ensures TrackOf(blocks)[k].name == blocks[OriginalIndex(k, |blocks|)].name
    ensures TrackOf(blocks)[k].image == blocks[OriginalIndex(k, |blocks|)].image
    ensures TrackOf(blocks)[k].cloned <==> (k == 0 || k == |blocks| + 1)
  {
    TrackLayout(blocks);
  }

  /** A clone dispatches the same handle as its original: the front clone as
      the last block's item at position `N`, the back clone as the first
      block's item at position 1. */
  lemma ClonesDispatchLikeOriginals(blocks: seq<Block>)
    requires |blocks| >= 1
    ensures |TrackOf(blocks)| == |blocks| + 2
    ensures TrackOf(blocks)[0].handle == TrackOf(blocks)[|blocks|].handle
    ensures TrackOf(blocks)[|blocks| + 1].handle == TrackOf(blocks)[1].handle
  {
    TrackLayout(blocks);
  }
}
