/**
  The brand name `updateCollectionPageTitle` shows: the `data-name` of the
  first declared block whose `data-handle` is the selected handle, or the
  generic label when there is no such block or its name is empty.
 */
module BrandTitle {
  import opened Options
  import opened Track

  const DefaultBrandName: string := "Shop by Brand"

  /** The position of the first block, in document order, with handle `h`
      (what `querySelector` with a `data-handle` attribute selector finds). */
  function FindBlock(blocks: seq<Block>, h: string): (r: Option<nat>)
    ensures r.Some? ==> r.value < |blocks| && blocks[r.value].handle == h
    ensures r.Some? ==> forall j :: 0 <= j < r.value ==> blocks[j].handle != h
    ensures r.None? <==> forall j :: 0 <= j < |blocks| ==> blocks[j].handle != h
  {
    if blocks == [] then None
    else if blocks[0].handle == h then Some(0)
    else match FindBlock(blocks[1..], h)
      case Some(j) => Some(j + 1)
      case None => None
  }

  /** The selected brand's name; an empty name is falsy, so it also falls
      back to the generic label. */
  function BrandName(blocks: seq<Block>, h: string): (r: string)
    ensures r != ""
    ensures r == DefaultBrandName || exists j :: 0 <= j < |blocks| && blocks[j].handle == h && blocks[j].name == r
    ensures (forall j :: 0 <= j < |blocks| ==> blocks[j].handle != h) ==> r == DefaultBrandName
    ensures forall j :: 0 <= j < |blocks| && blocks[j].handle == h && (forall i :: 0 <= i < j ==> blocks[i].handle != h) ==>
      r == (if blocks[j].name != "" then blocks[j].name else DefaultBrandName)
  {
    match FindBlock(blocks, h)
    case Some(j) => if blocks[j].name != "" then blocks[j].name else DefaultBrandName
    case None => DefaultBrandName
  }

  /** The string written to the heading and to the document title. */
  function PageTitle(blocks: seq<Block>, h: string): string
  {
    "Shop " + BrandName(blocks, h)
  }

  /** The title comes from the FIRST block with the handle: its name, or the
      generic label when that name is empty; a later block with the same
      handle is never used. */
  lemma FirstMatchNamesTheBrand(blocks: seq<Block>, h: string, j: nat)
    requires j < |blocks| && blocks[j].handle == h
    requires forall i :: 0 <= i < j ==> blocks[i].handle != h
    ensures PageTitle(blocks, h) == "Shop " + (if blocks[j].name != "" then blocks[j].name else DefaultBrandName)
  {
  }

  /** A handle no block declares puts "Shop Shop by Brand" in the title. */
  lemma UnknownHandleTitle(blocks: seq<Block>, h: string)
    requires forall j :: 0 <= j < |blocks| ==> blocks[j].handle != h
    ensures PageTitle(blocks, h) == "Shop Shop by Brand"
  {
  }

  /** Every item of the track, clones included, dispatches a handle that some
      block declares, and its title is the title of the block it shows. */
  lemma TrackHandlesAreDeclared(blocks: seq<Block>, k: nat)
    requires |blocks| >= 1 && k < |blocks| + 2
    ensures k < |TrackOf(blocks)|
    ensures FindBlock(blocks, TrackOf(blocks)[k].handle).Some?
    ensures PageTitle(blocks, TrackOf(blocks)[k].handle) == PageTitle(blocks, blocks[OriginalIndex(k, |blocks|)].handle)
  {
    TrackItemShowsItsBlock(blocks, k);
    var j := OriginalIndex(k, |blocks|);
    assert blocks[j].handle == TrackOf(blocks)[k].handle;
  }
}
