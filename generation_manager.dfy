/**
 * The description scheduler: a batch of tiles handed over by the map, the
 * start guard, the counters and progress, and the worker loop that fills
 * in one description per tile until it finishes or is cancelled. The
 * worker runs here as an ordinary sequential loop; the description text
 * comes from an abstract `generate` function and cancellation from an
 * oracle consulted before each item.
 */
module Generation {
  import opened Wrappers
  import opened Strings
  import opened HexGrid

  /** One tile to describe: its map key, its terrain when queued, and the coordinates passed to the describer. */
  datatype BatchItem = BatchItem(key: Coord, terrain: string, hint: (int, int))

  /** What `get_status` reports. */
  datatype Status = Status(generating: bool, progress: real, completed: nat, total: nat,
                           currentHex: string, generationType: string)

  /** The progress label for an item: "<terrain> at (<q>, <r>)". */
  function HexName(item: BatchItem): string
  {
    item.terrain + " at (" + IntToString(item.key.q) + ", " + IntToString(item.key.r) + ")"
  }

  /** The tile after its description arrived. */
  function Described(h: Hex, text: string): Hex
  {
    h.(description := text, generating := false)
  }

  function ApplyItem(hexes: map<Coord, Hex>, item: BatchItem, generate: (string, (int, int)) -> string): (r: map<Coord, Hex>)
    ensures r.Keys == hexes.Keys
  {
    if item.key in hexes then hexes[item.key := Described(hexes[item.key], generate(item.terrain, item.hint))]
    else hexes
  }

  /** The map after the worker processed `items`, in order. */
  function ApplyBatch(hexes: map<Coord, Hex>, items: seq<BatchItem>, generate: (string, (int, int)) -> string): (r: map<Coord, Hex>)
    ensures r.Keys == hexes.Keys
    decreases |items|
  {
    if |items| == 0 then hexes
    else ApplyItem(ApplyBatch(hexes, items[..|items| - 1], generate), items[|items| - 1], generate)
  }

  lemma ApplyBatchSnoc(hexes: map<Coord, Hex>, items: seq<BatchItem>, item: BatchItem, generate: (string, (int, int)) -> string)
    ensures ApplyBatch(hexes, items + [item], generate) == ApplyItem(ApplyBatch(hexes, items, generate), item, generate)
  {
    assert (items + [item])[..|items|] == items;
  }

  /** The first index from `i` on at which cancellation is seen, or `len` when there is none. */
  function FirstCancel(cancelBefore: nat -> bool, i: nat, len: nat): (n: nat)
    requires i <= len
    ensures i <= n <= len
    ensures n < len ==> cancelBefore(n)
    ensures forall j :: i <= j < n ==> !cancelBefore(j)
    decreases len - i
  {
    if i == len then len else if cancelBefore(i) then i else FirstCancel(cancelBefore, i + 1, len)
  }

  /** How many items the worker processes: none when the flag is already set. */
  function Processed(cancelled: bool, cancelBefore: nat -> bool, len: nat): (n: nat)
    ensures n <= len
    ensures !cancelled && (forall j :: 0 <= j < len ==> !cancelBefore(j)) ==> n == len
    ensures n < len ==> cancelled || cancelBefore(n)
  {
    if cancelled then 0 else FirstCancel(cancelBefore, 0, len)
  }

  /** The worker never adds or removes tiles, and touches only descriptions and `generating`. */
  lemma {:induction false} ApplyBatchFrame(hexes: map<Coord, Hex>, items: seq<BatchItem>, generate: (string, (int, int)) -> string)
    ensures forall k :: k in hexes ==>
      ApplyBatch(hexes, items, generate)[k] ==
        hexes[k].(description := ApplyBatch(hexes, items, generate)[k].description,
                  generating := ApplyBatch(hexes, items, generate)[k].generating)
    decreases |items|
  {
    if |items| > 0 {
      ApplyBatchFrame(hexes, items[..|items| - 1], generate);
    }
  }

  /** A tile no item names is left exactly as it was. */
  lemma {:induction false} ApplyBatchUntouched(hexes: map<Coord, Hex>, items: seq<BatchItem>, generate: (string, (int, int)) -> string, k: Coord)
    requires k in hexes
    requires forall i :: 0 <= i < |items| ==> items[i].key != k
    ensures k in ApplyBatch(hexes, items, generate) && ApplyBatch(hexes, items, generate)[k] == hexes[k]
    decreases |items|
  {
    if |items| > 0 {
      ApplyBatchUntouched(hexes, items[..|items| - 1], generate, k);
    }
  }

  /** The tile named by the last item for its key gets that item's description and stops generating. */
  lemma {:induction false} ApplyBatchDescribes(hexes: map<Coord, Hex>, items: seq<BatchItem>, generate: (string, (int, int)) -> string, i: nat)
    requires i < |items| && items[i].key in hexes
    requires forall j :: i < j < |items| ==> items[j].key != items[i].key
    ensures ApplyBatch(hexes, items, generate)[items[i].key] ==
      Described(hexes[items[i].key], generate(items[i].terrain, items[i].hint))
    decreases |items|
  {
    var k := items[i].key;
    var prefix := items[..|items| - 1];
    if i == |items| - 1 {
      ApplyBatchFrame(hexes, prefix, generate);
    } else {
      ApplyBatchDescribes(hexes, prefix, generate, i);
      ApplyBatchFrame(hexes, prefix, generate);
    }
  }

  lemma ProcessedIsFirst(cancelled: bool, cancelBefore: nat -> bool, len: nat, i: nat)
    requires i <= len
    requires cancelled ==> i == 0
    requires !cancelled ==> forall j :: 0 <= j < i ==> !cancelBefore(j)
    requires i < len ==> cancelled || cancelBefore(i)
    ensures Processed(cancelled, cancelBefore, len) == i
  {
    if !cancelled {
      var n := FirstCancel(cancelBefore, 0, len);
      if n < i {} else if n > i {}
    }
  }

  class GenerationManager {
    var generating: bool
    var progress: real
    var totalHexes: nat
    var completedHexes: nat
    /** The item whose label `current_hex_name` shows; `None` while it is still the empty string. */
    var currentItem: Option<BatchItem>
    var hexesToGenerate: seq<BatchItem>
    var cancelGeneration: bool
    var generationType: string

    /** The total is the batch length and never falls behind the completed count. */
    predicate Valid()
      reads this
    {
      totalHexes == |hexesToGenerate| && completedHexes <= totalHexes
    }

    constructor()
      ensures Valid()
      ensures !generating && progress == 0.0 && totalHexes == 0 && completedHexes == 0
      ensures currentItem == None && hexesToGenerate == [] && !cancelGeneration && generationType == "scouting"
    {
      generating := false;
      progress := 0.0;
      totalHexes := 0;
      completedHexes := 0;
      currentItem := None;
      hexesToGenerate := [];
      cancelGeneration := false;
      generationType := "scouting";
    }

    /** `start_generation`: ignored while a batch is running; otherwise records the batch and resets the counters. */
    method StartGeneration(batch: seq<BatchItem>, genType: string)
      requires Valid()
      modifies this
      ensures Valid()
      ensures old(generating) ==>
        (generating && progress == old(progress) && totalHexes == old(totalHexes)
         && completedHexes == old(completedHexes) && hexesToGenerate == old(hexesToGenerate)
         && cancelGeneration == old(cancelGeneration) && generationType == old(generationType))
      ensures !old(generating) ==>
        (generating && hexesToGenerate == batch && totalHexes == |batch| && completedHexes == 0
         && progress == 0.0 && !cancelGeneration && generationType == genType)
      ensures currentItem == old(currentItem)
    {
      if generating {
        return;
      }
      hexesToGenerate := batch;
      totalHexes := |batch|;
      completedHexes := 0;
      progress := 0.0;
      generating := true;
      cancelGeneration := false;
      generationType := genType;
    }

    /**
     * One pass of the worker's loop body: label the item, write its
     * description, count it and update the progress fraction.
     */
    method ProcessItem(i: nat, current: map<Coord, Hex>, generate: (string, (int, int)) -> string, ghost hexes: map<Coord, Hex>)
      returns (updated: map<Coord, Hex>)
      requires Valid() && i < |hexesToGenerate| && completedHexes == i
      requires current == ApplyBatch(hexes, hexesToGenerate[..i], generate)
      modifies this
      ensures Valid() && completedHexes == i + 1 && currentItem == Some(hexesToGenerate[i])
      ensures updated == ApplyBatch(hexes, hexesToGenerate[..i + 1], generate)
      ensures progress == completedHexes as real / totalHexes as real
      ensures generating == old(generating) && cancelGeneration == old(cancelGeneration)
      ensures hexesToGenerate == old(hexesToGenerate) && totalHexes == old(totalHexes)
      ensures generationType == old(generationType)
    {
      var item := hexesToGenerate[i];
      currentItem := Some(item);
      var description := generate(item.terrain, item.hint);
      updated := current;
      if item.key in current {
        updated := current[item.key := Described(current[item.key], description)];
      }
      assert hexesToGenerate[..i + 1] == hexesToGenerate[..i] + [item];
      ApplyBatchSnoc(hexes, hexesToGenerate[..i], item, generate);
      completedHexes := completedHexes + 1;
      progress := completedHexes as real / totalHexes as real;
    }

    /**
     * `_generate_worker`: describe the queued tiles in order, stopping when
     * the cancel flag is seen before an item. `cancelBefore(i)` says whether
     * `cancel` was called before item `i` was checked. Returns the map with
     * the descriptions written; the other tiles are untouched.
     */
    method GenerateWorker(hexes: map<Coord, Hex>, generate: (string, (int, int)) -> string, cancelBefore: nat -> bool)
      returns (updated: map<Coord, Hex>)
      requires Valid() && completedHexes == 0
      modifies this
      ensures Valid()
      ensures var n := Processed(old(cancelGeneration), cancelBefore, |hexesToGenerate|);
        completedHexes == n
        && updated == ApplyBatch(hexes, hexesToGenerate[..n], generate)
        && cancelGeneration == (old(cancelGeneration) || n < |hexesToGenerate|)
        && currentItem == (if n == 0 then old(currentItem) else Some(hexesToGenerate[n - 1]))
      ensures !generating && progress == 1.0
      ensures hexesToGenerate == old(hexesToGenerate) && totalHexes == old(totalHexes)
      ensures generationType == old(generationType)
    {
      var cancelled := cancelGeneration;
      updated := hexes;
      var i := 0;
      while i < |hexesToGenerate|
        invariant Valid() && 0 <= i <= |hexesToGenerate| && completedHexes == i
        invariant hexesToGenerate == old(hexesToGenerate) && generationType == old(generationType)
        invariant cancelGeneration == cancelled
        invariant cancelled ==> i == 0
        invariant !cancelled ==> forall j :: 0 <= j < i ==> !cancelBefore(j)
        invariant updated == ApplyBatch(hexes, hexesToGenerate[..i], generate)
        invariant currentItem == (if i == 0 then old(currentItem) else Some(hexesToGenerate[i - 1]))
      {
        if cancelGeneration || cancelBefore(i) {
          cancelGeneration := true;
          break;
        }
        updated := ProcessItem(i, updated, generate, hexes);
        i := i + 1;
      }
      ProcessedIsFirst(cancelled, cancelBefore, |hexesToGenerate|, i);
      generating := false;
      progress := 1.0;
    }

    /** `cancel`: raise the flag and mark the scheduler idle. */
    method Cancel()
      modifies this
      ensures cancelGeneration && !generating
      ensures progress == old(progress) && totalHexes == old(totalHexes) && completedHexes == old(completedHexes)
      ensures currentItem == old(currentItem) && hexesToGenerate == old(hexesToGenerate)
      ensures generationType == old(generationType)
    {
      cancelGeneration := true;
      generating := false;
    }

    /** `current_hex_name`: "<terrain> at (<q>, <r>)" for the last item started, "" before any. */
    function CurrentHexName(): string
      reads this
    {
      if currentItem.Some? then HexName(currentItem.value) else ""
    }

    function IsGenerating(): bool
      reads this
    {
      generating
    }

    function GetProgress(): real
      reads this
    {
      progress
    }

    /** `get_status`: the counters and the batch type; completed never exceeds total. */
    function GetStatus(): (st: Status)
      requires Valid()
      reads this
      ensures st.completed <= st.total && st.total == |hexesToGenerate|
      ensures st.generating == generating && st.progress == progress && st.generationType == generationType
      ensures st.completed == completedHexes && st.total == totalHexes
      ensures st.currentHex == (if currentItem.Some? then HexName(currentItem.value) else "")
    {
      Status(generating, progress, completedHexes, totalHexes, CurrentHexName(), generationType)
    }
  }
}
