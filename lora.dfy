/**
 * `apply_unet_lora_weights`: the LoRA rank read off the weight file, and one
 * LoRA attention processor per attention-processor name, whose hidden size is
 * chosen from the block-output channel list by the block the name lies in.
 * Reading the file, building the processors and loading their weights are
 * outside the model; the weight file is its list of (key, size of dimension 0).
 */
module Lora {
  import opened Wrappers
  import opened Tensors

  predicate StartsWith(s: string, prefix: string)
  {
    |prefix| <= |s| && s[..|prefix|] == prefix
  }

  predicate EndsWith(s: string, suffix: string)
  {
    |suffix| <= |s| && s[|s| - |suffix|..] == suffix
  }

  /** A weight of a LoRA down projection, whose first dimension is the rank. */
  predicate IsDownWeight(entry: (string, nat))
  {
    EndsWith(entry.0, "down.weight")
  }

  /** The down-projection sizes, in file order. */
  function DownSizes(items: seq<(string, nat)>): (r: seq<nat>)
    ensures forall v :: v in r <==> exists i :: 0 <= i < |items| && IsDownWeight(items[i]) && items[i].1 == v
  {
    if items == [] then []
    else
      var rest := DownSizes(items[1..]);
      assert forall i :: 1 <= i < |items| ==> items[1..][i - 1] == items[i];
      if IsDownWeight(items[0]) then [items[0].1] + rest else rest
  }

  /**
   * `list(set(sizes))` with `assert len(...) == 1`: the rank when every
   * down-projection weight has the same first dimension and there is at least
   * one; AssertionError when there is none or two differ.
   */
  function LoraRank(items: seq<(string, nat)>): (r: Result<nat, Error>)
    ensures r.Success? <==>
      (exists i :: 0 <= i < |items| && IsDownWeight(items[i])) &&
      (forall i, j :: 0 <= i < |items| && 0 <= j < |items| && IsDownWeight(items[i]) && IsDownWeight(items[j]) ==> items[i].1 == items[j].1)
    ensures r.Success? ==> forall i :: 0 <= i < |items| && IsDownWeight(items[i]) ==> items[i].1 == r.value
    ensures r.Failure? ==> r.error == AssertionError
  {
    var sizes := DownSizes(items);
    assert forall i :: 0 <= i < |items| && IsDownWeight(items[i]) ==> items[i].1 in sizes;
    if sizes == [] then Failure(AssertionError)
    else if forall k :: 0 <= k < |sizes| ==> sizes[k] == sizes[0] then
      assert sizes[0] in sizes;
      assert forall i :: 0 <= i < |items| && IsDownWeight(items[i]) ==> items[i].1 == sizes[0];
      Success(sizes[0])
    else
      assert exists k :: 0 <= k < |sizes| && sizes[k] != sizes[0];
      var k :| 0 <= k < |sizes| && sizes[k] != sizes[0];
      assert sizes[k] in sizes && sizes[0] in sizes;
      Failure(AssertionError)
  }

  /** `int(name[k])` of one character: IndexError past the end, ValueError for a non-digit. */
  function DigitAt(name: string, k: nat): (r: Result<nat, Error>)
    ensures r.Success? <==> k < |name| && '0' <= name[k] <= '9'
    ensures r.Success? ==> r.value < 10 && r.value == (name[k] as int) - ('0' as int)
    ensures r.Failure? ==> r.error == (if k < |name| then ValueError else IndexError)
  {
    if k >= |name| then Failure(IndexError)
    else if '0' <= name[k] <= '9' then Success((name[k] as int) - ('0' as int))
    else Failure(ValueError)
  }

  /** `lst[i]` for a non-negative i. */
  function At(lst: seq<nat>, i: nat): (r: Result<nat, Error>)
    ensures r.Success? <==> i < |lst|
    ensures r.Success? ==> r.value == lst[i]
    ensures r.Failure? ==> r.error == IndexError
  {
    if i < |lst| then Success(lst[i]) else Failure(IndexError)
  }

  /** One of the three prefixes the hidden-size selection knows. */
  predicate KnownBlock(name: string)
  {
    StartsWith(name, "mid_block") || StartsWith(name, "up_blocks") || StartsWith(name, "down_blocks")
  }

  /**
   * The hidden size of the processor `name`: the last block-output channel
   * count for the mid block; for `up_blocks.` and `down_blocks.` the digit
   * right after the prefix indexes the reversed or the plain channel list;
   * any other name keeps the hidden size of the previous name, which when
   * there is none is Python's UnboundLocalError.
   */
  function HiddenSize(name: string, blockOut: seq<nat>, prev: Option<nat>): Result<nat, Error>
  {
    if StartsWith(name, "mid_block") then
      if |blockOut| == 0 then Failure(IndexError) else Success(blockOut[|blockOut| - 1])
    else if StartsWith(name, "up_blocks") then
      var id :- DigitAt(name, |"up_blocks."|);
      At(Reverse(blockOut), id)
    else if StartsWith(name, "down_blocks") then
      var id :- DigitAt(name, |"down_blocks."|);
      At(blockOut, id)
    else if prev.None? then Failure(UnboundLocalError)
    else Success(prev.value)
  }

  /**
   * The selection, case by case: up block d and down block n - 1 - d of n
   * blocks share a channel count, the mid block has the deepest one, and a
   * name outside the three blocks inherits the previous size or raises.
   */
  lemma HiddenSizeCases(name: string, blockOut: seq<nat>, prev: Option<nat>)
    ensures StartsWith(name, "mid_block") ==>
      HiddenSize(name, blockOut, prev) == (if |blockOut| == 0 then Failure(IndexError) else Success(blockOut[|blockOut| - 1]))
    ensures !StartsWith(name, "mid_block") && StartsWith(name, "up_blocks") && 10 < |name| && '0' <= name[10] <= '9' ==>
      var d := (name[10] as int) - ('0' as int);
      HiddenSize(name, blockOut, prev) == (if d < |blockOut| then Success(blockOut[|blockOut| - 1 - d]) else Failure(IndexError))
    ensures !StartsWith(name, "mid_block") && !StartsWith(name, "up_blocks") && StartsWith(name, "down_blocks")
            && 12 < |name| && '0' <= name[12] <= '9' ==>
      var d := (name[12] as int) - ('0' as int);
      HiddenSize(name, blockOut, prev) == (if d < |blockOut| then Success(blockOut[d]) else Failure(IndexError))
    ensures !KnownBlock(name) ==>
      HiddenSize(name, blockOut, prev) == (if prev.None? then Failure(UnboundLocalError) else Success(prev.value))
    ensures KnownBlock(name) ==> HiddenSize(name, blockOut, prev) == HiddenSize(name, blockOut, None)
  {
    assert |"up_blocks."| == 10 && |"down_blocks."| == 12;
  }

  /** What one `LoRACrossAttnProcessor(...)` is built with. */
  datatype Processor = Processor(hiddenSize: nat, crossAttentionDim: Option<nat>, rank: nat)

  /** Self-attention (`attn1`) processors get no cross-attention dimension. */
  function CrossDim(name: string, crossAttentionDim: nat): Option<nat>
  {
    if EndsWith(name, "attn1.processor") then None else Some(crossAttentionDim)
  }

  /** The processor map after the first k names, and the hidden size still in scope. */
  function Fill(names: seq<string>, k: nat, blockOut: seq<nat>, crossAttentionDim: nat, rank: nat)
    : Result<(map<string, Processor>, Option<nat>), Error>
    requires k <= |names|
  {
    if k == 0 then Success((map[], None))
    else
      var (procs, prev) :- Fill(names, k - 1, blockOut, crossAttentionDim, rank);
      var h :- HiddenSize(names[k - 1], blockOut, prev);
      Success((procs[names[k - 1] := Processor(h, CrossDim(names[k - 1], crossAttentionDim), rank)], Some(h)))
  }

  /** The whole selection: the rank first, then one processor per name. */
  function LoraProcessors(items: seq<(string, nat)>, names: seq<string>, blockOut: seq<nat>, crossAttentionDim: nat)
    : Result<map<string, Processor>, Error>
  {
    var rank :- LoraRank(items);
    var (procs, _) :- Fill(names, |names|, blockOut, crossAttentionDim, rank);
    Success(procs)
  }

  /**
   * A filled map has one processor per name seen, each with the file's rank,
   * no cross-attention dimension exactly for the `attn1` names, and, for a
   * name inside one of the three blocks, the size that name alone selects.
   */
  lemma {:induction false} FillShape(names: seq<string>, k: nat, blockOut: seq<nat>, crossAttentionDim: nat, rank: nat)
    requires k <= |names|
    requires Fill(names, k, blockOut, crossAttentionDim, rank).Success?
    ensures var procs := Fill(names, k, blockOut, crossAttentionDim, rank).value.0;
      && procs.Keys == (set j | 0 <= j < k :: names[j])
      && forall j :: 0 <= j < k ==>
           && procs[names[j]].rank == rank
           && (procs[names[j]].crossAttentionDim.None? <==> EndsWith(names[j], "attn1.processor"))
           && (KnownBlock(names[j]) ==> HiddenSize(names[j], blockOut, None) == Success(procs[names[j]].hiddenSize))
  {
    if k > 0 {
      FillShape(names, k - 1, blockOut, crossAttentionDim, rank);
      var prev := Fill(names, k - 1, blockOut, crossAttentionDim, rank).value;
      HiddenSizeCases(names[k - 1], blockOut, prev.1);
      assert (set j | 0 <= j < k :: names[j]) == (set j | 0 <= j < k - 1 :: names[j]) + {names[k - 1]};
    }
  }

  /** The processor loop, filling a dictionary and carrying `hidden_size` from name to name. */
  method ApplyLora(items: seq<(string, nat)>, names: seq<string>, blockOut: seq<nat>, crossAttentionDim: nat)
    returns (r: Result<map<string, Processor>, Error>)
    ensures r == LoraProcessors(items, names, blockOut, crossAttentionDim)
  {
    var rank :- LoraRank(items);
    var procs: map<string, Processor> := map[];
    var hidden: Option<nat> := None;
    var k := 0;
    while k < |names|
      invariant 0 <= k <= |names|
      invariant Fill(names, k, blockOut, crossAttentionDim, rank) == Success((procs, hidden))
    {
      var h := HiddenSize(names[k], blockOut, hidden);
      if h.Failure? {
        FillStops(names, k + 1, |names|, blockOut, crossAttentionDim, rank);
        return Failure(h.error);
      }
      procs := procs[names[k] := Processor(h.value, CrossDim(names[k], crossAttentionDim), rank)];
      hidden := Some(h.value);
      k := k + 1;
    }
    r := Success(procs);
  }

  lemma {:induction false} FillStops(names: seq<string>, k: nat, k': nat, blockOut: seq<nat>, crossAttentionDim: nat, rank: nat)
    requires k <= k' <= |names|
    requires Fill(names, k, blockOut, crossAttentionDim, rank).Failure?
    ensures Fill(names, k', blockOut, crossAttentionDim, rank).Failure?
    ensures Fill(names, k', blockOut, crossAttentionDim, rank).error == Fill(names, k, blockOut, crossAttentionDim, rank).error
    decreases k' - k
  {
    if k' > k {
      FillStops(names, k, k' - 1, blockOut, crossAttentionDim, rank);
    }
  }
}
