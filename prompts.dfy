/**
 * Prompt handling of `generate`: a single prompt is broadcast to every image,
 * a list must have one prompt per image; the prompts, the negative prompts
 * and the empty prompt are encoded in one batch and split back into the three
 * groups.
 */
module Prompts {
  import opened Wrappers
  import opened Tensors

  /** `prompt` / `negative_prompt`: a string or a list of strings. */
  datatype PromptArg = Single(text: string) | Many(texts: seq<string>)

  /** `[prompt] * n_images` for a string; a list must already have `n_images` entries (`assert`). */
  function Broadcast(p: PromptArg, n: nat): (r: Result<seq<string>, Error>)
    ensures r.Success? <==> (p.Single? || |p.texts| == n)
    ensures r.Success? ==> |r.value| == n
    ensures r.Success? && p.Single? ==> forall i :: 0 <= i < n ==> r.value[i] == p.text
    ensures r.Success? && p.Many? ==> r.value == p.texts
    ensures r.Failure? ==> r.error == AssertionError
  {
    match p
    case Single(t) => Success(seq(n, _ => t))
    case Many(ts) => if |ts| == n then Success(ts) else Failure(AssertionError)
  }

  /** The text encoder, one prompt at a time (the tokenizer pads every prompt to the same length). */
  type Encoder = string -> Tokens

  /** The three groups of prompt embeddings. */
  datatype Embeddings = Embeddings(cond: Batch, uncond: Batch, nullPrompt: Batch)

  /** `.split([n_images, n_images, 1])`: torch refuses sizes that do not add up to the batch. */
  function SplitEmbeddings(e: Batch, n: nat): (r: Result<Embeddings, Error>)
    ensures r.Success? <==> |e| == 2 * n + 1
    ensures r.Success? ==> r.value.cond + r.value.uncond + r.value.nullPrompt == e
    ensures r.Success? ==> |r.value.cond| == n && |r.value.uncond| == n && |r.value.nullPrompt| == 1
  {
    if |e| != 2 * n + 1 then Failure(ShapeMismatch)
    else
      assert e[..n] + e[n..2 * n] + e[2 * n..] == e;
      Success(Embeddings(e[..n], e[n..2 * n], e[2 * n..]))
  }

  /** Splitting the concatenation of the three groups gives the groups back. */
  lemma SplitJoin(a: Batch, b: Batch, c: Batch)
    requires |a| == |b| && |c| == 1
    ensures SplitEmbeddings(a + b + c, |a|) == Success(Embeddings(a, b, c))
  {
    var e := a + b + c;
    assert e[..|a|] == a;
    assert e[|a|..2 * |a|] == b;
    assert e[2 * |a|..] == c;
  }

  /** `initialize_prompts(prompt + negative_prompt + [""]).split([n, n, 1])`. */
  function PromptEmbeddings(prompt: PromptArg, negative: PromptArg, n: nat, encode: Encoder): Result<Embeddings, Error>
  {
    var p :- Broadcast(prompt, n);
    var np :- Broadcast(negative, n);
    var texts := p + np + [""];
    SplitEmbeddings(seq(|texts|, i requires 0 <= i < |texts| => encode(texts[i])), n)
  }

  /**
   * The prompt embeddings succeed exactly when both prompt arguments fit the
   * image count, and then image i is conditioned on its own prompt, its
   * unconditioned half on its own negative prompt, and the third group is the
   * empty prompt alone.
   */
  lemma EmbeddingRoles(prompt: PromptArg, negative: PromptArg, n: nat, encode: Encoder, i: nat)
    requires i < n
    ensures PromptEmbeddings(prompt, negative, n, encode).Success? <==>
      Broadcast(prompt, n).Success? && Broadcast(negative, n).Success?
    ensures PromptEmbeddings(prompt, negative, n, encode).Success? ==>
      var e := PromptEmbeddings(prompt, negative, n, encode).value;
      && e.cond[i] == encode(Broadcast(prompt, n).value[i])
      && e.uncond[i] == encode(Broadcast(negative, n).value[i])
      && e.nullPrompt == [encode("")]
  {
    var bp, bn := Broadcast(prompt, n), Broadcast(negative, n);
    if bp.Success? && bn.Success? {
      var texts := bp.value + bn.value + [""];
      var enc := seq(|texts|, j requires 0 <= j < |texts| => encode(texts[j]));
      var a := seq(n, j requires 0 <= j < n => encode(bp.value[j]));
      var b := seq(n, j requires 0 <= j < n => encode(bn.value[j]));
      assert enc == a + b + [encode("")];
      SplitJoin(a, b, [encode("")]);
    }
  }
}
