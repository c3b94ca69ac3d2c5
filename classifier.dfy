/**
 * The sequence handling of the linear-probe trainer: cutting a stored
 * generation's per-step hidden states at the first padding token
 * (`adapt_hidden_embeddings`), the `union` and `only_first_tkn` ways of
 * turning instances into training vectors, the choice of aggregation, the
 * model name read off the input directory, and the labels.
 *
 * Tensors are opaque: a stored hidden state is either one vector or a
 * matrix whose rows are vectors of type `V`.
 */
module Classifier {
  import opened Outcomes
  import opened PyText

  /** A stored hidden state: one 1-D vector, or a 2-D matrix given by its rows. */
  datatype Tensor<V> = Vector(v: V) | Matrix(rows: seq<V>)

  /** The token id that marks padding in the generated ids. */
  const PadTokenId: int := 1

  /**
   * The per-step list as the trainer uses it: when the last stored element is
   * 2-D, all steps were saved as one matrix, and the list becomes the rows of
   * element 0. Indexing `[-1]` of an empty list, or `[i, :]` of a 1-D
   * element 0, raises IndexError.
   */
  function Unstack<V>(stored: seq<Tensor<V>>): (r: Result<seq<Tensor<V>>>)
    ensures r.Err? <==> stored == [] || (stored[|stored| - 1].Matrix? && !stored[0].Matrix?)
    ensures r.Err? ==> r.error == IndexError
    ensures r.Ok? && stored[|stored| - 1].Vector? ==> r.value == stored
    ensures r.Ok? && stored[|stored| - 1].Matrix? ==>
              |r.value| == |stored[0].rows| && forall i :: 0 <= i < |r.value| ==> r.value[i] == Vector(stored[0].rows[i])
  {
    if stored == [] then Err(IndexError)
    else if stored[|stored| - 1].Vector? then Ok(stored)
    else if stored[0].Vector? then Err(IndexError)
    else Ok(seq(|stored[0].rows|, i requires 0 <= i < |stored[0].rows| => Vector(stored[0].rows[i])))
  }

  /** The first position of the padding id in `row`, or `|row|` when there is none. */
  function FirstPad(row: seq<int>): (r: nat)
    ensures r <= |row|
    ensures r < |row| ==> row[r] == PadTokenId
    ensures forall i :: 0 <= i < r ==> row[i] != PadTokenId
  {
    if row == [] then 0
    else if row[0] == PadTokenId then 0
    else 1 + FirstPad(row[1..])
  }

  /**
   * The filtered per-step list: the (unstacked) list cut at the first padding
   * token of row 0 of the generated ids, or whole when row 0 has no padding;
   * the slice clamps. No row 0 raises IndexError.
   */
  function Adapted<V>(stored: seq<Tensor<V>>, outputIds: seq<seq<int>>): (r: Result<seq<Tensor<V>>>)
    ensures r.Err? <==> Unstack(stored).Err? || outputIds == []
    ensures r.Err? ==> r.error == IndexError
    ensures r.Ok? ==> r.value <= Unstack(stored).value
    ensures r.Ok? ==> |r.value| == if PadTokenId in outputIds[0] then Min(FirstPad(outputIds[0]), |Unstack(stored).value|)
                                   else |Unstack(stored).value|
  {
    match Unstack(stored)
    case Err(e) => Err(e)
    case Ok(steps) =>
      if outputIds == [] then Err(IndexError)
      else
        var row := outputIds[0];
        var cut := if FirstPad(row) < |row| then FirstPad(row) else |steps|;
        Ok(steps[..Min(cut, |steps|)])
  }

  /**
   * A loaded generation record: the hidden states stored under each
   * embedding type, and the generated ids (one row per beam).
   */
  class Instance<V> {
    var embeddings: map<string, seq<Tensor<V>>>
    var outputIds: seq<seq<int>>

    constructor(embeddings: map<string, seq<Tensor<V>>>, outputIds: seq<seq<int>>)
      ensures this.embeddings == embeddings && this.outputIds == outputIds
    {
      this.embeddings := embeddings;
      this.outputIds := outputIds;
    }

    /**
     * `adapt_hidden_embeddings`: unstacks the stored entry in place (before
     * the generated ids are read, so the update stays even when reading them
     * raises), then returns the list cut at the first padding token.
     */
    method AdaptHiddenEmbeddings(embeddingType: string) returns (r: Result<seq<Tensor<V>>>)
      modifies this
      ensures outputIds == old(outputIds)
      ensures embeddingType !in old(embeddings) ==> r == Err(KeyError) && embeddings == old(embeddings)
      ensures embeddingType in old(embeddings) ==>
                var u := Unstack(old(embeddings)[embeddingType]);
                && embeddings == (if u.Ok? then old(embeddings)[embeddingType := u.value] else old(embeddings))
                && r == Adapted(old(embeddings)[embeddingType], outputIds)
    {
      if embeddingType !in embeddings {
        return Err(KeyError);
      }
      var stored := embeddings[embeddingType];
      if |stored| == 0 {
        return Err(IndexError);
      }
      if stored[|stored| - 1].Matrix? {
        if !stored[0].Matrix? {
          return Err(IndexError);
        }
        var rows := stored[0].rows;
        embeddings := embeddings[embeddingType := seq(|rows|, i requires 0 <= i < |rows| => Vector(rows[i]))];
      }
      if |outputIds| == 0 {
        return Err(IndexError);
      }
      var row := outputIds[0];
      var steps := embeddings[embeddingType];
      var cut := if FirstPad(row) < |row| then FirstPad(row) else |steps|;
      r := Ok(steps[..Min(cut, |steps|)]);
    }
  }

  /** Unstacking a list that already holds at least one step changes nothing. */
  lemma UnstackIdempotent<V>(stored: seq<Tensor<V>>)
    requires Unstack(stored).Ok? && Unstack(stored).value != []
    ensures Unstack(Unstack(stored).value) == Unstack(stored)
  {
    var steps := Unstack(stored).value;
    if stored[|stored| - 1].Matrix? {
      assert steps[|steps| - 1].Vector?;
    }
  }

  /**
   * Adapting an instance a second time, after the first call has updated it,
   * gives the same list, unless the stored matrix had no rows (then the
   * emptied list makes the second call raise).
   */
  lemma AdaptAgain<V>(stored: seq<Tensor<V>>, outputIds: seq<seq<int>>)
    requires Unstack(stored).Ok? && Unstack(stored).value != []
    ensures Adapted(Unstack(stored).value, outputIds) == Adapted(stored, outputIds)
  {
    UnstackIdempotent(stored);
  }

  /** A matrix with no rows leaves an empty list behind, and a second adaptation raises. */
  lemma AdaptAgainEmptyMatrix<V>(outputIds: seq<seq<int>>)
    ensures var stored: seq<Tensor<V>> := [Matrix([])];
            Adapted(stored, outputIds).Ok? <==> outputIds != []
    ensures var stored: seq<Tensor<V>> := [Matrix([])];
            Unstack(stored) == Ok([]) && Adapted(Unstack(stored).value, outputIds) == Err(IndexError)
  {
  }

  /** Nothing before the cut is padding, and the cut stops at padding whenever the list is long enough to reach it. */
  lemma AdaptedCut<V>(stored: seq<Tensor<V>>, outputIds: seq<seq<int>>)
    requires Adapted(stored, outputIds).Ok?
    ensures var n := |Adapted(stored, outputIds).value|;
            && (forall i :: 0 <= i < n && i < |outputIds[0]| ==> outputIds[0][i] != PadTokenId)
            && (n < |Unstack(stored).value| ==> n < |outputIds[0]| && outputIds[0][n] == PadTokenId)
  {
  }

  /** `len(x) for x in xs`, summed. */
  function TotalLength<T>(xs: seq<seq<T>>): nat {
    if xs == [] then 0 else TotalLength(xs[..|xs| - 1]) + |xs[|xs| - 1]|
  }

  /** The `union` aggregation: every instance's filtered steps, instance after instance. */
  function Union<T>(filtered: seq<seq<T>>): (r: seq<T>)
    ensures |r| == TotalLength(filtered)
  {
    if filtered == [] then [] else Union(filtered[..|filtered| - 1]) + filtered[|filtered| - 1]
  }

  /** The `only_first_tkn` aggregation: step 0 of every instance; an empty filtered list raises IndexError. */
  function OnlyFirst<T>(filtered: seq<seq<T>>): (r: Result<seq<T>>)
    ensures r.Ok? <==> forall t :: 0 <= t < |filtered| ==> filtered[t] != []
    ensures r.Err? ==> r.error == IndexError
    ensures r.Ok? ==> |r.value| == |filtered|
  {
    if filtered == [] then Ok([])
    else
      var init := filtered[..|filtered| - 1];
      var last := filtered[|filtered| - 1];
      assert forall t :: 0 <= t < |init| ==> init[t] == filtered[t];
      match OnlyFirst(init)
      case Err(e) => Err(e)
      case Ok(heads) => if last == [] then Err(IndexError) else Ok(heads + [last[0]])
  }

  lemma {:induction false} UnionAppend<T>(a: seq<seq<T>>, b: seq<seq<T>>)
    ensures Union(a + b) == Union(a) + Union(b)
    decreases |b|
  {
    if b == [] {
      assert a + b == a;
    } else {
      var init, last := b[..|b| - 1], b[|b| - 1];
      assert (a + b)[..|a + b| - 1] == a + init;
      assert Union(a + b) == Union(a + init) + last;
      UnionAppend(a, init);
      assert Union(b) == Union(init) + last;
    }
  }

  lemma {:induction false} TotalLengthPrefix<T>(xs: seq<seq<T>>, t: nat)
    requires t < |xs|
    ensures TotalLength(xs[..t]) + |xs[t]| == TotalLength(xs[..t + 1])
  {
    assert xs[..t + 1][..t] == xs[..t];
  }

  /**
   * Each instance's `only_first_tkn` vector is its first contribution to
   * `union`: the element of the union at the total length of the instances
   * before it.
   */
  lemma {:induction false} OnlyFirstInUnion<T>(filtered: seq<seq<T>>, t: nat)
    requires OnlyFirst(filtered).Ok? && t < |filtered|
    ensures TotalLength(filtered[..t]) < |Union(filtered)|
    ensures OnlyFirst(filtered).value[t] == Union(filtered)[TotalLength(filtered[..t])]
    decreases |filtered|
  {
    var init := filtered[..|filtered| - 1];
    var last := filtered[|filtered| - 1];
    assert forall s :: 0 <= s < |init| ==> init[s] == filtered[s];
    var heads := OnlyFirst(init).value;
    assert OnlyFirst(filtered).value == heads + [last[0]];
    if t < |init| {
      OnlyFirstInUnion(init, t);
      assert init[..t] == filtered[..t];
    } else {
      assert init == filtered[..t];
    }
  }

  /** How `get_data` turns instances into vectors. */
  datatype Aggregation = FirstHiddenMean | Average | UnionSteps | OnlyFirstStep

  const AggregationError: string := "--aggregation-type did not receive a valid option. Only one of 'average', 'union' or 'only_first_tkn'"

  /**
   * The branch `get_data` takes: the first-hidden-embedding type is checked
   * first and bypasses the aggregation type; otherwise only "average",
   * "union" and "only_first_tkn" are accepted.
   */
  function SelectAggregation(embeddingType: string, aggregationType: string): (r: Result<Aggregation>)
    ensures embeddingType == "first_hidden_embedding" ==> r == Ok(FirstHiddenMean)
    ensures r.Err? <==> embeddingType != "first_hidden_embedding" && aggregationType !in {"average", "union", "only_first_tkn"}
    ensures r.Err? ==> r.error == Exception(AggregationError)
    ensures r == Ok(Average) <==> embeddingType != "first_hidden_embedding" && aggregationType == "average"
    ensures r == Ok(UnionSteps) <==> embeddingType != "first_hidden_embedding" && aggregationType == "union"
    ensures r == Ok(OnlyFirstStep) <==> embeddingType != "first_hidden_embedding" && aggregationType == "only_first_tkn"
  {
    if embeddingType == "first_hidden_embedding" then Ok(FirstHiddenMean)
    else if aggregationType == "average" then Ok(Average)
    else if aggregationType == "union" then Ok(UnionSteps)
    else if aggregationType == "only_first_tkn" then Ok(OnlyFirstStep)
    else Err(Exception(AggregationError))
  }

  /** The model names the trainer recognises in an input directory, in the order it tries them. */
  const ModelNames: seq<string> := ["UL2_Flan", "T5_xxl_Flan", "OPT"]

  /**
   * `get_model_name`: the first of the known model names that occurs in the
   * path; a generic exception when none does.
   */
  function ModelName(indir: string): (r: Result<string>)
    ensures r.Err? <==> forall i :: 0 <= i < |ModelNames| ==> !Contains(indir, ModelNames[i])
    ensures r.Err? ==> r.error == Exception("curr model not found in indir: " + indir)
    ensures r.Ok? ==> exists i :: 0 <= i < |ModelNames| && r.value == ModelNames[i] && Contains(indir, ModelNames[i])
                                  && forall h :: 0 <= h < i ==> !Contains(indir, ModelNames[h])
  {
    if Contains(indir, "UL2_Flan") then
      assert ModelNames[0] == "UL2_Flan";
      Ok("UL2_Flan")
    else if Contains(indir, "T5_xxl_Flan") then
      assert ModelNames[1] == "T5_xxl_Flan";
      Ok("T5_xxl_Flan")
    else if Contains(indir, "OPT") then
      assert ModelNames[2] == "OPT";
      Ok("OPT")
    else Err(Exception("curr model not found in indir: " + indir))
  }

  /** `np.zeros(n)` / `np.ones(n)`. */
  function Filled(n: nat, x: real): seq<real> {
    seq(n, _ => x)
  }

  /**
   * The training matrix and labels: the adversarial vectors labelled 0
   * followed by the control-group vectors labelled 1. `np.concatenate` turns
   * an empty block into a 1-D array and a block of vectors into a 2-D one,
   * and raises ValueError when their dimensions differ, so exactly one empty
   * block is an error.
   */
  function TrainingSet<T>(adversarial: seq<T>, controlGroup: seq<T>): (r: Result<(seq<T>, seq<real>)>)
    ensures r.Err? <==> (adversarial == []) != (controlGroup == [])
    ensures r.Err? ==> r.error == ValueError
    ensures r.Ok? ==> |r.value.0| == |r.value.1| == |adversarial| + |controlGroup|
    ensures r.Ok? ==> forall i :: 0 <= i < |r.value.0| ==>
              (r.value.1[i] == 0.0 && i < |adversarial| && r.value.0[i] == adversarial[i])
              || (r.value.1[i] == 1.0 && i >= |adversarial| && r.value.0[i] == controlGroup[i - |adversarial|])
  {
    if (adversarial == []) != (controlGroup == []) then Err(ValueError)
    else Ok((adversarial + controlGroup, Filled(|adversarial|, 0.0) + Filled(|controlGroup|, 1.0)))
  }
}
