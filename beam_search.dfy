/**
 * The candidate bookkeeping of the beam-search decoder `HF_request`.
 *
 * Everything that touches the language model is an oracle: for decoding
 * step `i`, beam index `j` and the beam's decoder input it returns the step's
 * logits, the (possibly erased) last hidden state and the `k` tokens that
 * multinomial sampling drew, each with its probability. With a fixed random
 * seed the draw at call (i, j) is determined, so a function of (i, j, input)
 * covers every run. What remains is a per-step update of `k` beams: seed,
 * expand, carry finished beams, rank by cumulative probability, keep `k`.
 */
module BeamSearch {
  import opened Outcomes
  import opened Ranking

  /** The decoder always runs this many steps. */
  const Steps: nat := 20

  /**
   * One candidate: generated ids (starting with 0), one logits and one hidden
   * vector per step, the decoder input (starting with the pad id) and the
   * cumulative probability.
   */
  datatype Beam<L, H> = Beam(
    outputIds: seq<int>,
    logitsHistory: seq<L>,
    hiddenHistory: seq<H>,
    decoderInput: seq<int>,
    prob: real)

  /** A sampled next token and its probability. */
  datatype Pick = Pick(token: int, prob: real)

  /** What one forward pass and one multinomial draw give for a beam. */
  datatype Forward<L, H> = Forward(logits: L, hidden: H, picks: seq<Pick>)

  /** The padded id matrix and the per-beam histories the decoder returns. */
  datatype Generation<L, H> = Generation(
    outputIds: seq<seq<int>>,
    logits: seq<seq<L>>,
    hidden: seq<seq<H>>)

  /** `torch.multinomial(..., num_samples=k)` draws `k` tokens, each with a probability in [0, 1]. */
  predicate ValidPicks(picks: seq<Pick>, k: nat) {
    |picks| == k && forall t :: 0 <= t < |picks| ==> 0.0 <= picks[t].prob <= 1.0
  }

  ghost predicate SamplesK<L, H>(oracle: (nat, nat, seq<int>) -> Forward<L, H>, k: nat) {
    forall i: nat, j: nat, d: seq<int> :: ValidPicks(oracle(i, j, d).picks, k)
  }

  /** The ranking key. */
  function Prob<L, H>(b: Beam<L, H>): real {
    b.prob
  }

  /** The `k` identical start beams. */
  function Seed<L, H>(k: nat, padId: int): seq<Beam<L, H>> {
    seq(k, _ => Beam([0], [], [], [padId], 1.0))
  }

  /** The last generated id is the end-of-sequence id. */
  predicate Finished<L, H>(b: Beam<L, H>, eosId: int) {
    |b.outputIds| > 0 && b.outputIds[|b.outputIds| - 1] == eosId
  }

  /** The parent extended by one sampled token. */
  function Child<L, H>(parent: Beam<L, H>, f: Forward<L, H>, pick: Pick): Beam<L, H> {
    Beam(parent.outputIds + [pick.token],
         parent.logitsHistory + [f.logits],
         parent.hiddenHistory + [f.hidden],
         parent.decoderInput + [pick.token],
         parent.prob * pick.prob)
  }

  /** One child per sampled token. */
  function Children<L, H>(parent: Beam<L, H>, f: Forward<L, H>): seq<Beam<L, H>> {
    seq(|f.picks|, t requires 0 <= t < |f.picks| => Child(parent, f, f.picks[t]))
  }

  /** What beam `j` adds to the candidate list at step `i`. */
  function Contribution<L, H>(b: Beam<L, H>, i: nat, j: nat, eosId: int,
                              oracle: (nat, nat, seq<int>) -> Forward<L, H>): seq<Beam<L, H>> {
    if i > 0 && Finished(b, eosId) then [b]
    else Children(b, oracle(i, j, b.decoderInput))
  }

  /** The candidate list once the first `n` beams are processed. */
  function CandidatesUpTo<L, H>(beams: seq<Beam<L, H>>, n: nat, i: nat, eosId: int,
                                oracle: (nat, nat, seq<int>) -> Forward<L, H>): seq<Beam<L, H>>
    requires n <= |beams|
  {
    if n == 0 then []
    else CandidatesUpTo(beams, n - 1, i, eosId, oracle) + Contribution(beams[n - 1], i, n - 1, eosId, oracle)
  }

  lemma CandidatesStep<L, H>(beams: seq<Beam<L, H>>, j: nat, i: nat, eosId: int,
                             oracle: (nat, nat, seq<int>) -> Forward<L, H>)
    requires j < |beams|
    ensures CandidatesUpTo(beams, j + 1, i, eosId, oracle)
            == CandidatesUpTo(beams, j, i, eosId, oracle) + Contribution(beams[j], i, j, eosId, oracle)
  {
  }

  /** The candidate list of step `i`; at step 0 only the first beam is expanded. */
  function Candidates<L, H>(beams: seq<Beam<L, H>>, i: nat, eosId: int,
                            oracle: (nat, nat, seq<int>) -> Forward<L, H>): seq<Beam<L, H>> {
    CandidatesUpTo(beams, if i == 0 then Min(1, |beams|) else |beams|, i, eosId, oracle)
  }

  /** One decoding step: the best `k` candidates, by descending probability. */
  function Advance<L, H>(beams: seq<Beam<L, H>>, i: nat, k: nat, eosId: int,
                         oracle: (nat, nat, seq<int>) -> Forward<L, H>): (r: seq<Beam<L, H>>)
    ensures |r| == Min(k, |Candidates(beams, i, eosId, oracle)|)
  {
    TopK(Candidates(beams, i, eosId, oracle), k, Prob)
  }

  /** The beams after `n` steps. */
  function BeamsAfter<L, H>(n: nat, k: nat, padId: int, eosId: int,
                            oracle: (nat, nat, seq<int>) -> Forward<L, H>): seq<Beam<L, H>> {
    if n == 0 then Seed(k, padId)
    else Advance(BeamsAfter(n - 1, k, padId, eosId, oracle), n - 1, k, eosId, oracle)
  }

  /** The length of the longest row. */
  function MaxLen(rows: seq<seq<int>>): (m: nat)
    ensures forall t :: 0 <= t < |rows| ==> |rows[t]| <= m
    ensures rows == [] ==> m == 0
    ensures rows != [] ==> exists t :: 0 <= t < |rows| && |rows[t]| == m
  {
    if rows == [] then 0
    else
      var rest := MaxLen(rows[1..]);
      assert forall t :: 1 <= t < |rows| ==> rows[t] == rows[1..][t - 1];
      if |rows[0]| >= rest then |rows[0]| else rest
  }

  /** `pad_sequence(..., batch_first=True, padding_value=0)`: every row right-padded with 0 to the longest. */
  function PadRows(rows: seq<seq<int>>): (r: seq<seq<int>>)
    ensures |r| == |rows|
    ensures forall t :: 0 <= t < |r| ==> |r[t]| == MaxLen(rows) && r[t][..|rows[t]|] == rows[t]
    ensures forall t, u :: 0 <= t < |r| && |rows[t]| <= u < |r[t]| ==> r[t][u] == 0
  {
    var m := MaxLen(rows);
    seq(|rows|, t requires 0 <= t < |rows| => rows[t] + seq(m - |rows[t]|, _ => 0))
  }

  /** The returned record: padded ids and each beam's histories. */
  function Finish<L, H>(beams: seq<Beam<L, H>>): (g: Generation<L, H>)
    ensures |g.outputIds| == |g.logits| == |g.hidden| == |beams|
    ensures forall t :: 0 <= t < |beams| ==>
              && |beams[t].outputIds| <= |g.outputIds[t]|
              && g.outputIds[t][..|beams[t].outputIds|] == beams[t].outputIds
              && g.logits[t] == beams[t].logitsHistory && g.hidden[t] == beams[t].hiddenHistory
  {
    var rows := seq(|beams|, t requires 0 <= t < |beams| => beams[t].outputIds);
    assert forall t :: 0 <= t < |beams| ==> rows[t] == beams[t].outputIds;
    Generation(PadRows(rows),
               seq(|beams|, t requires 0 <= t < |beams| => beams[t].logitsHistory),
               seq(|beams|, t requires 0 <= t < |beams| => beams[t].hiddenHistory))
  }

  /**
   * `HF_request`: 20 steps of expand-and-prune from `k` identical beams, then
   * the ids padded. With no beams (`k <= 0`) `pad_sequence` of an empty list
   * raises.
   */
  method HFRequest<L, H>(k: int, padId: int, eosId: int, oracle: (nat, nat, seq<int>) -> Forward<L, H>)
    returns (r: Result<Generation<L, H>>)
    requires k > 0 ==> SamplesK(oracle, k)
    ensures r.Err? <==> k <= 0
    ensures r.Err? ==> r.error == RuntimeError
    ensures r.Ok? ==> r.value == Finish(BeamsAfter(Steps, k, padId, eosId, oracle))
  {
    var width: nat := if k > 0 then k else 0;
    var beams := RunSteps(width, padId, eosId, oracle);
    BeamsAfterSound(Steps, width, padId, eosId, oracle);
    if |beams| == 0 {
      return Err(RuntimeError);
    }
    r := Ok(Finish(beams));
  }

  /** The outer loop of `HF_request`: `Steps` rounds of expand-and-prune from the seed beams. */
  method RunSteps<L, H>(width: nat, padId: int, eosId: int, oracle: (nat, nat, seq<int>) -> Forward<L, H>)
    returns (beams: seq<Beam<L, H>>)
    ensures beams == BeamsAfter(Steps, width, padId, eosId, oracle)
  {
    beams := Seed(width, padId);
    for i := 0 to Steps
      invariant beams == BeamsAfter(i, width, padId, eosId, oracle)
    {
      var candidates := ExpandBeams(beams, i, eosId, oracle);
      BeamsAfterStep(i, width, padId, eosId, oracle);
      beams := TopK(candidates, width, Prob);
    }
  }

  /** The inner loop of one step: collect every beam's contribution. */
  method ExpandBeams<L, H>(beams: seq<Beam<L, H>>, i: nat, eosId: int, oracle: (nat, nat, seq<int>) -> Forward<L, H>)
    returns (all: seq<Beam<L, H>>)
    ensures all == Candidates(beams, i, eosId, oracle)
  {
    all := [];
    var j := 0;
    while j < |beams|
      invariant 0 <= j <= |beams|
      invariant i == 0 ==> j == 0
      invariant all == CandidatesUpTo(beams, j, i, eosId, oracle)
    {
      var b := beams[j];
      CandidatesStep(beams, j, i, eosId, oracle);
      if i > 0 && Finished(b, eosId) {
        all := all + [b];
        j := j + 1;
        continue;
      }
      var f := oracle(i, j, b.decoderInput);
      var children := Children(b, f);
      all := all + children;
      j := j + 1;
      if i == 0 {
        break;
      }
    }
  }

  /**
   * The shape every beam keeps after `n` steps: ids start with 0 and grow by
   * one per expansion, one logits and hidden entry per generated id, the
   * decoder input is the pad id followed by the generated ids, and the
   * probability stays in [0, 1].
   */
  predicate WellFormed<L, H>(b: Beam<L, H>, n: nat, padId: int) {
    && 1 <= |b.outputIds| <= n + 1
    && (n >= 1 ==> |b.outputIds| >= 2)
    && b.outputIds[0] == 0
    && |b.logitsHistory| == |b.outputIds| - 1
    && |b.hiddenHistory| == |b.outputIds| - 1
    && b.decoderInput == [padId] + b.outputIds[1..]
    && 0.0 <= b.prob <= 1.0
  }

  predicate AllWellFormed<L, H>(beams: seq<Beam<L, H>>, n: nat, padId: int) {
    forall t :: 0 <= t < |beams| ==> WellFormed(beams[t], n, padId)
  }

  /** `c` is `p` plus one token, one logits and one hidden entry, with no larger probability. */
  ghost predicate ExtendsByOne<L, H>(c: Beam<L, H>, p: Beam<L, H>) {
    && |c.outputIds| == |p.outputIds| + 1 && c.outputIds[..|p.outputIds|] == p.outputIds
    && |c.logitsHistory| == |p.logitsHistory| + 1 && c.logitsHistory[..|p.logitsHistory|] == p.logitsHistory
    && |c.hiddenHistory| == |p.hiddenHistory| + 1 && c.hiddenHistory[..|p.hiddenHistory|] == p.hiddenHistory
    && c.decoderInput == p.decoderInput + [c.outputIds[|p.outputIds|]]
    && 0.0 <= c.prob <= p.prob
  }

  /** At step `i`, `c` is finished `p` carried unchanged, or a child of `p`. */
  ghost predicate DescendsFrom<L, H>(c: Beam<L, H>, p: Beam<L, H>, i: nat, eosId: int) {
    if i > 0 && Finished(p, eosId) then c == p else ExtendsByOne(c, p)
  }

  lemma ScaleDown(p: real, q: real)
    requires 0.0 <= p <= 1.0 && 0.0 <= q <= 1.0
    ensures 0.0 <= p * q <= p
  {
    assert p - p * q == p * (1.0 - q);
    assert p * (1.0 - q) >= 0.0;
  }

  /**
   * An expanded beam yields `k` children: the parent plus the sampled token,
   * the step's logits and hidden state, with probability parent times token,
   * never above the parent's.
   */
  lemma ExpandedChildren<L, H>(b: Beam<L, H>, i: nat, j: nat, k: nat, eosId: int,
                               oracle: (nat, nat, seq<int>) -> Forward<L, H>)
    requires !(i > 0 && Finished(b, eosId))
    requires ValidPicks(oracle(i, j, b.decoderInput).picks, k) && 0.0 <= b.prob <= 1.0
    ensures var f := oracle(i, j, b.decoderInput);
            var cs := Contribution(b, i, j, eosId, oracle);
            && |cs| == k
            && forall t :: 0 <= t < k ==>
                 && cs[t] == Beam(b.outputIds + [f.picks[t].token], b.logitsHistory + [f.logits],
                                  b.hiddenHistory + [f.hidden], b.decoderInput + [f.picks[t].token],
                                  b.prob * f.picks[t].prob)
                 && 0.0 <= cs[t].prob <= b.prob
  {
    var f := oracle(i, j, b.decoderInput);
    var cs := Contribution(b, i, j, eosId, oracle);
    assert cs == Children(b, f);
    forall t | 0 <= t < k ensures 0.0 <= cs[t].prob <= b.prob {
      ScaleDown(b.prob, f.picks[t].prob);
    }
  }

  /** At steps after 0, a finished beam reaches the candidate list unchanged. */
  lemma {:induction false} FinishedCarriedForward<L, H>(beams: seq<Beam<L, H>>, n: nat, i: nat, j: nat, eosId: int,
                                                         oracle: (nat, nat, seq<int>) -> Forward<L, H>)
    requires i > 0 && j < n <= |beams| && Finished(beams[j], eosId)
    ensures beams[j] in CandidatesUpTo(beams, n, i, eosId, oracle)
  {
    if n - 1 > j {
      FinishedCarriedForward(beams, n - 1, i, j, eosId, oracle);
    } else {
      assert Contribution(beams[j], i, j, eosId, oracle) == [beams[j]];
    }
  }

  /** The first step expands the first of the `k` identical seeds into exactly `k` candidates. */
  lemma FirstStepExpandsOneSeed<L, H>(k: nat, padId: int, eosId: int, oracle: (nat, nat, seq<int>) -> Forward<L, H>)
    requires k >= 1 && SamplesK(oracle, k)
    ensures var f := oracle(0, 0, [padId]);
            var c := Candidates(Seed(k, padId), 0, eosId, oracle);
            && |c| == k
            && forall t :: 0 <= t < k ==>
                 c[t] == Beam([0, f.picks[t].token], [f.logits], [f.hidden], [padId, f.picks[t].token], f.picks[t].prob)
  {
    var seed: seq<Beam<L, H>> := Seed(k, padId);
    var f := oracle(0, 0, [padId]);
    assert seed[0] == Beam([0], [], [], [padId], 1.0);
    assert Candidates(seed, 0, eosId, oracle) == CandidatesUpTo(seed, 1, 0, eosId, oracle);
    assert CandidatesUpTo(seed, 1, 0, eosId, oracle) == [] + Contribution(seed[0], 0, 0, eosId, oracle);
    var cs := Children(seed[0], f);
    assert Contribution(seed[0], 0, 0, eosId, oracle) == cs;
    assert ValidPicks(f.picks, k);
    forall t | 0 <= t < k
      ensures cs[t] == Beam([0, f.picks[t].token], [f.logits], [f.hidden], [padId, f.picks[t].token], f.picks[t].prob)
    {
      assert cs[t] == Child(seed[0], f, f.picks[t]);
    }
  }

  /** Every candidate of a step is well formed one step on and descends from one of the processed beams. */
  lemma {:induction false} CandidatesSound<L, H>(beams: seq<Beam<L, H>>, n: nat, i: nat, k: nat, padId: int, eosId: int,
                                                  oracle: (nat, nat, seq<int>) -> Forward<L, H>)
    requires n <= |beams| && SamplesK(oracle, k) && AllWellFormed(beams, i, padId)
    ensures forall c :: c in CandidatesUpTo(beams, n, i, eosId, oracle) ==>
              WellFormed(c, i + 1, padId) && exists j :: 0 <= j < n && DescendsFrom(c, beams[j], i, eosId)
  {
    if n > 0 {
      CandidatesSound(beams, n - 1, i, k, padId, eosId, oracle);
      ContributionSound(beams[n - 1], i, n - 1, k, padId, eosId, oracle);
    }
  }

  /** What one beam contributes is well formed one step on and descends from it. */
  lemma ContributionSound<L, H>(b: Beam<L, H>, i: nat, j: nat, k: nat, padId: int, eosId: int,
                                oracle: (nat, nat, seq<int>) -> Forward<L, H>)
    requires SamplesK(oracle, k) && WellFormed(b, i, padId)
    ensures forall c :: c in Contribution(b, i, j, eosId, oracle) ==>
              WellFormed(c, i + 1, padId) && DescendsFrom(c, b, i, eosId)
  {
    if !(i > 0 && Finished(b, eosId)) {
      var f := oracle(i, j, b.decoderInput);
      assert ValidPicks(f.picks, k);
      var cs := Children(b, f);
      forall c | c in cs
        ensures WellFormed(c, i + 1, padId) && ExtendsByOne(c, b)
      {
        var t :| 0 <= t < |cs| && cs[t] == c;
        ChildSound(b, f, f.picks[t], i, padId);
      }
    }
  }

  /** A child of a well-formed beam is well formed one step on and extends it by one. */
  lemma ChildSound<L, H>(b: Beam<L, H>, f: Forward<L, H>, pick: Pick, i: nat, padId: int)
    requires WellFormed(b, i, padId) && 0.0 <= pick.prob <= 1.0
    ensures WellFormed(Child(b, f, pick), i + 1, padId) && ExtendsByOne(Child(b, f, pick), b)
  {
    var c := Child(b, f, pick);
    ScaleDown(b.prob, pick.prob);
    assert 0.0 <= c.prob <= b.prob;
    assert c.outputIds[..|b.outputIds|] == b.outputIds;
    assert c.logitsHistory[..|b.logitsHistory|] == b.logitsHistory;
    assert c.hiddenHistory[..|b.hiddenHistory|] == b.hiddenHistory;
    assert c.outputIds[|b.outputIds|] == pick.token;
    assert c.outputIds[1..] == b.outputIds[1..] + [pick.token];
    assert c.decoderInput == [padId] + c.outputIds[1..];
  }

  /** With `k >= 1` tokens per expansion every processed beam adds at least one candidate. */
  lemma {:induction false} CandidatesCount<L, H>(beams: seq<Beam<L, H>>, n: nat, i: nat, k: nat, eosId: int,
                                                  oracle: (nat, nat, seq<int>) -> Forward<L, H>)
    requires n <= |beams| && k >= 1 && SamplesK(oracle, k)
    ensures |CandidatesUpTo(beams, n, i, eosId, oracle)| >= n
  {
    if n > 0 {
      CandidatesCount(beams, n - 1, i, k, eosId, oracle);
      var b := beams[n - 1];
      if !(i > 0 && Finished(b, eosId)) {
        assert ValidPicks(oracle(i, n - 1, b.decoderInput).picks, k);
      }
    }
  }

  /**
   * One step keeps exactly `k` beams, ordered by non-increasing probability,
   * each well formed and each a finished beam carried forward or a child of
   * a beam of the previous step, with no larger probability.
   */
  lemma AdvanceSound<L, H>(beams: seq<Beam<L, H>>, i: nat, k: nat, padId: int, eosId: int,
                           oracle: (nat, nat, seq<int>) -> Forward<L, H>)
    requires k >= 1 && SamplesK(oracle, k) && |beams| == k && AllWellFormed(beams, i, padId)
    ensures var next := Advance(beams, i, k, eosId, oracle);
            && |next| == k
            && NonIncreasing(next, Prob)
            && AllWellFormed(next, i + 1, padId)
            && (forall t :: 0 <= t < k ==> exists j :: 0 <= j < k && DescendsFrom(next[t], beams[j], i, eosId))
  {
    var n := if i == 0 then 1 else k;
    var c := Candidates(beams, i, eosId, oracle);
    assert c == CandidatesUpTo(beams, n, i, eosId, oracle);
    if i == 0 {
      assert c == CandidatesUpTo(beams, 0, 0, eosId, oracle) + Contribution(beams[0], 0, 0, eosId, oracle);
      assert c == Contribution(beams[0], 0, 0, eosId, oracle);
      assert ValidPicks(oracle(0, 0, beams[0].decoderInput).picks, k);
    } else {
      CandidatesCount(beams, k, i, k, eosId, oracle);
    }
    CandidatesSound(beams, n, i, k, padId, eosId, oracle);
    var next := TopK(c, k, Prob);
    TopKSound(c, k, Prob);
    forall t | 0 <= t < k
      ensures WellFormed(next[t], i + 1, padId)
      ensures exists j :: 0 <= j < k && DescendsFrom(next[t], beams[j], i, eosId)
    {
      assert next[t] in multiset(next);
      assert next[t] in c;
    }
  }

  /** One step keeps "exactly `k` well-formed beams", also for `k == 0`. */
  lemma StepSound<L, H>(prev: seq<Beam<L, H>>, i: nat, k: nat, padId: int, eosId: int,
                        oracle: (nat, nat, seq<int>) -> Forward<L, H>)
    requires k >= 1 ==> SamplesK(oracle, k)
    requires |prev| == k && AllWellFormed(prev, i, padId)
    ensures |Advance(prev, i, k, eosId, oracle)| == k && AllWellFormed(Advance(prev, i, k, eosId, oracle), i + 1, padId)
  {
    if k >= 1 {
      AdvanceSound(prev, i, k, padId, eosId, oracle);
    } else {
      assert |Advance(prev, i, k, eosId, oracle)| == 0;
    }
  }

  /** After every number of steps there are exactly `k` well-formed beams. */
  lemma {:induction false} BeamsAfterSound<L, H>(n: nat, k: nat, padId: int, eosId: int,
                                                  oracle: (nat, nat, seq<int>) -> Forward<L, H>)
    requires k >= 1 ==> SamplesK(oracle, k)
    ensures |BeamsAfter(n, k, padId, eosId, oracle)| == k
    ensures AllWellFormed(BeamsAfter(n, k, padId, eosId, oracle), n, padId)
  {
    if n == 0 {
      SeedWellFormed<L, H>(k, padId);
    } else {
      var m := n - 1;
      BeamsAfterSound(m, k, padId, eosId, oracle);
      NextSound(m, k, padId, eosId, oracle);
      assert m + 1 == n;
    }
  }

  /** The step from `n` to `n + 1` steps keeps exactly `k` well-formed beams. */
  lemma NextSound<L, H>(n: nat, k: nat, padId: int, eosId: int, oracle: (nat, nat, seq<int>) -> Forward<L, H>)
    requires k >= 1 ==> SamplesK(oracle, k)
    requires |BeamsAfter(n, k, padId, eosId, oracle)| == k && AllWellFormed(BeamsAfter(n, k, padId, eosId, oracle), n, padId)
    ensures |BeamsAfter(n + 1, k, padId, eosId, oracle)| == k
    ensures AllWellFormed(BeamsAfter(n + 1, k, padId, eosId, oracle), n + 1, padId)
  {
    BeamsAfterStep(n, k, padId, eosId, oracle);
    StepSound(BeamsAfter(n, k, padId, eosId, oracle), n, k, padId, eosId, oracle);
  }

  /** One more step advances the beams of the previous one. */
  lemma BeamsAfterStep<L, H>(n: nat, k: nat, padId: int, eosId: int, oracle: (nat, nat, seq<int>) -> Forward<L, H>)
    ensures BeamsAfter(n + 1, k, padId, eosId, oracle) == Advance(BeamsAfter(n, k, padId, eosId, oracle), n, k, eosId, oracle)
  {
  }

  /** The start beams are well formed before any step. */
  lemma SeedWellFormed<L, H>(k: nat, padId: int)
    ensures |Seed<L, H>(k, padId)| == k && AllWellFormed(Seed<L, H>(k, padId), 0, padId)
  {
    var seed: seq<Beam<L, H>> := Seed(k, padId);
    forall t | 0 <= t < k ensures WellFormed(seed[t], 0, padId) {
      assert seed[t] == Beam([0], [], [], [padId], 1.0);
      assert [0][1..] == [];
    }
  }

  /**
   * Across a step no kept beam gains probability: each beam after step
   * `n + 1` is a beam after step `n`, carried, or one of its children.
   */
  lemma ProbabilityNeverGrows<L, H>(n: nat, k: nat, padId: int, eosId: int,
                                    oracle: (nat, nat, seq<int>) -> Forward<L, H>)
    requires k >= 1 && SamplesK(oracle, k)
    ensures var before, after := BeamsAfter(n, k, padId, eosId, oracle), BeamsAfter(n + 1, k, padId, eosId, oracle);
            forall t :: 0 <= t < |after| ==> exists j :: 0 <= j < |before| && after[t].prob <= before[j].prob
  {
    BeamsAfterSound(n, k, padId, eosId, oracle);
    var before := BeamsAfter(n, k, padId, eosId, oracle);
    AdvanceSound(before, n, k, padId, eosId, oracle);
    var after := BeamsAfter(n + 1, k, padId, eosId, oracle);
    forall t | 0 <= t < |after| ensures exists j :: 0 <= j < |before| && after[t].prob <= before[j].prob {
      var j :| 0 <= j < k && DescendsFrom(after[t], before[j], n, eosId);
      assert after[t].prob <= before[j].prob;
    }
  }

  /**
   * The returned id matrix has one row per beam; each row is that beam's ids
   * (starting with 0, at least one generated token) right-padded with 0 to
   * the longest beam, which is at most 21 ids long.
   */
  lemma GenerationShape<L, H>(k: nat, padId: int, eosId: int, oracle: (nat, nat, seq<int>) -> Forward<L, H>)
    requires k >= 1 && SamplesK(oracle, k)
    ensures var beams := BeamsAfter(Steps, k, padId, eosId, oracle);
            var g := Finish(beams);
            && |g.outputIds| == k && |g.logits| == k && |g.hidden| == k
            && (forall t :: 0 <= t < k ==>
                  && 2 <= |beams[t].outputIds| <= |g.outputIds[t]| <= Steps + 1
                  && g.outputIds[t][..|beams[t].outputIds|] == beams[t].outputIds
                  && g.outputIds[t][0] == 0
                  && (forall u :: |beams[t].outputIds| <= u < |g.outputIds[t]| ==> g.outputIds[t][u] == 0)
                  && |g.logits[t]| == |g.hidden[t]| == |beams[t].outputIds| - 1)
  {
    BeamsAfterSound(Steps, k, padId, eosId, oracle);
    FinishShape(BeamsAfter(Steps, k, padId, eosId, oracle), Steps, padId);
  }

  /** What `Finish` makes of beams that are well formed after `n` steps. */
  lemma FinishShape<L, H>(beams: seq<Beam<L, H>>, n: nat, padId: int)
    requires n >= 1 && AllWellFormed(beams, n, padId)
    ensures var g := Finish(beams);
            && |g.outputIds| == |beams| && |g.logits| == |beams| && |g.hidden| == |beams|
            && (forall t :: 0 <= t < |beams| ==>
                  && 2 <= |beams[t].outputIds| <= |g.outputIds[t]| <= n + 1
                  && g.outputIds[t][..|beams[t].outputIds|] == beams[t].outputIds
                  && g.outputIds[t][0] == 0
                  && (forall u :: |beams[t].outputIds| <= u < |g.outputIds[t]| ==> g.outputIds[t][u] == 0)
                  && |g.logits[t]| == |g.hidden[t]| == |beams[t].outputIds| - 1)
  {
    var rows := seq(|beams|, t requires 0 <= t < |beams| => beams[t].outputIds);
    var g := Finish(beams);
    if |beams| > 0 {
      var w :| 0 <= w < |rows| && |rows[w]| == MaxLen(rows);
      assert WellFormed(beams[w], n, padId);
    }
    forall t | 0 <= t < |beams| ensures g.outputIds[t][0] == 0 {
      assert WellFormed(beams[t], n, padId);
      assert g.outputIds[t][..|rows[t]|][0] == rows[t][0];
    }
  }
}
