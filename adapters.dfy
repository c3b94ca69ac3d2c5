/**
 * The three dataset adapters `get_responses_unanswerable_questions_{squad,NQ,musique}`.
 * Each truncates the loaded records, cuts them into consecutive batches and,
 * batch by batch, extends the columns of a response table: per-sample columns
 * (ids, the leading field, the question) and per-batch model generations, or
 * `batch_size` blanks where a prompt kind is switched off.
 *
 * The JSON file becomes the list of records; the request function (the
 * beam-search decoder with its model arguments) is a parameter that either
 * returns a generation or raises.
 */
module Adapters {
  import opened Outcomes
  import opened PromptFields

  datatype Dataset = Squad | NQ | Musique

  /**
   * One prompt record. `id` is the dataset's identifier key ("id", or
   * "example_id" for NQ); only the unanswerability reason may be absent.
   */
  datatype Sample = Sample(
    id: string,
    annotationId: string,
    adversarial: string,
    pseudoAdversarial: string,
    cotAdversarial: string,
    answerability: string,
    reason: Option<string>)

  /** The four prompt variants a record carries. */
  datatype PromptKind = AdversarialPrompt | PseudoAdversarialPrompt | CoTAdversarialPrompt | AnswerabilityPrompt

  /** The per-sample values the adapters copy or extract. */
  datatype SampleField = IdText | AnnotationText | ReasonText | LeadText | QuestionText

  /** A response-table entry: a string, or what one request returned. */
  datatype Cell<G> = Text(text: string) | Generated(generation: G)

  /** The four generation columns. */
  datatype Generations<G> = Generations(
    adversarial: seq<Cell<G>>,
    answerability: seq<Cell<G>>,
    pseudoAdversarial: seq<Cell<G>>,
    cotAdversarial: seq<Cell<G>>)

  function LeadMarker(ds: Dataset): (m: string)
    ensures IsLeadMarker(m)
  {
    if ds == Musique then ContextMarker else PassageMarker
  }

  /** The column name of the leading field. */
  function LeadName(ds: Dataset): string {
    if ds == Musique then "Context" else "Passage"
  }

  function PromptOf(s: Sample, kind: PromptKind): string {
    match kind
    case AdversarialPrompt => s.adversarial
    case PseudoAdversarialPrompt => s.pseudoAdversarial
    case CoTAdversarialPrompt => s.cotAdversarial
    case AnswerabilityPrompt => s.answerability
  }

  function Prompts(batch: seq<Sample>, kind: PromptKind): seq<string> {
    seq(|batch|, t requires 0 <= t < |batch| => PromptOf(batch[t], kind))
  }

  function SampleText(s: Sample, f: SampleField, ds: Dataset): string {
    match f
    case IdText => s.id
    case AnnotationText => s.annotationId
    case ReasonText => (match s.reason case Some(x) => x case None => "")
    case LeadText => LeadField(s.adversarial, LeadMarker(ds)).ValueOr("")
    case QuestionText => Question(s.adversarial).ValueOr("")
  }

  /** One text cell per sample, in order. */
  function MapCells<G>(s: seq<Sample>, f: SampleField, ds: Dataset): seq<Cell<G>> {
    seq(|s|, t requires 0 <= t < |s| => Text(SampleText(s[t], f, ds)))
  }

  /** `[""] * n`. */
  function Blanks<G>(n: nat): seq<Cell<G>> {
    seq(n, _ => Text(""))
  }

  /** Python's `data[:n]` for an optional `n`; a negative `n` drops that many records from the end. */
  function Truncate<T>(data: seq<T>, n: Option<int>): (r: seq<T>)
    ensures r <= data
    ensures n.None? ==> r == data
    ensures n.Some? && n.value >= 0 ==> |r| == Min(n.value, |data|)
    ensures n.Some? && n.value < 0 ==> |r| == Max(|data| + n.value, 0)
  {
    match n
    case None => data
    case Some(m) => data[..if m >= 0 then Min(m, |data|) else Max(|data| + m, 0)]
  }

  /**
   * `int(np.ceil(n / bs))` as the number of loop rounds: the least count of
   * `bs`-sized batches covering `n` records; a negative size gives an empty
   * `range`.
   */
  function NumBatches(n: nat, bs: int): (r: nat)
    requires bs != 0
    ensures bs < 0 ==> r == 0
    ensures bs > 0 ==> r * bs >= n && (r == 0 || (r - 1) * bs < n)
  {
    if bs < 0 then 0
    else
      var q := (n + bs - 1) / bs;
      var rem := (n + bs - 1) % bs;
      assert n + bs - 1 == q * bs + rem && 0 <= rem < bs;
      assert (q - 1) * bs == q * bs - bs;
      q
  }

  /** `data[b*bs:(b+1)*bs]`, clamped as Python slices are. */
  function BatchAt<T>(data: seq<T>, b: nat, bs: int): (r: seq<T>)
    requires bs > 0
    ensures |r| <= bs
    ensures forall t :: 0 <= t < |r| ==> b * bs + t < |data| && r[t] == data[b * bs + t]
    ensures b * bs < |data| ==> |r| == Min(bs, |data| - b * bs)
  {
    data[Min(b * bs, |data|)..Min((b + 1) * bs, |data|)]
  }

  /** The records the first `b` batches cover. */
  function Taken<T>(data: seq<T>, b: nat, bs: int): seq<T>
    requires bs > 0 || b == 0
  {
    if b == 0 then [] else data[..Min(b * bs, |data|)]
  }

  function Flatten<T>(xs: seq<seq<T>>): seq<T> {
    if xs == [] then [] else Flatten(xs[..|xs| - 1]) + xs[|xs| - 1]
  }

  /** The first `b` batches together are the first `min(b * bs, len)` records. */
  lemma {:induction false} BatchesPrefix<T>(data: seq<T>, b: nat, bs: int)
    requires bs > 0
    ensures Flatten(seq(b, bb requires 0 <= bb < b => BatchAt(data, bb, bs))) == data[..Min(b * bs, |data|)]
  {
    var xs := seq(b, bb requires 0 <= bb < b => BatchAt(data, bb, bs));
    if b > 0 {
      assert xs[..b - 1] == seq(b - 1, bb requires 0 <= bb < b - 1 => BatchAt(data, bb, bs));
      BatchesPrefix(data, b - 1, bs);
      NextBatch(data, b - 1, bs);
    }
  }

  /** Batch `c` continues the records the batches before it cover. */
  lemma NextBatch<T>(data: seq<T>, c: nat, bs: int)
    requires bs > 0
    ensures data[..Min(c * bs, |data|)] + BatchAt(data, c, bs) == data[..Min((c + 1) * bs, |data|)]
  {
    assert (c + 1) * bs == c * bs + bs;
    SliceJoin(data, Min(c * bs, |data|), Min((c + 1) * bs, |data|));
  }

  lemma SliceJoin<T>(data: seq<T>, lo: nat, hi: nat)
    requires lo <= hi <= |data|
    ensures data[..lo] + data[lo..hi] == data[..hi]
  {
  }

  /**
   * The batches partition the records: together, in order, they are the
   * whole data, and each is non-empty and holds at most `bs` records.
   */
  lemma BatchesPartition<T>(data: seq<T>, bs: int)
    requires bs > 0
    ensures var nb := NumBatches(|data|, bs);
            var batches := seq(nb, b requires 0 <= b < nb => BatchAt(data, b, bs));
            && Flatten(batches) == data
            && forall b :: 0 <= b < nb ==> 0 < |batches[b]| <= bs
  {
    var nb := NumBatches(|data|, bs);
    BatchesPrefix(data, nb, bs);
    assert data[..Min(nb * bs, |data|)] == data;
    forall b | 0 <= b < nb ensures 0 < |BatchAt(data, b, bs)| <= bs {
      MulLe(b, nb - 1, bs);
      var m := b * bs;
      assert (b + 1) * bs == m + bs;
      assert m < |data|;
    }
  }

  lemma MulLe(a: int, b: int, c: int)
    requires a <= b && c >= 0
    ensures a * c <= b * c
  {
    assert b * c - a * c == (b - a) * c;
  }

  /** Every record of the batch has the unanswerability reason. */
  predicate AllHaveReason(batch: seq<Sample>) {
    forall t :: 0 <= t < |batch| ==> batch[t].reason.Some?
  }

  /** Every record's adversarial prompt holds both markers. */
  predicate AllLeadsPresent(batch: seq<Sample>, ds: Dataset) {
    batch == [] || (HasLead(batch[0], ds) && AllLeadsPresent(batch[1..], ds))
  }

  /** The record's adversarial prompt holds both markers of its leading field. */
  predicate HasLead(s: Sample, ds: Dataset) {
    LeadField(s.adversarial, LeadMarker(ds)).Ok?
  }

  /** The list comprehension over the leading-field extractor: it raises at the first record that lacks a marker. */
  function ExtractLeads<G>(batch: seq<Sample>, ds: Dataset): (r: Result<seq<Cell<G>>>)
    ensures r.Err? ==> r.error == ValueError
  {
    if batch == [] then Ok([])
    else
      match LeadField(batch[0].adversarial, LeadMarker(ds))
      case Err(e) => Err(e)
      case Ok(x) =>
        match ExtractLeads(batch[1..], ds)
        case Err(e) => Err(e)
        case Ok(rest) => Ok([Text(x)] + rest)
  }

  /** The extraction succeeds exactly when every prompt holds both markers, and then yields the leading-field column. */
  lemma {:induction false} ExtractLeadsSound<G>(batch: seq<Sample>, ds: Dataset)
    ensures ExtractLeads<G>(batch, ds).Ok? <==> AllLeadsPresent(batch, ds)
    ensures ExtractLeads<G>(batch, ds).Ok? ==> ExtractLeads<G>(batch, ds).value == MapCells(batch, LeadText, ds)
  {
    if batch != [] {
      ExtractLeadsSound<G>(batch[1..], ds);
      MapCellsCons<G>(batch, LeadText, ds);
    }
  }

  lemma MapCellsCons<G>(s: seq<Sample>, f: SampleField, ds: Dataset)
    requires s != []
    ensures MapCells<G>(s, f, ds) == [Text(SampleText(s[0], f, ds))] + MapCells(s[1..], f, ds)
  {
    assert s == [s[0]] + s[1..];
    MapCellsAppend<G>([s[0]], s[1..], f, ds);
  }

  /** The requests one batch issues, in the order the source issues them. */
  function RequestsOf(onlyHintPrompts: bool, onlyAdversarial: bool): seq<PromptKind> {
    (if onlyHintPrompts then [] else if onlyAdversarial then [AdversarialPrompt] else [AdversarialPrompt, AnswerabilityPrompt])
    + (if onlyAdversarial then [] else [PseudoAdversarialPrompt, CoTAdversarialPrompt])
  }

  /** The error of the first failing request, if any. */
  function FirstRequestError<G>(batch: seq<Sample>, kinds: seq<PromptKind>, request: seq<string> -> Result<G>): Option<PyError> {
    if kinds == [] then None
    else
      match request(Prompts(batch, kinds[0]))
      case Err(e) => Some(e)
      case Ok(_) => FirstRequestError(batch, kinds[1..], request)
  }

  /**
   * What one batch raises: a missing reason first (KeyError), then the first
   * failing request, then a prompt without its markers (ValueError).
   */
  function BatchFailure<G>(ds: Dataset, batch: seq<Sample>, hasReason: bool, onlyHintPrompts: bool, onlyAdversarial: bool,
                           request: seq<string> -> Result<G>): Option<PyError> {
    if hasReason && !AllHaveReason(batch) then Some(KeyError)
    else if FirstRequestError(batch, RequestsOf(onlyHintPrompts, onlyAdversarial), request).Some? then
      FirstRequestError(batch, RequestsOf(onlyHintPrompts, onlyAdversarial), request)
    else if !AllLeadsPresent(batch, ds) then Some(ValueError)
    else None
  }

  /** The squad adapter adds a reason column when the first record has one. */
  predicate HasReasonColumn(ds: Dataset, data: seq<Sample>) {
    ds == Squad && |data| > 0 && data[0].reason.Some?
  }

  /** What batch `b` of the records raises. */
  function BatchFailureAt<G>(ds: Dataset, data: seq<Sample>, onlyHintPrompts: bool, onlyAdversarial: bool, bs: int,
                             request: seq<string> -> Result<G>, b: nat): Option<PyError>
    requires bs > 0
  {
    BatchFailure(ds, BatchAt(data, b, bs), HasReasonColumn(ds, data), onlyHintPrompts, onlyAdversarial, request)
  }

  /** The first error among `fail(b)`, ..., `fail(n - 1)`, scanning upwards. */
  function FirstError(fail: nat -> Option<PyError>, b: nat, n: nat): Option<PyError>
    decreases n - b
  {
    if b >= n then None
    else if fail(b).Some? then fail(b)
    else FirstError(fail, b + 1, n)
  }

  /** What each batch of the records raises. */
  function BatchFailures<G>(ds: Dataset, data: seq<Sample>, onlyHintPrompts: bool, onlyAdversarial: bool, bs: int,
                            request: seq<string> -> Result<G>): nat -> Option<PyError>
    requires bs > 0
  {
    (c: nat) => BatchFailureAt(ds, data, onlyHintPrompts, onlyAdversarial, bs, request, c)
  }

  /** The first failure among batches `b` onwards. */
  function FailureFrom<G>(ds: Dataset, data: seq<Sample>, onlyHintPrompts: bool, onlyAdversarial: bool, bs: int,
                          request: seq<string> -> Result<G>, b: nat): Option<PyError>
    requires bs > 0
  {
    FirstError(BatchFailures(ds, data, onlyHintPrompts, onlyAdversarial, bs, request), b, NumBatches(|data|, bs))
  }

  /**
   * The exception an adapter raises on the (truncated) records: squad reads
   * `data[0]` first (IndexError on no records), then the batch count divides
   * by the batch size, then the first failing batch decides.
   */
  function Failure<G>(ds: Dataset, data: seq<Sample>, onlyHintPrompts: bool, onlyAdversarial: bool, bs: int,
                      request: seq<string> -> Result<G>): Option<PyError> {
    if ds == Squad && |data| == 0 then Some(IndexError)
    else if bs == 0 then Some(ZeroDivisionError)
    else if bs < 0 then None
    else FailureFrom(ds, data, onlyHintPrompts, onlyAdversarial, bs, request, 0)
  }

  function GeneratedCell<G>(res: Result<G>): Cell<G> {
    match res
    case Ok(g) => Generated(g)
    case Err(_) => Text("")
  }

  /**
   * What one batch appends to the generation columns: one generation per
   * request (the request returns a one-element list), or `bs` blanks for a
   * switched-off prompt kind.
   */
  function BatchGenerations<G>(batch: seq<Sample>, onlyHintPrompts: bool, onlyAdversarial: bool, bs: nat,
                               request: seq<string> -> Result<G>): Generations<G> {
    Generations(
      if onlyHintPrompts then Blanks(bs) else [GeneratedCell(request(Prompts(batch, AdversarialPrompt)))],
      if onlyHintPrompts || onlyAdversarial then Blanks(bs) else [GeneratedCell(request(Prompts(batch, AnswerabilityPrompt)))],
      if onlyAdversarial then Blanks(bs) else [GeneratedCell(request(Prompts(batch, PseudoAdversarialPrompt)))],
      if onlyAdversarial then Blanks(bs) else [GeneratedCell(request(Prompts(batch, CoTAdversarialPrompt)))])
  }

  function Concat<G>(a: Generations<G>, b: Generations<G>): Generations<G> {
    Generations(a.adversarial + b.adversarial, a.answerability + b.answerability,
                a.pseudoAdversarial + b.pseudoAdversarial, a.cotAdversarial + b.cotAdversarial)
  }

  /** The generation columns after `b` batches. */
  function GenerationsUpTo<G>(data: seq<Sample>, onlyHintPrompts: bool, onlyAdversarial: bool, bs: int,
                              request: seq<string> -> Result<G>, b: nat): Generations<G>
    requires bs > 0 || b == 0
  {
    if b == 0 then Generations([], [], [], [])
    else Concat(GenerationsUpTo(data, onlyHintPrompts, onlyAdversarial, bs, request, b - 1),
                BatchGenerations(BatchAt(data, b - 1, bs), onlyHintPrompts, onlyAdversarial, bs, request))
  }

  /** The columns of the response table while it is being filled. */
  datatype Columns<G> = Columns(
    ids: seq<Cell<G>>,
    annotationIds: seq<Cell<G>>,
    reasons: seq<Cell<G>>,
    generations: Generations<G>,
    leads: seq<Cell<G>>,
    questions: seq<Cell<G>>)

  /** What one batch appends to the columns when nothing raises. */
  function Extend<G>(c: Columns<G>, batch: seq<Sample>, ds: Dataset, hasReason: bool, onlyHintPrompts: bool,
                     onlyAdversarial: bool, bs: nat, request: seq<string> -> Result<G>): Columns<G> {
    Columns(c.ids + MapCells(batch, IdText, ds),
            if ds == NQ then c.annotationIds + MapCells(batch, AnnotationText, ds) else c.annotationIds,
            if hasReason then c.reasons + MapCells(batch, ReasonText, ds) else c.reasons,
            Concat(c.generations, BatchGenerations(batch, onlyHintPrompts, onlyAdversarial, bs, request)),
            c.leads + MapCells(batch, LeadText, ds),
            c.questions + MapCells(batch, QuestionText, ds))
  }

  /** The columns after the first `b` batches, in closed form. */
  function ColumnsAfter<G>(ds: Dataset, data: seq<Sample>, onlyHintPrompts: bool, onlyAdversarial: bool, bs: int,
                           request: seq<string> -> Result<G>, b: nat): Columns<G>
    requires bs > 0 || b == 0
  {
    var taken := Taken(data, b, bs);
    Columns(MapCells(taken, IdText, ds),
            if ds == NQ then MapCells(taken, AnnotationText, ds) else [],
            if HasReasonColumn(ds, data) then MapCells(taken, ReasonText, ds) else [],
            GenerationsUpTo(data, onlyHintPrompts, onlyAdversarial, bs, request, b),
            MapCells(taken, LeadText, ds),
            MapCells(taken, QuestionText, ds))
  }

  /** The response table, keyed as the source keys it. */
  function Assemble<G>(ds: Dataset, hasReason: bool, c: Columns<G>): map<string, seq<Cell<G>>> {
    var g := c.generations;
    var base := map["ids" := c.ids, "Adversarial" := g.adversarial, "Pseudo-Adversarial" := g.pseudoAdversarial,
                    "CoT-Adversarial" := g.cotAdversarial, "Answerability" := g.answerability,
                    LeadName(ds) := c.leads, "Question" := c.questions];
    var withAnnotations := if ds == NQ then base["annotation_ids" := c.annotationIds] else base;
    if hasReason then withAnnotations["Unanswerablity-Reason" := c.reasons] else withAnnotations
  }

  /** The table an adapter returns when nothing raises. */
  function Expected<G>(ds: Dataset, data: seq<Sample>, onlyHintPrompts: bool, onlyAdversarial: bool, bs: int,
                       request: seq<string> -> Result<G>): map<string, seq<Cell<G>>>
    requires bs != 0
  {
    Assemble(ds, HasReasonColumn(ds, data),
             ColumnsAfter(ds, data, onlyHintPrompts, onlyAdversarial, bs, request, NumBatches(|data|, bs)))
  }

  /** The requests of one batch, issued as the source's if/elif chains issue them. */
  method RunRequests<G>(batch: seq<Sample>, onlyHintPrompts: bool, onlyAdversarial: bool, bs: nat,
                        request: seq<string> -> Result<G>)
    returns (r: Result<Generations<G>>)
    ensures r == RaiseOr(FirstRequestError(batch, RequestsOf(onlyHintPrompts, onlyAdversarial), request),
                         BatchGenerations(batch, onlyHintPrompts, onlyAdversarial, bs, request))
  {
    var kinds := RequestsOf(onlyHintPrompts, onlyAdversarial);
    var adversarial, answerability, pseudo, cot: seq<Cell<G>>;
    if onlyHintPrompts {
      adversarial := Blanks(bs);
      answerability := Blanks(bs);
    } else if onlyAdversarial {
      var g := request(Prompts(batch, AdversarialPrompt));
      if g.Err? {
        return Err(g.error);
      }
      adversarial := [Generated(g.value)];
      answerability := Blanks(bs);
    } else {
      var g := request(Prompts(batch, AdversarialPrompt));
      if g.Err? {
        return Err(g.error);
      }
      adversarial := [Generated(g.value)];
      var h := request(Prompts(batch, AnswerabilityPrompt));
      if h.Err? {
        assert kinds[1..][0] == AnswerabilityPrompt;
        return Err(h.error);
      }
      answerability := [Generated(h.value)];
    }
    var rest := if onlyHintPrompts then kinds else if onlyAdversarial then kinds[1..] else kinds[2..];
    assert FirstRequestError(batch, kinds, request) == FirstRequestError(batch, rest, request);
    if onlyAdversarial {
      pseudo := Blanks(bs);
      cot := Blanks(bs);
    } else {
      assert rest == [PseudoAdversarialPrompt, CoTAdversarialPrompt];
      var p := request(Prompts(batch, PseudoAdversarialPrompt));
      if p.Err? {
        return Err(p.error);
      }
      pseudo := [Generated(p.value)];
      var c := request(Prompts(batch, CoTAdversarialPrompt));
      if c.Err? {
        assert rest[1..] == [CoTAdversarialPrompt];
        return Err(c.error);
      }
      cot := [Generated(c.value)];
      assert rest[1..][1..] == [];
      assert FirstRequestError(batch, rest[1..], request) == FirstRequestError(batch, [], request);
      assert FirstRequestError(batch, rest, request) == None;
    }
    if onlyAdversarial {
      assert rest == [];
    }
    r := Ok(Generations(adversarial, answerability, pseudo, cot));
  }

  /** The body of the batch loop: extend every column, or raise as the batch's records and requests dictate. */
  method ProcessBatch<G>(c: Columns<G>, batch: seq<Sample>, ds: Dataset, hasReason: bool, onlyHintPrompts: bool,
                         onlyAdversarial: bool, bs: nat, request: seq<string> -> Result<G>)
    returns (r: Result<Columns<G>>)
    ensures r == RaiseOr(BatchFailure(ds, batch, hasReason, onlyHintPrompts, onlyAdversarial, request),
                         Extend(c, batch, ds, hasReason, onlyHintPrompts, onlyAdversarial, bs, request))
  {
    var ids := c.ids + MapCells(batch, IdText, ds);
    var annotationIds := c.annotationIds;
    if ds == NQ {
      annotationIds := annotationIds + MapCells(batch, AnnotationText, ds);
    }
    var reasons := c.reasons;
    if hasReason {
      if !AllHaveReason(batch) {
        return Err(KeyError);
      }
      reasons := reasons + MapCells(batch, ReasonText, ds);
    }
    var g := RunRequests(batch, onlyHintPrompts, onlyAdversarial, bs, request);
    if g.Err? {
      return Err(g.error);
    }
    var l := ExtractLeads<G>(batch, ds);
    ExtractLeadsSound<G>(batch, ds);
    if l.Err? {
      return Err(l.error);
    }
    // Every prompt here holds "Question:", so the question extractor does not raise.
    var questions := c.questions + MapCells(batch, QuestionText, ds);
    r := Ok(Columns(ids, annotationIds, reasons, Concat(c.generations, g.value), c.leads + l.value, questions));
  }

  /**
   * An adapter: truncate, then batch by batch extend the columns; the table
   * returned, or the exception raised, is the one `Expected` and `Failure`
   * describe.
   */
  method GetResponses<G>(ds: Dataset, loaded: seq<Sample>, nInstances: Option<int>, onlyHintPrompts: bool,
                         onlyAdversarial: bool, batchSize: int, request: seq<string> -> Result<G>)
    returns (r: Result<map<string, seq<Cell<G>>>>)
    ensures var data := Truncate(loaded, nInstances);
            var f := Failure(ds, data, onlyHintPrompts, onlyAdversarial, batchSize, request);
            r == if f.Some? then Err(f.value) else Ok(Expected(ds, data, onlyHintPrompts, onlyAdversarial, batchSize, request))
  {
    var data := Truncate(loaded, nInstances);
    var hasReason := false;
    if ds == Squad {
      if |data| == 0 {
        return Err(IndexError);
      }
      hasReason := data[0].reason.Some?;
    }
    assert hasReason == HasReasonColumn(ds, data);
    if batchSize == 0 {
      return Err(ZeroDivisionError);
    }
    var columns := RunBatches(ds, data, hasReason, onlyHintPrompts, onlyAdversarial, batchSize, request);
    if columns.Err? {
      return Err(columns.error);
    }
    r := Ok(Assemble(ds, hasReason, columns.value));
  }

  /** The batch loop of an adapter, for a non-zero batch size. */
  method RunBatches<G>(ds: Dataset, data: seq<Sample>, hasReason: bool, onlyHintPrompts: bool, onlyAdversarial: bool,
                       batchSize: int, request: seq<string> -> Result<G>)
    returns (r: Result<Columns<G>>)
    requires batchSize != 0 && hasReason == HasReasonColumn(ds, data)
    ensures var f := if batchSize > 0 then FailureFrom(ds, data, onlyHintPrompts, onlyAdversarial, batchSize, request, 0) else None;
            r == RaiseOr(f, ColumnsAfter(ds, data, onlyHintPrompts, onlyAdversarial, batchSize, request, NumBatches(|data|, batchSize)))
  {
    var nb := NumBatches(|data|, batchSize);
    var columns: Columns<G> := Columns([], [], [], Generations([], [], [], []), [], []);
    for b := 0 to nb
      invariant batchSize > 0 || b == 0
      invariant columns == ColumnsAfter(ds, data, onlyHintPrompts, onlyAdversarial, batchSize, request, b)
      invariant batchSize > 0 ==>
        FailureFrom(ds, data, onlyHintPrompts, onlyAdversarial, batchSize, request, 0)
        == FailureFrom(ds, data, onlyHintPrompts, onlyAdversarial, batchSize, request, b)
    {
      var batch := BatchAt(data, b, batchSize);
      var next := ProcessBatch(columns, batch, ds, hasReason, onlyHintPrompts, onlyAdversarial, batchSize, request);
      BatchStep(ds, data, onlyHintPrompts, onlyAdversarial, batchSize, request, b, next);
      if next.Err? {
        return Err(next.error);
      }
      columns := next.value;
    }
    r := Ok(columns);
  }

  /**
   * One pass of the batch loop in closed form: the outcome of processing
   * batch `b` either is the first failure from `b` on, or takes the columns
   * to `b + 1` batches with the same failure still ahead.
   */
  lemma BatchStep<G>(ds: Dataset, data: seq<Sample>, onlyHintPrompts: bool, onlyAdversarial: bool, bs: int,
                     request: seq<string> -> Result<G>, b: nat, next: Result<Columns<G>>)
    requires bs > 0 && b < NumBatches(|data|, bs)
    requires var batch := BatchAt(data, b, bs);
             next == RaiseOr(BatchFailure(ds, batch, HasReasonColumn(ds, data), onlyHintPrompts, onlyAdversarial, request),
                             Extend(ColumnsAfter(ds, data, onlyHintPrompts, onlyAdversarial, bs, request, b),
                                    batch, ds, HasReasonColumn(ds, data), onlyHintPrompts, onlyAdversarial, bs, request))
    ensures next.Err? ==> FailureFrom(ds, data, onlyHintPrompts, onlyAdversarial, bs, request, b) == Some(next.error)
    ensures next.Ok? ==> next.value == ColumnsAfter(ds, data, onlyHintPrompts, onlyAdversarial, bs, request, b + 1)
    ensures next.Ok? ==> FailureFrom(ds, data, onlyHintPrompts, onlyAdversarial, bs, request, b)
                         == FailureFrom(ds, data, onlyHintPrompts, onlyAdversarial, bs, request, b + 1)
  {
    FailureFromStep(ds, data, onlyHintPrompts, onlyAdversarial, bs, request, b);
    if next.Ok? {
      ColumnsStep(ds, data, onlyHintPrompts, onlyAdversarial, bs, request, b);
    }
  }

  /** Processing batch `b` takes the closed form from `b` to `b + 1` batches. */
  lemma ColumnsStep<G>(ds: Dataset, data: seq<Sample>, onlyHintPrompts: bool, onlyAdversarial: bool, bs: int,
                       request: seq<string> -> Result<G>, b: nat)
    requires bs > 0
    ensures ColumnsAfter(ds, data, onlyHintPrompts, onlyAdversarial, bs, request, b + 1)
         == Extend(ColumnsAfter(ds, data, onlyHintPrompts, onlyAdversarial, bs, request, b), BatchAt(data, b, bs),
                   ds, HasReasonColumn(ds, data), onlyHintPrompts, onlyAdversarial, bs, request)
  {
    TakenStep<G>(data, b, bs);
  }

  lemma TakenStep<G>(data: seq<Sample>, b: nat, bs: int)
    requires bs > 0
    ensures forall f: SampleField, ds: Dataset ::
      MapCells<G>(Taken(data, b + 1, bs), f, ds) == MapCells(Taken(data, b, bs), f, ds) + MapCells(BatchAt(data, b, bs), f, ds)
  {
    var m := b * bs;
    assert (b + 1) * bs == m + bs;
    assert Taken(data, b + 1, bs) == Taken(data, b, bs) + BatchAt(data, b, bs);
    forall f: SampleField, ds: Dataset {
      MapCellsAppend<G>(Taken(data, b, bs), BatchAt(data, b, bs), f, ds);
    }
  }

  lemma MapCellsAppend<G>(a: seq<Sample>, c: seq<Sample>, f: SampleField, ds: Dataset)
    ensures MapCells<G>(a + c, f, ds) == MapCells(a, f, ds) + MapCells(c, f, ds)
  {
    var l, r := MapCells<G>(a + c, f, ds), MapCells<G>(a, f, ds) + MapCells(c, f, ds);
    forall t | 0 <= t < |l| ensures l[t] == r[t] {
      if t >= |a| {
        assert (a + c)[t] == c[t - |a|];
      }
    }
  }

  /** After all batches every record has been taken, in order. */
  lemma TakenAll<T>(data: seq<T>, bs: int)
    requires bs > 0
    ensures Taken(data, NumBatches(|data|, bs), bs) == data
  {
  }

  /**
   * Each generation column gets one entry per batch, or `bs` blanks per
   * batch when its prompt kind is switched off.
   */
  lemma {:induction false} GenerationsLength<G>(data: seq<Sample>, onlyHintPrompts: bool, onlyAdversarial: bool, bs: int,
                                                request: seq<string> -> Result<G>, b: nat)
    requires bs > 0
    ensures var g := GenerationsUpTo(data, onlyHintPrompts, onlyAdversarial, bs, request, b);
            && |g.adversarial| == (if onlyHintPrompts then b * bs else b)
            && |g.answerability| == (if onlyHintPrompts || onlyAdversarial then b * bs else b)
            && |g.pseudoAdversarial| == (if onlyAdversarial then b * bs else b)
            && |g.cotAdversarial| == (if onlyAdversarial then b * bs else b)
  {
    if b > 0 {
      GenerationsLength(data, onlyHintPrompts, onlyAdversarial, bs, request, b - 1);
      BlankRows(b, bs);
    }
  }

  /** `b - 1` batches and one more batch of `bs` blanks make `b * bs` blanks. */
  lemma BlankRows(b: nat, bs: int)
    requires b > 0
    ensures (b - 1) * bs + bs == b * bs
  {
  }

  /**
   * The table an adapter returns: its keys, the per-sample columns holding
   * one entry per record in the records' order, and the generation columns'
   * lengths.
   */
  lemma ExpectedTable<G>(ds: Dataset, data: seq<Sample>, onlyHintPrompts: bool, onlyAdversarial: bool, bs: int,
                         request: seq<string> -> Result<G>)
    requires bs > 0
    ensures var t := Expected(ds, data, onlyHintPrompts, onlyAdversarial, bs, request);
            var nb := NumBatches(|data|, bs);
            && t.Keys == {"ids", "Adversarial", "Pseudo-Adversarial", "CoT-Adversarial", "Answerability", LeadName(ds), "Question"}
                         + (if ds == NQ then {"annotation_ids"} else {})
                         + (if HasReasonColumn(ds, data) then {"Unanswerablity-Reason"} else {})
            && t["ids"] == MapCells(data, IdText, ds)
            && t[LeadName(ds)] == MapCells(data, LeadText, ds)
            && t["Question"] == MapCells(data, QuestionText, ds)
            && (ds == NQ ==> t["annotation_ids"] == MapCells(data, AnnotationText, ds))
            && (HasReasonColumn(ds, data) ==> t["Unanswerablity-Reason"] == MapCells(data, ReasonText, ds))
            && |t["Adversarial"]| == (if onlyHintPrompts then nb * bs else nb)
            && |t["Answerability"]| == (if onlyHintPrompts || onlyAdversarial then nb * bs else nb)
            && |t["Pseudo-Adversarial"]| == (if onlyAdversarial then nb * bs else nb)
            && |t["CoT-Adversarial"]| == (if onlyAdversarial then nb * bs else nb)
  {
    var nb := NumBatches(|data|, bs);
    var hasReason := HasReasonColumn(ds, data);
    var c := ColumnsAfter(ds, data, onlyHintPrompts, onlyAdversarial, bs, request, nb);
    TakenAll(data, bs);
    assert Taken(data, nb, bs) == data;
    GenerationsLength(data, onlyHintPrompts, onlyAdversarial, bs, request, nb);
    AssembleLookup(ds, hasReason, c);
  }

  /** Where each column of the table comes from. */
  lemma AssembleLookup<G>(ds: Dataset, hasReason: bool, c: Columns<G>)
    ensures var t := Assemble(ds, hasReason, c);
            && t.Keys == {"ids", "Adversarial", "Pseudo-Adversarial", "CoT-Adversarial", "Answerability", LeadName(ds), "Question"}
                         + (if ds == NQ then {"annotation_ids"} else {})
                         + (if hasReason then {"Unanswerablity-Reason"} else {})
            && t["ids"] == c.ids
            && t[LeadName(ds)] == c.leads
            && t["Question"] == c.questions
            && (ds == NQ ==> t["annotation_ids"] == c.annotationIds)
            && (hasReason ==> t["Unanswerablity-Reason"] == c.reasons)
            && t["Adversarial"] == c.generations.adversarial
            && t["Answerability"] == c.generations.answerability
            && t["Pseudo-Adversarial"] == c.generations.pseudoAdversarial
            && t["CoT-Adversarial"] == c.generations.cotAdversarial
  {
    assert LeadName(ds) !in {"ids", "Adversarial", "Pseudo-Adversarial", "CoT-Adversarial", "Answerability", "Question",
                             "annotation_ids", "Unanswerablity-Reason"};
  }

  /** `FailureFrom` at an existing batch: that batch's failure, or else the failure of the batches after it. */
  lemma FailureFromStep<G>(ds: Dataset, data: seq<Sample>, onlyHintPrompts: bool, onlyAdversarial: bool, bs: int,
                           request: seq<string> -> Result<G>, b: nat)
    requires bs > 0 && b < NumBatches(|data|, bs)
    ensures var here := BatchFailure(ds, BatchAt(data, b, bs), HasReasonColumn(ds, data), onlyHintPrompts, onlyAdversarial, request);
            FailureFrom(ds, data, onlyHintPrompts, onlyAdversarial, bs, request, b)
            == if here.Some? then here else FailureFrom(ds, data, onlyHintPrompts, onlyAdversarial, bs, request, b + 1)
  {
    var fail := BatchFailures(ds, data, onlyHintPrompts, onlyAdversarial, bs, request);
    assert fail(b) == BatchFailure(ds, BatchAt(data, b, bs), HasReasonColumn(ds, data), onlyHintPrompts, onlyAdversarial, request);
  }

  /** The scan finds nothing exactly when every scanned entry is None. */
  lemma {:induction false} FirstErrorNone(fail: nat -> Option<PyError>, b: nat, n: nat)
    ensures FirstError(fail, b, n).None? <==> forall c :: b <= c < n ==> fail(c).None?
    decreases n - b
  {
    if b < n {
      FirstErrorNone(fail, b + 1, n);
    }
  }

  /** The scan returns the error of an entry all of whose predecessors are None. */
  lemma {:induction false} FirstErrorFirst(fail: nat -> Option<PyError>, b: nat, n: nat)
    requires FirstError(fail, b, n).Some?
    ensures exists c :: b <= c < n && fail(c) == FirstError(fail, b, n) && forall d :: b <= d < c ==> fail(d).None?
    decreases n - b
  {
    if fail(b).None? {
      FirstErrorFirst(fail, b + 1, n);
      var c :| b + 1 <= c < n && fail(c) == FirstError(fail, b + 1, n) && forall d :: b + 1 <= d < c ==> fail(d).None?;
      assert forall d :: b <= d < c ==> fail(d).None?;
    } else {
      assert b <= b < n && fail(b) == FirstError(fail, b, n);
    }
  }

  /** No batch from `b` on fails exactly when `FailureFrom` finds nothing. */
  lemma FailureFromNone<G>(ds: Dataset, data: seq<Sample>, onlyHintPrompts: bool, onlyAdversarial: bool,
                           bs: int, request: seq<string> -> Result<G>, b: nat)
    requires bs > 0
    ensures FailureFrom(ds, data, onlyHintPrompts, onlyAdversarial, bs, request, b).None?
        <==> forall c :: b <= c < NumBatches(|data|, bs) ==>
               BatchFailureAt(ds, data, onlyHintPrompts, onlyAdversarial, bs, request, c).None?
  {
    var fail := BatchFailures(ds, data, onlyHintPrompts, onlyAdversarial, bs, request);
    forall c: nat ensures fail(c) == BatchFailureAt(ds, data, onlyHintPrompts, onlyAdversarial, bs, request, c) {
    }
    FirstErrorNone(fail, b, NumBatches(|data|, bs));
  }

  /** When an adapter raises, it raises the error of a batch all of whose predecessors passed. */
  lemma FailureFromFirst<G>(ds: Dataset, data: seq<Sample>, onlyHintPrompts: bool, onlyAdversarial: bool,
                            bs: int, request: seq<string> -> Result<G>, b: nat)
    requires bs > 0
    requires FailureFrom(ds, data, onlyHintPrompts, onlyAdversarial, bs, request, b).Some?
    ensures exists c :: b <= c < NumBatches(|data|, bs)
              && BatchFailureAt(ds, data, onlyHintPrompts, onlyAdversarial, bs, request, c)
                 == FailureFrom(ds, data, onlyHintPrompts, onlyAdversarial, bs, request, b)
              && forall d :: b <= d < c ==>
                   BatchFailureAt(ds, data, onlyHintPrompts, onlyAdversarial, bs, request, d).None?
  {
    var fail := BatchFailures(ds, data, onlyHintPrompts, onlyAdversarial, bs, request);
    forall c: nat ensures fail(c) == BatchFailureAt(ds, data, onlyHintPrompts, onlyAdversarial, bs, request, c) {
    }
    FirstErrorFirst(fail, b, NumBatches(|data|, bs));
  }

  /** The squad adapter indexes the first record before anything else, so no records means IndexError. */
  lemma SquadNoRecords<G>(loaded: seq<Sample>, nInstances: Option<int>, onlyHintPrompts: bool, onlyAdversarial: bool,
                          bs: int, request: seq<string> -> Result<G>)
    requires nInstances == Some(0) || loaded == []
    ensures Failure(Squad, Truncate(loaded, nInstances), onlyHintPrompts, onlyAdversarial, bs, request) == Some(IndexError)
  {
  }
}
