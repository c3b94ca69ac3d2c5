# Unanswerable-question pipeline: the sequence logic, in Dafny

This project models the deterministic core of two research scripts:

- `zero_shot_embeddings_erasure.py` generates responses with a custom beam-search decoder.
- `train_linear_classifiers.py` fits linear probes on the hidden states that the decoder saved.

Tensors, the language model and the sampler are left abstract. What remains is list, string and dictionary bookkeeping, and the model states and proves properties of it.

| file | module | what it models |
|---|---|---|
| `outcomes.dfy` | `Outcomes` | `Option`, `Result` and the Python exceptions that the core raises (`IndexError`, `KeyError`, `ValueError`, `ZeroDivisionError`, a runtime error, a generic `Exception(message)`) |
| `py_text.dfy` | `PyText` | `str.index`, `in`, `replace(m, "")` and `strip()` |
| `prompt_fields.dfy` | `PromptFields` | the nested `*_Passage` / `musique_Context` / `*_Question` extractors |
| `adapters.dfy` | `Adapters` | the three `get_responses_unanswerable_questions_*` adapters as one method with a dataset parameter: truncation, batching, the per-batch `extend`s and the exceptions |
| `ranking.dfy` | `Ranking` | the stable `sorted(..., reverse=True)[:k]` that prunes beams |
| `beam_search.dfy` | `BeamSearch` | `HF_request`: seeding, expanding, carrying finished beams forward, pruning, padding the ids |
| `pipeline.dfy` | `Pipeline` | `get_all_relevant_datasets`, the input-path precedence and the output-file suffix in `main` |
| `classifier.dfy` | `Classifier` | `adapt_hidden_embeddings` (as a class whose method updates the instance in place), `union` / `only_first_tkn`, the aggregation choice, `get_model_name`, the labels |

Modelling choices:

- **The model in `HF_request`.** The forward pass, `lm_head`, the eraser, `softmax` and `torch.multinomial` form one oracle. The oracle takes the step, the beam index and the beam's decoder input. It returns the step's logits, the hidden state and `k` sampled tokens, each with a probability in [0, 1]. With the seed fixed, the draw at a given call is determined, so a function of those three arguments covers every run.
- **Requests in the adapters.** The request function that the adapters call is a parameter. It returns a generation or raises.
- **The generation columns keep the source's quirk.** `HF_request` returns a one-element list, so a generation column grows by one entry per batch. A switched-off prompt kind instead grows by `batch_size` blanks. The columns' lengths can therefore differ from one another and from the number of records, and `Adapters.ExpectedTable` states the exact lengths.

Two facts about `HF_request` shape the model of its result:

- `HF_request` returns one record whose id matrix has `k` rows, not `k` separate entries. With `k <= 0`, padding an empty list raises.
- Rows of the id matrix are right-padded with 0. A generated token can itself be 0, so counting the nonzero ids does not give a row's length. The model states the padding by position instead (`BeamSearch.PadRows`).

## Model

| member | source | states |
|---|---|---|
| PyText.FindFrom | zero_shot_embeddings_erasure.py:28 | the first occurrence of the marker at or after a position, or none when it does not occur there |
| PyText.Find | zero_shot_embeddings_erasure.py:28 | `str.index`: found exactly when the marker occurs (`in`), and then at its first occurrence |
| PyText.LStrip | zero_shot_embeddings_erasure.py:28 | the suffix left after the leading whitespace is dropped |
| PyText.RStrip | zero_shot_embeddings_erasure.py:28 | the prefix left after the trailing whitespace is dropped |
| PyText.Strip | zero_shot_embeddings_erasure.py:28 | `strip()`: a window of the input with whitespace-only text on both sides, and no whitespace at either end |
| PyText.StripWindow | zero_shot_embeddings_erasure.py:28 | what remains of a left-stripped suffix after right-stripping sits in the original text between two whitespace-only runs |
| PyText.StripEnds | zero_shot_embeddings_erasure.py:28 | right-stripping text that does not start with whitespace leaves no whitespace at either end |
| PyText.StripTrimmed | zero_shot_embeddings_erasure.py:28 | `strip()` leaves a string without outer whitespace unchanged |
| PyText.StripIdempotent | zero_shot_embeddings_erasure.py:28 | `strip()` is idempotent |
| PyText.RemoveAll | zero_shot_embeddings_erasure.py:28 | `replace(m, "")` never lengthens the text; what it deletes is stated by the lemmas below |
| PyText.RemoveAllAbsent | zero_shot_embeddings_erasure.py:28 | deleting a marker that does not occur changes nothing |
| PyText.RemoveAllLeading | zero_shot_embeddings_erasure.py:28 | a leading marker is deleted, and the scan resumes right after it |
| PyText.NoEarlyOccurrence | zero_shot_embeddings_erasure.py:28 | when `m`'s last character is unique in it and `a` holds no `m`, no `m` of `a + m + b` starts inside `a` |
| PyText.RemoveAllJoin | zero_shot_embeddings_erasure.py:28 | `(a + m + b).replace(m, "")` is `a` followed by `b.replace(m, "")` when `a` holds no `m` |
| PyText.RemoveAllJoined | zero_shot_embeddings_erasure.py:28 | `m.join(pieces).replace(m, "")` is `"".join(pieces)` when no piece holds `m`: every joining marker is deleted and nothing else |
| PyText.FindAfter | zero_shot_embeddings_erasure.py:28 | when the text before a marker does not contain it, `index` finds that occurrence |
| PromptFields.LeadField | zero_shot_embeddings_erasure.py:28 | Passage/Context extraction succeeds exactly when both markers occur, raises ValueError otherwise, and yields stripped text; its value is stated by the lemmas below |
| PromptFields.Question | zero_shot_embeddings_erasure.py:31 | Question extraction succeeds exactly when "Question:" occurs, raises ValueError otherwise, and yields stripped text; its value is stated by the lemmas below |
| PromptFields.Passage | zero_shot_embeddings_erasure.py:27-28 | `squad_Passage` / `NQ_Passage`: succeeds exactly when "Passage:" and "Question:" occur, and raises ValueError otherwise |
| PromptFields.Context | zero_shot_embeddings_erasure.py:141-142 | `musique_Context`: succeeds exactly when "Context:" and "Question:" occur, and raises ValueError otherwise |
| PromptFields.LeadFieldRoundTrip | zero_shot_embeddings_erasure.py:28 | for head + marker + body + "Question:" + tail, with no marker in the head and no "Question:" before the tail, the field is the body with every lead marker deleted, stripped |
| PromptFields.LeadFieldPieces | zero_shot_embeddings_erasure.py:28 | a body of marker-free pieces joined by the lead marker yields the pieces run together, stripped: interior lead markers are removed |
| PromptFields.MarkersFound | zero_shot_embeddings_erasure.py:28 | in head + marker + body + "Question:" + tail, `index` finds the leading marker right after the head and "Question:" right after the body |
| PromptFields.LeadFieldQuestionFirst | zero_shot_embeddings_erasure.py:28 | when "Question:" comes before the first lead marker, the slice between them is empty and the field is "" |
| PromptFields.QuestionRoundTrip | zero_shot_embeddings_erasure.py:31 | for head + "Question:" + body, with no question marker in the head, the result is the body with every "Question:" deleted, stripped |
| PromptFields.QuestionPieces | zero_shot_embeddings_erasure.py:31 | a question of marker-free pieces joined by "Question:" yields the pieces run together, stripped |
| Adapters.Truncate | zero_shot_embeddings_erasure.py:40-41 | `data[:n]` is a prefix: all of it for None; min(n, len) records for n >= 0; len + n records (at least 0) for negative n |
| Adapters.NumBatches | zero_shot_embeddings_erasure.py:48 | `ceil(len / bs)` is the least number of `bs`-sized batches that cover the records; no batches for negative `bs` |
| Adapters.BatchAt | zero_shot_embeddings_erasure.py:49 | `data[b*bs:(b+1)*bs]`: at most `bs` records, the records from index `b*bs` on in order, and min(bs, len - b*bs) of them while any remain |
| Adapters.BatchesPrefix | zero_shot_embeddings_erasure.py:49-50 | the first `b` batch slices, concatenated, are the first min(b*bs, len) records |
| Adapters.NextBatch | zero_shot_embeddings_erasure.py:49-50 | batch `c` continues the records taken by the first `c` batches |
| Adapters.MapCellsAppend | zero_shot_embeddings_erasure.py:49-76 | building a column from two runs of records, one after the other, concatenates their columns |
| Adapters.BatchesPartition | zero_shot_embeddings_erasure.py:48-50 | the batches, concatenated in order, are the whole data; each batch is non-empty and holds at most `bs` records |
| Adapters.ExtractLeads | zero_shot_embeddings_erasure.py:75 | the leading-field comprehension raises only ValueError |
| Adapters.ExtractLeadsSound | zero_shot_embeddings_erasure.py:75 | the comprehension succeeds exactly when every prompt holds both markers, and then yields every record's field in order |
| Adapters.RunRequests | zero_shot_embeddings_erasure.py:55-73 | a batch's requests are issued in the source's order; the first failing request's error propagates; otherwise each kind gets one generation, or `bs` blanks when switched off |
| Adapters.ProcessBatch | zero_shot_embeddings_erasure.py:49-76 | one batch either extends every column as `Extend` says, or raises: a missing reason (KeyError) first, then a failing request, then a prompt without markers (ValueError) |
| Adapters.RunBatches | zero_shot_embeddings_erasure.py:48-76 | the batch loop raises exactly the first failing batch's error, and otherwise leaves the columns of all batches |
| Adapters.BatchStep | zero_shot_embeddings_erasure.py:49-76 | processing batch `b` either raises the first failure from batch `b` on, or passes and leaves the columns of `b + 1` batches |
| Adapters.GetResponses | zero_shot_embeddings_erasure.py:25-78 | an adapter raises exactly when `Failure` says (IndexError for squad with no records, then ZeroDivisionError for batch size 0, then the first failing batch) and otherwise returns the table `Expected` describes |
| Adapters.ColumnsStep | zero_shot_embeddings_erasure.py:49-76 | processing batch `b` takes the columns of `b` batches to those of `b + 1` batches |
| Adapters.TakenStep | zero_shot_embeddings_erasure.py:49-76 | the text columns of `b + 1` batches are those of `b` batches followed by batch `b`'s own |
| Adapters.TakenAll | zero_shot_embeddings_erasure.py:48-51 | after all batches, every record has been taken, in order |
| Adapters.GenerationsLength | zero_shot_embeddings_erasure.py:55-73 | each generation column holds one entry per batch, or `bs` blanks per batch when its prompt kind is switched off |
| Adapters.ExpectedTable | zero_shot_embeddings_erasure.py:34-76 | the returned table has exactly the dataset's keys; `ids`, the leading field, `Question`, `annotation_ids` and the reasons list every record once, in order; the generation columns have the lengths above |
| Adapters.AssembleLookup | zero_shot_embeddings_erasure.py:34-76 | the assembled table has exactly the dataset's keys: `ids`, its leading field, `Question`, `annotation_ids`, the reasons column where the data has one, and the four generation columns, each holding its column |
| Adapters.FailureFromStep | zero_shot_embeddings_erasure.py:49-76 | the failure from batch `b` on is batch `b`'s failure, or else the failure of the later batches |
| Adapters.FirstErrorNone | zero_shot_embeddings_erasure.py:49-76 | a loop that stops at the first failure runs to the end exactly when no step in the range fails |
| Adapters.FirstErrorFirst | zero_shot_embeddings_erasure.py:49-76 | a loop that stops at the first failure reports the error of a failing step that only passing steps precede |
| Adapters.FailureFromNone | zero_shot_embeddings_erasure.py:49-76 | nothing raises from batch `b` on exactly when every later batch passes |
| Adapters.FailureFromFirst | zero_shot_embeddings_erasure.py:49-76 | a raised error is the error of a batch whose predecessors all passed |
| Adapters.SquadNoRecords | zero_shot_embeddings_erasure.py:44 | the squad adapter raises IndexError when no records remain after truncation |
| Ranking.Insert | zero_shot_embeddings_erasure.py:248 | inserting adds exactly one element |
| Ranking.SortDesc | zero_shot_embeddings_erasure.py:248 | the sort keeps the length |
| Ranking.TopK | zero_shot_embeddings_erasure.py:248-250 | the prune keeps min(k, n) candidates |
| Ranking.InsertPermutes | zero_shot_embeddings_erasure.py:248 | insertion adds exactly the inserted element, as a multiset |
| Ranking.InsertSorted | zero_shot_embeddings_erasure.py:248 | insertion keeps the order non-increasing |
| Ranking.SortDescPermutes | zero_shot_embeddings_erasure.py:248 | the sort is a permutation |
| Ranking.SortDescSorted | zero_shot_embeddings_erasure.py:248 | the sort orders by non-increasing probability |
| Ranking.WithKeyInsert | zero_shot_embeddings_erasure.py:248 | insertion puts an element after every element with an equal key |
| Ranking.SortDescStable | zero_shot_embeddings_erasure.py:248 | stability: elements with equal probability keep their candidate-list order |
| Ranking.TopKSound | zero_shot_embeddings_erasure.py:248-250 | the kept candidates are ordered by non-increasing probability and drawn from the candidates |
| Ranking.TopKDominates | zero_shot_embeddings_erasure.py:248-250 | every dropped candidate ranks no higher than every kept one |
| BeamSearch.MaxLen | zero_shot_embeddings_erasure.py:257 | the length of the longest row, attained by some row |
| BeamSearch.PadRows | zero_shot_embeddings_erasure.py:257 | `pad_sequence` with value 0: one row per beam, all of the longest length; each starts with its beam's ids and is 0 after them |
| BeamSearch.Finish | zero_shot_embeddings_erasure.py:256-264 | the returned record has one id row, one logits history and one hidden history per beam; each row starts with its beam's ids and each history is its beam's |
| BeamSearch.HFRequest | zero_shot_embeddings_erasure.py:193-264 | 20 steps of expand-and-prune from the seeds, then padding; raises exactly when `k <= 0` |
| BeamSearch.RunSteps | zero_shot_embeddings_erasure.py:209-254 | the outer loop leaves exactly the beams that 20 rounds of expand-and-prune make from the seeds |
| BeamSearch.ExpandBeams | zero_shot_embeddings_erasure.py:210-245 | the inner loop collects each processed beam's contribution in beam order, and only the first beam at step 0 |
| BeamSearch.CandidatesStep | zero_shot_embeddings_erasure.py:211-245 | processing beam `j` appends its contribution to the candidates of the beams before it |
| BeamSearch.Advance | zero_shot_embeddings_erasure.py:248-250 | one step keeps min(k, number of candidates) candidates |
| BeamSearch.ScaleDown | zero_shot_embeddings_erasure.py:240 | a probability times a token probability stays in [0, p] |
| BeamSearch.ExpandedChildren | zero_shot_embeddings_erasure.py:236-241 | an expanded beam yields `k` children: parent plus token, logits and hidden state, with probability parent × token and no larger than the parent's |
| BeamSearch.FinishedCarriedForward | zero_shot_embeddings_erasure.py:218-220 | after step 0, a beam ending in EOS reaches the candidates unchanged |
| BeamSearch.FirstStepExpandsOneSeed | zero_shot_embeddings_erasure.py:243-245 | step 0 expands only the first of the `k` identical seeds (ids `[0]`, probability 1.0) into exactly `k` candidates |
| BeamSearch.CandidatesSound | zero_shot_embeddings_erasure.py:211-241 | every candidate is well formed one step on and descends from a processed beam |
| BeamSearch.ContributionSound | zero_shot_embeddings_erasure.py:218-241 | a beam's contribution is well formed one step on and descends from it |
| BeamSearch.ChildSound | zero_shot_embeddings_erasure.py:236-241 | a child of a well-formed beam is well formed one step on |
| BeamSearch.CandidatesCount | zero_shot_embeddings_erasure.py:211-241 | each processed beam adds at least one candidate |
| BeamSearch.AdvanceSound | zero_shot_embeddings_erasure.py:248-254 | a step keeps exactly `k` beams, ordered by non-increasing probability; each is well formed and is a carried or expanded beam of the previous step |
| BeamSearch.StepSound | zero_shot_embeddings_erasure.py:248-254 | one step preserves "exactly `k` well-formed beams" |
| BeamSearch.BeamsAfterSound | zero_shot_embeddings_erasure.py:209-254 | after every step there are exactly `k` well-formed beams |
| BeamSearch.SeedWellFormed | zero_shot_embeddings_erasure.py:202-207 | the `k` seeds (ids `[0]`, decoder input the pad id, probability 1.0) are well formed before any step |
| BeamSearch.BeamsAfterStep | zero_shot_embeddings_erasure.py:209-254 | round `n + 1` prunes the candidates of the beams left by round `n` |
| BeamSearch.NextSound | zero_shot_embeddings_erasure.py:209-254 | if there are exactly `k` well-formed beams after `n` steps, the same holds after `n + 1` steps |
| BeamSearch.ProbabilityNeverGrows | zero_shot_embeddings_erasure.py:240-254 | each kept beam's probability is at most that of a beam of the previous step |
| BeamSearch.GenerationShape | zero_shot_embeddings_erasure.py:207-257 | the id matrix has `k` rows; each starts with 0, extends its beam's ids with zeros, and is at most 21 ids long |
| BeamSearch.FinishShape | zero_shot_embeddings_erasure.py:257-264 | for any beams well formed after `n >= 1` steps, the padded id matrix has one row per beam; each row starts with 0, extends its beam's ids with zeros and has at most `n + 1` entries; the histories have one entry per generated id |
| Pipeline.GetAllRelevantDatasets | zero_shot_embeddings_erasure.py:370-389 | a (dataset, type) job is listed exactly when its dataset is asked for and its type is switched on; each job appears once, squad/NQ/musique, adversarial before control group |
| Pipeline.AppendRequested | zero_shot_embeddings_erasure.py:371-387 | one dataset's step appends its adversarial job, then its control-group job, each only when requested, and only when the dataset is asked for |
| Pipeline.JobsForShape | zero_shot_embeddings_erasure.py:371-387 | one dataset contributes a job exactly when the dataset is asked for and the split is switched on; its jobs are in rank order, adversarial first |
| Pipeline.AllJobs | zero_shot_embeddings_erasure.py:370-389 | the three datasets' jobs, in order, list every requested (dataset, split) pair once, ordered by dataset and then split |
| Pipeline.SelectionOf | zero_shot_embeddings_erasure.py:452-459 | input precedence: trainset > all > unfiltered > filtered |
| Pipeline.InputPath | zero_shot_embeddings_erasure.py:452-459 | each selection's prompt file lies under the prompt root, in a directory that begins with a letter unique to the selection |
| Pipeline.SelectionDir | zero_shot_embeddings_erasure.py:453-459 | the directory of each selection begins with that selection's letter |
| Pipeline.InputPathsDistinct | zero_shot_embeddings_erasure.py:452-459 | different selections read different prompt files |
| Pipeline.OutdirSuffix | zero_shot_embeddings_erasure.py:438-446 | the intended suffix: empty only for the filtered selection |
| Pipeline.OutdirSuffixAsWritten | zero_shot_embeddings_erasure.py:438-446 | as written, the suffix ignores `--trainset` |
| Pipeline.OutputFile | zero_shot_embeddings_erasure.py:446 | the output file lies under the output directory and ends with the suffix and ".pt" |
| Pipeline.OutputFilesDistinct | zero_shot_embeddings_erasure.py:446 | with the intended suffix, different selections write different files |
| Pipeline.TrainsetRunCollides | zero_shot_embeddings_erasure.py:438-459 | with the as-written suffix, a trainset run and a filtered run compute the same output file, the filtered run's, while reading different prompt files; the intended suffix would give a different file |
| Classifier.Unstack | train_linear_classifiers.py:19-20 | a 2-D last element turns the list into the rows of element 0; IndexError for an empty list or a 1-D element 0 |
| Classifier.FirstPad | train_linear_classifiers.py:26-32 | the first index where the ids equal 1, or the row length when there is no 1 |
| Classifier.Adapted | train_linear_classifiers.py:17-35 | the result is a prefix of the unstacked list, cut at the first 1 of row 0 (clamped), or whole when there is none; IndexError when there is no row 0 |
| Classifier.Instance.AdaptHiddenEmbeddings | train_linear_classifiers.py:17-35 | replaces the stored entry in place by its unstacked form, even when the later read of the ids raises, and returns `Adapted`; KeyError for a missing embedding type |
| Classifier.UnstackIdempotent | train_linear_classifiers.py:19-20 | unstacking an already unstacked, non-empty list changes nothing |
| Classifier.AdaptAgain | train_linear_classifiers.py:17-35 | a second call on the updated instance returns the same list |
| Classifier.AdaptAgainEmptyMatrix | train_linear_classifiers.py:19-20 | a matrix with no rows leaves an empty list behind, so a second call raises |
| Classifier.AdaptedCut | train_linear_classifiers.py:26-34 | no kept step lies at or after a padding id, and a shortened list stops exactly at one |
| Classifier.Union | train_linear_classifiers.py:69-71 | `union` has as many vectors as all filtered lists together |
| Classifier.UnionAppend | train_linear_classifiers.py:69-71 | `union` distributes over concatenation of the instance lists |
| Classifier.OnlyFirst | train_linear_classifiers.py:72-74 | `only_first_tkn` gives one vector per instance, and raises IndexError exactly when some filtered list is empty |
| Classifier.OnlyFirstInUnion | train_linear_classifiers.py:69-74 | each instance's `only_first_tkn` vector is its first vector in `union` |
| Classifier.SelectAggregation | train_linear_classifiers.py:63-76 | `first_hidden_embedding` is checked first; otherwise "average", "union" and "only_first_tkn" each select their own branch, exactly, and any other aggregation type raises the generic exception |
| Classifier.ModelName | train_linear_classifiers.py:38-47 | the first of UL2_Flan, T5_xxl_Flan, OPT that occurs in the path; raises exactly when none occurs |
| Classifier.TrainingSet | train_linear_classifiers.py:102-106 | ValueError exactly when one block is empty and the other is not (`np.concatenate` of a 1-D and a 2-D array); otherwise `X` and `y` have equal length, label 0 marks exactly the adversarial block, which comes first, and 1 the control block |

## Left out

- Model loading (`get_model`), tokenisation and decoding to text, `torch.cat` of the histories, and the tensor numerics are not modelled. These are foreign library calls and floating point. They reach the model only through the oracle and as opaque logits and hidden-state values.
- The eraser is not modelled. Applying it only at step 0 under `only_first_decoding` is a property of the oracle.
- `json.load`, `torch.save`/`torch.load`, `pickle`, directory creation, `os.listdir` and the skip-if-exists check are not modelled, because they are file I/O. The table that an adapter would save is its result.
- Logging, tqdm and printing are not modelled.
- The sweep over models, prompt variants and beam widths in `main` is not modelled: it only repeats the per-job selection for every combination. Memory release between models is not modelled either.
- The prompt suffix that `HF_request` appends before tokenising is not modelled, because it only feeds the tokenizer.
- `get_data`'s file scan (`os.listdir`, the `.pt` and dataset-name filter, the `control_group` / `adversarial` file classification) is not modelled. Neither are its `num_instances` truncation of every column or its KeyError when a file type is missing. All of these are file I/O over unmodelled names.
- Classifier.Union: it is stated over the instances' already-filtered lists. The model does not apply the comprehension to a sequence of `Instance` objects, so aliasing between repeated instances is not covered beyond `Classifier.AdaptAgain`.
- The `average` and `first_hidden_embedding` aggregations are not modelled, because they are floating-point means. Only the choice of branch is modelled (`Classifier.SelectAggregation`).
- `train_test_split`, `LogisticRegression`, `GridSearchCV` and saving the estimator are not modelled, because they are statistical fitting in a foreign library.
- Tensors of rank above 2 in the stored hidden states are not modelled. A stored element is a vector or a matrix.
- `all_outputs_ids` is assumed to be present on every loaded instance, so a missing key is not modelled.
- Pipeline.OutputFile: it joins the path components with "/". It does not model two behaviours of `os.path.join`: the reset on an absolute component, and the single separator after a component that already ends in "/".
- Adapters.RunRequests: the request function is a pure function of the prompt list, so two identical prompt lists in one run get identical generations. `HF_request` samples with `torch.multinomial` from shared random state and promises no such thing; the model covers one fixed sequence of draws per call, not how the draws of different calls relate.
- Adapters.GetResponses: records are assumed to carry `id`/`example_id`, `annotation_id` and the prompt fields, so the KeyError a record without one of them would raise is not modelled. Only the reasons column, whose presence the code tests, is checked record by record.

## Findings

| source | as written | input that shows it | evidently intended | confidence | as-written member | corrected member |
|---|---|---|---|---|---|---|
| zero_shot_embeddings_erasure.py:438-446 | the `--trainset` suffix is set by an `if` that the following `if`/`elif`/`else` always overwrites | `--trainset` alone: the suffix becomes "", so the output file equals the plain filtered run's, while the input is the train-set file | `elif args.all_instances`, giving "_trainset_filtered" | not executed | Pipeline.OutdirSuffixAsWritten, Pipeline.TrainsetRunCollides | Pipeline.OutdirSuffix, Pipeline.OutputFilesDistinct |
