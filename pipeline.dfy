/**
 * The selection rules of the response-generation driver: which
 * (dataset, split) jobs run and in what order (`get_all_relevant_datasets`),
 * which prompt file a job reads, and which file it writes (the path and
 * suffix selection in `main`).
 *
 * Paths are joined with "/" as `os.path.join` does for relative components
 * that do not end in a separator.
 */
module Pipeline {
  import opened Adapters

  /** The `type` of a job: the adversarial prompts or the control group. */
  datatype Split = Adversarial | ControlGroup

  /** One entry of the dataset list; the adapter it calls is the one for `ds`. */
  datatype Job = Job(split: Split, ds: Dataset)

  function DatasetName(ds: Dataset): string {
    match ds
    case Squad => "squad"
    case NQ => "NQ"
    case Musique => "musique"
  }

  function SplitName(s: Split): string {
    match s
    case Adversarial => "adversarial"
    case ControlGroup => "control_group"
  }

  /** The split is switched on by its command-line flag. */
  predicate Requested(s: Split, adversarial: bool, controlGroup: bool) {
    if s == Adversarial then adversarial else controlGroup
  }

  /** Position of a dataset in the fixed order squad, NQ, musique. */
  function DatasetIndex(ds: Dataset): nat {
    match ds
    case Squad => 0
    case NQ => 1
    case Musique => 2
  }

  /** Position of a job in the fixed order: by dataset, adversarial before control group. */
  function Rank(j: Job): nat {
    2 * DatasetIndex(j.ds) + (if j.split == Adversarial then 0 else 1)
  }

  /** Every job is listed after the jobs before it in the fixed order. */
  ghost predicate StrictlyRanked(list: seq<Job>) {
    forall a, b :: 0 <= a < b < |list| ==> Rank(list[a]) < Rank(list[b])
  }

  /** The jobs one dataset contributes, in the order they are appended. */
  function JobsFor(ds: Dataset, datasets: seq<string>, adversarial: bool, controlGroup: bool): seq<Job> {
    if DatasetName(ds) in datasets then
      (if adversarial then [Job(Adversarial, ds)] else []) + (if controlGroup then [Job(ControlGroup, ds)] else [])
    else []
  }

  /**
   * `get_all_relevant_datasets`: a job is listed exactly when its dataset was
   * asked for and its split is switched on, each job at most once, in the
   * fixed order.
   */
  method GetAllRelevantDatasets(datasets: seq<string>, adversarial: bool, controlGroup: bool) returns (list: seq<Job>)
    ensures forall j :: j in list <==> DatasetName(j.ds) in datasets && Requested(j.split, adversarial, controlGroup)
    ensures forall a, b :: 0 <= a < b < |list| ==> Rank(list[a]) < Rank(list[b])
  {
    list := [];
    list := AppendRequested(list, Squad, datasets, adversarial, controlGroup);
    list := AppendRequested(list, NQ, datasets, adversarial, controlGroup);
    list := AppendRequested(list, Musique, datasets, adversarial, controlGroup);
    assert list == JobsFor(Squad, datasets, adversarial, controlGroup) + JobsFor(NQ, datasets, adversarial, controlGroup)
                   + JobsFor(Musique, datasets, adversarial, controlGroup);
    AllJobs(list, datasets, adversarial, controlGroup);
  }

  /** One dataset's block of `get_all_relevant_datasets`: its adversarial job, then its control-group job. */
  method AppendRequested(list: seq<Job>, ds: Dataset, datasets: seq<string>, adversarial: bool, controlGroup: bool)
    returns (r: seq<Job>)
    ensures r == list + JobsFor(ds, datasets, adversarial, controlGroup)
  {
    r := list;
    if DatasetName(ds) in datasets {
      if adversarial {
        r := r + [Job(Adversarial, ds)];
      }
      if controlGroup {
        r := r + [Job(ControlGroup, ds)];
      }
    }
  }

  /** What one dataset contributes: its requested jobs, in order, within its band of ranks. */
  lemma JobsForShape(ds: Dataset, datasets: seq<string>, adversarial: bool, controlGroup: bool)
    ensures var l := JobsFor(ds, datasets, adversarial, controlGroup);
            && (forall j :: j in l <==> j.ds == ds && DatasetName(ds) in datasets && Requested(j.split, adversarial, controlGroup))
            && StrictlyRanked(l)
            && (forall j :: j in l ==> 2 * DatasetIndex(ds) <= Rank(j) < 2 * DatasetIndex(ds) + 2)
  {
  }

  /** Two ranked lists whose ranks are separated by `bound` join into a ranked list. */
  lemma RankedAppend(l1: seq<Job>, l2: seq<Job>, bound: nat)
    requires StrictlyRanked(l1) && StrictlyRanked(l2)
    requires forall j :: j in l1 ==> Rank(j) < bound
    requires forall j :: j in l2 ==> bound <= Rank(j)
    ensures StrictlyRanked(l1 + l2)
  {
    var l := l1 + l2;
    forall a, b | 0 <= a < b < |l|
      ensures Rank(l[a]) < Rank(l[b])
    {
      if b < |l1| {
        assert l[a] == l1[a] && l[b] == l1[b];
      } else if a < |l1| {
        assert l[a] in l1 && l[b] in l2;
      } else {
        assert l[a] == l2[a - |l1|] && l[b] == l2[b - |l1|];
      }
    }
  }

  /** The three datasets' contributions together are exactly the requested jobs, in the fixed order. */
  lemma AllJobs(list: seq<Job>, datasets: seq<string>, adversarial: bool, controlGroup: bool)
    requires list == JobsFor(Squad, datasets, adversarial, controlGroup) + JobsFor(NQ, datasets, adversarial, controlGroup)
                     + JobsFor(Musique, datasets, adversarial, controlGroup)
    ensures forall j :: j in list <==> DatasetName(j.ds) in datasets && Requested(j.split, adversarial, controlGroup)
    ensures StrictlyRanked(list)
  {
    var squad := JobsFor(Squad, datasets, adversarial, controlGroup);
    var nq := JobsFor(NQ, datasets, adversarial, controlGroup);
    var musique := JobsFor(Musique, datasets, adversarial, controlGroup);
    JobsForShape(Squad, datasets, adversarial, controlGroup);
    JobsForShape(NQ, datasets, adversarial, controlGroup);
    JobsForShape(Musique, datasets, adversarial, controlGroup);
    RankedAppend(squad, nq, 2);
    RankedAppend(squad + nq, musique, 4);
  }

  /** Which prompt collection a run reads. */
  datatype Selection = TrainsetSelection | AllSelection | UnfilteredSelection | FilteredSelection

  /**
   * The flag precedence of the input path: `--trainset`, then
   * `--all-instances`, then `--unfiltered-instances`; the filtered prompts
   * when none is set.
   */
  function SelectionOf(trainset: bool, allInstances: bool, unfiltered: bool): (sel: Selection)
    ensures sel == TrainsetSelection <==> trainset
    ensures sel == AllSelection <==> !trainset && allInstances
    ensures sel == UnfilteredSelection <==> !trainset && !allInstances && unfiltered
    ensures sel == FilteredSelection <==> !trainset && !allInstances && !unfiltered
  {
    if trainset then TrainsetSelection
    else if allInstances then AllSelection
    else if unfiltered then UnfilteredSelection
    else FilteredSelection
  }

  const PromptRoot: string := "generated_prompts/"

  /** The first character of the directory under the prompt root. */
  function SelectionMark(sel: Selection): char {
    match sel
    case TrainsetSelection => 't'
    case AllSelection => 'a'
    case UnfilteredSelection => 'u'
    case FilteredSelection => 'f'
  }

  /** The directory under the prompt root that a selection reads from. */
  function SelectionDir(sel: Selection): (d: string)
    ensures |d| > 0 && d[0] == SelectionMark(sel)
  {
    match sel
    case TrainsetSelection => "train_set/filtered/zero_shot/"
    case AllSelection => "all/zero_shot/"
    case UnfilteredSelection => "unfiltered/zero_shot/"
    case FilteredSelection => "filtered/zero_shot/"
  }

  /** The file name, without ".json", that a selection reads for a dataset and split. */
  function SelectionStem(sel: Selection, name: string, kind: string): string {
    match sel
    case TrainsetSelection => name + "_trainset_" + kind + "_filtered"
    case AllSelection => name + "_" + kind + "_all"
    case UnfilteredSelection => name + "_" + kind + "_unfiltered"
    case FilteredSelection => name + "_" + kind + "_filtered"
  }

  /**
   * The prompt file a job reads under a selection and a prompt variant: a
   * path under the prompt root whose first directory is the selection's.
   */
  function InputPath(sel: Selection, variant: string, j: Job): (p: string)
    ensures |p| > |PromptRoot| && p[..|PromptRoot|] == PromptRoot
    ensures p[|PromptRoot|] == SelectionMark(sel)
  {
    var rest := SelectionDir(sel) + variant + "/" + SelectionStem(sel, DatasetName(j.ds), SplitName(j.split)) + ".json";
    assert rest[0] == SelectionDir(sel)[0];
    PromptRoot + rest
  }

  /** Different selections read different prompt files, whatever the variant and job. */
  lemma InputPathsDistinct(sel1: Selection, sel2: Selection, variant1: string, variant2: string, j1: Job, j2: Job)
    requires sel1 != sel2
    ensures InputPath(sel1, variant1, j1) != InputPath(sel2, variant2, j2)
  {
    var p1, p2 := InputPath(sel1, variant1, j1), InputPath(sel2, variant2, j2);
    assert p1[|PromptRoot|] != p2[|PromptRoot|];
  }

  /** The output-file suffix of each selection. */
  function OutdirSuffix(sel: Selection): (s: string)
    ensures sel != FilteredSelection <==> |s| > 0
  {
    match sel
    case TrainsetSelection => "_trainset_filtered"
    case AllSelection => "_all"
    case UnfilteredSelection => "_unfiltered"
    case FilteredSelection => ""
  }

  /**
   * The suffix as `main` computes it: the `--trainset` assignment is followed
   * by an `if`, not an `elif`, so the next if/elif/else always overwrites it
   * and the trainset flag has no effect on the output name.
   */
  method OutdirSuffixAsWritten(trainset: bool, allInstances: bool, unfiltered: bool) returns (suffix: string)
    ensures suffix == OutdirSuffix(SelectionOf(false, allInstances, unfiltered))
  {
    if trainset {
      suffix := "_trainset_filtered";
    }
    if allInstances {
      suffix := "_all";
    } else if unfiltered {
      suffix := "_unfiltered";
    } else {
      suffix := "";
    }
  }

  function Digit(d: nat): char
    requires d < 10
  {
    "0123456789"[d]
  }

  /** Python's decimal rendering of an integer. */
  function Decimal(n: int): string
    decreases if n < 0 then 1 - n else n
  {
    if n < 0 then "-" + Decimal(-n)
    else if n < 10 then [Digit(n)]
    else Decimal(n / 10) + [Digit(n % 10)]
  }

  /** The file a job's responses are saved to, given the suffix. */
  function OutputFile(outdir: string, modelSubdir: string, kBeams: int, variant: string, j: Job, suffix: string): (f: string)
    ensures |f| >= |outdir| + 1 + |suffix| + 3
    ensures f[..|outdir| + 1] == outdir + "/"
    ensures f[|f| - |suffix| - 3..] == suffix + ".pt"
  {
    var head := outdir + "/";
    var middle := modelSubdir + "/zero_shot/k_beams_" + Decimal(kBeams) + "/" + variant + "/"
                  + SplitName(j.split) + "_" + DatasetName(j.ds);
    var tail := suffix + ".pt";
    assert (head + middle + tail)[..|head|] == head;
    head + middle + tail
  }

  /** With the intended suffix, runs that read different prompt collections write different files. */
  lemma OutputFilesDistinct(outdir: string, modelSubdir: string, kBeams: int, variant: string, j: Job,
                            sel1: Selection, sel2: Selection)
    requires sel1 != sel2
    ensures OutputFile(outdir, modelSubdir, kBeams, variant, j, OutdirSuffix(sel1))
         != OutputFile(outdir, modelSubdir, kBeams, variant, j, OutdirSuffix(sel2))
  {
    var f1 := OutputFile(outdir, modelSubdir, kBeams, variant, j, OutdirSuffix(sel1));
    var f2 := OutputFile(outdir, modelSubdir, kBeams, variant, j, OutdirSuffix(sel2));
    assert |f1| - |OutdirSuffix(sel1)| == |f2| - |OutdirSuffix(sel2)|;
  }

  /**
   * As written, a `--trainset` run and a plain filtered run of the same job
   * read different prompt files but compute the same output file, so
   * whichever runs second is skipped as already done; the intended suffix
   * keeps them apart.
   */
  method TrainsetRunCollides(outdir: string, modelSubdir: string, kBeams: int, variant: string, j: Job)
    returns (trainsetFile: string, filteredFile: string)
    ensures trainsetFile == filteredFile
    ensures filteredFile == OutputFile(outdir, modelSubdir, kBeams, variant, j, OutdirSuffix(FilteredSelection))
    ensures InputPath(SelectionOf(true, false, false), variant, j) != InputPath(SelectionOf(false, false, false), variant, j)
    ensures OutputFile(outdir, modelSubdir, kBeams, variant, j, OutdirSuffix(SelectionOf(true, false, false))) != trainsetFile
  {
    var trainsetSuffix := OutdirSuffixAsWritten(true, false, false);
    var filteredSuffix := OutdirSuffixAsWritten(false, false, false);
    trainsetFile := OutputFile(outdir, modelSubdir, kBeams, variant, j, trainsetSuffix);
    filteredFile := OutputFile(outdir, modelSubdir, kBeams, variant, j, filteredSuffix);
    InputPathsDistinct(TrainsetSelection, FilteredSelection, variant, variant, j, j);
    OutputFilesDistinct(outdir, modelSubdir, kBeams, variant, j, TrainsetSelection, FilteredSelection);
  }
}
