/**
  The notebook builder: the requirements manifest with its environment hash,
  and the five-cell notebook a plan materialises into. The notebook is kept
  as its list of cells and its kernel metadata; the JSON serialisation is not
  part of this model.
*/
module Notebook {
  import opened Text
  import opened Ordering
  import opened Records
  import opened DatasetGenerators
  import opened Factory

  // ---------------------------------------------------------------------
  // Requirements manifest
  // ---------------------------------------------------------------------

  /** The base dependencies every notebook pins. */
  const DefaultRequirements: seq<string> :=
    ["numpy==1.26.4", "scikit-learn==1.5.1", "pandas==2.2.2", "matplotlib==3.9.0", "jupyter==1.1.1"]

  /** `_primary_metric`: the plan's first metric, or the word `metric` when
      the plan declares none. */
  function PrimaryMetric(plan: Plan): (m: string)
    ensures |plan.metrics| > 0 ==> m == plan.metrics[0].name
    ensures |plan.metrics| == 0 ==> m == "metric"
  {
    if |plan.metrics| > 0 then plan.metrics[0].name else "metric"
  }

  /** No entry spans a line break, so one entry is one manifest line. */
  predicate SingleLines(xs: seq<string>)
  {
    forall k :: 0 <= k < |xs| ==> '\n' !in xs[k]
  }

  /** The manifest text and the environment hash. */
  datatype RequirementsFile = RequirementsFile(text: string, envHash: string)

  /** sha256 of the UTF-8 bytes, as hex; not part of this model, so injected. */
  type Hash = string -> string

  /** `sorted(set(DEFAULT_REQUIREMENTS) | dataset | model)`. */
  function MergedRequirements(datasetReqs: seq<string>, modelReqs: seq<string>): (lines: seq<string>)
    ensures StrictlyIncreasing(lines)
    ensures Elems(lines) == Elems(DefaultRequirements) + Elems(datasetReqs) + Elems(modelReqs)
  {
    ElemsAppend(DefaultRequirements, datasetReqs);
    ElemsAppend(DefaultRequirements + datasetReqs, modelReqs);
    SortedUnique(DefaultRequirements + datasetReqs + modelReqs)
  }

  /** The manifest is the sorted lines with a trailing line break; the hash
      covers the same lines without it. */
  function RequirementsOf(datasetReqs: seq<string>, modelReqs: seq<string>, hash: Hash): RequirementsFile
  {
    var body := Lines(MergedRequirements(datasetReqs, modelReqs));
    RequirementsFile(body + "\n", hash(body))
  }

  /** `build_requirements(plan)`: the dataset generator is chosen without the
      paper (see the finding in the README). */
  function BuildRequirements(plan: Plan, registry: Registry, logistic: LogisticOutputs, hash: Hash): RequirementsFile
  {
    var g := SelectDatasetGenerator(plan, None, registry);
    var m := ModelOutputs(SelectModelGenerator(plan), plan, logistic);
    RequirementsOf(Requirements(g), m.requirements, hash)
  }

  /** The pins of the defaults and of every dataset generator are one line each. */
  lemma PinsAreSingleLines(g: DatasetGenerator)
    ensures SingleLines(DefaultRequirements + Requirements(g))
  {
    var xs := DefaultRequirements + Requirements(g);
    forall k | 0 <= k < |xs|
      ensures '\n' !in xs[k]
    {
      if k < |DefaultRequirements| {
        DefaultPinSingleLine(k);
      } else {
        DatasetPinSingleLine(g, k - |DefaultRequirements|);
      }
    }
  }

  lemma DefaultPinSingleLine(k: nat)
    requires k < |DefaultRequirements|
    ensures '\n' !in DefaultRequirements[k]
  {
  }

  lemma DatasetPinSingleLine(g: DatasetGenerator, k: nat)
    requires k < |Requirements(g)|
    ensures '\n' !in Requirements(g)[k]
  {
  }

  /** Reading the manifest back: it ends in one line break, splitting the rest
      at line breaks gives a sorted, duplicate-free list of exactly the
      default, dataset and model pins, and the hash is taken over that rest. */
  lemma {:induction false} ManifestReadsBack(datasetReqs: seq<string>, modelReqs: seq<string>, hash: Hash)
    requires SingleLines(datasetReqs) && SingleLines(modelReqs)
    ensures var r := RequirementsOf(datasetReqs, modelReqs, hash);
      |r.text| > 0 && r.text[|r.text| - 1] == '\n' &&
      var body := r.text[..|r.text| - 1];
      r.envHash == hash(body) &&
      StrictlyIncreasing(Split(body, '\n')) &&
      Elems(Split(body, '\n')) == Elems(DefaultRequirements) + Elems(datasetReqs) + Elems(modelReqs)
  {
    var lines := MergedRequirements(datasetReqs, modelReqs);
    var body := Lines(lines);
    assert (body + "\n")[..|body + "\n"| - 1] == body;
    MergedSingleLines(datasetReqs, modelReqs);
    assert DefaultRequirements[0] in Elems(lines);
    SplitJoin(lines, '\n');
  }

  /** Merging single-line pins with the defaults keeps every entry on one line. */
  lemma MergedSingleLines(datasetReqs: seq<string>, modelReqs: seq<string>)
    requires SingleLines(datasetReqs) && SingleLines(modelReqs)
    ensures SingleLines(MergedRequirements(datasetReqs, modelReqs))
  {
    PinsAreSingleLines(Synthetic);
    var defaults := DefaultRequirements + Requirements(Synthetic);
    var lines := MergedRequirements(datasetReqs, modelReqs);
    forall k | 0 <= k < |lines|
      ensures '\n' !in lines[k]
    {
      assert lines[k] in Elems(lines);
      if lines[k] in Elems(DefaultRequirements) {
        var i :| 0 <= i < |DefaultRequirements| && DefaultRequirements[i] == lines[k];
        assert defaults[i] == lines[k];
      } else if lines[k] in Elems(datasetReqs) {
        SingleLineMember(datasetReqs, lines[k]);
      } else {
        SingleLineMember(modelReqs, lines[k]);
      }
    }
  }

  lemma SingleLineMember(xs: seq<string>, x: string)
    requires SingleLines(xs) && x in Elems(xs)
    ensures '\n' !in x
  {
  }

  /** The manifest and the hash depend only on which pins the generators
      declare: reordering or repeating entries changes neither. */
  lemma RequirementsOrderIndependent(ds1: seq<string>, ds2: seq<string>, ms1: seq<string>, ms2: seq<string>, hash: Hash)
    requires Elems(ds1) == Elems(ds2) && Elems(ms1) == Elems(ms2)
    ensures RequirementsOf(ds1, ms1, hash) == RequirementsOf(ds2, ms2, hash)
  {
    StrictlyIncreasingUnique(MergedRequirements(ds1, ms1), MergedRequirements(ds2, ms2));
  }

  /** Every base dependency is always pinned, and so is everything the two
      generators declare. */
  lemma ManifestCoversPins(plan: Plan, registry: Registry, logistic: LogisticOutputs)
    ensures var lines := MergedRequirements(Requirements(SelectDatasetGenerator(plan, None, registry)), logistic(plan).requirements);
      Elems(DefaultRequirements) <= Elems(lines) &&
      Elems(Requirements(SelectDatasetGenerator(plan, None, registry))) <= Elems(lines) &&
      Elems(logistic(plan).requirements) <= Elems(lines)
  {
  }

  /** As written, the manifest is computed for the paper-less selection: a
      plan whose dataset was uploaded gets a notebook that reads Excel through
      `xlrd`, while its manifest does not pin `xlrd` (unless the model
      generator happens to). */
  lemma UploadedManifestMissesExcelReader(plan: Plan, paper: Option<Paper>, registry: Registry, logistic: LogisticOutputs)
    requires HasUploadedDataset(paper)
    requires VariantOf(SelectDatasetGenerator(plan, None, registry)) != ExcelVariant
    requires "xlrd>=2.0.1" !in Elems(logistic(plan).requirements)
    ensures "xlrd>=2.0.1" in Elems(Requirements(SelectDatasetGenerator(plan, paper, registry)))
    ensures "xlrd>=2.0.1" !in Elems(MergedRequirements(Requirements(SelectDatasetGenerator(plan, None, registry)), logistic(plan).requirements))
  {
    var g := SelectDatasetGenerator(plan, None, registry);
    assert Requirements(SelectDatasetGenerator(plan, paper, registry))[1] == "xlrd>=2.0.1";
    assert "xlrd>=2.0.1" !in Elems(DefaultRequirements);
    assert "xlrd>=2.0.1" !in Elems(Requirements(g)) by {
      match g
      case Synthetic =>
      case Sklearn(_) =>
      case Torchvision(_) =>
      case HuggingFace(_) =>
    }
  }

  /** The same gap, read off the manifest text `build_requirements` returns:
      splitting its body into lines never yields the Excel reader's pin,
      though the notebook's dataset cell needs it. */
  lemma ManifestTextLacksExcelReader(plan: Plan, paper: Option<Paper>, registry: Registry, logistic: LogisticOutputs, hash: Hash)
    requires HasUploadedDataset(paper)
    requires VariantOf(SelectDatasetGenerator(plan, None, registry)) != ExcelVariant
    requires SingleLines(logistic(plan).requirements)
    requires "xlrd>=2.0.1" !in Elems(logistic(plan).requirements)
    ensures var r := BuildRequirements(plan, registry, logistic, hash);
      |r.text| > 0 &&
      "xlrd>=2.0.1" !in Split(r.text[..|r.text| - 1], '\n') &&
      "xlrd>=2.0.1" in Requirements(SelectDatasetGenerator(plan, paper, registry))
  {
    var g := SelectDatasetGenerator(plan, None, registry);
    UploadedManifestMissesExcelReader(plan, paper, registry, logistic);
    assert SingleLines(Requirements(g)) by {
      forall k | 0 <= k < |Requirements(g)|
        ensures '\n' !in Requirements(g)[k]
      {
        DatasetPinSingleLine(g, k);
      }
    }
    ManifestReadsBack(Requirements(g), logistic(plan).requirements, hash);
  }

  /** The manifest computed for the same generator selection the notebook
      uses, paper included. */
  function NotebookRequirements(plan: Plan, paper: Option<Paper>, registry: Registry, logistic: LogisticOutputs, hash: Hash): RequirementsFile
  {
    var g := SelectDatasetGenerator(plan, paper, registry);
    var m := ModelOutputs(SelectModelGenerator(plan), plan, logistic);
    RequirementsOf(Requirements(g), m.requirements, hash)
  }

  /** The corrected manifest pins everything both of the notebook's
      generators declare, whether or not a dataset was uploaded. */
  lemma NotebookRequirementsCoverNotebook(plan: Plan, paper: Option<Paper>, registry: Registry, logistic: LogisticOutputs, hash: Hash)
    requires SingleLines(logistic(plan).requirements)
    ensures var r := NotebookRequirements(plan, paper, registry, logistic, hash);
      var body := r.text[..|r.text| - 1];
      Elems(Requirements(SelectDatasetGenerator(plan, paper, registry))) <= Elems(Split(body, '\n')) &&
      Elems(logistic(plan).requirements) <= Elems(Split(body, '\n'))
  {
    var g := SelectDatasetGenerator(plan, paper, registry);
    PinsAreSingleLines(g);
    assert SingleLines(Requirements(g)) by {
      forall k | 0 <= k < |Requirements(g)|
        ensures '\n' !in Requirements(g)[k]
      {
        DatasetPinSingleLine(g, k);
      }
    }
    ManifestReadsBack(Requirements(g), logistic(plan).requirements, hash);
  }

  /** Without an upload the correction changes nothing: both selections give
      the same pins, so the same manifest and hash. */
  lemma NotebookRequirementsAgreeWithoutUpload(plan: Plan, paper: Option<Paper>, registry: Registry, logistic: LogisticOutputs, hash: Hash)
    requires !HasUploadedDataset(paper)
    ensures NotebookRequirements(plan, paper, registry, logistic, hash) == BuildRequirements(plan, registry, logistic, hash)
  {
    assert Requirements(SelectDatasetGenerator(plan, paper, registry)) == Requirements(SelectDatasetGenerator(plan, None, registry));
  }

  // ---------------------------------------------------------------------
  // Notebook cells
  // ---------------------------------------------------------------------

  datatype CellKind = MarkdownCell | CodeCell | RawCell

  datatype Cell = Cell(kind: CellKind, source: string)

  /** The notebook's cells and the kernel metadata it declares. */
  datatype Document = Document(cells: seq<Cell>, kernelName: string, kernelDisplayName: string, language: string)

  /** The introduction, after dedent and strip. */
  function IntroText(planId: string): string
  {
    Lines(IntroLines(planId))
  }

  function IntroLines(planId: string): (lines: seq<string>)
    ensures |lines| == 5
  {
    seq(5, k requires 0 <= k < 5 => IntroLine(planId, k))
  }

  function IntroLine(planId: string, k: nat): string
    requires k < 5
  {
    match k
    case 0 => "# Plan " + planId
    case 1 => ""
    case 2 => "This notebook was generated automatically from Plan JSON v1.1."
    case 3 => "It follows the declared dataset, model, and configuration using a"
    case _ => "deterministic CPU-only workflow."
  }

  /** The heading line of the introduction names the plan. */
  lemma IntroNamesPlan(planId: string)
    ensures IsPrefix("# Plan " + planId, IntroText(planId))
  {
    StartsWithFirstLine(IntroLines(planId));
  }

  /** The setup cell: base imports, event logging, seeding, banner. */
  function SetupCode(plan: Plan, planId: string): string
  {
    Lines(SetupLines(plan.config.seed, planId))
  }

  /** The assignment of the run's seed. */
  function SeedAssignment(seed: int): string
  {
    "SEED = " + IntToString(seed)
  }

  function SetupLines(seed: int, planId: string): (lines: seq<string>)
    ensures |lines| == 47
  {
    seq(47, k requires 0 <= k < 47 => SetupLine(seed, planId, k))
  }

  function SetupLine(seed: int, planId: string, k: nat): string
    requires k < 47
  {
    match k
    case 0 => "import json"
    case 1 => "import os"
    case 2 => "import random"
    case 3 => "import sys"
    case 4 => "from pathlib import Path"
    case 5 => ""
    case 6 => "import numpy as np"
    case 7 => ""
    case 8 => "try:"
    case 9 => "    import torch"
    case 10 => "    TORCH_AVAILABLE = True"
    case 11 => "except ImportError:"
    case 12 => "    TORCH_AVAILABLE = False"
    case 13 => ""
    case 14 => "EVENTS_PATH = Path(\"events.jsonl\")"
    case 15 => "METRICS_PATH = Path(\"metrics.json\")"
    case 16 => ""
    case 17 => "if EVENTS_PATH.exists():"
    case 18 => "    EVENTS_PATH.unlink()"
    case 19 => "if METRICS_PATH.exists():"
    case 20 => "    METRICS_PATH.unlink()"
    case 21 => ""
    case 22 => "def log_event(event_type: str, payload: dict) -> None:"
    case 23 => "    EVENTS_PATH.parent.mkdir(parents=True, exist_ok=True)"
    case 24 => "    with EVENTS_PATH.open(\"a\", encoding=\"utf-8\") as stream:"
    case 25 => "        stream.write(json.dumps({\"event\": event_type, **payload}) + \"\\n\")"
    case 26 => ""
    case 27 => "def seed_everything(seed: int) -> None:"
    case 28 => "    random.seed(seed)"
    case 29 => "    np.random.seed(seed)"
    case 30 => "    if TORCH_AVAILABLE:"
    case 31 => "        torch.manual_seed(seed)"
    case 32 => "        if torch.cuda.is_available():"
    case 33 => "            raise RuntimeError(\"E_GPU_REQUESTED: CUDA devices are not permitted during runs\")"
    case 34 => "        torch.backends.cudnn.deterministic = True"
    case 35 => "        torch.backends.cudnn.benchmark = False"
    case 36 => ""
    case 37 => SeedAssignment(seed)
    case 38 => "seed_everything(SEED)"
    case 39 => "log_event(\"stage_update\", {\"stage\": \"seed_check\", \"seed\": SEED})"
    case 40 => "print(\"Notebook generated for Plan " + planId + "\")"
    case 41 => "print(\"Python version:\", sys.version)"
    case 42 => "print(\"Seed set to\", SEED)"
    case 43 => "if TORCH_AVAILABLE:"
    case 44 => "    print(\"Torch version:\", torch.__version__)"
    case 45 => "else:"
    case _ => "    print(\"Torch not installed (not required for this plan)\")"
  }

  /** The setup cell assigns the plan's seed, written so that it reads back
      as the same integer. */
  lemma SetupSeedsRun(plan: Plan, planId: string)
    ensures Contains(SetupCode(plan, planId), SeedAssignment(plan.config.seed))
    ensures ParseInt(SeedAssignment(plan.config.seed)[|"SEED = "|..]) == plan.config.seed
  {
    ContainsStart(SeedAssignment(plan.config.seed), "");
    assert SeedAssignment(plan.config.seed) + "" == SeedAssignment(plan.config.seed);
    ContainsLine(SetupLines(plan.config.seed, planId), 37, SeedAssignment(plan.config.seed));
    assert SeedAssignment(plan.config.seed)[|"SEED = "|..] == IntToString(plan.config.seed);
    ParseIntToString(plan.config.seed);
  }

  /** The setup cell's banner names the plan. */
  lemma SetupNamesPlan(plan: Plan, planId: string)
    ensures Contains(SetupCode(plan, planId), planId)
  {
    ContainsPiece(SetupLines(plan.config.seed, planId), 40, "print(\"Notebook generated for Plan ", planId, "\")");
  }

  const NoImportsPlaceholder := "# No additional imports needed"

  /** The imports cell: `sorted(set(dataset + model))`, one per line, or a
      placeholder comment when both generators import nothing. */
  function ImportsCode(datasetImports: seq<string>, modelImports: seq<string>): (code: string)
    ensures |datasetImports + modelImports| == 0 ==> code == NoImportsPlaceholder
  {
    var all := SortedUnique(datasetImports + modelImports);
    if |all| == 0 then NoImportsPlaceholder else Lines(all)
  }

  /** Reading the imports cell back: its lines are the union of both
      generators' imports, sorted and each listed once. */
  lemma ImportsReadBack(datasetImports: seq<string>, modelImports: seq<string>)
    requires |datasetImports + modelImports| > 0
    requires SingleLines(datasetImports + modelImports)
    ensures var lines := Split(ImportsCode(datasetImports, modelImports), '\n');
      StrictlyIncreasing(lines) && Elems(lines) == Elems(datasetImports) + Elems(modelImports)
  {
    var all := SortedUnique(datasetImports + modelImports);
    ElemsEmpty(all);
    ElemsEmpty(datasetImports + modelImports);
    ElemsAppend(datasetImports, modelImports);
    forall k | 0 <= k < |all|
      ensures '\n' !in all[k]
    {
      assert all[k] in Elems(all);
      SingleLineMember(datasetImports + modelImports, all[k]);
    }
    SplitJoin(all, '\n');
  }

  /** The imports cell depends only on which statements the generators emit. */
  lemma ImportsOrderIndependent(ds1: seq<string>, ds2: seq<string>, ms1: seq<string>, ms2: seq<string>)
    requires Elems(ds1) == Elems(ds2) && Elems(ms1) == Elems(ms2)
    ensures ImportsCode(ds1, ms1) == ImportsCode(ds2, ms2)
  {
    ElemsAppend(ds1, ms1);
    ElemsAppend(ds2, ms2);
    SortedUniqueOrderIndependent(ds1 + ms1, ds2 + ms2);
  }

  /** `build_notebook_bytes(plan, plan_id, paper)`, before serialisation. */
  function BuildNotebook(plan: Plan, planId: string, paper: Option<Paper>, registry: Registry, logistic: LogisticOutputs): (nb: Document)
    ensures |nb.cells| == 5
    ensures nb.cells[0].kind == MarkdownCell
    ensures nb.cells[1].kind == nb.cells[2].kind == nb.cells[3].kind == nb.cells[4].kind == CodeCell
  {
    var g := SelectDatasetGenerator(plan, paper, registry);
    var m := ModelOutputs(SelectModelGenerator(plan), plan, logistic);
    Document(
      [ Cell(MarkdownCell, IntroText(planId)),
        Cell(CodeCell, SetupCode(plan, planId)),
        Cell(CodeCell, ImportsCode(Imports(g), m.imports)),
        Cell(CodeCell, Code(g, plan)),
        Cell(CodeCell, m.code) ],
      "python3", "Python 3", "python")
  }

  /** The cells carry what the plan declares: the intro is headed by the plan
      id, the setup assigns the plan's seed, the dataset cell logs the load of
      the plan's dataset, the model cell is the model generator's code, and
      the kernel is Python 3. */
  lemma NotebookCells(plan: Plan, planId: string, paper: Option<Paper>, registry: Registry, logistic: LogisticOutputs)
    ensures var nb := BuildNotebook(plan, planId, paper, registry, logistic);
      IsPrefix("# Plan " + planId, nb.cells[0].source) &&
      Contains(nb.cells[1].source, SeedAssignment(plan.config.seed)) &&
      AnnouncesDatasetLoad(nb.cells[3].source, plan.dataset.name) &&
      nb.cells[3].source == Code(SelectDatasetGenerator(plan, paper, registry), plan) &&
      nb.cells[4].source == logistic(plan).code &&
      nb.kernelName == "python3" && nb.language == "python"
  {
    IntroNamesPlan(planId);
    SetupSeedsRun(plan, planId);
    EveryDatasetCellAnnouncesLoad(SelectDatasetGenerator(plan, paper, registry), plan);
  }

  /** With an upload staged on the paper, the notebook's dataset cell is the
      uploaded-file template reading the paper's original file name, whatever
      the plan's dataset and the registry say. */
  lemma UploadedNotebookDatasetCell(plan: Plan, planId: string, paper: Option<Paper>, registry: Registry, logistic: LogisticOutputs)
    requires HasUploadedDataset(paper)
    ensures BuildNotebook(plan, planId, paper, registry, logistic).cells[3].source ==
      UploadedExcelCode(plan, OptionText(paper.value.datasetOriginalFilename))
  {
    NotebookCells(plan, planId, paper, registry, logistic);
    UploadedDatasetCell(plan, paper, registry);
  }

  /** The imports cell of a built notebook never shows the placeholder, since
      every dataset generator imports something; its lines are the union of
      both generators' imports, sorted and each listed once. */
  lemma NotebookImportsCell(plan: Plan, planId: string, paper: Option<Paper>, registry: Registry, logistic: LogisticOutputs)
    requires SingleLines(Imports(SelectDatasetGenerator(plan, paper, registry)) + logistic(plan).imports)
    ensures var nb := BuildNotebook(plan, planId, paper, registry, logistic);
      var lines := Split(nb.cells[2].source, '\n');
      StrictlyIncreasing(lines) &&
      Elems(lines) == Elems(Imports(SelectDatasetGenerator(plan, paper, registry))) + Elems(logistic(plan).imports)
  {
    var g := SelectDatasetGenerator(plan, paper, registry);
    ImportsNonEmpty(g);
    ImportsReadBack(Imports(g), logistic(plan).imports);
  }
}
