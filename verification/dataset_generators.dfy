/**
  The five dataset code generators. Each turns a plan into three artifacts:
  a fixed list of import statements, a fixed list of pinned requirements and
  the source of the notebook's dataset cell.

  A cell's source is held as the text `textwrap.dedent(...).strip()` yields:
  template lines joined by line breaks, with the plan's and the metadata's
  values interpolated where the f-string places them.
*/
module DatasetGenerators {
  import opened Text
  import opened Records

  /** The closed set of dataset generators the factory chooses from. */
  datatype DatasetGenerator =
    | Synthetic
    | Sklearn(meta: DatasetMetadata)
    | Torchvision(meta: DatasetMetadata)
    | Excel(meta: DatasetMetadata, paper: Option<Paper>)
    | HuggingFace(meta: DatasetMetadata)

  /** The variant tag, forgetting the bound metadata and paper. */
  datatype Variant = SyntheticVariant | SklearnVariant | TorchvisionVariant | ExcelVariant | HuggingFaceVariant

  function VariantOf(g: DatasetGenerator): Variant
  {
    match g
    case Synthetic => SyntheticVariant
    case Sklearn(_) => SklearnVariant
    case Torchvision(_) => TorchvisionVariant
    case Excel(_, _) => ExcelVariant
    case HuggingFace(_) => HuggingFaceVariant
  }

  // ---------------------------------------------------------------------
  // Shared template pieces
  // ---------------------------------------------------------------------

  const StageUpdate := "\"stage_update\""
  const StageDatasetLoad := "\"stage\": \"dataset_load\""

  /** The `"dataset": "<name>"` entry of the load event. */
  function DatasetField(name: string): string
  {
    "\"dataset\": \"" + name + "\""
  }

  /** The one-line load event four of the generators open with. */
  function LoadEvent(name: string): string
  {
    "log_event(" + StageUpdate + ", {" + StageDatasetLoad + ", " + DatasetField(name) + "})"
  }

  /** The cell logs a `stage_update` event for stage `dataset_load` naming the
      plan's dataset. */
  predicate AnnouncesDatasetLoad(code: string, name: string)
  {
    && Contains(code, StageUpdate)
    && Contains(code, StageDatasetLoad)
    && Contains(code, DatasetField(name))
  }

  /** The load event names the stage-update event, the `dataset_load` stage
      and the dataset. */
  lemma LoadEventMentions(name: string)
    ensures Contains(LoadEvent(name), StageUpdate)
    ensures Contains(LoadEvent(name), StageDatasetLoad)
    ensures Contains(LoadEvent(name), DatasetField(name))
  {
    var head := "log_event(" + StageUpdate + ", {";
    ContainsMiddle("log_event(", StageUpdate, ", {");
    ContainsLeft(head, StageDatasetLoad, StageUpdate);
    ContainsLeft(head + StageDatasetLoad, ", ", StageUpdate);
    ContainsLeft(head + StageDatasetLoad + ", ", DatasetField(name), StageUpdate);
    ContainsLeft(head + StageDatasetLoad + ", " + DatasetField(name), "})", StageUpdate);
    ContainsMiddle(head, StageDatasetLoad, ", ");
    ContainsLeft(head + StageDatasetLoad + ", ", DatasetField(name), StageDatasetLoad);
    ContainsLeft(head + StageDatasetLoad + ", " + DatasetField(name), "})", StageDatasetLoad);
    ContainsMiddle(head + StageDatasetLoad + ", ", DatasetField(name), "})");
  }

  /** A template with the load event on line `k` announces the load. */
  lemma LoadEventAnnounces(lines: seq<string>, k: nat, name: string)
    requires k < |lines| && lines[k] == LoadEvent(name)
    ensures AnnouncesDatasetLoad(Lines(lines), name)
  {
    LoadEventMentions(name);
    ContainsLine(lines, k, StageUpdate);
    ContainsLine(lines, k, StageDatasetLoad);
    ContainsLine(lines, k, DatasetField(name));
  }

  /** `", ".join(f'"{p}"' for p in xs)`: each element double-quoted. */
  function QuotedList(xs: seq<string>): string
  {
    Join(seq(|xs|, i requires 0 <= i < |xs| => "\"" + xs[i] + "\""), ", ")
  }

  /** The seeded subsampling block of the cached-download and tabular
      generators; `n` is the name of the sample array. */
  function SubsampleLines(n: string): seq<string>
  {
    [ "MAX_SAMPLES = int(os.getenv(\"MAX_TRAIN_SAMPLES\", \"5000\"))",
      "if len(" + n + ") > MAX_SAMPLES:",
      "    indices = " + SeededSubsample + ".choice(len(" + n + "), MAX_SAMPLES, replace=False)" ]
  }

  const SeededSubsample := "np.random.RandomState(SEED)"

  const DropMissingRows := "df.dropna()"

  /** The first position of `c` in `s`, or `|s|` when `c` does not occur. */
  function IndexOf(s: string, c: char): (i: nat)
    ensures i <= |s|
    ensures i < |s| ==> s[i] == c
    ensures forall j :: 0 <= j < i ==> s[j] != c
  {
    if |s| == 0 then 0
    else if s[0] == c then 0
    else 1 + IndexOf(s[1..], c)
  }

  lemma {:induction false} IndexOfAfterFree(a: string, c: char, b: string)
    requires c !in a
    ensures IndexOf(a + [c] + b, c) == |a|
  {
    if |a| > 0 {
      assert (a + [c] + b)[1..] == a[1..] + [c] + b;
      IndexOfAfterFree(a[1..], c, b);
    }
  }

  /** Reads back a list rendered by `QuotedList`: quoted items separated by
      `, `; `None` when the text has another shape. */
  function ParseQuotedList(s: string): Option<seq<string>>
  {
    if s == "" then Some([]) else ParseQuotedItems(s)
  }

  function ParseQuotedItems(s: string): Option<seq<string>>
    decreases |s|
  {
    if |s| < 2 || s[0] != '"' then None
    else
      var j := IndexOf(s[1..], '"');
      if j == |s| - 1 then None
      else
        var item := s[1..1 + j];
        var rest := s[j + 2..];
        if rest == "" then Some([item])
        else if |rest| >= 2 && rest[..2] == ", " then
          match ParseQuotedItems(rest[2..])
          case None => None
          case Some(items) => Some([item] + items)
        else None
  }

  /** Quoting an item and appending the rest of the list. */
  lemma QuotedListCons(xs: seq<string>)
    requires |xs| >= 1
    ensures QuotedList(xs) ==
      if |xs| == 1 then "\"" + xs[0] + "\""
      else "\"" + xs[0] + "\"" + (", " + QuotedList(xs[1..]))
  {
    var q := seq(|xs|, i requires 0 <= i < |xs| => "\"" + xs[i] + "\"");
    if |xs| > 1 {
      assert q[1..] == seq(|xs| - 1, i requires 0 <= i < |xs| - 1 => "\"" + xs[1..][i] + "\"");
    }
  }

  /** The rendered list determines the list, as long as no item contains a
      double quote: `ParseQuotedList` undoes `QuotedList`. */
  lemma {:induction false} QuotedListRoundTrip(xs: seq<string>)
    requires forall k :: 0 <= k < |xs| ==> '"' !in xs[k]
    ensures ParseQuotedList(QuotedList(xs)) == Some(xs)
  {
    if |xs| > 0 {
      QuotedListRoundTripItems(xs);
    }
  }

  lemma {:induction false} QuotedListRoundTripItems(xs: seq<string>)
    requires |xs| >= 1
    requires forall k :: 0 <= k < |xs| ==> '"' !in xs[k]
    ensures ParseQuotedItems(QuotedList(xs)) == Some(xs)
  {
    if |xs| > 1 {
      QuotedListRoundTripItems(xs[1..]);
      ParseQuotedCons(xs);
    } else {
      ParseQuotedSingle(xs);
    }
  }

  lemma ParseQuotedSingle(xs: seq<string>)
    requires |xs| == 1 && '"' !in xs[0]
    ensures ParseQuotedItems(QuotedList(xs)) == Some(xs)
  {
    QuotedListCons(xs);
    ParseStep(xs[0], "");
    assert "\"" + xs[0] + "\"" + "" == "\"" + xs[0] + "\"";
    assert [xs[0]] == xs;
  }

  lemma ParseQuotedCons(xs: seq<string>)
    requires |xs| > 1 && '"' !in xs[0]
    requires ParseQuotedItems(QuotedList(xs[1..])) == Some(xs[1..])
    ensures ParseQuotedItems(QuotedList(xs)) == Some(xs)
  {
    QuotedListCons(xs);
    ParseStepCons(xs[0], QuotedList(xs[1..]));
    assert [xs[0]] + xs[1..] == xs;
  }

  /** Reading one quoted item followed by a separator and more items. */
  lemma ParseStepCons(x: string, rest: string)
    requires '"' !in x
    ensures ParseQuotedItems("\"" + x + "\"" + (", " + rest)) ==
      match ParseQuotedItems(rest)
      case None => None
      case Some(items) => Some([x] + items)
  {
    var tail := ", " + rest;
    ParseStep(x, tail);
    assert |tail| >= 2 && tail[..2] == ", " && tail[2..] == rest;
  }

  /** Reading one quoted item, then what follows it. */
  lemma ParseStep(x: string, tail: string)
    requires '"' !in x
    ensures ParseQuotedItems("\"" + x + "\"" + tail) ==
      if tail == "" then Some([x])
      else if |tail| >= 2 && tail[..2] == ", " then
        match ParseQuotedItems(tail[2..])
        case None => None
        case Some(items) => Some([x] + items)
      else None
  {
    var s := "\"" + x + "\"" + tail;
    assert s[1..] == x + ['"'] + tail;
    IndexOfAfterFree(x, '"', tail);
    assert s[1..1 + |x|] == x;
    assert s[|x| + 2..] == tail;
  }

  /** The candidate lists the emitted detection loops walk. */
  lemma CandidateListsRoundTrip()
    ensures ParseQuotedList(QuotedList(TargetCandidates)) == Some(TargetCandidates)
    ensures ParseQuotedList(QuotedList(TextFieldCandidates)) == Some(TextFieldCandidates)
  {
    QuotedListRoundTrip(TargetCandidates);
    QuotedListRoundTrip(TextFieldCandidates);
  }

  // ---------------------------------------------------------------------
  // Synthetic classification
  // ---------------------------------------------------------------------

  const NSamples := "n_samples=512"
  const NFeatures := "n_features=32"
  const SeededGenerator := "random_state=SEED"
  const StratifiedSplit := "test_size=0.2, stratify=y, random_state=SEED"

  /** The synthetic generator's dataset cell. */
  function SyntheticCode(plan: Plan): string
  {
    Lines(SyntheticLines(plan))
  }

  function SyntheticLines(plan: Plan): (lines: seq<string>)
    ensures |lines| == 23
  {
    seq(23, k requires 0 <= k < 23 => SyntheticLine(plan, k))
  }

  /** Line `k` of the synthetic cell. */
  function SyntheticLine(plan: Plan, k: nat): string
    requires k < 23
  {
    match k
    case 0 => "log_event("
    case 1 => "    " + StageUpdate + ","
    case 2 => "    {"
    case 3 => "        " + StageDatasetLoad + ","
    case 4 => "        " + DatasetField(plan.dataset.name) + ","
    case 5 => "        \"split\": \"" + OptionText(plan.dataset.split) + "\","
    case 6 => "    },"
    case 7 => ")"
    case 8 => ""
    case 9 => "X, y = make_classification("
    case 10 => "    " + NSamples + ","
    case 11 => "    " + NFeatures + ","
    case 12 => "    n_informative=16,"
    case 13 => "    n_redundant=4,"
    case 14 => "    " + SeededGenerator + ","
    case 15 => ")"
    case 16 => "X_train, X_test, y_train, y_test = train_test_split("
    case 17 => "    X, y, " + StratifiedSplit
    case 18 => ")"
    case 19 => "log_event("
    case 20 => "    \"metric_update\","
    case 21 => "    {\"metric\": \"dataset_samples\", \"value\": int(X.shape[0])},"
    case _ => ")"
  }

  /** The synthetic generator's dataset cell announces the load, draws 512
      samples of 32 features with the notebook's SEED, and splits 80/20,
      stratified and seeded the same way. */
  lemma SyntheticCodeShape(plan: Plan)
    ensures AnnouncesDatasetLoad(SyntheticCode(plan), plan.dataset.name)
    ensures Contains(SyntheticCode(plan), NSamples) && Contains(SyntheticCode(plan), NFeatures)
    ensures Contains(SyntheticCode(plan), SeededGenerator)
    ensures Contains(SyntheticCode(plan), StratifiedSplit)
  {
    SyntheticAnnouncesLoad(plan);
    SyntheticSampling(plan);
    SyntheticSplit(plan);
  }

  lemma SyntheticSplit(plan: Plan)
    ensures Contains(SyntheticCode(plan), StratifiedSplit)
  {
    ContainsEnd("    X, y, ", StratifiedSplit);
    ContainsLine(SyntheticLines(plan), 17, StratifiedSplit);
  }

  lemma SyntheticAnnouncesLoad(plan: Plan)
    ensures AnnouncesDatasetLoad(SyntheticCode(plan), plan.dataset.name)
  {
    var lines := SyntheticLines(plan);
    ContainsPiece(lines, 1, "    ", StageUpdate, ",");
    ContainsPiece(lines, 3, "        ", StageDatasetLoad, ",");
    ContainsPiece(lines, 4, "        ", DatasetField(plan.dataset.name), ",");
  }

  lemma SyntheticSampling(plan: Plan)
    ensures Contains(SyntheticCode(plan), NSamples) && Contains(SyntheticCode(plan), NFeatures)
    ensures Contains(SyntheticCode(plan), SeededGenerator)
  {
    SyntheticLinePiece(plan, 10, NSamples);
    SyntheticLinePiece(plan, 11, NFeatures);
    SyntheticLinePiece(plan, 14, SeededGenerator);
  }

  /** An argument line `    <t>,` of the synthetic cell. */
  lemma SyntheticLinePiece(plan: Plan, k: nat, t: string)
    requires k < 23 && SyntheticLine(plan, k) == "    " + t + ","
    ensures Contains(SyntheticCode(plan), t)
  {
    ContainsPiece(SyntheticLines(plan), k, "    ", t, ",");
  }

  // ---------------------------------------------------------------------
  // Bundled scikit-learn datasets
  // ---------------------------------------------------------------------

  /** The bundled-dataset cell. */
  function SklearnCode(meta: DatasetMetadata, plan: Plan): string
  {
    Lines(SklearnLines(meta, plan.dataset.name))
  }

  function SklearnLines(meta: DatasetMetadata, name: string): (lines: seq<string>)
    ensures |lines| == 12
  {
    seq(12, k requires 0 <= k < 12 => SklearnLine(meta, name, k))
  }

  /** Line `k` of the bundled-dataset cell. */
  function SklearnLine(meta: DatasetMetadata, name: string, k: nat): string
    requires k < 12
  {
    match k
    case 0 => "# Dataset: " + name + " (sklearn built-in - no download)"
    case 1 => LoadEvent(name)
    case 2 => ""
    case 3 => "# Load dataset (bundled with sklearn)"
    case 4 => "X, y = " + (meta.loadFunction + "(return_X_y=True)")
    case 5 => ""
    case 6 => "# Split train/test with deterministic seed"
    case 7 => "X_train, X_test, y_train, y_test = train_test_split("
    case 8 => "    X, y, test_size=0.2, random_state=SEED"
    case 9 => ")"
    case 10 => ""
    case _ => "log_event(\"metric_update\", {\"metric\": \"dataset_samples\", \"value\": int(X.shape[0])})"
  }

  /** The bundled-dataset generator imports the registry's loader from
      `sklearn.datasets` and its cell calls that loader with
      `return_X_y=True`. */
  lemma SklearnGeneratorShape(meta: DatasetMetadata, plan: Plan)
    ensures Imports(Sklearn(meta))[0] == "from sklearn.datasets import " + meta.loadFunction
    ensures AnnouncesDatasetLoad(SklearnCode(meta, plan), plan.dataset.name)
    ensures Contains(SklearnCode(meta, plan), meta.loadFunction + "(return_X_y=True)")
  {
    var lines := SklearnLines(meta, plan.dataset.name);
    LoadEventAnnounces(lines, 1, plan.dataset.name);
    ContainsEnd("X, y = ", meta.loadFunction + "(return_X_y=True)");
    ContainsLine(lines, 4, meta.loadFunction + "(return_X_y=True)");
  }

  // ---------------------------------------------------------------------
  // Cached torchvision datasets
  // ---------------------------------------------------------------------

  const OfflineGuardedDownload := "download=not OFFLINE_MODE"

  /** The cached vision-dataset cell. */
  function TorchvisionCode(meta: DatasetMetadata, plan: Plan): string
  {
    Lines(TorchvisionLines(meta, plan.dataset.name))
  }

  function TorchvisionLines(meta: DatasetMetadata, name: string): (lines: seq<string>)
    ensures |lines| == 40
  {
    seq(40, k requires 0 <= k < 40 => TorchvisionLine(meta, name, k))
  }

  /** Line `k` of the vision-dataset cell. */
  function TorchvisionLine(meta: DatasetMetadata, name: string, k: nat): string
    requires k < 40
  {
    match k
    case 0 => "# Dataset: " + name + " (Torchvision - cached download)"
    case 1 => "CACHE_DIR = os.getenv(\"DATASET_CACHE_DIR\", \"./data\")"
    case 2 => "OFFLINE_MODE = os.getenv(\"OFFLINE_MODE\", \"false\").lower() == \"true\""
    case 3 => ""
    case 4 => LoadEvent(name)
    case 5 => ""
    case 6 => "# Basic transforms (normalize to [0, 1])"
    case 7 => "transform = transforms.Compose(["
    case 8 => "    transforms.ToTensor(),"
    case 9 => "])"
    case 10 => ""
    case 11 => "# Download=True checks cache first! Only downloads if missing."
    case 12 => "train_dataset = " + ("datasets." + meta.loadFunction + "(")
    case 13 => "    root=CACHE_DIR,"
    case 14 => "    train=True,"
    case 15 => "    " + OfflineGuardedDownload + ",  # Skip download if offline"
    case 16 => "    transform=transform"
    case 17 => ")"
    case 18 => ""
    case 19 => "test_dataset = datasets." + meta.loadFunction + "("
    case 20 => "    root=CACHE_DIR,"
    case 21 => "    train=False,"
    case 22 => "    download=not OFFLINE_MODE,"
    case 23 => "    transform=transform"
    case 24 => ")"
    case 25 => ""
    case 26 => "# Convert to numpy and flatten for sklearn compatibility (Phase 2)"
    case 27 => "X_train = train_dataset.data.numpy().reshape(len(train_dataset), -1)"
    case 28 => "y_train = np.array(train_dataset.targets)"
    case 29 => ""
    case 30 => "X_test = test_dataset.data.numpy().reshape(len(test_dataset), -1)"
    case 31 => "y_test = np.array(test_dataset.targets)"
    case 32 => ""
    case 33 => "# Subsample for CPU budget (20 min limit)"
    case 34 => SubsampleLines("X_train")[0]
    case 35 => SubsampleLines("X_train")[1]
    case 36 => SubsampleLines("X_train")[2]
    case 37 => "    X_train, y_train = X_train[indices], y_train[indices]"
    case 38 => ""
    case _ => "log_event(\"metric_update\", {\"metric\": \"dataset_samples\", \"value\": len(X_train)})"
  }

  /** The vision cell instantiates `datasets.<load_function>`, downloads only
      when not offline, and subsamples with a generator seeded by SEED. */
  lemma TorchvisionCodeShape(meta: DatasetMetadata, plan: Plan)
    ensures AnnouncesDatasetLoad(TorchvisionCode(meta, plan), plan.dataset.name)
    ensures Contains(TorchvisionCode(meta, plan), "datasets." + meta.loadFunction + "(")
    ensures Contains(TorchvisionCode(meta, plan), OfflineGuardedDownload)
    ensures Contains(TorchvisionCode(meta, plan), SeededSubsample)
  {
    var lines := TorchvisionLines(meta, plan.dataset.name);
    LoadEventAnnounces(lines, 4, plan.dataset.name);
    ContainsEnd("train_dataset = ", "datasets." + meta.loadFunction + "(");
    ContainsLine(lines, 12, "datasets." + meta.loadFunction + "(");
    TorchvisionOffline(meta, plan.dataset.name);
    TorchvisionSeeded(meta, plan.dataset.name);
  }

  lemma TorchvisionOffline(meta: DatasetMetadata, name: string)
    ensures Contains(Lines(TorchvisionLines(meta, name)), OfflineGuardedDownload)
  {
    ContainsPiece(TorchvisionLines(meta, name), 15, "    ", OfflineGuardedDownload, ",  # Skip download if offline");
  }

  lemma TorchvisionSeeded(meta: DatasetMetadata, name: string)
    ensures Contains(Lines(TorchvisionLines(meta, name)), SeededSubsample)
  {
    SubsampleIsSeeded("X_train");
    ContainsLine(TorchvisionLines(meta, name), 36, SeededSubsample);
  }

  lemma SubsampleIsSeeded(n: string)
    ensures Contains(SubsampleLines(n)[2], SeededSubsample)
  {
    ContainsMiddle("    indices = ", SeededSubsample, ".choice(len(");
    ContainsLeft("    indices = " + SeededSubsample + ".choice(len(", n, SeededSubsample);
    ContainsLeft("    indices = " + SeededSubsample + ".choice(len(" + n,
                 "), MAX_SAMPLES, replace=False)", SeededSubsample);
  }

  // ---------------------------------------------------------------------
  // Excel workbooks: an uploaded file or a registry-known local file
  // ---------------------------------------------------------------------

  /** Column names tried, in order, when detecting the target column. */
  const TargetCandidates: seq<string> := ["Win", "win", "target", "label", "class", "y", "Target", "Label"]

  /** The column the emitted detection loop settles on for a frame with the
      given columns: the first candidate present, else the last column.
      `None` stands for the `IndexError` an empty frame raises. */
  function TargetColumn(columns: seq<string>): (r: Option<string>)
    ensures forall k :: (0 <= k < |TargetCandidates| && TargetCandidates[k] in columns &&
      (forall j :: 0 <= j < k ==> TargetCandidates[j] !in columns)) ==> r == Some(TargetCandidates[k])
    ensures (forall c :: c in TargetCandidates ==> c !in columns) ==>
      r == (if |columns| == 0 then None else Some(columns[|columns| - 1]))
  {
    var k := FirstPresentIndex(TargetCandidates, columns);
    if k < |TargetCandidates| then Some(TargetCandidates[k])
    else if |columns| == 0 then None
    else Some(columns[|columns| - 1])
  }

  /** The position of the first of `candidates` that occurs in `present`, or
      `|candidates|` when none does. */
  function FirstPresentIndex(candidates: seq<string>, present: seq<string>): (k: nat)
    ensures k <= |candidates|
    ensures forall j :: 0 <= j < k ==> candidates[j] !in present
    ensures k < |candidates| ==> candidates[k] in present
  {
    if |candidates| == 0 then 0
    else if candidates[0] in present then 0
    else 1 + FirstPresentIndex(candidates[1..], present)
  }

  /** The loop header that walks the target-column candidates in order. */
  const TargetDetection := "for col in [" + QuotedList(TargetCandidates) + "]:"

  /** The preparation shared by both Excel paths, from target detection to
      the final metrics. */
  function ExcelTailLines(): (lines: seq<string>)
    ensures |lines| == 49
  {
    seq(49, k requires 0 <= k < 49 => ExcelTailLine(k))
  }

  /** Line `k` of the preparation both Excel variants share. */
  function ExcelTailLine(k: nat): string
    requires k < 49
  {
    match k
    case 0 => "# Detect target column (common names)"
    case 1 => "target_column = None"
    case 2 => TargetDetection
    case 3 => "    if col in df.columns:"
    case 4 => "        target_column = col"
    case 5 => "        break"
    case 6 => ""
    case 7 => "if target_column is None:"
    case 8 => "    # Fall back to last column"
    case 9 => "    target_column = df.columns[-1]"
    case 10 => "    log_event(\"warning\", {\"message\": f\"No standard target column found. Using last column: {target_column}\"})"
    case 11 => ""
    case 12 => "# Separate features and target"
    case 13 => "y = df[target_column].values"
    case 14 => "X_df = df.drop(columns=[target_column])"
    case 15 => ""
    case 16 => "# Drop high-cardinality string columns (team names, competition names, etc.)"
    case 17 => "# Keep only columns with reasonable cardinality (<50 unique values)"
    case 18 => "for col in X_df.columns:"
    case 19 => "    if X_df[col].dtype == 'object':  # String column"
    case 20 => "        if X_df[col].nunique() > 50:"
    case 21 => "            X_df = X_df.drop(columns=[col])"
    case 22 => "            log_event(\"info\", {\"message\": f\"Dropped high-cardinality column: {col}\"})"
    case 23 => ""
    case 24 => "# Encode categorical features"
    case 25 => "label_encoders = {}"
    case 26 => "for col in X_df.columns:"
    case 27 => "    if X_df[col].dtype == 'object':  # String categorical"
    case 28 => "        le = LabelEncoder()"
    case 29 => "        X_df[col] = le.fit_transform(X_df[col].astype(str))"
    case 30 => "        label_encoders[col] = le"
    case 31 => ""
    case 32 => "# Convert to numpy array"
    case 33 => "X = X_df.values"
    case 34 => ""
    case 35 => "# Subsample for CPU budget (only if dataset is large)"
    case 36 => SubsampleLines("X")[0]
    case 37 => SubsampleLines("X")[1]
    case 38 => SubsampleLines("X")[2]
    case 39 => "    X, y = X[indices], y[indices]"
    case 40 => "    log_event(\"info\", {\"message\": f\"Subsampled {len(X)} \U{2192} {MAX_SAMPLES} rows\"})"
    case 41 => ""
    case 42 => "# Split train/test"
    case 43 => "X_train, X_test, y_train, y_test = train_test_split("
    case 44 => "    X, y, test_size=0.2, random_state=SEED"
    case 45 => ")"
    case 46 => ""
    case 47 => "log_event(\"metric_update\", {\"metric\": \"dataset_samples\", \"value\": len(X)})"
    case _ => "log_event(\"metric_update\", {\"metric\": \"dataset_features\", \"value\": X.shape[1]})"
  }

  /** The header lines of both Excel variants open alike, up to the
      parenthesis after the dataset name. */
  function HeaderOpening(name: string): string
  {
    "# Dataset: " + name + " ("
  }

  /** The header line of the uploaded-file variant. */
  function UploadedHeader(name: string): string
  {
    HeaderOpening(name) + "Uploaded with paper" + " - loaded from local file)"
  }

  /** The header line of the registry-file variant. */
  function RegistryHeader(name: string): string
  {
    HeaderOpening(name) + "Excel format" + " - local registry)"
  }

  /** `_generate_uploaded_dataset_code`: the uploaded-file variant. */
  function UploadedExcelCode(plan: Plan, filename: string): string
  {
    Lines(UploadedExcelLines(plan.dataset.name, filename) + ExcelTailLines())
  }

  function UploadedExcelLines(name: string, filename: string): (lines: seq<string>)
    ensures |lines| == 22
  {
    seq(22, k requires 0 <= k < 22 => UploadedExcelLine(name, filename, k))
  }

  /** Line `k` of the uploaded-file opening. */
  function UploadedExcelLine(name: string, filename: string, k: nat): string
    requires k < 22
  {
    match k
    case 0 => UploadedHeader(name)
    case 1 => LoadEvent(name)
    case 2 => ""
    case 3 => "# Dataset file is in the same directory as this notebook"
    case 4 => "dataset_path = \"" + filename + "\""
    case 5 => "if not os.path.exists(dataset_path):"
    case 6 => "    raise FileNotFoundError(f\"Dataset not found at {dataset_path}. Expected file: " + filename + "\")"
    case 7 => ""
    case 8 => "log_event(\"info\", {\"message\": f\"Loading dataset from local file: {dataset_path}\"})"
    case 9 => ""
    case 10 => "# Load Excel file"
    case 11 => "df = pd.read_excel(dataset_path)"
    case 12 => ""
    case 13 => "log_event(\"metric_update\", {\"metric\": \"dataset_rows\", \"value\": len(df)})"
    case 14 => ""
    case 15 => "# Clean data: Remove rows with missing values"
    case 16 => "df_clean = " + DropMissingRows
    case 17 => "if len(df_clean) < len(df):"
    case 18 => "    dropped = len(df) - len(df_clean)"
    case 19 => "    log_event(\"info\", {\"message\": f\"Dropped {dropped} rows with missing values ({dropped/len(df)*100:.1f}%)\"})"
    case 20 => "df = df_clean"
    case _ => ""
  }

  /** The uploaded-file variant opens with its own header, reads the file
      staged next to the notebook under the given name, drops rows with
      missing values, and detects the target column from the fixed list. */
  lemma UploadedExcelCodeShape(plan: Plan, filename: string)
    ensures AnnouncesDatasetLoad(UploadedExcelCode(plan, filename), plan.dataset.name)
    ensures Contains(UploadedExcelCode(plan, filename), "dataset_path = \"" + filename + "\"")
    ensures Contains(UploadedExcelCode(plan, filename), DropMissingRows)
    ensures Contains(UploadedExcelCode(plan, filename), TargetDetection)
    ensures IsPrefix(UploadedHeader(plan.dataset.name), UploadedExcelCode(plan, filename))
  {
    UploadedAnnouncesLoad(plan, filename);
    UploadedReadsStagedFile(plan, filename);
    UploadedDropsMissingRows(plan, filename);
    UploadedDetectsTarget(plan, filename);
    UploadedStartsWithHeader(plan, filename);
  }

  lemma UploadedAnnouncesLoad(plan: Plan, filename: string)
    ensures AnnouncesDatasetLoad(UploadedExcelCode(plan, filename), plan.dataset.name)
  {
    LoadEventAnnounces(UploadedExcelLines(plan.dataset.name, filename) + ExcelTailLines(), 1, plan.dataset.name);
  }

  lemma UploadedReadsStagedFile(plan: Plan, filename: string)
    ensures Contains(UploadedExcelCode(plan, filename), "dataset_path = \"" + filename + "\"")
  {
    ContainsJoined(UploadedExcelLines(plan.dataset.name, filename) + ExcelTailLines(), "\n", 4);
  }

  lemma UploadedDropsMissingRows(plan: Plan, filename: string)
    ensures Contains(UploadedExcelCode(plan, filename), DropMissingRows)
  {
    ContainsEnd("df_clean = ", DropMissingRows);
    ContainsLine(UploadedExcelLines(plan.dataset.name, filename) + ExcelTailLines(), 16, DropMissingRows);
  }

  lemma UploadedDetectsTarget(plan: Plan, filename: string)
    ensures Contains(UploadedExcelCode(plan, filename), TargetDetection)
  {
    ContainsJoined(UploadedExcelLines(plan.dataset.name, filename) + ExcelTailLines(), "\n", 24);
  }

  /** The registry-file variant. */
  function RegistryExcelCode(plan: Plan): string
  {
    Lines(RegistryExcelLines(plan.dataset.name) + ExcelTailLines())
  }

  /** How the registry-file variant reads the workbook: `./<name>.xls`. */
  function RegistryRead(name: string): string
  {
    "pd.read_excel(\"./" + name + ".xls\")"
  }

  function RegistryExcelLines(name: string): (lines: seq<string>)
    ensures |lines| == 8
  {
    seq(8, k requires 0 <= k < 8 => RegistryExcelLine(name, k))
  }

  /** Line `k` of the registry-file opening. */
  function RegistryExcelLine(name: string, k: nat): string
    requires k < 8
  {
    match k
    case 0 => RegistryHeader(name)
    case 1 => LoadEvent(name)
    case 2 => ""
    case 3 => "# Load Excel file (supports .xls and .xlsx)"
    case 4 => "df = " + RegistryRead(name)
    case 5 => ""
    case 6 => "log_event(\"metric_update\", {\"metric\": \"dataset_rows\", \"value\": len(df)})"
    case _ => ""
  }

  /** The registry-file variant opens with its own header, reads
      `./<dataset name>.xls`, and detects the target column from the fixed
      list. */
  lemma RegistryExcelCodeShape(plan: Plan)
    ensures AnnouncesDatasetLoad(RegistryExcelCode(plan), plan.dataset.name)
    ensures Contains(RegistryExcelCode(plan), RegistryRead(plan.dataset.name))
    ensures Contains(RegistryExcelCode(plan), TargetDetection)
    ensures IsPrefix(RegistryHeader(plan.dataset.name), RegistryExcelCode(plan))
  {
    var lines := RegistryExcelLines(plan.dataset.name) + ExcelTailLines();
    LoadEventAnnounces(lines, 1, plan.dataset.name);
    ContainsEnd("df = ", RegistryRead(plan.dataset.name));
    ContainsLine(lines, 4, RegistryRead(plan.dataset.name));
    ContainsJoined(lines, "\n", 10);
    RegistryStartsWithHeader(plan);
  }

  /** Both Excel variants end with the same preparation: only their opening
      (where the frame comes from) differs. */
  lemma ExcelVariantsShareTail(plan: Plan, filename: string)
    ensures IsSuffix("\n" + Lines(ExcelTailLines()), UploadedExcelCode(plan, filename))
    ensures IsSuffix("\n" + Lines(ExcelTailLines()), RegistryExcelCode(plan))
  {
    EndsWithTail(UploadedExcelLines(plan.dataset.name, filename));
    EndsWithTail(RegistryExcelLines(plan.dataset.name));
  }

  lemma EndsWithTail(opening: seq<string>)
    requires |opening| >= 1
    ensures IsSuffix("\n" + Lines(ExcelTailLines()), Lines(opening + ExcelTailLines()))
  {
    LinesAppend(opening, ExcelTailLines());
    EndsWithAppended(Lines(opening), "\n" + Lines(ExcelTailLines()));
  }

  lemma UploadedStartsWithHeader(plan: Plan, filename: string)
    ensures IsPrefix(UploadedHeader(plan.dataset.name), UploadedExcelCode(plan, filename))
  {
    StartsWithFirstLine(UploadedExcelLines(plan.dataset.name, filename) + ExcelTailLines());
  }

  lemma RegistryStartsWithHeader(plan: Plan)
    ensures IsPrefix(RegistryHeader(plan.dataset.name), RegistryExcelCode(plan))
  {
    StartsWithFirstLine(RegistryExcelLines(plan.dataset.name) + ExcelTailLines());
  }

  /** The two Excel variants never emit the same cell: their headers part
      right after the dataset name. */
  lemma ExcelVariantsDiffer(plan: Plan, filename: string)
    ensures UploadedExcelCode(plan, filename) != RegistryExcelCode(plan)
  {
    var name := plan.dataset.name;
    var k := |HeaderOpening(name)|;
    UploadedStartsWithHeader(plan, filename);
    RegistryStartsWithHeader(plan);
    assert UploadedHeader(name)[k] == 'U';
    assert RegistryHeader(name)[k] == 'E';
    assert UploadedExcelCode(plan, filename)[k] == UploadedHeader(name)[k];
    assert RegistryExcelCode(plan)[k] == RegistryHeader(name)[k];
  }

  /** `ExcelDatasetGenerator.generate_code`: the uploaded-file variant exactly
      when a paper with a non-empty storage path is bound. */
  function ExcelCode(meta: DatasetMetadata, paper: Option<Paper>, plan: Plan): string
  {
    if HasUploadedDataset(paper) then
      UploadedExcelCode(plan, OptionText(paper.value.datasetOriginalFilename))
    else
      RegistryExcelCode(plan)
  }

  /** The Excel generator emits the uploaded-file cell exactly when a paper
      with a non-empty storage path is bound, naming the paper's original
      file (`None` when the record has none); otherwise it reads
      `./<dataset name>.xls`. */
  lemma ExcelRouting(meta: DatasetMetadata, paper: Option<Paper>, plan: Plan)
    ensures (exists f :: ExcelCode(meta, paper, plan) == UploadedExcelCode(plan, f))
            <==> HasUploadedDataset(paper)
    ensures HasUploadedDataset(paper) ==>
      ExcelCode(meta, paper, plan) == UploadedExcelCode(plan, OptionText(paper.value.datasetOriginalFilename))
    ensures !HasUploadedDataset(paper) ==>
      Contains(ExcelCode(meta, paper, plan), RegistryRead(plan.dataset.name))
  {
    if HasUploadedDataset(paper) {
      var f := OptionText(paper.value.datasetOriginalFilename);
      assert ExcelCode(meta, paper, plan) == UploadedExcelCode(plan, f);
    } else {
      RegistryExcelCodeShape(plan);
      forall f
        ensures ExcelCode(meta, paper, plan) != UploadedExcelCode(plan, f)
      {
        ExcelVariantsDiffer(plan, f);
      }
    }
  }

  // ---------------------------------------------------------------------
  // HuggingFace text corpora
  // ---------------------------------------------------------------------

  /** Field names tried, in order, when detecting the text field. */
  const TextFieldCandidates: seq<string> := ["sentence", "text", "content", "review"]

  /** The vectorizer line, spelled token by token. */
  const BoundedVectorizer := "vectorizer = " + "CountVectorizer(" + "max_features=MAX_FEATURES)"

  /** `plan.dataset.split or "train"`. */
  function SplitOrTrain(plan: Plan): (s: string)
    ensures Truthy(plan.dataset.split) ==> s == plan.dataset.split.value
    ensures !Truthy(plan.dataset.split) ==> s == "train"
  {
    if Truthy(plan.dataset.split) then plan.dataset.split.value else "train"
  }

  /** The cached text-corpus cell. */
  function HuggingFaceCode(meta: DatasetMetadata, plan: Plan): string
  {
    Lines(HuggingFaceLines(meta, plan.dataset.name, SplitOrTrain(plan)))
  }

  function HuggingFaceLines(meta: DatasetMetadata, name: string, split: string): (lines: seq<string>)
    ensures |lines| == 55
  {
    seq(55, k requires 0 <= k < 55 => HuggingFaceLine(meta, name, split, k))
  }

  /** Line `k` of the text-corpus cell. */
  function HuggingFaceLine(meta: DatasetMetadata, name: string, split: string, k: nat): string
    requires k < 55
  {
    match k
    case 0 => "# Dataset: " + name + " (HuggingFace - cached download)"
    case 1 => "CACHE_DIR = os.getenv(\"DATASET_CACHE_DIR\", \"./data/cache\")"
    case 2 => "OFFLINE_MODE = os.getenv(\"OFFLINE_MODE\", \"false\").lower() == \"true\""
    case 3 => ""
    case 4 => LoadEvent(name)
    case 5 => ""
    case 6 => "# Load with caching (downloads only if not cached)"
    case 7 => "dataset = load_dataset("
    case 8 => "    " + QuotedList(meta.hfPath) + ","
    case 9 => "    cache_dir=CACHE_DIR,"
    case 10 => "    download_mode=\"reuse_dataset_if_exists\",  # Reuse cache if available"
    case 11 => ")"
    case 12 => ""
    case 13 => "# Extract split"
    case 14 => ("split_name = \"" + split + "\"") + (" if \"" + split + "\" in dataset else \"train\"")
    case 15 => "train_data = dataset[split_name]"
    case 16 => ""
    case 17 => "# Convert to sklearn-compatible format"
    case 18 => "# Phase 2: Simple bag-of-words (Phase 3 will add real NLP models)"
    case 19 => ""
    case 20 => "# Detect text field (common field names)"
    case 21 => "text_field = None"
    case 22 => "for field in [" + QuotedList(TextFieldCandidates) + "]:"
    case 23 => "    if field in train_data.features:"
    case 24 => "        text_field = field"
    case 25 => "        break"
    case 26 => ""
    case 27 => "if text_field is None:"
    case 28 => "    raise ValueError(f\"Could not find text field in dataset. Available fields: {list(train_data.features.keys())}\")"
    case 29 => ""
    case 30 => "# Extract texts and labels"
    case 31 => "texts = [row[text_field] for row in train_data]"
    case 32 => ""
    case 33 => "# Detect label field"
    case 34 => "label_field = \"label\" if \"label\" in train_data.features else list(train_data.features.keys())[1]"
    case 35 => "labels = [row[label_field] for row in train_data]"
    case 36 => ""
    case 37 => "# Vectorize text (bag-of-words for sklearn compatibility)"
    case 38 => "MAX_FEATURES = int(os.getenv(\"MAX_BOW_FEATURES\", \"1000\"))"
    case 39 => BoundedVectorizer
    case 40 => "X = vectorizer.fit_transform(texts).toarray()"
    case 41 => "y = np.array(labels)"
    case 42 => ""
    case 43 => "# Subsample for CPU budget"
    case 44 => SubsampleLines("X")[0]
    case 45 => SubsampleLines("X")[1]
    case 46 => SubsampleLines("X")[2]
    case 47 => "    X, y = X[indices], y[indices]"
    case 48 => ""
    case 49 => "# Split train/test"
    case 50 => "X_train, X_test, y_train, y_test = train_test_split("
    case 51 => "    X, y, test_size=0.2, random_state=SEED"
    case 52 => ")"
    case 53 => ""
    case _ => "log_event(\"metric_update\", {\"metric\": \"dataset_samples\", \"value\": len(X)})"
  }

  /** The text-corpus cell loads the registry's HuggingFace path with each
      part quoted, picks the plan's split or `train`, vectorises with a
      bounded vocabulary and no seed argument, and subsamples with a
      generator seeded by SEED. */
  lemma HuggingFaceCodeShape(meta: DatasetMetadata, plan: Plan)
    ensures AnnouncesDatasetLoad(HuggingFaceCode(meta, plan), plan.dataset.name)
    ensures Contains(HuggingFaceCode(meta, plan), "    " + QuotedList(meta.hfPath) + ",")
    ensures Contains(HuggingFaceCode(meta, plan), "split_name = \"" + SplitOrTrain(plan) + "\"")
    ensures Contains(HuggingFaceCode(meta, plan), BoundedVectorizer)
    ensures !Contains(BoundedVectorizer, "random_state")
    ensures Contains(HuggingFaceCode(meta, plan), SeededSubsample)
  {
    HuggingFaceVectorizerUnseeded();
    var split := SplitOrTrain(plan);
    HuggingFaceAnnouncesLoad(meta, plan.dataset.name, split);
    HuggingFacePath(meta, plan.dataset.name, split);
    HuggingFaceSplit(meta, plan.dataset.name, split);
    HuggingFaceBounded(meta, plan.dataset.name, split);
    HuggingFaceSeeded(meta, plan.dataset.name, split);
  }

  lemma HuggingFaceAnnouncesLoad(meta: DatasetMetadata, name: string, split: string)
    ensures AnnouncesDatasetLoad(Lines(HuggingFaceLines(meta, name, split)), name)
  {
    LoadEventAnnounces(HuggingFaceLines(meta, name, split), 4, name);
  }

  lemma HuggingFacePath(meta: DatasetMetadata, name: string, split: string)
    ensures Contains(Lines(HuggingFaceLines(meta, name, split)), "    " + QuotedList(meta.hfPath) + ",")
  {
    ContainsJoined(HuggingFaceLines(meta, name, split), "\n", 8);
  }

  lemma HuggingFaceSplit(meta: DatasetMetadata, name: string, split: string)
    ensures Contains(Lines(HuggingFaceLines(meta, name, split)), "split_name = \"" + split + "\"")
  {
    ContainsStart("split_name = \"" + split + "\"", " if \"" + split + "\" in dataset else \"train\"");
    ContainsLine(HuggingFaceLines(meta, name, split), 14, "split_name = \"" + split + "\"");
  }

  lemma HuggingFaceBounded(meta: DatasetMetadata, name: string, split: string)
    ensures Contains(Lines(HuggingFaceLines(meta, name, split)), BoundedVectorizer)
  {
    ContainsJoined(HuggingFaceLines(meta, name, split), "\n", 39);
  }

  lemma HuggingFaceSeeded(meta: DatasetMetadata, name: string, split: string)
    ensures Contains(Lines(HuggingFaceLines(meta, name, split)), SeededSubsample)
  {
    SubsampleIsSeeded("X");
    ContainsLine(HuggingFaceLines(meta, name, split), 46, SeededSubsample);
  }

  /** The vectorizer call passes no `random_state`; its text has no `d`. */
  lemma HuggingFaceVectorizerUnseeded()
    ensures !Contains(BoundedVectorizer, "random_state")
  {
    assert "random_state"[3] == 'd';
    LacksChar(BoundedVectorizer, "random_state", 'd');
  }

  /** The text-corpus cell's lines before the vectorizer line. */
  function HuggingFaceHead(meta: DatasetMetadata, plan: Plan): string
  {
    Lines(HuggingFaceLines(meta, plan.dataset.name, SplitOrTrain(plan))[..39])
  }

  /** The text-corpus cell's lines after the vectorizer line. */
  function HuggingFaceTail(meta: DatasetMetadata, plan: Plan): string
  {
    Lines(HuggingFaceLines(meta, plan.dataset.name, SplitOrTrain(plan))[40..])
  }

  /** The vectorizer sits on a line of its own, between the head and the
      tail of the cell. */
  lemma HuggingFaceAroundVectorizer(meta: DatasetMetadata, plan: Plan)
    ensures HuggingFaceCode(meta, plan) ==
      (HuggingFaceHead(meta, plan) + "\n") + BoundedVectorizer + ("\n" + HuggingFaceTail(meta, plan))
  {
    var ls := HuggingFaceLines(meta, plan.dataset.name, SplitOrTrain(plan));
    assert ls == ls[..39] + ([ls[39]] + ls[40..]);
    LinesAppend(ls[..39], [ls[39]] + ls[40..]);
    LinesAppend([ls[39]], ls[40..]);
    assert ls[39] == BoundedVectorizer;
  }

  // ---------------------------------------------------------------------
  // The three capabilities, dispatched on the variant
  // ---------------------------------------------------------------------

  /** `generate_imports`. */
  function Imports(g: DatasetGenerator): seq<string>
  {
    match g
    case Synthetic =>
      [ "from sklearn.datasets import make_classification",
        "from sklearn.model_selection import train_test_split" ]
    case Sklearn(meta) =>
      [ "from sklearn.datasets import " + meta.loadFunction,
        "from sklearn.model_selection import train_test_split" ]
    case Torchvision(_) =>
      [ "from torchvision import datasets, transforms",
        "import numpy as np",
        "import os" ]
    case Excel(_, _) =>
      [ "import pandas as pd",
        "from sklearn.preprocessing import LabelEncoder",
        "from sklearn.model_selection import train_test_split",
        "import os" ]
    case HuggingFace(_) =>
      [ "from datasets import load_dataset",
        "from sklearn.feature_extraction.text import CountVectorizer",
        "from sklearn.model_selection import train_test_split",
        "import os" ]
  }

  /** `generate_code`. */
  function Code(g: DatasetGenerator, plan: Plan): string
  {
    match g
    case Synthetic => SyntheticCode(plan)
    case Sklearn(meta) => SklearnCode(meta, plan)
    case Torchvision(meta) => TorchvisionCode(meta, plan)
    case Excel(meta, paper) => ExcelCode(meta, paper, plan)
    case HuggingFace(meta) => HuggingFaceCode(meta, plan)
  }

  /** Every dataset generator imports something. */
  lemma ImportsNonEmpty(g: DatasetGenerator)
    ensures |Imports(g)| >= 2
  {
  }

  /** `generate_requirements`. */
  function Requirements(g: DatasetGenerator): seq<string>
  {
    match g
    case Synthetic => ["scikit-learn==1.5.1"]
    case Sklearn(_) => ["scikit-learn==1.5.1"]
    case Torchvision(_) => ["torch==2.1.0", "torchvision==0.16.0"]
    case Excel(_, _) => ["pandas==2.2.2", "xlrd>=2.0.1", "openpyxl>=3.1.0", "scikit-learn==1.5.1"]
    case HuggingFace(_) => ["datasets>=2.14.0", "scikit-learn==1.5.1"]
  }

  /** Every dataset cell logs the `dataset_load` stage for the plan's
      dataset, whichever generator produced it. */
  lemma EveryDatasetCellAnnouncesLoad(g: DatasetGenerator, plan: Plan)
    ensures AnnouncesDatasetLoad(Code(g, plan), plan.dataset.name)
  {
    match g
    case Synthetic => SyntheticCodeShape(plan);
    case Sklearn(meta) => SklearnGeneratorShape(meta, plan);
    case Torchvision(meta) => TorchvisionCodeShape(meta, plan);
    case Excel(meta, paper) =>
      if HasUploadedDataset(paper) {
        UploadedExcelCodeShape(plan, OptionText(paper.value.datasetOriginalFilename));
      } else {
        RegistryExcelCodeShape(plan);
      }
    case HuggingFace(meta) => HuggingFaceCodeShape(meta, plan);
  }
}
