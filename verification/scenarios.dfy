/**
  Worked scenarios over concrete plans, registries and notebooks: the
  bundled-dataset path end to end, the synthetic fallback, a staged upload,
  and the validator catching `random_state` on a vectorizer.
*/
module Scenarios {
  import opened Text
  import opened Ordering
  import opened Records
  import opened DatasetGenerators
  import opened Factory
  import opened Notebook
  import opened ParamPattern
  import opened Validation

  /** An example registry entry for the iris dataset. */
  const IrisMetadata := DatasetMetadata(SklearnSource, "load_iris", 1, "BSD-3-Clause", [])

  /** An example registry that knows iris and nothing else. */
  function IrisRegistry(name: string): Option<DatasetMetadata>
  {
    if name == "iris" then Some(IrisMetadata) else None
  }

  function PlanFor(dataset: string, seed: int): Plan
  {
    Plan(DatasetSpec(dataset, None, None), ModelSpec("logistic"), RunConfig(seed, "sklearn", 5), [Metric("accuracy")])
  }

  /** A logistic generator that pins only scikit-learn. */
  function SklearnOnlyModel(plan: Plan): ModelArtifacts
  {
    ModelArtifacts(["from sklearn.linear_model import LogisticRegression"], "model = LogisticRegression()", ["scikit-learn==1.5.1"])
  }

  /** Iris with seed 42: the bundled-tabular generator is chosen, the notebook
      has its five cells with the dataset cell loading iris, and the manifest
      pins scikit-learn and hashes the body it ends with. */
  lemma IrisEndToEnd(hash: Hash)
    ensures SelectDatasetGenerator(PlanFor("iris", 42), None, IrisRegistry) == Sklearn(IrisMetadata)
    ensures var nb := BuildNotebook(PlanFor("iris", 42), "plan-1", None, IrisRegistry, SklearnOnlyModel);
      |nb.cells| == 5 && AnnouncesDatasetLoad(nb.cells[3].source, "iris") &&
      Contains(nb.cells[1].source, SeedAssignment(42))
    ensures var r := BuildRequirements(PlanFor("iris", 42), IrisRegistry, SklearnOnlyModel, hash);
      var body := r.text[..|r.text| - 1];
      "scikit-learn==1.5.1" in Split(body, '\n') && r.envHash == hash(body)
    ensures PrimaryMetric(PlanFor("iris", 42)) == "accuracy"
  {
    var plan := PlanFor("iris", 42);
    NotebookCells(plan, "plan-1", None, IrisRegistry, SklearnOnlyModel);
    IrisManifest(hash);
  }

  lemma IrisManifest(hash: Hash)
    ensures var r := BuildRequirements(PlanFor("iris", 42), IrisRegistry, SklearnOnlyModel, hash);
      var body := r.text[..|r.text| - 1];
      "scikit-learn==1.5.1" in Split(body, '\n') && r.envHash == hash(body)
  {
    var plan := PlanFor("iris", 42);
    var ds := Requirements(Sklearn(IrisMetadata));
    var ms := ["scikit-learn==1.5.1"];
    assert SingleLines(ds) by {
      forall k | 0 <= k < |ds|
        ensures '\n' !in ds[k]
      {
        DatasetPinSingleLine(Sklearn(IrisMetadata), k);
      }
    }
    assert SingleLines(ms) by {
      DatasetPinSingleLine(Sklearn(IrisMetadata), 0);
    }
    ManifestReadsBack(ds, ms, hash);
    assert "scikit-learn==1.5.1" in Elems(ms);
  }

  /** A dataset the example registry `IrisRegistry` does not list, with no
      upload, gets synthetic data; the same plan with an upload staged gets
      the uploaded-file template, yet its manifest as written lacks the
      Excel reader. */
  lemma UnknownDatasetScenario(paper: Paper)
    requires Truthy(paper.datasetStoragePath)
    ensures SelectDatasetGenerator(PlanFor("penalty_shootouts", 7), None, IrisRegistry) == Synthetic
    ensures SelectDatasetGenerator(PlanFor("penalty_shootouts", 7), Some(paper), IrisRegistry) == Excel(UploadedMetadata, Some(paper))
    ensures "xlrd>=2.0.1" !in Elems(MergedRequirements(Requirements(Synthetic), SklearnOnlyModel(PlanFor("penalty_shootouts", 7)).requirements))
  {
    var plan := PlanFor("penalty_shootouts", 7);
    assert "xlrd>=2.0.1" != "scikit-learn==1.5.1";
    UploadedManifestMissesExcelReader(plan, Some(paper), IrisRegistry, SklearnOnlyModel);
  }

  /** A cell passing `random_state` to `CountVectorizer`. */
  const SeededCountVectorizer := "CountVectorizer" + "(" + "random_state" + "=" + "0)"

  /** The validator flags that cell with exactly the count-vectorizer
      message, and nothing else, when the cell compiles. */
  lemma RandomStateOnVectorizerIsCaught(bytes: seq<bv8>)
    ensures var read := (b: seq<bv8>) => Parsed([Cell(CodeCell, SeededCountVectorizer)]);
      var compile := (src: string, name: string) => Compiled;
      Validate(bytes, read, compile) == ValidationResult(false, [ParamFinding(0, 0)])
  {
    var cells := [Cell(CodeCell, SeededCountVectorizer)];
    var compile := (src: string, name: string) => Compiled;
    SyntaxErrorsEmpty(cells, 0, compile);
    SeededCellFindings();
    assert CheckParams(cells) == RuleErrors(SeededCountVectorizer, 0, ParamRules) + ParamErrorsFrom(cells, 1);
  }

  /** Only the count-vectorizer rule fires on that cell. */
  lemma SeededCellFindings()
    ensures RuleErrors(SeededCountVectorizer, 0, ParamRules) == [ParamFinding(0, 0)]
  {
    var src := SeededCountVectorizer;
    SeededCellMatches();
    SeededCellLacksOtherClasses();
    RuleErrorsUnrolled(src, 0);
    assert RulePart(src, 0, 0) == [ParamFinding(0, 0)];
    assert RulePart(src, 0, 1) == [];
    assert RulePart(src, 0, 2) == [];
  }

  lemma SeededCellMatches()
    ensures PatternMatches(SeededCountVectorizer, "CountVectorizer", "random_state")
    ensures Contains(SeededCountVectorizer, "CountVectorizer")
  {
    KeywordCallMatches("", "CountVectorizer", "", "random_state", "0)");
    assert "" + "CountVectorizer" + "(" + "" + "random_state" + "=" + "0)" == SeededCountVectorizer;
    PatternNeedsParam(SeededCountVectorizer, "CountVectorizer", "random_state");
  }

  lemma SeededCellLacksOtherClasses()
    ensures !Contains(SeededCountVectorizer, "TfidfVectorizer")
    ensures !Contains(SeededCountVectorizer, "HashingVectorizer")
  {
    SeededCellLacksTfidf();
    SeededCellLacksHashing();
  }

  lemma SeededCellLacksTfidf()
    ensures !Contains(SeededCountVectorizer, "TfidfVectorizer")
  {
    assert "TfidfVectorizer"[1] == 'f';
    LacksChar(SeededCountVectorizer, "TfidfVectorizer", 'f');
  }

  lemma SeededCellLacksHashing()
    ensures !Contains(SeededCountVectorizer, "HashingVectorizer")
  {
    assert "HashingVectorizer"[0] == 'H';
    LacksChar(SeededCountVectorizer, "HashingVectorizer", 'H');
  }
}
