/**
  The records the materialisation core reads: the plan, the optional paper
  record carrying an uploaded dataset, and the dataset registry's metadata.
*/
module Records {

  datatype Option<+T> = None | Some(value: T)

  /** How Python's f-string renders an `Optional[str]`: `None` prints as
      the four letters `None`. */
  function OptionText(o: Option<string>): string
  {
    match o
    case None => "None"
    case Some(s) => s
  }

  /** Python truthiness of an `Optional[str]`: present and non-empty. */
  predicate Truthy(o: Option<string>)
  {
    o.Some? && o.value != ""
  }

  datatype DatasetSpec = DatasetSpec(name: string, split: Option<string>, notes: Option<string>)

  datatype ModelSpec = ModelSpec(name: string)

  datatype RunConfig = RunConfig(seed: int, framework: string, budgetMinutes: int)

  datatype Metric = Metric(name: string)

  /** The plan document (version 1.1) the generators read; never mutated. */
  datatype Plan = Plan(dataset: DatasetSpec, model: ModelSpec, config: RunConfig, metrics: seq<Metric>)

  /** The paper fields that signal a user-uploaded dataset. */
  datatype Paper = Paper(
    datasetStoragePath: Option<string>,
    datasetFormat: Option<string>,
    datasetOriginalFilename: Option<string>)

  /** `paper and paper.dataset_storage_path`: a paper record is always truthy,
      so this is a present paper whose storage path is non-empty. */
  predicate HasUploadedDataset(paper: Option<Paper>)
  {
    paper.Some? && Truthy(paper.value.datasetStoragePath)
  }

  /** The registry's source tags; `Other` stands for any tag the factory does
      not dispatch on. */
  datatype DatasetSource =
    | SklearnSource
    | TorchvisionSource
    | HuggingFaceSource
    | ExcelSource
    | OtherSource(tag: string)

  datatype DatasetMetadata = DatasetMetadata(
    source: DatasetSource,
    loadFunction: string,
    typicalSizeMb: int,
    license: string,
    hfPath: seq<string>)

  /** The registry lookup (name normalisation and aliases included), injected:
      `None` is a miss. */
  type Registry = string -> Option<DatasetMetadata>
}
