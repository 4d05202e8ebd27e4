/**
  `GeneratorFactory`: which dataset generator and which model generator a
  plan gets. A staged upload on the paper wins over everything; otherwise the
  registry's source tag decides, and a registry miss or an unknown tag falls
  back to the synthetic generator. Selection is total and never fails.
*/
module Factory {
  import opened Records
  import opened DatasetGenerators

  /** The metadata the factory invents for a user-uploaded dataset: Excel,
      read with `read_excel`, assumed to weigh 1 MB, user-provided licence. */
  const UploadedMetadata := DatasetMetadata(ExcelSource, "read_excel", 1, "user-provided", [])

  /** The generator a registry entry selects when no upload is staged; `None`
      for a source tag the factory does not recognise. */
  function SourceGenerator(meta: DatasetMetadata, paper: Option<Paper>): (g: Option<DatasetGenerator>)
    ensures g.None? <==> meta.source.OtherSource?
    ensures g.Some? ==> g.value != Synthetic && g.value.meta == meta
    ensures meta.source == SklearnSource ==> g == Some(Sklearn(meta))
    ensures meta.source == TorchvisionSource ==> g == Some(Torchvision(meta))
    ensures meta.source == HuggingFaceSource ==> g == Some(HuggingFace(meta))
    ensures meta.source == ExcelSource ==> g == Some(Excel(meta, paper))
  {
    match meta.source
    case SklearnSource => Some(Sklearn(meta))
    case TorchvisionSource => Some(Torchvision(meta))
    case HuggingFaceSource => Some(HuggingFace(meta))
    case ExcelSource => Some(Excel(meta, paper))
    case OtherSource(_) => None
  }

  /** `get_dataset_generator(plan, paper)`, with `lookup_dataset` injected as
      `registry`. */
  function SelectDatasetGenerator(plan: Plan, paper: Option<Paper>, registry: Registry): (g: DatasetGenerator)
    // a staged upload overrides the registry, whatever the dataset's name
    ensures HasUploadedDataset(paper) ==> g == Excel(UploadedMetadata, paper)
    // a registry miss falls back to synthetic data
    ensures !HasUploadedDataset(paper) && registry(plan.dataset.name).None? ==> g == Synthetic
    // a registry hit is dispatched on its source tag, metadata passed through
    ensures !HasUploadedDataset(paper) && registry(plan.dataset.name).Some? ==>
      var meta := registry(plan.dataset.name).value;
      g == (if meta.source.OtherSource? then Synthetic else SourceGenerator(meta, paper).value)
  {
    if HasUploadedDataset(paper) then
      Excel(UploadedMetadata, paper)
    else
      match registry(plan.dataset.name)
      case None => Synthetic
      case Some(meta) =>
        match SourceGenerator(meta, paper)
        case None => Synthetic
        case Some(g) => g
  }

  /** The synthetic fallback is chosen exactly when nothing is uploaded and
      the registry either misses or names a source the factory does not know. */
  lemma SyntheticExactlyOnFallback(plan: Plan, paper: Option<Paper>, registry: Registry)
    ensures SelectDatasetGenerator(plan, paper, registry) == Synthetic <==>
      !HasUploadedDataset(paper) &&
      (registry(plan.dataset.name).None? || registry(plan.dataset.name).value.source.OtherSource?)
  {
  }

  /** Whenever the factory picks a registry-backed generator, the metadata it
      binds is exactly the registry's entry for the plan's dataset. */
  lemma RegistryMetadataPassedThrough(plan: Plan, paper: Option<Paper>, registry: Registry)
    requires !HasUploadedDataset(paper)
    requires SelectDatasetGenerator(plan, paper, registry) != Synthetic
    ensures registry(plan.dataset.name).Some?
    ensures SelectDatasetGenerator(plan, paper, registry).meta == registry(plan.dataset.name).value
  {
  }

  /** The variant follows the registry's source tag one to one. */
  lemma VariantFollowsSource(plan: Plan, paper: Option<Paper>, registry: Registry)
    requires !HasUploadedDataset(paper) && registry(plan.dataset.name).Some?
    ensures var v := VariantOf(SelectDatasetGenerator(plan, paper, registry));
      match registry(plan.dataset.name).value.source
      case SklearnSource => v == SklearnVariant
      case TorchvisionSource => v == TorchvisionVariant
      case HuggingFaceSource => v == HuggingFaceVariant
      case ExcelSource => v == ExcelVariant
      case OtherSource(_) => v == SyntheticVariant
  {
  }

  /** With an upload staged, the registry is never consulted: any two
      registries, and any dataset names, give the same generator. */
  lemma UploadOverridesRegistry(plan1: Plan, plan2: Plan, paper: Option<Paper>, registry1: Registry, registry2: Registry)
    requires HasUploadedDataset(paper)
    ensures SelectDatasetGenerator(plan1, paper, registry1) == SelectDatasetGenerator(plan2, paper, registry2)
    ensures VariantOf(SelectDatasetGenerator(plan1, paper, registry1)) == ExcelVariant
  {
  }

  /** The registry entry of another dataset name never matters. */
  lemma OnlyThePlansEntryMatters(plan: Plan, paper: Option<Paper>, registry1: Registry, registry2: Registry)
    requires registry1(plan.dataset.name) == registry2(plan.dataset.name)
    ensures SelectDatasetGenerator(plan, paper, registry1) == SelectDatasetGenerator(plan, paper, registry2)
  {
  }

  /** The metadata with a different download size: the size only feeds a
      warning in the log. */
  function WithSize(meta: DatasetMetadata, sizeMb: int): DatasetMetadata
  {
    meta.(typicalSizeMb := sizeMb)
  }

  /** The size check never changes which generator is chosen: registries
      that differ only in an entry's `typical_size_mb` select the same variant. */
  lemma SizeDoesNotSteerSelection(plan: Plan, paper: Option<Paper>, registry: Registry, sizeMb: int)
    ensures var small := SelectDatasetGenerator(plan, paper, registry);
      var resized := (n: string) =>
        match registry(n)
        case None => None
        case Some(m) => Some(WithSize(m, sizeMb));
      VariantOf(SelectDatasetGenerator(plan, paper, resized)) == VariantOf(small)
  {
  }

  /** A registry-listed Excel dataset keeps the paper it was given. With no
      upload staged on that paper the cell is the registry-file template,
      which reads `./<name>.xls`, and never the uploaded-file one. */
  lemma RegistryExcelKeepsPaper(plan: Plan, paper: Option<Paper>, registry: Registry)
    requires !HasUploadedDataset(paper)
    requires registry(plan.dataset.name).Some? && registry(plan.dataset.name).value.source == ExcelSource
    ensures SelectDatasetGenerator(plan, paper, registry) == Excel(registry(plan.dataset.name).value, paper)
    ensures Code(SelectDatasetGenerator(plan, paper, registry), plan) == RegistryExcelCode(plan)
    ensures forall f :: Code(SelectDatasetGenerator(plan, paper, registry), plan) != UploadedExcelCode(plan, f)
  {
    ExcelRouting(registry(plan.dataset.name).value, paper, plan);
  }

  /** With an upload staged, the dataset cell is the uploaded-file template
      reading the paper's original file name, whatever the registry says. */
  lemma UploadedDatasetCell(plan: Plan, paper: Option<Paper>, registry: Registry)
    requires HasUploadedDataset(paper)
    ensures Code(SelectDatasetGenerator(plan, paper, registry), plan) ==
      UploadedExcelCode(plan, OptionText(paper.value.datasetOriginalFilename))
  {
  }

  /** The model generators; only logistic regression exists so far. */
  datatype ModelGenerator = Logistic

  /** `get_model_generator(plan)`: logistic regression for every plan. */
  function SelectModelGenerator(plan: Plan): (m: ModelGenerator)
    ensures m == Logistic
  {
    Logistic
  }

  /** What a model generator emits: its imports, code cell and pinned
      requirements. */
  datatype ModelArtifacts = ModelArtifacts(imports: seq<string>, code: string, requirements: seq<string>)

  /** The logistic generator's output for a plan. That generator is not part
      of this model, so its output is a parameter. */
  type LogisticOutputs = Plan -> ModelArtifacts

  function ModelOutputs(m: ModelGenerator, plan: Plan, logistic: LogisticOutputs): ModelArtifacts
  {
    match m
    case Logistic => logistic(plan)
  }
}
