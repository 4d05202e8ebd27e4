# Paper2Notebook notebook materialisation, modelled in Dafny

Paper2Notebook turns a structured experiment plan into a runnable Jupyter
notebook plus a pinned `requirements.txt`. It then checks the generated code
statically before anything runs it. This project models that materialisation
core as pure Dafny functions and proves properties about them:

- **Generator selection** (`GeneratorFactory`). A staged upload always wins.
  Otherwise the dataset registry's source tag picks one of the bundled-tabular
  (scikit-learn), cached-vision (torchvision), text-corpus (HuggingFace) or
  tabular-file (Excel) generators. A registry miss or an unknown source falls
  back to synthetic data. The model generator is always logistic regression.
- **Dataset code generators**. Each generator gives a fixed import list, a
  fixed list of pinned requirements and a code cell. The code cell is modelled
  line by line as the text left after `textwrap.dedent(...).strip()`, with the
  plan's fields interpolated.
- **Requirements and notebook assembly**. This covers:
  - `sorted(set(...))` over the default pins and both generators' pins;
  - the newline join and the hash of the body;
  - the five-cell notebook (intro, setup, imports, dataset, model) and its
    kernel metadata.
- **Validation**. Every code cell is compiled, and the source is searched
  for `random_state` passed to the three deterministic scikit-learn
  vectorizers. Every finding is collected, and the notebook is valid exactly
  when there are none.

Collaborators the core calls but that are not part of this model are
function-typed parameters:

- the dataset registry (`Records.Registry`, name to optional metadata);
- the logistic model generator's outputs (`Factory.LogisticOutputs`);
- SHA-256 (`Notebook.Hash`);
- Python's `compile` (`Validation.Compiler`);
- `nbformat` parsing of the notebook bytes (`Validation.NotebookReader`).

Modules follow the program's structure:

| module | file | what it holds |
|---|---|---|
| `Text` | text.dfy | substring search, join and split, decimal rendering and parsing |
| `Ordering` | ordering.dfy | Python's `<` on `str`, and `sorted(set(xs))` |
| `Records` | records.dfy | plan, paper and registry metadata records |
| `DatasetGenerators` | dataset_generators.dfy | the five dataset generators |
| `Factory` | factory.dfy | generator selection |
| `Notebook` | notebook.dfy | requirements manifest and notebook cells |
| `ParamPattern` | param_pattern.dfy | the forbidden-keyword regular expression: its meaning and a scanner |
| `Validation` | validation.dfy | `NotebookValidator.validate` |
| `Scenarios` | scenarios.dfy | worked examples over concrete plans and notebooks |

## Model

| member | source | states |
|---|---|---|
| Factory.SelectDatasetGenerator | backend/api/app/materialize/generators/factory.py:78-159 | A staged upload gives the Excel generator with the fixed upload metadata, bound to the paper. With no upload, a registry miss gives synthetic data. A hit dispatches on the source tag. |
| Factory.SourceGenerator | backend/api/app/materialize/generators/factory.py:121-159 | Each known source tag maps to its generator with the metadata unchanged. The Excel generator also keeps the paper. An unrecognised tag has no generator. |
| Factory.SyntheticExactlyOnFallback | backend/api/app/materialize/generators/factory.py:102-159 | Synthetic data is chosen if and only if there is no upload and the registry misses or names an unknown source. |
| Factory.RegistryMetadataPassedThrough | backend/api/app/materialize/generators/factory.py:122-150 | Without an upload, any non-synthetic generator carries exactly the metadata the registry returned for the plan's dataset. |
| Factory.VariantFollowsSource | backend/api/app/materialize/generators/factory.py:121-159 | Without an upload, a registry hit's source tag alone determines the generator variant. |
| Factory.UploadOverridesRegistry | backend/api/app/materialize/generators/factory.py:80-99 | With an upload, the chosen generator is the same for every plan and every registry, and it is the Excel one. |
| Factory.OnlyThePlansEntryMatters | backend/api/app/materialize/generators/factory.py:78-102 | Two registries that agree on the plan's dataset name lead to the same generator. |
| Factory.SizeDoesNotSteerSelection | backend/api/app/materialize/generators/factory.py:112-119 | Changing the typical download size in every registry entry never changes the chosen variant: the size check only logs. |
| Factory.RegistryExcelKeepsPaper | backend/api/app/materialize/generators/factory.py:145-150 | A registry hit with the Excel source, and no upload, gives an Excel generator with the registry metadata and the caller's paper. Its cell is the registry-file template and differs from every uploaded-file cell. |
| Factory.UploadedDatasetCell | backend/api/app/materialize/generators/factory.py:82-99 | With an upload, the dataset cell is the uploaded-file template naming the paper's original filename. `None` is rendered as `None`. |
| Factory.SelectModelGenerator | backend/api/app/materialize/generators/factory.py:161-180 | The model generator is logistic regression for every plan. The model has only this one generator, so the contract holds by construction and says no more than the type. |
| DatasetGenerators.SyntheticCodeShape | backend/api/app/materialize/generators/dataset.py:35-68 | The synthetic cell announces the load of the plan's dataset. It draws 512 samples with 32 features seeded with `SEED`, and splits with `test_size=0.2`, stratified and seeded. |
| DatasetGenerators.SklearnGeneratorShape | backend/api/app/materialize/generators/dataset.py:98-132 | The first import brings in the registry's load function. The code calls that same function with `return_X_y=True` and announces the load. |
| DatasetGenerators.TorchvisionCodeShape | backend/api/app/materialize/generators/dataset.py:172-231 | The cell instantiates `datasets.<load function>(`. It downloads only when not offline, subsamples with a `SEED`-seeded generator, and announces the load. |
| DatasetGenerators.UploadedExcelCodeShape | backend/api/app/materialize/generators/dataset.py:278-363 | The uploaded-file cell starts with its header. It reads the staged file by its original name, drops rows with missing values, runs target detection and announces the load. |
| DatasetGenerators.RegistryExcelCodeShape | backend/api/app/materialize/generators/dataset.py:387-451 | The registry cell starts with its header, reads `./<dataset name>.xls`, runs target detection and announces the load. |
| DatasetGenerators.ExcelVariantsShareTail | backend/api/app/materialize/generators/dataset.py:313-363 | Both Excel cells end with the same target-detection, encoding, subsampling and split block. |
| DatasetGenerators.ExcelVariantsDiffer | backend/api/app/materialize/generators/dataset.py:383-397 | The uploaded-file cell and the registry cell are never the same text. |
| DatasetGenerators.ExcelRouting | backend/api/app/materialize/generators/dataset.py:383-389 | The Excel generator emits an uploaded-file cell if and only if the paper is present with a non-empty storage path, and then it names the paper's filename. Otherwise it reads the registry path. |
| DatasetGenerators.TargetColumn | backend/api/app/materialize/generators/dataset.py:313-323 | The emitted target rule picks the first listed candidate present among the columns. If none is present it picks the last column, and an empty frame has none. |
| DatasetGenerators.CandidateListsRoundTrip | backend/api/app/materialize/generators/dataset.py:315 | The quoted candidate lists written into the cells read back as the target-name and text-field lists. |
| DatasetGenerators.QuotedListRoundTrip | backend/api/app/materialize/generators/dataset.py:514 | Quoting each HuggingFace path element and joining with `", "` reads back as the same list, whenever no element contains a double quote. |
| DatasetGenerators.SplitOrTrain | backend/api/app/materialize/generators/dataset.py:515 | The split is the plan's split when that is present and non-empty, and `"train"` otherwise. |
| DatasetGenerators.HuggingFaceCodeShape | backend/api/app/materialize/generators/dataset.py:498-575 | The cell loads the quoted path, selects the split or `"train"`, and vectorizes with `CountVectorizer(max_features=MAX_FEATURES)`. It subsamples with a `SEED`-seeded generator and announces the load. The vectorizer call passes no `random_state`. |
| DatasetGenerators.HuggingFaceAroundVectorizer | backend/api/app/materialize/generators/dataset.py:556-559 | The vectorizer statement is a line of its own: the cell is the lines before it, a line break, the statement, a line break, and the lines after it. |
| DatasetGenerators.EveryDatasetCellAnnouncesLoad | backend/api/app/materialize/generators/dataset.py:35-575 | Every dataset generator's cell logs a `stage_update` / `dataset_load` event naming the plan's dataset. |
| DatasetGenerators.ImportsNonEmpty | backend/api/app/materialize/generators/dataset.py:28-496 | Every dataset generator lists at least two imports, so the imports cell always has generator imports to list. |
| Notebook.PrimaryMetric | backend/api/app/materialize/notebook.py:24-25 | The result is the first metric's name, or `"metric"` when the plan lists none. |
| Notebook.MergedRequirements | backend/api/app/materialize/notebook.py:40-52 | The manifest lines are strictly increasing in Python's string order. As a set, they are the default pins, the dataset pins and the model pins. |
| Notebook.ManifestReadsBack | backend/api/app/materialize/notebook.py:52-55 | The text ends with one newline. The hash is taken over the text without that newline. Splitting that body at newlines gives back the sorted, duplicate-free union of the pins. |
| Notebook.PinsAreSingleLines | backend/api/app/materialize/notebook.py:15-21 | No default pin and no dataset-generator pin contains a line break. |
| Notebook.RequirementsOrderIndependent | backend/api/app/materialize/notebook.py:40-55 | Reordering or repeating the generators' pins changes neither the manifest text nor its hash. |
| Notebook.ManifestCoversPins | backend/api/app/materialize/notebook.py:40-50 | The manifest written by the requirements builder includes every default, dataset and model pin. |
| Notebook.UploadedManifestMissesExcelReader | backend/api/app/materialize/notebook.py:43 | As written, with an upload staged, the notebook's generator pins `xlrd>=2.0.1` while the manifest lacks it. This holds whenever the plan's own registry entry is not Excel and the model does not pin it. |
| Notebook.ManifestTextLacksExcelReader | backend/api/app/materialize/notebook.py:43-55 | With an upload staged, a paper-less selection that is not Excel, and a model that does not pin it, splitting the returned manifest text into lines never gives `xlrd>=2.0.1`, though the notebook's dataset generator pins it. |
| Notebook.NotebookRequirementsCoverNotebook | backend/api/app/materialize/notebook.py:80 | A manifest built from the generators the notebook uses lists every pin of those generators. |
| Notebook.NotebookRequirementsAgreeWithoutUpload | backend/api/app/materialize/notebook.py:43-55 | When nothing is uploaded, the corrected manifest equals the one written now. |
| Notebook.IntroNamesPlan | backend/api/app/materialize/notebook.py:93-103 | The intro cell starts with `# Plan <plan id>`. |
| Notebook.SetupSeedsRun | backend/api/app/materialize/notebook.py:143 | The setup cell assigns `SEED = <seed>`, and the digits after `SEED = ` read back as the plan's seed. |
| Notebook.SetupNamesPlan | backend/api/app/materialize/notebook.py:146 | The setup cell mentions the plan id. |
| Notebook.ImportsCode | backend/api/app/materialize/notebook.py:155 | With no imports from either generator, the cell is the `# No additional imports needed` placeholder. |
| Notebook.ImportsReadBack | backend/api/app/materialize/notebook.py:86 | When there are imports, the imports cell splits into strictly increasing lines whose set is the union of both generators' imports. |
| Notebook.ImportsOrderIndependent | backend/api/app/materialize/notebook.py:86 | Reordering or repeating import statements does not change the imports cell. |
| Notebook.BuildNotebook | backend/api/app/materialize/notebook.py:158-164 | The notebook has five cells. The first is markdown and the other four are code. |
| Notebook.NotebookCells | backend/api/app/materialize/notebook.py:80-173 | The cells, in order: the intro naming the plan, the setup assigning the seed, the dataset cell (the factory-selected generator's code, announcing the dataset), and the model generator's code verbatim. The kernel is `python3` with language `python`. |
| Notebook.UploadedNotebookDatasetCell | backend/api/app/materialize/notebook.py:80-89 | With an upload staged on the paper, the notebook's dataset cell is the uploaded-file template reading the paper's original file name, whatever the registry says. |
| Notebook.NotebookImportsCell | backend/api/app/materialize/notebook.py:83-86 | The notebook's imports cell lists the sorted, duplicate-free union of the selected dataset generator's imports and the model's imports. |
| Ordering.SortedUnique | backend/api/app/materialize/notebook.py:52 | `sorted(set(xs))` is strictly increasing and holds exactly the strings of `xs`. |
| Ordering.SortedUniqueOrderIndependent | backend/api/app/materialize/notebook.py:86 | `sorted(set(xs))` depends only on which strings `xs` contains. |
| Text.SplitJoin | backend/api/app/materialize/notebook.py:53 | Joining lines that contain no newline, then splitting at newlines, gives the lines back. |
| Text.ParseIntToString | backend/api/app/materialize/notebook.py:143 | The decimal rendering of an integer, the seed included, parses back to that integer. |
| ParamPattern.Search | backend/api/app/materialize/validation.py:119-120 | The scanner reports a match if and only if the pattern `Cls\s*\([^)]*param\s*=` matches somewhere in the text. |
| ParamPattern.MatchAtScanCorrect | backend/api/app/materialize/validation.py:119 | Checking one start position by skipping spaces and scanning to the next `)` agrees with the regular expression's meaning at that position. |
| ParamPattern.CallAtScanCorrect | backend/api/app/materialize/validation.py:119 | After `(`, the parameter may start anywhere up to the first `)`, and nowhere later. |
| ParamPattern.AssignAtScanCorrect | backend/api/app/materialize/validation.py:119 | `param\s*=` matches at a position exactly when the greedy whitespace skip after the name lands on `=`. |
| ParamPattern.AssignBetweenCorrect | backend/api/app/materialize/validation.py:119 | Trying every start in a range finds `param\s*=` if and only if it occurs at some start in that range. |
| ParamPattern.SkipSpaces | backend/api/app/materialize/validation.py:119 | `\s*` consumes the maximal run of Python whitespace: everything skipped is space and the next character is not. |
| ParamPattern.PatternNeedsParam | backend/api/app/materialize/validation.py:113-120 | Any match spells out both the class name and the parameter name. |
| ParamPattern.KeywordCallMatches | backend/api/app/materialize/validation.py:118-120 | A call `Cls(args param=...` with no `)` inside `args` is always flagged. |
| ParamPattern.MatchNeedsOtherLine | backend/api/app/materialize/validation.py:118-120 | A call on a line of its own that closes there and does not spell the parameter is never flagged: any match needs the class name in the lines before or after it. |
| Validation.HuggingFaceVectorizerPassesRule | backend/api/app/materialize/validation.py:112-122 | The `CountVectorizer` rule flags the text-corpus cell only if `CountVectorizer` is named outside the template's own vectorizer line (dataset.py:558), which the rule never flags. |
| Validation.Validate | backend/api/app/materialize/validation.py:58-77 | The result is valid exactly when the error list is empty, and its truth value is `valid`. An unreadable notebook yields exactly one parse-failure message. |
| Validation.CellSyntaxErrors | backend/api/app/materialize/validation.py:87-93 | A cell contributes one syntax or compilation message when it is a code cell that fails to compile, and none otherwise. |
| Validation.SyntaxCheckCollectsAll | backend/api/app/materialize/validation.py:79-94 | For every index, the syntax check reports exactly one message naming that cell if the cell exists and fails to compile, and none otherwise. Checking never stops early. |
| Validation.SyntaxMessageNames | backend/api/app/materialize/validation.py:91 | A syntax-error message names cell `i` if and only if it was made for cell `i`. |
| Validation.CompilationMessageNames | backend/api/app/materialize/validation.py:93 | A compilation-error message names cell `i` if and only if it was made for cell `i`. |
| Validation.TaggedReadsBack | backend/api/app/materialize/validation.py:121-122 | The cell index written after a message's heading reads back as the index. |
| Validation.FindingKindsDisjoint | backend/api/app/materialize/validation.py:91-123 | No message is both a syntax finding and a parameter finding. |
| Validation.SyntaxFindingsBeforeParamFindings | backend/api/app/materialize/validation.py:73-75 | Once the notebook parses, the errors are a block of syntax findings followed by a block of parameter findings, and the syntax block names its cells in strictly increasing order. |
| Validation.SyntaxFindingsInCellOrder | backend/api/app/materialize/validation.py:85-94 | Each syntax finding names, by the index read back from its text, a cell that fails to compile. The findings name their cells in strictly increasing order, so no cell is reported twice. |
| Validation.ParamFindingsDistinct | backend/api/app/materialize/validation.py:22-35 | The three rules produce three different messages for the same cell. |
| Validation.RulePartCount | backend/api/app/materialize/validation.py:111-124 | One rule's findings hold that rule's message for the cell once when the class name occurs and the pattern matches, and never another rule's message. |
| Validation.ParamCheckReportsExactly | backend/api/app/materialize/validation.py:96-126 | For every cell and rule, the parameter check reports the rule's message for that cell exactly once when the conditions hold, and otherwise not at all. The conditions are: the cell is code, contains the class name, and matches the pattern with `random_state`. Every message the check emits is such a finding for some cell and rule. |
| Validation.ValidExactlyWhenClean | backend/api/app/materialize/validation.py:58-77 | A parsed notebook is valid if and only if every code cell compiles and none passes `random_state` to a vectorizer. |
| Validation.NonCodeCellsAreSilent | backend/api/app/materialize/validation.py:107-109 | A notebook with no code cells is valid with no errors, whatever their text. |
| Scenarios.IrisEndToEnd | backend/api/app/materialize/generators/factory.py:122-127 | The iris dataset, known to the registry as bundled with scikit-learn, gets the bundled-tabular generator. Its notebook loads iris and seeds with 42, and its manifest pins scikit-learn and hashes its own body. |
| Scenarios.UnknownDatasetScenario | backend/api/app/materialize/generators/factory.py:73-76 | `penalty_shootouts`, unknown to the example registry `IrisRegistry`, gets synthetic data without an upload and the Excel generator with one. The manifest as written then lacks `xlrd`. |
| Scenarios.RandomStateOnVectorizerIsCaught | backend/api/app/materialize/validation.py:22-25 | A compiling cell `CountVectorizer(random_state=0)` makes the notebook invalid with exactly the count-vectorizer message. |

## Left out

- Logging (every `logger.*` call, including the size warning) is left out. It has no effect on the results.
- The dataset registry (`lookup_dataset`, name normalisation and aliases) is not part of this model. It is the `Registry` parameter.
- The logistic model generator's code, imports and pins are not part of this model. They come in as `LogisticOutputs`.
- `get_model_generator` ignores the plan, and so does the model.
- SHA-256, Python's `compile` and `nbformat` reading are oracles.
- UTF-8 decoding of the notebook bytes is folded into the reader oracle, since a decoding failure takes the same path as a parse failure.
- The nbformat JSON serialisation and UTF-8 encoding in `build_notebook_bytes` are not modelled. The model stops at the cell list and the kernel metadata.
- `_check_imports_ast` is not modelled: `validate` never calls it.
- The generated notebooks are never executed. Only the emitted target-column rule (`TargetColumn`) is modelled as behaviour; the rest of the emitted code is modelled as text.
- `textwrap.dedent` over interpolated values that contain line breaks is not modelled. The templates are modelled as their dedented lines with each value spliced in as it is.
- The upload metadata's `hf_path` is the empty list. `DatasetMetadata`'s default for that field lives in the registry module, which is not part of this model.
- Regular-expression metacharacters in class or parameter names are not modelled: all three rule entries are plain identifiers, matched literally.
- Each rule's `forbidden_params` is a one-element set, modelled as a one-element sequence, so set iteration order cannot matter.
- Only the uploaded-file Excel variant drops rows with missing values (backend/api/app/materialize/generators/dataset.py:304-309). The registry variant (dataset.py:396-401) reads the file and goes straight to target detection. The model follows the code.
- Validation.HuggingFaceVectorizerPassesRule: proves only that the text-corpus cell's own vectorizer line never triggers the `CountVectorizer` rule. It does not prove that the template's fixed lines never name `CountVectorizer`, because checking every literal line character by character is beyond the solver's budget. A dataset name, split or path that itself spells a `CountVectorizer(` call with `random_state=` would be flagged, and the model allows that.
- Notebook.ImportsCode: states only that empty generator imports give the placeholder. The converse does not hold, because a model generator could itself import the placeholder's text; `ImportsReadBack` covers the non-empty case.

## Findings

| source | as written | input that shows it | evidently intended | confidence | as-written member | corrected member |
|---|---|---|---|---|---|---|
| backend/api/app/materialize/notebook.py:43 | `build_requirements` selects the dataset generator without the paper, while `build_notebook_bytes` (line 80) passes it | a plan for any dataset the registry does not list as an Excel source, whose paper has a staged upload: the notebook's dataset cell uses the Excel reader, but the manifest is built from the paper-less selection (synthetic data, or the registry's own non-Excel generator) and lacks `xlrd>=2.0.1` and `openpyxl>=3.1.0` | the manifest pins what the notebook's generators need | medium, not executed | Notebook.BuildRequirements, Notebook.ManifestTextLacksExcelReader | Notebook.NotebookRequirements, Notebook.NotebookRequirementsCoverNotebook |
