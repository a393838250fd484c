# zenml-gitflow: the appraisal gate, project naming and the ignored-column validator, in Dafny

This project models three small pieces of logic from a ZenML training and deployment template, and proves properties of them:

- **The model appraisal gate** (`model_appraisers.dfy`, module `ModelAppraisers`). The analysis walks a fixed list of five optional check reports: data quality, train/test data drift, model evaluation, train/test model evaluation and train/serve model comparison. It fills a `results` list and lowers a `passed` flag. It then applies the train and test accuracy thresholds, builds the Markdown report section by section, and applies the reference-model rule. The method `ModelAnalysis` keeps that loop and those updates. It is proved against specification functions: `Checks`, `ResultOf`, `Decision`, `AppraisalReport` and `HtmlLogs`. The two step wrappers are methods that only choose which arguments are absent. The report is a sequence of `Section` values: a heading with the overall verdict, check sections (tag, `(ignored)` flag, PASSED/FAILED result, and the numbers the section prints), and a closing "Other results" section. Floats are not rendered. Accuracies are reals, so the comparisons and the reference difference are exact; "## Left out" says what that misses.
- **Project configuration** (`project_config.dfy`, module `ProjectConfiguration`). This covers the configuration records and their declared defaults, and the loader as a function of what the configuration file holds. The lazily loaded global configuration is a `ConfigStore` class: `cache` is its field and `loads` (ghost) counts loader calls. The module also has the run-name template, the pipeline tags and the snapshot name.
- **The ignored-column validator** (`evidently.dfy`, module `EvidentlyProfileStep`). This is the three-way check of `ignored_cols` against the dataset's columns, then the column drop, then the choice of column mapping. The call into Evidently's profiler stays a stand-in whose result records the arguments it was given. A data frame is a sequence of named columns with their cells.

`wrappers.dfy` holds `Option` and `Result`. Python's `None` becomes `None`, and a raised `ValueError` becomes `Failure`.

Quirks of the code are modelled as written, not corrected:
- Every present report counts as passed, because `check_passed` is fixed to true.
- The "Overall decision" heading is computed before the reference rule runs.
- The reference section's own result repeats the test-threshold test.
- `max_train_accuracy_diff` and `warnings_as_errors` are never read.

Two docstrings of the appraisal step promise more than its code does. The docstring of `model_analysis` (steps/model_appraisers.py:85-91) says the decision is based on the data quality, drift and model evaluation reports, so a failing non-ignored check would fail the appraisal. The parameter docstring (steps/model_appraisers.py:49-52) describes `max_train_accuracy_diff` as a bound on the train accuracy difference against the reference. The code does neither, and this model follows the code.

## Model

| member | source | states |
|---|---|---|
| `ModelAppraisers.ModelAnalysis` | steps/model_appraisers.py:120-276 | `results` has exactly one entry per check, in the fixed order, each the check's result. The returned flag is `Decision`: checks, thresholds and reference rule. The report is `AppraisalReport`. The tracker receives only the present reports' HTML, in check order, then the report. |
| `ModelAppraisers.ModelTrainAppraiser` | steps/model_appraisers.py:282-335 | Without a reference model, the step passes exactly when both accuracy thresholds are met. Its report has eight sections and no reference section. |
| `ModelAppraisers.ModelTrainReferenceAppraiser` | steps/model_appraisers.py:341-415 | The step passes exactly when both thresholds are met and the reference accuracy is zero, ignored, or at most `max_test_accuracy_diff` above the test accuracy. Its report and log are those of the analysis on the routed arguments. |
| `ModelAppraisers.CheckOrder` | steps/model_appraisers.py:122-153 | The loop visits data_quality, train_test_data_drift, model_evaluation, train_test_model_evaluation and train_serve_model_comparison in that order. Each check carries its own ignore flag, and both model-evaluation checks share one flag. |
| `ModelAppraisers.AbsentReportIsNeutral` | steps/model_appraisers.py:158-160 | A missing report contributes true, is not logged, and cannot lower the decision. |
| `ModelAppraisers.EveryCheckPasses` | steps/model_appraisers.py:163-170 | Since `check_passed` is fixed to true, every result is true and no check lowers the decision. |
| `ModelAppraisers.DecisionCharacterization` | steps/model_appraisers.py:172-176 | The decision holds exactly when train and test accuracy each reach their threshold (equality passes) and the reference rule holds. |
| `ModelAppraisers.ReferenceDifferenceRule` | steps/model_appraisers.py:237-242 | With a present, non-ignored reference, a difference strictly greater than `max_test_accuracy_diff` rejects. The decision is then the overall-line decision plus a difference of at most that bound. |
| `ModelAppraisers.ReferenceNeutralWhenAbsentOrIgnored` | steps/model_appraisers.py:237-265 | An absent or ignored reference leaves the decision at the overall-line decision. The reference sections are empty exactly when the reference accuracy is absent. |
| `ModelAppraisers.UnreadParamsIrrelevant` | steps/model_appraisers.py:55-63 | Changing `warnings_as_errors` or `max_train_accuracy_diff` changes neither the decision nor the report. |
| `ModelAppraisers.ReportShape` | steps/model_appraisers.py:178-265 | The report has 10 sections with a reference and 8 without. Its heading reflects only the checks and thresholds. Both reference sections appear exactly when a reference accuracy is given. The reference comparison's result is the test-threshold test. |
| `ModelAppraisers.ReferenceFailureLeavesHeadingPassed` | steps/model_appraisers.py:178-252 | A concrete input under the default parameters: test accuracy 0.9 and reference 1.0. The returned decision fails, while the heading and the reference section both say PASSED. |
| `ModelAppraisers.HtmlLogsOnlyPresentReports` | steps/model_appraisers.py:158-162 | Every HTML log entry comes from a check with a present report. Every present report is logged. There are no more entries than checks. |
| `ModelAppraisers.FalsyReferenceMatchesTrainAppraiser` | steps/model_appraisers.py:394-415 | A zero reference accuracy routes absent values for all three reference arguments. Decision and report then equal those of the plain step on the same shared inputs. |
| `ProjectConfiguration.LoadProjectConfig` | utils/project_config.py:81-105 | A missing or empty configuration file gives the declared defaults. Each of the five top-level sections the file gives replaces that section's default, and each section the file leaves out takes its declared default. |
| `ProjectConfiguration.EnvironmentByName` | utils/project_config.py:170 | The lookup finds an environment configuration exactly for local, staging and production, and for each of them it is that environment's own field of the record. |
| `ProjectConfiguration.RunNameTemplate` | utils/project_config.py:140-153 | The template starts with the prefix and ends with the literal `_{date}_{time}`. A non-empty environment sits between them after an underscore. The stated length fixes the layout. |
| `ProjectConfiguration.PipelineTags` | utils/project_config.py:156-174 | The tags are the base pipeline tags, followed by the named environment's tags for local, staging or production. For no, empty or unknown environment they are exactly the base tags. |
| `ProjectConfiguration.Upper` | utils/project_config.py:194 | Upper-casing keeps the length and maps each character through the ASCII upper-case map. |
| `ProjectConfiguration.EnvironmentPrefix` | utils/project_config.py:189-194 | local, staging and production map to LOCAL, STG and PROD. Any other name is upper-cased. |
| `ProjectConfiguration.ShortSha` | utils/project_config.py:196-198 | The short SHA has min(7, length) characters and is a prefix of the SHA. |
| `ProjectConfiguration.SnapshotName` | utils/project_config.py:177-201 | The name starts with the environment prefix, `_` and the snapshot prefix. A non-empty SHA adds `_` and a prefix of the SHA of min(7, length) characters. Without one, nothing is added. |
| `ProjectConfiguration.ConfigStore.constructor` | utils/project_config.py:109 | The cache starts empty, with no load yet. |
| `ProjectConfiguration.ConfigStore.GetConfig` | utils/project_config.py:112-117 | The first call loads and caches, and later calls return the cached configuration whatever the file holds. The loader runs at most once. |
| `ProjectConfiguration.ConfigStore.GetRunNameTemplate` | utils/project_config.py:140-153 | Returns the template for the cached prefix and leaves a loaded cache unchanged. |
| `ProjectConfiguration.ConfigStore.GetPipelineTags` | utils/project_config.py:156-174 | Extends a copy of the base tags. The cached configuration, and so its base tags, is unchanged. |
| `ProjectConfiguration.ConfigStore.GetSnapshotName` | utils/project_config.py:177-201 | Returns the snapshot name for the cached configuration and leaves a loaded cache unchanged. |
| `ProjectConfiguration.CachedConfigIsStable` | utils/project_config.py:112-117 | Two calls with different file contents return the same configuration, and the loader has run at most once. |
| `ProjectConfiguration.RunNameTemplateInjective` | utils/project_config.py:150-153 | Distinct non-empty environments give distinct templates, and none gives the no-environment template. An empty environment behaves like none. |
| `ProjectConfiguration.DefaultEnvironmentTags` | utils/project_config.py:42-44 | With the defaults: local gives [local, development], staging gives [staging, pre-release], production gives [production, release], and no environment gives []. |
| `ProjectConfiguration.UnknownEnvironmentAddsNoTags` | utils/project_config.py:169-171 | An environment other than the three adds no tags. |
| `ProjectConfiguration.CustomPrefixIsUpperCase` | utils/project_config.py:194 | Another environment's prefix has the name's length and no lower-case ASCII letter, and its other characters are kept. |
| `ProjectConfiguration.ShortShaCollision` | utils/project_config.py:196-199 | Two SHAs that agree on their first seven characters give the same snapshot name. |
| `EvidentlyProfileStep.DropColumns` | steps/evidently.py:57 | Every kept column is an unchanged column of the input with a name outside the labels. Every column whose name is outside the labels is kept. |
| `EvidentlyProfileStep.SelectColumns` | steps/evidently.py:45-57 | No list passes the dataset through unchanged. An empty list fails with ValueError before the subset test. A name missing from the columns fails with ValueError. A success has a non-empty list of dataset columns and keeps exactly the other columns. |
| `EvidentlyProfileStep.Entrypoint` | steps/evidently.py:39-69 | A validation error is returned before any profiling. Otherwise the profiler gets the selected dataset, and gets a column mapping exactly when the parameter sets one. The step returns the profile and the HTML of the dashboard from that same call. |
| `EvidentlyProfileStep.DropColumnsCounts` | steps/evidently.py:57 | Every copy of a column whose name is not a label is kept, and no copy of one whose name is: the kept multiset is the input's less the labelled columns. Together with the order lemma this fixes the result. |
| `EvidentlyProfileStep.DropColumnsKeepsOrder` | steps/evidently.py:57 | The kept columns are a subsequence of the input: their original order is preserved. |
| `EvidentlyProfileStep.DroppedNames` | steps/evidently.py:57 | A name remains after the drop exactly when it was a column name and is not a label. |
| `EvidentlyProfileStep.SelectedColumnsAreTheRest` | steps/evidently.py:53-57 | A non-empty list of dataset column names passes validation and leads to the drop. The result's column names are the original ones less the ignored ones, in their original order. |

## Left out

- Experiment-tracker side effects (`log_text` into MLflow): they appear only as the `trace` out-parameter of the appraisal methods, an ordered list of what would be logged.
- `get_current_tracker_run_url` is not defined in utils/tracker_helper.py, so the tracker run URL is an input, `trackerRunUrl`.
- The drift report's `report.object()["data_drift"]...` lookup is a foreign Evidently call whose result is unused, so it is not modelled.
- `ModelAnalysis`: the exact Markdown text and the rendering of floats are not modelled; the report is its sequence of sections with their figures.
- `ModelAnalysis`: accuracies are reals, so NaN (which fails both `<` and `>=` in Python) is not modelled.
- `ModelAnalysis`: IEEE double rounding of the reference difference `reference_test_accuracy - test_accuracy`, and of the threshold comparisons, is not modelled. At the boundary the source can decide differently: with the default tolerance 0.05, a test accuracy of 0.7 and a reference of 0.75, the double difference is 0.050000000000000044 and the source fails the model, while the exact real difference is 0.05 and the model passes it.
- `LoadProjectConfig`: `find_project_root` and the file and YAML reading are I/O. The loader takes the file's contents as `Option<RawConfig>`. Only top-level sections are optional; a partly given nested section with per-field defaults is not modelled. The "config file not found" warning is printed output and is left out.
- `EnvironmentByName`: covers only the three environment fields. Passing another attribute name of the record (a method or a dunder name) to `getattr` is treated as unknown.
- `Upper`: models `str.upper` on ASCII letters only; Unicode case mapping is not modelled.
- `get_model_name`, `get_model_description`, `get_model_tags`, `get_pipeline_name`: plain field reads of `GetConfig`'s result, not modelled separately.
- Evidently's profiler (`DataProfiling`), the dashboard's `html()` (`Html`) and `to_evidently_column_mapping` (`ToEvidentlyColumnMapping`) are foreign. They are stand-ins that record their arguments. `get_active_data_validator` is not modelled, and neither are `profile_options` and `dashboard_options`, which are passed through untouched.
- `DropColumns`: the data frame's row index is not modelled. The subset test makes the drop's own missing-label error unreachable, so that error is not modelled.
- Everything else in the repository (pipeline wiring, training, scoring, data generation and loading, deployers, the CLI scripts) is ML code or framework glue and is not part of this model.
