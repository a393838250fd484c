/**
 * The model appraisal gate: five optional check reports, two accuracy
 * thresholds and an optional reference-model accuracy are combined into one
 * pass/fail decision and a Markdown report, described here by its sections.
 *
 * Accuracies are only compared and subtracted, so they are reals.
 */
module ModelAppraisers {
  import opened Wrappers

  /** The step parameters of the appraisal, with the defaults below. */
  datatype AppraisalParams = AppraisalParams(
    trainAccuracyThreshold: real,
    testAccuracyThreshold: real,
    warningsAsErrors: bool,
    ignoreDataIntegrityFailures: bool,
    ignoreTrainTestDataDriftFailures: bool,
    ignoreModelEvaluationFailures: bool,
    ignoreReferenceModel: bool,
    maxTrainAccuracyDiff: real,
    maxTestAccuracyDiff: real)

  const DefaultAppraisalParams := AppraisalParams(0.7, 0.7, false, false, false, false, false, 0.1, 0.05)

  /** An Evidently profile. The appraisal never looks inside one. */
  datatype Profile = Profile(json: string)

  /** The inputs both appraisal steps receive. */
  datatype SharedEvidence = SharedEvidence(
    trainAccuracy: real,
    testAccuracy: real,
    dataQualityReport: Option<Profile>,
    dataQualityHtml: string,
    trainTestDataDriftReport: Option<Profile>,
    trainTestDataDriftHtml: string,
    modelEvaluationReport: Option<Profile>,
    modelEvaluationHtml: string,
    trainTestModelEvaluationReport: Option<Profile>,
    trainTestModelEvaluationHtml: string)

  /** All arguments of the analysis besides its parameters: the shared
      evidence and the three optional reference-model arguments. */
  datatype AnalysisInput = AnalysisInput(
    shared: SharedEvidence,
    referenceTestAccuracy: Option<real>,
    trainServeModelComparisonReport: Option<Profile>,
    trainServeModelComparisonHtml: Option<string>)

  /** One `(report, html_report, name, ignored)` tuple of the check loop. */
  datatype Check = Check(report: Option<Profile>, html: Option<string>, name: string, ignored: bool)

  datatype Verdict = Passed | Failed

  datatype SectionTag =
    | TrainAccuracy
    | TestAccuracy
    | DataQuality
    | TrainTestDataDrift
    | ModelEvaluation
    | TrainTestModelComparison
    | ReferenceModelComparison
    | TrainServeModelComparison

  /** A section of the Markdown report. `figures` are the distinct numbers the
      section prints (thresholds and accuracies), in the order they first appear. */
  datatype Section =
    | Heading(overall: Verdict)
    | CheckSection(tag: SectionTag, ignored: bool, result: Verdict, figures: seq<real>)
    | OtherResults(trackerRunLink: Option<string>)

  /** What the analysis writes to the experiment tracker, in order. */
  datatype LogEntry =
    | HtmlLog(html: Option<string>, fileName: string)
    | ReportLog(report: seq<Section>, fileName: string)

  function VerdictOf(b: bool): Verdict
  {
    if b then Passed else Failed
  }

  function Abs(x: real): real
  {
    if x < 0.0 then -x else x
  }

  /** The fixed list of five checks, in the order the loop visits them. */
  function Checks(params: AppraisalParams, input: AnalysisInput): seq<Check>
  {
    var e := input.shared;
    [ Check(e.dataQualityReport, Some(e.dataQualityHtml), "data_quality_report",
            params.ignoreDataIntegrityFailures),
      Check(e.trainTestDataDriftReport, Some(e.trainTestDataDriftHtml), "train_test_data_drift_report",
            params.ignoreTrainTestDataDriftFailures),
      Check(e.modelEvaluationReport, Some(e.modelEvaluationHtml), "model_evaluation_report",
            params.ignoreModelEvaluationFailures),
      Check(e.trainTestModelEvaluationReport, Some(e.trainTestModelEvaluationHtml), "train_test_model_evaluation_report",
            params.ignoreModelEvaluationFailures),
      Check(input.trainServeModelComparisonReport, input.trainServeModelComparisonHtml, "train_serve_model_comparison_report",
            params.ignoreReferenceModel) ]
  }

  /** Whether a present report passed. The source fixes this to true for
      every report; the drift report's dataset-drift flag is read and dropped. */
  predicate ReportPasses(c: Check)
  {
    true
  }

  /** The entry a check contributes to `results`. */
  predicate ResultOf(c: Check)
  {
    c.report.None? || ReportPasses(c)
  }

  /** A check lowers the decision when its report is present, failed, and is not ignored. */
  predicate LowersDecision(c: Check)
  {
    c.report.Some? && !ReportPasses(c) && !c.ignored
  }

  predicate ChecksPass(cs: seq<Check>)
  {
    forall k | 0 <= k < |cs| :: !LowersDecision(cs[k])
  }

  /** Both accuracies reach their thresholds; equality passes. */
  predicate ThresholdsMet(params: AppraisalParams, e: SharedEvidence)
  {
    e.trainAccuracy >= params.trainAccuracyThreshold && e.testAccuracy >= params.testAccuracyThreshold
  }

  /** The decision as far as it is known when the "Overall decision" line is rendered. */
  predicate OverallLineDecision(params: AppraisalParams, input: AnalysisInput)
  {
    ChecksPass(Checks(params, input)) && ThresholdsMet(params, input.shared)
  }

  /** The reference rule: a present, non-ignored reference may beat the
      trained model on the test data by at most `maxTestAccuracyDiff`. */
  predicate ReferenceWithinTolerance(params: AppraisalParams, input: AnalysisInput)
  {
    match input.referenceTestAccuracy
    case None => true
    case Some(reference) =>
      params.ignoreReferenceModel || reference - input.shared.testAccuracy <= params.maxTestAccuracyDiff
  }

  /** The decision the analysis returns. */
  predicate Decision(params: AppraisalParams, input: AnalysisInput)
  {
    OverallLineDecision(params, input) && ReferenceWithinTolerance(params, input)
  }

  function LogOf(c: Check): seq<LogEntry>
  {
    if c.report.None? then [] else [HtmlLog(c.html, c.name + ".html")]
  }

  /** The HTML reports logged by the check loop. */
  function HtmlLogs(cs: seq<Check>): seq<LogEntry>
  {
    if cs == [] then [] else HtmlLogs(cs[..|cs| - 1]) + LogOf(cs[|cs| - 1])
  }

  /** The heading and the six sections that are always present. */
  function CoreSections(params: AppraisalParams, input: AnalysisInput): seq<Section>
  {
    var e := input.shared;
    var cs := Checks(params, input);
    [ Heading(VerdictOf(OverallLineDecision(params, input))),
      CheckSection(TrainAccuracy, false, VerdictOf(e.trainAccuracy >= params.trainAccuracyThreshold),
                   [params.trainAccuracyThreshold, e.trainAccuracy]),
      CheckSection(TestAccuracy, false, VerdictOf(e.testAccuracy >= params.testAccuracyThreshold),
                   [params.testAccuracyThreshold, e.testAccuracy]),
      CheckSection(DataQuality, params.ignoreDataIntegrityFailures, VerdictOf(ResultOf(cs[0])), []),
      CheckSection(TrainTestDataDrift, params.ignoreTrainTestDataDriftFailures, VerdictOf(ResultOf(cs[1])), []),
      CheckSection(ModelEvaluation, params.ignoreModelEvaluationFailures, VerdictOf(ResultOf(cs[2])), []),
      CheckSection(TrainTestModelComparison, params.ignoreModelEvaluationFailures, VerdictOf(ResultOf(cs[3])), []) ]
  }

  /** The two reference sections, present only with a reference accuracy.
      The first one's result repeats the test-threshold test. */
  function ReferenceSections(params: AppraisalParams, input: AnalysisInput): seq<Section>
  {
    var e := input.shared;
    match input.referenceTestAccuracy
    case None => []
    case Some(reference) =>
      [ CheckSection(ReferenceModelComparison, params.ignoreReferenceModel,
                     VerdictOf(e.testAccuracy >= params.testAccuracyThreshold),
                     [params.maxTestAccuracyDiff, e.testAccuracy, reference, Abs(reference - e.testAccuracy)]),
        CheckSection(TrainServeModelComparison, params.ignoreReferenceModel,
                     VerdictOf(ResultOf(Checks(params, input)[4])), []) ]
  }

  /** The closing section links the tracker run only when the URL is non-empty. */
  function OtherResultsSection(trackerRunUrl: Option<string>): Section
  {
    OtherResults(if trackerRunUrl.Some? && trackerRunUrl.value != "" then trackerRunUrl else None)
  }

  function AppraisalReport(params: AppraisalParams, input: AnalysisInput, trackerRunUrl: Option<string>): seq<Section>
  {
    CoreSections(params, input) + ReferenceSections(params, input) + [OtherResultsSection(trackerRunUrl)]
  }

  predicate HasSection(report: seq<Section>, tag: SectionTag)
  {
    exists k | 0 <= k < |report| :: report[k].CheckSection? && report[k].tag == tag
  }

  /** The analysis: a loop over the five checks that fills `results` and lowers
      `passed`, the threshold tests, the report, then the reference rule. The
      tracker run URL is an input; `trace` records what is logged. */
  method ModelAnalysis(params: AppraisalParams, input: AnalysisInput, trackerRunUrl: Option<string>)
    returns (passed: bool, report: seq<Section>, results: seq<bool>, trace: seq<LogEntry>)
    ensures |results| == 5
    ensures forall k :: 0 <= k < 5 ==> results[k] == ResultOf(Checks(params, input)[k])
    ensures passed == Decision(params, input)
    ensures report == AppraisalReport(params, input, trackerRunUrl)
    ensures trace == HtmlLogs(Checks(params, input)) + [ReportLog(report, "model_report.md")]
  {
    var checks := Checks(params, input);
    results := [];
    passed := true;
    trace := [];
    for i := 0 to |checks|
      invariant |results| == i
      invariant forall k :: 0 <= k < i ==> results[k] == ResultOf(checks[k])
      invariant passed == ChecksPass(checks[..i])
      invariant trace == HtmlLogs(checks[..i])
    {
      var check := checks[i];
      assert checks[..i + 1][..i] == checks[..i];
      if check.report.None? {
        results := results + [true];
      } else {
        trace := trace + [HtmlLog(check.html, check.name + ".html")];
        var checkPassed := true;
        results := results + [checkPassed];
        if !checkPassed && !check.ignored {
          passed := false;
        }
      }
    }
    assert checks[..|checks|] == checks;

    var e := input.shared;
    if e.trainAccuracy < params.trainAccuracyThreshold {
      passed := false;
    }
    if e.testAccuracy < params.testAccuracyThreshold {
      passed := false;
    }

    report := [
      Heading(VerdictOf(passed)),
      CheckSection(TrainAccuracy, false, VerdictOf(e.trainAccuracy >= params.trainAccuracyThreshold),
                   [params.trainAccuracyThreshold, e.trainAccuracy]),
      CheckSection(TestAccuracy, false, VerdictOf(e.testAccuracy >= params.testAccuracyThreshold),
                   [params.testAccuracyThreshold, e.testAccuracy]),
      CheckSection(DataQuality, params.ignoreDataIntegrityFailures, VerdictOf(results[0]), []),
      CheckSection(TrainTestDataDrift, params.ignoreTrainTestDataDriftFailures, VerdictOf(results[1]), []),
      CheckSection(ModelEvaluation, params.ignoreModelEvaluationFailures, VerdictOf(results[2]), []),
      CheckSection(TrainTestModelComparison, params.ignoreModelEvaluationFailures, VerdictOf(results[3]), [])
    ];

    if input.referenceTestAccuracy.Some? {
      var reference := input.referenceTestAccuracy.value;
      if !params.ignoreReferenceModel {
        if reference - e.testAccuracy > params.maxTestAccuracyDiff {
          passed := false;
        }
      }
      report := report + [
        CheckSection(ReferenceModelComparison, params.ignoreReferenceModel,
                     VerdictOf(e.testAccuracy >= params.testAccuracyThreshold),
                     [params.maxTestAccuracyDiff, e.testAccuracy, reference, Abs(reference - e.testAccuracy)]),
        CheckSection(TrainServeModelComparison, params.ignoreReferenceModel, VerdictOf(results[4]), [])
      ];
    }

    report := report + [OtherResultsSection(trackerRunUrl)];
    trace := trace + [ReportLog(report, "model_report.md")];
  }

  /** The arguments the plain appraisal step hands to the analysis: no reference. */
  function TrainAppraiserInput(shared: SharedEvidence): AnalysisInput
  {
    AnalysisInput(shared, None, None, None)
  }

  /** The arguments the reference appraisal step hands to the analysis: the
      three reference arguments only when the reference accuracy is truthy. */
  function ReferenceAppraiserInput(shared: SharedEvidence, referenceTestAccuracy: real,
                                   comparisonReport: Option<Profile>, comparisonHtml: string): AnalysisInput
  {
    AnalysisInput(shared,
                  if referenceTestAccuracy != 0.0 then Some(referenceTestAccuracy) else None,
                  if referenceTestAccuracy != 0.0 then comparisonReport else None,
                  if referenceTestAccuracy != 0.0 then Some(comparisonHtml) else None)
  }

  /** The appraisal step without a reference model: it passes exactly when
      both thresholds are met, and its report has no reference sections. */
  method ModelTrainAppraiser(params: AppraisalParams, shared: SharedEvidence, trackerRunUrl: Option<string>)
    returns (result: bool, report: seq<Section>, trace: seq<LogEntry>)
    ensures result <==> ThresholdsMet(params, shared)
    ensures report == AppraisalReport(params, TrainAppraiserInput(shared), trackerRunUrl)
    ensures |report| == 8 && !HasSection(report, ReferenceModelComparison)
    ensures trace == HtmlLogs(Checks(params, TrainAppraiserInput(shared))) + [ReportLog(report, "model_report.md")]
  {
    var results;
    result, report, results, trace := ModelAnalysis(params, TrainAppraiserInput(shared), trackerRunUrl);
    EveryCheckPasses(params, TrainAppraiserInput(shared));
    ReportShape(params, TrainAppraiserInput(shared), trackerRunUrl);
  }

  /** The appraisal step with a reference model. */
  method ModelTrainReferenceAppraiser(params: AppraisalParams, shared: SharedEvidence, referenceTestAccuracy: real,
                                      comparisonReport: Option<Profile>, comparisonHtml: string,
                                      trackerRunUrl: Option<string>)
    returns (result: bool, report: seq<Section>, trace: seq<LogEntry>)
    ensures result <==> ThresholdsMet(params, shared)
                        && (referenceTestAccuracy == 0.0 || params.ignoreReferenceModel
                            || referenceTestAccuracy - shared.testAccuracy <= params.maxTestAccuracyDiff)
    ensures var input := ReferenceAppraiserInput(shared, referenceTestAccuracy, comparisonReport, comparisonHtml);
            report == AppraisalReport(params, input, trackerRunUrl)
            && trace == HtmlLogs(Checks(params, input)) + [ReportLog(report, "model_report.md")]
  {
    var input := ReferenceAppraiserInput(shared, referenceTestAccuracy, comparisonReport, comparisonHtml);
    var results;
    result, report, results, trace := ModelAnalysis(params, input, trackerRunUrl);
    EveryCheckPasses(params, input);
  }

  // ----- Properties -----

  /** The loop visits the five checks in a fixed order, each with its own ignore flag. */
  lemma CheckOrder(params: AppraisalParams, input: AnalysisInput)
    ensures var cs := Checks(params, input);
      && |cs| == 5
      && cs[0].name == "data_quality_report" && cs[0].ignored == params.ignoreDataIntegrityFailures
      && cs[1].name == "train_test_data_drift_report" && cs[1].ignored == params.ignoreTrainTestDataDriftFailures
      && cs[2].name == "model_evaluation_report" && cs[2].ignored == params.ignoreModelEvaluationFailures
      && cs[3].name == "train_test_model_evaluation_report" && cs[3].ignored == params.ignoreModelEvaluationFailures
      && cs[4].name == "train_serve_model_comparison_report" && cs[4].ignored == params.ignoreReferenceModel
  {
  }

  /** A missing report contributes true, is not logged, and cannot lower the decision. */
  lemma AbsentReportIsNeutral(c: Check)
    requires c.report.None?
    ensures ResultOf(c) && !LowersDecision(c) && LogOf(c) == []
  {
  }

  /** Because every present report is taken as passed, every result is true
      and no check lowers the decision. */
  lemma EveryCheckPasses(params: AppraisalParams, input: AnalysisInput)
    ensures forall k :: 0 <= k < 5 ==> ResultOf(Checks(params, input)[k])
    ensures ChecksPass(Checks(params, input))
  {
  }

  /** The decision comes down to the thresholds and the reference rule. */
  lemma DecisionCharacterization(params: AppraisalParams, input: AnalysisInput)
    ensures Decision(params, input) <==>
              && input.shared.trainAccuracy >= params.trainAccuracyThreshold
              && input.shared.testAccuracy >= params.testAccuracyThreshold
              && ReferenceWithinTolerance(params, input)
  {
    EveryCheckPasses(params, input);
  }

  /** The reference rule uses a strict comparison: a real difference exactly
      equal to the tolerance passes, a larger one fails. */
  lemma ReferenceDifferenceRule(params: AppraisalParams, input: AnalysisInput)
    requires input.referenceTestAccuracy.Some? && !params.ignoreReferenceModel
    ensures (input.referenceTestAccuracy.value - input.shared.testAccuracy > params.maxTestAccuracyDiff)
            ==> !Decision(params, input)
    ensures Decision(params, input) <==>
              OverallLineDecision(params, input)
              && input.referenceTestAccuracy.value - input.shared.testAccuracy <= params.maxTestAccuracyDiff
  {
  }

  /** A missing or ignored reference does not affect the decision; the
      reference sections appear exactly when the reference accuracy is given. */
  lemma ReferenceNeutralWhenAbsentOrIgnored(params: AppraisalParams, input: AnalysisInput, trackerRunUrl: Option<string>)
    ensures (input.referenceTestAccuracy.None? || params.ignoreReferenceModel)
            ==> Decision(params, input) == OverallLineDecision(params, input)
    ensures (ReferenceSections(params, input) == []) <==> input.referenceTestAccuracy.None?
  {
  }

  /** The decision and the report do not read `warningsAsErrors` or `maxTrainAccuracyDiff`. */
  lemma UnreadParamsIrrelevant(params: AppraisalParams, input: AnalysisInput, trackerRunUrl: Option<string>,
                                warningsAsErrors: bool, maxTrainAccuracyDiff: real)
    ensures var other := params.(warningsAsErrors := warningsAsErrors, maxTrainAccuracyDiff := maxTrainAccuracyDiff);
      && Decision(other, input) == Decision(params, input)
      && AppraisalReport(other, input, trackerRunUrl) == AppraisalReport(params, input, trackerRunUrl)
  {
  }

  /** The report's shape: the heading reflects only the checks and thresholds;
      the reference sections sit at positions 7 and 8 when present and the
      first of them repeats the test-threshold test. */
  lemma ReportShape(params: AppraisalParams, input: AnalysisInput, trackerRunUrl: Option<string>)
    ensures var report := AppraisalReport(params, input, trackerRunUrl);
      && |report| == (if input.referenceTestAccuracy.Some? then 10 else 8)
      && report[0] == Heading(VerdictOf(OverallLineDecision(params, input)))
      && report[|report| - 1] == OtherResultsSection(trackerRunUrl)
      && (HasSection(report, ReferenceModelComparison) <==> input.referenceTestAccuracy.Some?)
      && (HasSection(report, TrainServeModelComparison) <==> input.referenceTestAccuracy.Some?)
      && (input.referenceTestAccuracy.Some? ==>
            report[7].tag == ReferenceModelComparison
            && report[7].result == VerdictOf(input.shared.testAccuracy >= params.testAccuracyThreshold))
  {
    var report := AppraisalReport(params, input, trackerRunUrl);
    if input.referenceTestAccuracy.Some? {
      assert report[7].CheckSection? && report[7].tag == ReferenceModelComparison;
      assert report[8].CheckSection? && report[8].tag == TrainServeModelComparison;
    }
  }

  /** A reference failure lowers the returned decision while the heading and
      the reference section's own result both still say PASSED. */
  lemma ReferenceFailureLeavesHeadingPassed()
    ensures var shared := SharedEvidence(0.9, 0.9, None, "", None, "", None, "", None, "");
      var input := AnalysisInput(shared, Some(1.0), None, None);
      var report := AppraisalReport(DefaultAppraisalParams, input, None);
      && !Decision(DefaultAppraisalParams, input)
      && report[0] == Heading(Passed)
      && report[7].result == Passed
  {
  }

  /** Only present reports are logged, and every present report is. */
  lemma {:induction false} HtmlLogsOnlyPresentReports(cs: seq<Check>)
    ensures forall entry :: entry in HtmlLogs(cs) ==>
              exists k :: 0 <= k < |cs| && cs[k].report.Some? && entry == HtmlLog(cs[k].html, cs[k].name + ".html")
    ensures forall k :: 0 <= k < |cs| && cs[k].report.Some? ==> HtmlLog(cs[k].html, cs[k].name + ".html") in HtmlLogs(cs)
    ensures |HtmlLogs(cs)| <= |cs|
  {
    if cs != [] {
      var init := cs[..|cs| - 1];
      HtmlLogsOnlyPresentReports(init);
      forall entry | entry in HtmlLogs(cs)
        ensures exists k :: 0 <= k < |cs| && cs[k].report.Some? && entry == HtmlLog(cs[k].html, cs[k].name + ".html")
      {
        if entry in HtmlLogs(init) {
          var k :| 0 <= k < |init| && init[k].report.Some? && entry == HtmlLog(init[k].html, init[k].name + ".html");
          assert cs[k] == init[k];
        } else {
          assert entry in LogOf(cs[|cs| - 1]);
        }
      }
      forall k | 0 <= k < |cs| && cs[k].report.Some?
        ensures HtmlLog(cs[k].html, cs[k].name + ".html") in HtmlLogs(cs)
      {
        if k < |cs| - 1 {
          assert init[k] == cs[k];
        }
      }
    }
  }

  /** With a falsy (zero) reference accuracy, the reference step behaves
      exactly like the plain step on the same shared inputs. */
  lemma FalsyReferenceMatchesTrainAppraiser(params: AppraisalParams, shared: SharedEvidence,
                                            comparisonReport: Option<Profile>, comparisonHtml: string,
                                            trackerRunUrl: Option<string>)
    ensures var input := ReferenceAppraiserInput(shared, 0.0, comparisonReport, comparisonHtml);
      && input.referenceTestAccuracy.None?
      && input.trainServeModelComparisonReport.None?
      && input.trainServeModelComparisonHtml.None?
      && Decision(params, input) == Decision(params, TrainAppraiserInput(shared))
      && AppraisalReport(params, input, trackerRunUrl) == AppraisalReport(params, TrainAppraiserInput(shared), trackerRunUrl)
  {
  }
}
