/** The decision tree of class AnalysisTool: four ordered rules that read the
    finished record, scale the effort estimate and emit recommendations. */
module Decision {
  import opened Detectors

  /** The recommendation lines, with the counts they report. */
  datatype Message =
    | JsLeft(jsFiles: nat)                 // how many JavaScript files are left to convert
    | TsConverted(tsFiles: nat)            // how many files are already TypeScript
    | Prepared                             // ready for an incremental upgrade with ngUpgrade
    | StillHave(controllers: nat)          // controllers left beside existing component directives
    | BeginConverting(controllers: nat)    // controllers only: conversion has not begun

  /** 880 lines of code are taken as one month of work. */
  const Baseline: real := 880.0
  const CodeLimitMultiplier: real := 1.5
  const CodeLimitDouble: real := 2.0

  /** The four exclusive branches of the component rule. */
  datatype Stage = ReadyForUpgrade | PartlyConverted | NotStarted | NoRegistrations

  function StageOf(r: Results): Stage {
    if r.componentDirectivesCount > 0 && r.controllersCount == 0 then ReadyForUpgrade
    else if r.componentDirectivesCount > 0 && r.controllersCount > 0 then PartlyConverted
    else if r.controllersCount > 0 then NotStarted
    else NoRegistrations
  }

  function StageFactor(s: Stage): real {
    match s
    case ReadyForUpgrade => 1.0
    case PartlyConverted => CodeLimitMultiplier
    case NotStarted => CodeLimitDouble
    case NoRegistrations => 1.0
  }

  function StageMessages(r: Results): seq<Message> {
    match StageOf(r)
    case ReadyForUpgrade => [Prepared]
    case PartlyConverted => [StillHave(r.controllersCount)]
    case NotStarted => [BeginConverting(r.controllersCount)]
    case NoRegistrations => []
  }

  /** The factor the four rules apply to the estimate, one rule after the other. */
  function EffortFactor(r: Results): (f: real)
    ensures 1.0 <= f <= 6.75
  {
    var afterRootScope := if r.rootScope then CodeLimitMultiplier else 1.0;
    var afterUnitTests := if !r.hasUnitTest then afterRootScope * CodeLimitMultiplier else afterRootScope;
    var afterScripts := if r.jsFileCount > 0 then afterUnitTests * CodeLimitMultiplier else afterUnitTests;
    afterScripts * StageFactor(StageOf(r))
  }

  /** The lines the decision tree prints, in rule order. */
  function Recommendations(r: Results): (msgs: seq<Message>)
    ensures |msgs| <= 3
    ensures (|msgs| >= 2) <==> r.jsFileCount > 0
    ensures r.jsFileCount > 0 ==> msgs[..2] == [JsLeft(r.jsFileCount), TsConverted(r.tsFileCount)]
  {
    (if r.jsFileCount > 0 then [JsLeft(r.jsFileCount), TsConverted(r.tsFileCount)] else [])
    + StageMessages(r)
  }

  /** The final estimate, from the baseline. */
  function Estimate(r: Results): (e: real)
    ensures Baseline <= e <= 5940.0
  {
    Baseline * EffortFactor(r)
  }

  /** The component rule as a table: exactly one branch applies, and the
      branch fixes both the message and the factor. */
  lemma ComponentRule(r: Results)
    ensures r.componentDirectivesCount > 0 && r.controllersCount == 0 ==>
              StageMessages(r) == [Prepared] && StageFactor(StageOf(r)) == 1.0
    ensures r.componentDirectivesCount > 0 && r.controllersCount > 0 ==>
              StageMessages(r) == [StillHave(r.controllersCount)] && StageFactor(StageOf(r)) == 1.5
    ensures r.componentDirectivesCount == 0 && r.controllersCount > 0 ==>
              StageMessages(r) == [BeginConverting(r.controllersCount)] && StageFactor(StageOf(r)) == 2.0
    ensures r.componentDirectivesCount == 0 && r.controllersCount == 0 ==>
              StageMessages(r) == [] && StageFactor(StageOf(r)) == 1.0
  {
  }

  /** The estimate reads only rootScope, hasUnitTest, jsFileCount and the two
      registration counters; the element and router flags never matter. */
  lemma IgnoredFields(r: Results, element: bool, ui: bool, ajs: bool, a: bool, ts: nat)
    ensures Estimate(r.(angularElement := element, uiRouter := ui, angularjsRouter := ajs,
                        angularRouter := a, tsFileCount := ts)) == Estimate(r)
    ensures Recommendations(r.(angularElement := element, uiRouter := ui, angularjsRouter := ajs,
                               angularRouter := a)) == Recommendations(r)
  {
  }

  /** One JavaScript file with $rootScope, a spec file name and a controller. */
  lemma LegacyControllerApp()
    ensures var r := Initial.(rootScope := true, hasUnitTest := true, jsFileCount := 1, controllersCount := 1);
      && Estimate(r) == 3960.0
      && Recommendations(r) == [JsLeft(1), TsConverted(0), BeginConverting(1)]
  {
  }
}
