/** Class AnalysisTool: the results record as fields that the checks update
    in place, the running estimate `maxCodeLimit`, and the recommendations
    printed so far. */
module Tool {
  import opened Regex
  import opened JsString
  import opened Detectors
  import opened Walk
  import opened Decision

  class AnalysisTool {
    var rootScope: bool
    var angularElement: bool
    var uiRouter: bool
    var angularjsRouter: bool
    var angularRouter: bool
    var hasUnitTest: bool
    var jsFileCount: nat
    var tsFileCount: nat
    var controllersCount: nat
    var componentDirectivesCount: nat

    var maxCodeLimit: real
    /** The recommendation lines printed so far, oldest first. */
    var output: seq<Message>

    /** The current value of the `analysisResults` record. */
    function AnalysisResults(): Results
      reads this
    {
      Results(rootScope, angularElement, uiRouter, angularjsRouter, angularRouter, hasUnitTest,
              jsFileCount, tsFileCount, controllersCount, componentDirectivesCount)
    }

    /** Runs the whole analysis: every file the walk reaches, then the
        decision tree. */
    constructor (files: seq<FileEntry>)
      ensures AnalysisResults() == Scan(Initial, files)
      ensures maxCodeLimit == Estimate(Scan(Initial, files))
      ensures output == Recommendations(Scan(Initial, files))
    {
      rootScope, angularElement, uiRouter, angularjsRouter, angularRouter, hasUnitTest :=
        false, false, false, false, false, false;
      jsFileCount, tsFileCount, controllersCount, componentDirectivesCount := 0, 0, 0, 0;
      maxCodeLimit := Baseline;
      output := [];
      new;
      CallAnalysisTests(files);
      DecisionTree();
    }

    method DecisionTree()
      modifies this`maxCodeLimit, this`output
      ensures maxCodeLimit == old(maxCodeLimit) * EffortFactor(AnalysisResults())
      ensures output == old(output) + Recommendations(AnalysisResults())
    {
      if rootScope {
        maxCodeLimit := maxCodeLimit * CodeLimitMultiplier;
      }
      if !hasUnitTest {
        maxCodeLimit := maxCodeLimit * CodeLimitMultiplier;
      }
      if jsFileCount > 0 {
        maxCodeLimit := maxCodeLimit * CodeLimitMultiplier;
        output := output + [JsLeft(jsFileCount), TsConverted(tsFileCount)];
      }
      if componentDirectivesCount > 0 && controllersCount == 0 {
        output := output + [Prepared];
      } else if componentDirectivesCount > 0 && controllersCount > 0 {
        output := output + [StillHave(controllersCount)];
        maxCodeLimit := maxCodeLimit * CodeLimitMultiplier;
      } else if controllersCount > 0 {
        output := output + [BeginConverting(controllersCount)];
        maxCodeLimit := maxCodeLimit * CodeLimitDouble;
      }
    }

    /** Checks every file of the walk, in the order the walk reaches them. */
    method CallAnalysisTests(files: seq<FileEntry>)
      modifies this
      ensures AnalysisResults() == Scan(old(AnalysisResults()), files)
      ensures maxCodeLimit == old(maxCodeLimit) && output == old(output)
    {
      var i := 0;
      while i < |files|
        invariant 0 <= i <= |files|
        invariant AnalysisResults() == Scan(old(AnalysisResults()), files[..i])
        invariant maxCodeLimit == old(maxCodeLimit) && output == old(output)
      {
        ProcessFile(files[i].path, files[i].content);
        assert files[..i + 1][..i] == files[..i];
        i := i + 1;
      }
      assert files[..i] == files;
    }

    /** The body of the walk for one regular file: the extra rootScope check,
        then the test list in order. */
    method ProcessFile(filename: string, data: string)
      modifies this
      ensures AnalysisResults() == FileUpdate(old(AnalysisResults()), FileEntry(filename, data))
      ensures maxCodeLimit == old(maxCodeLimit) && output == old(output)
    {
      CheckFileForRootScope(filename, data);
      CheckFileForRootScope(filename, data);
      CheckFileForAngularElement(filename, data);
      CheckFileForRouter(filename, data);
      CheckFileForUnitTests(filename, data);
      CheckFileForScriptingLanguage(filename, data);
      CheckFileForComponent(filename, data);
    }

    method CheckFileForRootScope(filename: string, fileData: string)
      modifies this`rootScope
      ensures AnalysisResults() == CheckRootScope(old(AnalysisResults()), filename, fileData)
    {
      if Search(RootScopePattern, fileData) {
        rootScope := true;
      }
    }

    method CheckFileForAngularElement(filename: string, fileData: string)
      modifies this`angularElement
      ensures AnalysisResults() == CheckAngularElement(old(AnalysisResults()), filename, fileData)
    {
      if Search(ElementPattern, fileData) {
        angularElement := true;
      }
    }

    method CheckFileForRouter(filename: string, fileData: string)
      modifies this`uiRouter, this`angularjsRouter, this`angularRouter
      ensures AnalysisResults() == CheckRouter(old(AnalysisResults()), filename, fileData)
    {
      if Search(UiRouterPattern, fileData) {
        uiRouter := true;
      } else if Search(NgRoutePattern, fileData) {
        angularjsRouter := true;
      } else if Search(AngularRouterPattern, fileData) {
        angularRouter := true;
      }
    }

    method CheckFileForUnitTests(filename: string, fileData: string)
      modifies this`hasUnitTest
      ensures AnalysisResults() == CheckUnitTests(old(AnalysisResults()), filename, fileData)
    {
      if Substr(filename, -7, 4) == "spec" {
        hasUnitTest := true;
      }
    }

    method CheckFileForScriptingLanguage(filename: string, fileData: string)
      modifies this`jsFileCount, this`tsFileCount
      ensures AnalysisResults() == CheckScriptingLanguage(old(AnalysisResults()), filename, fileData)
    {
      if SubstrFrom(filename, -3) == ".js" {
        jsFileCount := jsFileCount + 1;
      } else if SubstrFrom(filename, -3) == ".ts" {
        tsFileCount := tsFileCount + 1;
      }
    }

    method CheckFileForComponent(filename: string, fileData: string)
      modifies this`controllersCount, this`componentDirectivesCount
      ensures AnalysisResults() == CheckComponent(old(AnalysisResults()), filename, fileData)
    {
      if Search(ControllerPattern, fileData) {
        controllersCount := controllersCount + 1;
      }
      if Search(ComponentPattern, fileData) {
        componentDirectivesCount := componentDirectivesCount + 1;
      }
    }
  }
}
