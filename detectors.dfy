/** The record `analysisResults` of class AnalysisTool as a value, and the
    six per-file checks as pure updates of that value. Each check reads a
    file's name and its text and either sets one flag or adds one to a
    counter, except that `checkFileForComponent` can add one to each of its
    two counters; none ever clears a flag or lowers a counter. */
module Detectors {
  import opened Regex
  import opened JsString

  /** One regular file reached by the directory walk: its path as the walk
      builds it (`path + "/" + file`) and its text, already decoded. */
  datatype FileEntry = FileEntry(path: string, content: string)

  datatype Results = Results(
    rootScope: bool,
    angularElement: bool,
    uiRouter: bool,
    angularjsRouter: bool,
    angularRouter: bool,
    hasUnitTest: bool,
    jsFileCount: nat,
    tsFileCount: nat,
    controllersCount: nat,
    componentDirectivesCount: nat)

  /** The record as the class initialises it. */
  const Initial: Results := Results(false, false, false, false, false, false, 0, 0, 0, 0)

  /** `b` is `a` with possibly more flags set and possibly larger counters. */
  predicate Grows(a: Results, b: Results) {
    (a.rootScope ==> b.rootScope) &&
    (a.angularElement ==> b.angularElement) &&
    (a.uiRouter ==> b.uiRouter) &&
    (a.angularjsRouter ==> b.angularjsRouter) &&
    (a.angularRouter ==> b.angularRouter) &&
    (a.hasUnitTest ==> b.hasUnitTest) &&
    a.jsFileCount <= b.jsFileCount &&
    a.tsFileCount <= b.tsFileCount &&
    a.controllersCount <= b.controllersCount &&
    a.componentDirectivesCount <= b.componentDirectivesCount
  }

  // ----- the regular expressions of the checks -----

  const Quotes: set<char> := {'\'', '"'}

  /** `['"]name['"]`: the two quotes need not be of the same kind. */
  function Quoted(name: string): Pattern {
    [OneOf(Quotes)] + Literal(name) + [OneOf(Quotes)]
  }

  const RootScopePattern: Pattern := Literal("$rootScope")              // /\$rootScope/
  const ElementPattern: Pattern := Literal("NgElementConstructor")      // /NgElementConstructor/
  const UiRouterPattern: Pattern := Quoted("ui.router")                 // /['"]ui\.router['"]/
  const NgRoutePattern: Pattern := Quoted("ngRoute")                    // /['"]ngRoute['"]/
  const AngularRouterPattern: Pattern := Quoted("@angular/router")      // /['"]\@angular\/router['"]/
  const ControllerPattern: Pattern := Literal(".controller(")           // /\.controller\(/
  const ComponentPattern: Pattern := [AnyButLineTerminator] + Literal("component(")  // /.component\(/

  // ----- reference definitions of what the patterns find -----

  /** A quote, `name`, and a quote, starting at index `i`. */
  ghost predicate QuotedAt(name: string, s: string, i: nat) {
    i + |name| + 2 <= |s| && s[i] in Quotes && OccursAt(name, s, i + 1) && s[i + |name| + 1] in Quotes
  }

  ghost predicate HasQuoted(s: string, name: string) {
    exists i: nat :: QuotedAt(name, s, i)
  }

  /** `component(` at index `i`, after some character that is not a line terminator. */
  ghost predicate ComponentCallAt(s: string, i: nat) {
    1 <= i <= |s| && OccursAt("component(", s, i) && !IsLineTerminator(s[i - 1])
  }

  ghost predicate HasComponentCall(s: string) {
    exists i: nat :: ComponentCallAt(s, i)
  }

  /** `spec` fills the four-character window of `substr(-7, 4)`: for a name of
      seven or more characters the window ends just before a three-character
      ending such as `.js`; a shorter name is read from its first character, so
      `specab`, which has no extension at all, counts too. */
  ghost predicate SpecInSubstrWindow(filename: string) {
    if |filename| >= 7 then filename[|filename| - 7 .. |filename| - 3] == "spec"
    else 4 <= |filename| && filename[..4] == "spec"
  }

  lemma QuotedMatchesAt(name: string, s: string, i: nat)
    ensures MatchesAt(Quoted(name), s, i) <==> QuotedAt(name, s, i)
  {
    var q := [OneOf(Quotes)];
    MatchesConcat(q + Literal(name), q, s, i);
    MatchesConcat(q, Literal(name), s, i);
    MatchesSingle(OneOf(Quotes), s, i);
    MatchesSingle(OneOf(Quotes), s, i + 1 + |name|);
    LiteralMatchesAt(name, s, i + 1);
  }

  lemma QuotedSearch(name: string, s: string)
    ensures Search(Quoted(name), s) <==> HasQuoted(s, name)
  {
    forall j: nat ensures MatchesAt(Quoted(name), s, j) <==> QuotedAt(name, s, j) {
      QuotedMatchesAt(name, s, j);
    }
  }

  lemma ComponentMatchesAt(s: string, j: nat)
    ensures MatchesAt(ComponentPattern, s, j) <==> ComponentCallAt(s, j + 1)
  {
    MatchesConcat([AnyButLineTerminator], Literal("component("), s, j);
    MatchesSingle(AnyButLineTerminator, s, j);
    LiteralMatchesAt("component(", s, j + 1);
  }

  lemma ComponentSearch(s: string)
    ensures Search(ComponentPattern, s) <==> HasComponentCall(s)
  {
    forall j: nat ensures MatchesAt(ComponentPattern, s, j) <==> ComponentCallAt(s, j + 1) {
      ComponentMatchesAt(s, j);
    }
    if HasComponentCall(s) {
      var i: nat :| ComponentCallAt(s, i);
      assert MatchesAt(ComponentPattern, s, i - 1);
    }
  }

  // ----- the checks -----

  /** checkFileForRootScope */
  function CheckRootScope(r: Results, filename: string, fileData: string): (r': Results)
    ensures r' == r.(rootScope := r.rootScope || Contains(fileData, "$rootScope"))
  {
    SearchLiteral("$rootScope", fileData);
    if Search(RootScopePattern, fileData) then r.(rootScope := true) else r
  }

  /** checkFileForAngularElement */
  function CheckAngularElement(r: Results, filename: string, fileData: string): (r': Results)
    ensures r' == r.(angularElement := r.angularElement || Contains(fileData, "NgElementConstructor"))
  {
    SearchLiteral("NgElementConstructor", fileData);
    if Search(ElementPattern, fileData) then r.(angularElement := true) else r
  }

  /** checkFileForRouter: three alternatives, the first that matches wins. */
  function CheckRouter(r: Results, filename: string, fileData: string): (r': Results)
    ensures Grows(r, r')
    ensures r'.uiRouter == (r.uiRouter || HasQuoted(fileData, "ui.router"))
    ensures r'.angularjsRouter ==
              (r.angularjsRouter || (!HasQuoted(fileData, "ui.router") && HasQuoted(fileData, "ngRoute")))
    ensures r'.angularRouter ==
              (r.angularRouter || (!HasQuoted(fileData, "ui.router") && !HasQuoted(fileData, "ngRoute")
                                   && HasQuoted(fileData, "@angular/router")))
    // at most one of the three router fields changes, and nothing else does
    ensures r'.uiRouter != r.uiRouter ==> r'.angularjsRouter == r.angularjsRouter && r'.angularRouter == r.angularRouter
    ensures r'.angularjsRouter != r.angularjsRouter ==> r'.uiRouter == r.uiRouter && r'.angularRouter == r.angularRouter
    ensures r' == r.(uiRouter := r'.uiRouter, angularjsRouter := r'.angularjsRouter, angularRouter := r'.angularRouter)
  {
    QuotedSearch("ui.router", fileData);
    QuotedSearch("ngRoute", fileData);
    QuotedSearch("@angular/router", fileData);
    if Search(UiRouterPattern, fileData) then r.(uiRouter := true)
    else if Search(NgRoutePattern, fileData) then r.(angularjsRouter := true)
    else if Search(AngularRouterPattern, fileData) then r.(angularRouter := true)
    else r
  }

  /** checkFileForUnitTests: `filename.substr(-7, 4) === 'spec'`. */
  function CheckUnitTests(r: Results, filename: string, fileData: string): (r': Results)
    ensures r' == r.(hasUnitTest := r.hasUnitTest || SpecInSubstrWindow(filename))
  {
    if Substr(filename, -7, 4) == "spec" then r.(hasUnitTest := true) else r
  }

  /** checkFileForScriptingLanguage: `.js` first, otherwise `.ts`. */
  function CheckScriptingLanguage(r: Results, filename: string, fileData: string): (r': Results)
    ensures r'.jsFileCount == r.jsFileCount + (if EndsWith(filename, ".js") then 1 else 0)
    ensures r'.tsFileCount == r.tsFileCount + (if EndsWith(filename, ".ts") then 1 else 0)
    ensures r'.jsFileCount + r'.tsFileCount <= r.jsFileCount + r.tsFileCount + 1
    ensures r' == r.(jsFileCount := r'.jsFileCount, tsFileCount := r'.tsFileCount)
  {
    SubstrFromEndIsSuffix(filename, ".js");
    SubstrFromEndIsSuffix(filename, ".ts");
    if SubstrFrom(filename, -3) == ".js" then r.(jsFileCount := r.jsFileCount + 1)
    else if SubstrFrom(filename, -3) == ".ts" then r.(tsFileCount := r.tsFileCount + 1)
    else r
  }

  /** checkFileForComponent: two independent tests, each adding at most one
      per file however many calls the file holds. */
  function CheckComponent(r: Results, filename: string, fileData: string): (r': Results)
    ensures r'.controllersCount == r.controllersCount + (if Contains(fileData, ".controller(") then 1 else 0)
    ensures r'.componentDirectivesCount ==
              r.componentDirectivesCount + (if HasComponentCall(fileData) then 1 else 0)
    ensures r' == r.(controllersCount := r'.controllersCount, componentDirectivesCount := r'.componentDirectivesCount)
  {
    SearchLiteral(".controller(", fileData);
    ComponentSearch(fileData);
    var afterControllers :=
      if Search(ControllerPattern, fileData) then r.(controllersCount := r.controllersCount + 1) else r;
    if Search(ComponentPattern, fileData)
    then afterControllers.(componentDirectivesCount := afterControllers.componentDirectivesCount + 1)
    else afterControllers
  }

  /** Everything the walk does with one file: the extra rootScope check,
      then the test list in its order. */
  function FileUpdate(r: Results, f: FileEntry): (r': Results)
    ensures Grows(r, r')
    ensures r'.jsFileCount + r'.tsFileCount <= r.jsFileCount + r.tsFileCount + 1
    ensures r'.controllersCount <= r.controllersCount + 1
    ensures r'.componentDirectivesCount <= r.componentDirectivesCount + 1
  {
    var r0 := CheckRootScope(r, f.path, f.content);
    var r1 := CheckRootScope(r0, f.path, f.content);
    var r2 := CheckAngularElement(r1, f.path, f.content);
    var r3 := CheckRouter(r2, f.path, f.content);
    var r4 := CheckUnitTests(r3, f.path, f.content);
    var r5 := CheckScriptingLanguage(r4, f.path, f.content);
    CheckComponent(r5, f.path, f.content)
  }

  /** The extra rootScope check is harmless: running the test list alone
      gives the same record. */
  lemma ExtraRootScopeCheckHarmless(r: Results, f: FileEntry)
    ensures FileUpdate(r, f) ==
      CheckComponent(CheckScriptingLanguage(CheckUnitTests(CheckRouter(CheckAngularElement(
        CheckRootScope(r, f.path, f.content), f.path, f.content), f.path, f.content),
        f.path, f.content), f.path, f.content), f.path, f.content)
  {
  }

  /** What one file does to each field, in terms of the reference definitions. */
  lemma FileUpdateEffect(r: Results, f: FileEntry)
    ensures var r' := FileUpdate(r, f);
      && r'.rootScope == (r.rootScope || Contains(f.content, "$rootScope"))
      && r'.angularElement == (r.angularElement || Contains(f.content, "NgElementConstructor"))
      && r'.uiRouter == (r.uiRouter || HasQuoted(f.content, "ui.router"))
      && r'.angularjsRouter ==
           (r.angularjsRouter || (!HasQuoted(f.content, "ui.router") && HasQuoted(f.content, "ngRoute")))
      && r'.angularRouter ==
           (r.angularRouter || (!HasQuoted(f.content, "ui.router") && !HasQuoted(f.content, "ngRoute")
                                && HasQuoted(f.content, "@angular/router")))
      && r'.hasUnitTest == (r.hasUnitTest || SpecInSubstrWindow(f.path))
      && r'.jsFileCount == r.jsFileCount + (if EndsWith(f.path, ".js") then 1 else 0)
      && r'.tsFileCount == r.tsFileCount + (if EndsWith(f.path, ".ts") then 1 else 0)
      && r'.controllersCount == r.controllersCount + (if Contains(f.content, ".controller(") then 1 else 0)
      && r'.componentDirectivesCount ==
           r.componentDirectivesCount + (if HasComponentCall(f.content) then 1 else 0)
  {
  }
}

/** Concrete file names and texts that pin down the edge cases of the checks. */
module DetectorExamples {
  import opened Regex
  import opened Detectors

  /** The two quotes around a router name need not be of the same kind. */
  lemma MixedQuotesMatch(r: Results, filename: string)
    ensures CheckRouter(r, filename, "require(\"ui.router')").uiRouter
  {
    var s := "require(\"ui.router')";
    assert s[9..18] == "ui.router";
    assert QuotedAt("ui.router", s, 8);
  }

  /** A file naming both legacy routers records only the first of them. */
  lemma UiRouterWinsOverNgRoute(r: Results, filename: string)
    ensures var r' := CheckRouter(r, filename, "['ui.router', 'ngRoute']");
      r'.uiRouter && r'.angularjsRouter == r.angularjsRouter && r'.angularRouter == r.angularRouter
  {
    var s := "['" + "ui.router" + "', 'ngRoute']";
    assert s == "['ui.router', 'ngRoute']";
    assert s[2..11] == "ui.router";
    assert QuotedAt("ui.router", s, 1);
  }

  /** An unquoted module name is not a router dependency. */
  lemma UnquotedRouterIgnored(r: Results, filename: string)
    ensures CheckRouter(r, filename, "ngRoute") == r
  {
  }

  lemma SpecFileNames(r: Results, d: string)
    ensures CheckUnitTests(r, "x/a.spec.js", d).hasUnitTest
    ensures CheckUnitTests(r, "x/a.spec.ts", d).hasUnitTest
    ensures CheckUnitTests(r, "x/a.spec.tsx", d) == r
    // shorter than seven characters: the window starts at index 0
    ensures CheckUnitTests(r, "spec.j", d).hasUnitTest
    ensures CheckUnitTests(r, "a.js", d) == r
  {
    assert "x/a.spec.tsx"[5..9] == "pec.";
  }

  /** The extension test compares the last three characters only. */
  lemma NearMissExtension(r: Results, stem: string, ext: string, d: string)
    requires ext in [".jsx", ".mjs", ".cjs"]
    ensures CheckScriptingLanguage(r, stem + ext, d) == r
  {
    var f := stem + ext;
    assert f[|f| - 3..] == ext[1..];
  }

  lemma PlainExtensions(r: Results, stem: string, d: string)
    ensures CheckScriptingLanguage(r, stem + ".js", d).jsFileCount == r.jsFileCount + 1
    ensures CheckScriptingLanguage(r, stem + ".ts", d).tsFileCount == r.tsFileCount + 1
  {
    assert (stem + ".js")[|stem| + 3 - 3..] == ".js";
    assert (stem + ".ts")[|stem| + 3 - 3..] == ".ts";
  }

  /** `component(` must follow some character other than a line terminator. */
  lemma ComponentNeedsLeadingCharacter()
    ensures !HasComponentCall("component(")
    ensures !HasComponentCall("\ncomponent(")
    ensures HasComponentCall("app.component(")
    ensures HasComponentCall(" component(")
  {
    assert ComponentCallAt("app.component(", 4);
    assert ComponentCallAt(" component(", 1);
  }

  /** Many controllers in one file still count once. */
  lemma ControllersCountOncePerFile(r: Results, filename: string)
    ensures CheckComponent(r, filename, "a.controller(1); b.controller(2)").controllersCount
              == r.controllersCount + 1
  {
    var s := "a" + ".controller(" + "1); b.controller(2)";
    assert s == "a.controller(1); b.controller(2)";
    assert s[1..13] == ".controller(";
    assert OccursAt(".controller(", s, 1);
  }
}
