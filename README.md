# ngMigration-Assistant analysis core in Dafny

This project models the core of `AnalysisTool` from ngMigration-Assistant, a tool
that scans an AngularJS application to estimate the work of migrating it to Angular.
The core has two parts.

- The per-file detectors. Six checks read a file's path and text. Each one sets a
  flag or adds one to a counter of the `analysisResults` record, except that
  `checkFileForComponent` can add one to each of its two counters: `$rootScope`,
  `NgElementConstructor`, a quoted router module name, a `spec` file name, the
  `.js`/`.ts` ending, and `.controller(` / `.component(` registrations.
- The decision tree. It starts the effort estimate `maxCodeLimit` at 880 lines, or
  one month of work. It multiplies the estimate by 1.5 or 2 under four ordered rules
  and prints recommendations.

Layout:

- `regex.dfy` (module `Regex`): the fragment of ECMAScript regular expressions the
  checks use. It covers literal characters, bracket classes and `.`. A regex is
  searched for at every start position, as `String.prototype.match` does without the
  `g` flag. The module proves that searching for a literal pattern is substring
  presence.
- `js_string.dfy` (module `JsString`): `String.prototype.substr` with ECMAScript's
  clamping of negative and out-of-range arguments, so short file names are defined.
- `detectors.dfy` (modules `Detectors`, `DetectorExamples`): the `analysisResults`
  record as a datatype `Results`, and the six checks as pure updates of it. Each
  check's contract uses reference definitions (`Contains`, `HasQuoted`,
  `HasComponentCall`, `SpecInSubstrWindow`, `EndsWith`) that are independent of
  the regex and `substr` machinery. The examples module pins down the edge cases
  with concrete names and texts.
- `scan.dfy` (module `Walk`): the files the directory walk reaches, as a list of
  (path, text) pairs, folded through the per-file update. Lemmas state what each
  field means after a whole run.
- `decision.dfy` (module `Decision`): the decision tree as functions. Messages are
  a datatype `Message` that carries the printed counts.
- `analysis_tool.dfy` (module `Tool`): class `AnalysisTool`. It has the record's
  fields, `maxCodeLimit` and the printed recommendations as mutable fields. Each
  check method updates its fields in place. `ProcessFile` runs the test list for one
  file. `CallAnalysisTests` loops over the files. `DecisionTree` multiplies
  `maxCodeLimit` step by step. Each method is proved against the matching function.
- `scenarios.dfy` (module `Scenarios`): whole runs, from file list to estimate.

Behaviours of the code that are easy to misread:

- The registration counters add one per file that holds at least one registration,
  however many it holds. The regexes have no `g` flag.
- A file name shorter than seven characters is read from index 0 by
  `substr(-7, 4)`, so `spec.j` counts as a spec file.
- `x.cjs`, `x.mjs` and `x.jsx` count as neither JavaScript nor TypeScript. The test
  compares the last three characters with `.js` or `.ts`.
- Take one `a.spec.js` file that uses `$rootScope` and one `.controller(`. Its
  estimate is 880 · 1.5 · 1.5 · 2 = 3960, because the `.js` rule also multiplies by
  1.5.
- The walk re-reads each file for every check. The model hands every check the same
  text, which is the same only while the file does not change during the run.

## Model

| member | source | states |
|---|---|---|
| Regex.SearchFrom | analysisTool.ts:124 | trying start positions from `i` finds a match exactly when some position at or after `i` starts one |
| Regex.Search | analysisTool.ts:124 | `s.match(p)` without `g` is truthy exactly when the pattern matches at some position |
| Regex.SearchLiteral | analysisTool.ts:131 | a regex made only of literal characters matches exactly when the text contains that string |
| JsString.Substr | analysisTool.ts:151 | `substr(start, length)` returns at most `length` characters; with a negative start it returns the window counted back from the end and cut at the end, or for a shorter string the first `length` characters; a non-negative start counts from the front, clamped to the end; a length of zero or less gives the empty string |
| JsString.SubstrFromEndIsSuffix | analysisTool.ts:158-160 | `s.substr(-n) === w` for a `w` of length `n` holds exactly when `s` ends with `w`, also for strings shorter than `w` |
| Detectors.QuotedSearch | analysisTool.ts:138-144 | `['"]name['"]` matches exactly when the text has `name` with a quote of either kind right before and right after it |
| Detectors.ComponentSearch | analysisTool.ts:171 | `.component\(` matches exactly when `component(` follows some character that is not a line terminator |
| Detectors.CheckRootScope | analysisTool.ts:123-128 | `rootScope` becomes set iff the text contains `$rootScope`; nothing else changes and the flag is never cleared |
| Detectors.CheckAngularElement | analysisTool.ts:130-135 | `angularElement` becomes set iff the text contains `NgElementConstructor`; nothing else changes |
| Detectors.CheckRouter | analysisTool.ts:137-148 | first match wins: `uiRouter` for quoted `ui.router`; else `angularjsRouter` for quoted `ngRoute`; else `angularRouter` for quoted `@angular/router`; at most one router field changes and no flag is cleared |
| Detectors.CheckUnitTests | analysisTool.ts:150-155 | `hasUnitTest` becomes set iff the four characters seven from the end are `spec`, or, for a name shorter than seven, its first four are |
| Detectors.CheckScriptingLanguage | analysisTool.ts:157-163 | `jsFileCount` grows by one iff the name ends in `.js`; `tsFileCount` grows by one iff it ends in `.ts`; together they grow by at most one |
| Detectors.CheckComponent | analysisTool.ts:165-175 | `controllersCount` grows by one iff the text contains `.controller(`; independently, `componentDirectivesCount` grows by one iff the text has a component registration; nothing else changes |
| Detectors.FileUpdate | analysisTool.ts:106-114 | one file never clears a flag or lowers a counter; it adds at most one to the two file counters together and at most one to each registration counter |
| Detectors.ExtraRootScopeCheckHarmless | analysisTool.ts:111 | the extra rootScope check before the test list leaves the same record as the test list alone |
| Detectors.FileUpdateEffect | analysisTool.ts:123-175 | the effect of one file on each of the ten fields, in terms of the reference definitions |
| DetectorExamples.MixedQuotesMatch | analysisTool.ts:138 | `"ui.router'` with one double and one single quote sets `uiRouter` |
| DetectorExamples.UiRouterWinsOverNgRoute | analysisTool.ts:137-143 | a file with both `'ui.router'` and `'ngRoute'` sets only `uiRouter` |
| DetectorExamples.UnquotedRouterIgnored | analysisTool.ts:137-148 | a bare `ngRoute` without quotes sets no router flag |
| DetectorExamples.SpecFileNames | analysisTool.ts:150-155 | `x/a.spec.js` and `x/a.spec.ts` are spec files, `x/a.spec.tsx` and `a.js` are not, and the short `spec.j` is one |
| DetectorExamples.NearMissExtension | analysisTool.ts:157-163 | names ending `.jsx`, `.mjs` or `.cjs` change neither file counter |
| DetectorExamples.PlainExtensions | analysisTool.ts:157-163 | any name ending `.js` adds one to `jsFileCount`, and any name ending `.ts` adds one to `tsFileCount` |
| DetectorExamples.ComponentNeedsLeadingCharacter | analysisTool.ts:171 | `component(` at offset 0 or after a newline is not a registration; after `.` or a space it is |
| DetectorExamples.ControllersCountOncePerFile | analysisTool.ts:165-169 | two controller registrations in one file add one to `controllersCount` |
| Walk.Scan | analysisTool.ts:91-121 | a run over a list of files never clears a flag or lowers a counter; each registration counter grows by at most the number of files, and so do the two file counters together |
| Walk.ScanAppend | analysisTool.ts:106-120 | checking two lists of files one after the other gives the same record as checking their concatenation |
| Walk.ScanRootScope | analysisTool.ts:123-128 | after a run, `rootScope` is set iff it was set before or some file's text contains `$rootScope` |
| Walk.ScanUiRouter | analysisTool.ts:137-140 | after a run, `uiRouter` is set iff it was set before or some file quotes `ui.router` |
| Walk.ScanNgRoute | analysisTool.ts:137-143 | after a run, `angularjsRouter` is set iff it was set before or some file quotes `ngRoute` and does not also quote `ui.router` |
| Walk.ScanAngularElement | analysisTool.ts:130-135 | after a run, `angularElement` is set iff it was set before or some file's text contains `NgElementConstructor` |
| Walk.ScanAngularRouter | analysisTool.ts:137-148 | after a run, `angularRouter` is set iff it was set before or some single file quotes `@angular/router` and quotes neither `ui.router` nor `ngRoute` |
| Walk.ScanUnitTest | analysisTool.ts:150-155 | after a run, `hasUnitTest` is set iff it was set before or some path has `spec` in the window seven characters from its end |
| Walk.ScanFileCounts | analysisTool.ts:157-163 | after a run, the two file counters have grown by the number of paths ending in `.js` and in `.ts` |
| Walk.ScanRegistrationCounts | analysisTool.ts:165-175 | after a run, the registration counters have grown by the number of files that register a controller or a component, not by the number of registrations |
| Decision.EffortFactor | analysisTool.ts:56-84 | the four rules together scale the estimate by a factor between 1 and 1.5·1.5·1.5·2 = 6.75 |
| Decision.Recommendations | analysisTool.ts:69-83 | at most three lines; the JavaScript-left and TypeScript-converted counts come first, and only when there is at least one `.js` file |
| Decision.Estimate | analysisTool.ts:35-39 | starting from 880, the estimate never decreases and never exceeds 5940 |
| Decision.ComponentRule | analysisTool.ts:75-83 | components only: the ready-for-ngUpgrade line, factor 1. Both: the controllers-left line with their count, factor 1.5. Controllers only: the begin-converting line with their count, factor 2. Neither: no line, factor 1 |
| Decision.IgnoredFields | analysisTool.ts:56-84 | the element and router flags never change the estimate or the lines, and `tsFileCount` never changes the estimate |
| Decision.LegacyControllerApp | analysisTool.ts:59-83 | rootScope, a spec file, one `.js` file and one controller give 3960, then JS-left(1), TS-converted(0), begin-converting(1) |
| Scenarios.EmptyApp | analysisTool.ts:38-44 | an empty directory gives the initial record, estimate 1320 and no recommendations |
| Scenarios.LegacySpecFile | analysisTool.ts:38-44 | one `app/a.spec.js` file with `$rootScope` and `.controller(` yields the record rootScope, hasUnitTest, one `.js` file, one controller, then estimate 3960 and the three lines |
| Tool.AnalysisTool.constructor | analysisTool.ts:38-46 | a new tool holds the record a run over the files yields, an estimate of 880 times the decision tree's factor, and the decision tree's lines |
| Tool.AnalysisTool.DecisionTree | analysisTool.ts:56-84 | multiplies `maxCodeLimit` by the rules' factor and appends the recommendation lines; the record is untouched |
| Tool.AnalysisTool.CallAnalysisTests | analysisTool.ts:91-121 | the fields become the fold of the per-file update over the files, in walk order; estimate and output unchanged |
| Tool.AnalysisTool.ProcessFile | analysisTool.ts:106-114 | the fields become the per-file update of their old value; estimate and output unchanged |
| Tool.AnalysisTool.CheckFileForRootScope | analysisTool.ts:123-128 | updates only `rootScope`, as the rootScope check specifies |
| Tool.AnalysisTool.CheckFileForAngularElement | analysisTool.ts:130-135 | updates only `angularElement`, as the element check specifies |
| Tool.AnalysisTool.CheckFileForRouter | analysisTool.ts:137-148 | updates only the three router flags, as the router check specifies |
| Tool.AnalysisTool.CheckFileForUnitTests | analysisTool.ts:150-155 | updates only `hasUnitTest`, as the unit-test check specifies |
| Tool.AnalysisTool.CheckFileForScriptingLanguage | analysisTool.ts:157-163 | updates only the two file counters, as the extension check specifies |
| Tool.AnalysisTool.CheckFileForComponent | analysisTool.ts:165-175 | updates only the two registration counters, as the registration check specifies |

## Left out

- The filesystem walk in `callAnalysisTests` (`readdirSync`, `statSync`, `readFileSync`) is I/O. The model takes the regular files the walk reaches, in order, as a list of (path, text) pairs. So it does not capture a quirk of the walk: after a subdirectory, line 117 rebinds `path`, and siblings listed later get a wrong path prefix, so `statSync` on such a sibling usually throws ENOENT and ends the whole run. The flat file list is therefore an idealisation of a walk that, in each directory, fails at the first entry listed after a subdirectory. It also does not capture the walk re-reading each file for every check.
- Errors from the filesystem are not modelled, since they belong to the I/O above.
- UTF-8 decoding and binary content: the text arrives already decoded.
- Characters outside the Basic Multilingual Plane are one `char` here and a surrogate pair of two code units in JavaScript. So `substr` offsets differ for such characters: the spec-file window can decide differently for a path with such a character among its last seven code units (`spec😀.x` is a spec file here, not in JavaScript). The regex `.` matches a whole such character here and one code unit in JavaScript, which gives the same verdict for `.component\(`. The `.js`/`.ts` test decides the same, since its three characters are all in that plane. Lone surrogates cannot be represented.
- Console output is left out: section headers, progress lines and the detectors' "Found ..." lines. Only the decision tree's recommendation lines are kept, as `Message` values with their counts.
- The `setTimeout` no-op in the constructor only affects timing.
- `recommendation()` is left out. It only prints a section header, and its `if` has an empty block; nothing in analysisTool.ts calls it.
- The unused constant `VALUE_NOT_FOUND` is left out.
- The commented-out `checkAngularVersion` is left out, since it is not code.
- Doubles: the estimate is a `real`. Its only operands are 880, 1.5 and 2, and every product is exact in a double.
- Regular expressions beyond the fragment the checks use (alternation, repetition, flags) are not modelled.
