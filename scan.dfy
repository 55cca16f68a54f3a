/** The directory walk, seen as the list of (path, text) pairs it reaches in
    order, folded through the per-file update. */
module Walk {
  import opened Regex
  import opened JsString
  import opened Detectors

  /** The record after the files of `files` have been checked in order,
      starting from `r`. */
  function Scan(r: Results, files: seq<FileEntry>): (r': Results)
    ensures Grows(r, r')
    ensures r'.controllersCount <= r.controllersCount + |files|
    ensures r'.componentDirectivesCount <= r.componentDirectivesCount + |files|
    ensures r'.jsFileCount + r'.tsFileCount <= r.jsFileCount + r.tsFileCount + |files|
    decreases |files|
  {
    if files == [] then r
    else FileUpdate(Scan(r, files[..|files| - 1]), files[|files| - 1])
  }

  /** The number of files whose path ends with `ext`. */
  function CountEnding(files: seq<FileEntry>, ext: string): (n: nat)
    ensures n <= |files|
    decreases |files|
  {
    if files == [] then 0
    else CountEnding(files[..|files| - 1], ext) + (if EndsWith(files[|files| - 1].path, ext) then 1 else 0)
  }

  /** The number of files whose text registers a controller. */
  ghost function CountControllerFiles(files: seq<FileEntry>): (n: nat)
    ensures n <= |files|
    decreases |files|
  {
    if files == [] then 0
    else CountControllerFiles(files[..|files| - 1])
         + (if Contains(files[|files| - 1].content, ".controller(") then 1 else 0)
  }

  /** The number of files whose text registers a component. */
  ghost function CountComponentFiles(files: seq<FileEntry>): (n: nat)
    ensures n <= |files|
    decreases |files|
  {
    if files == [] then 0
    else CountComponentFiles(files[..|files| - 1])
         + (if HasComponentCall(files[|files| - 1].content) then 1 else 0)
  }

  /** Checking a list in two parts is checking it whole. */
  lemma {:induction false} ScanAppend(r: Results, a: seq<FileEntry>, b: seq<FileEntry>)
    ensures Scan(r, a + b) == Scan(Scan(r, a), b)
    decreases |b|
  {
    if b == [] {
      assert a + b == a;
    } else {
      assert (a + b)[..|a + b| - 1] == a + b[..|b| - 1];
      ScanAppend(r, a, b[..|b| - 1]);
    }
  }

  /** `rootScope` ends up set exactly when it was set before or some file's
      text contains `$rootScope`. */
  lemma {:induction false} ScanRootScope(r: Results, files: seq<FileEntry>)
    ensures Scan(r, files).rootScope <==>
      r.rootScope || exists k :: 0 <= k < |files| && Contains(files[k].content, "$rootScope")
    decreases |files|
  {
    if files != [] {
      var init := files[..|files| - 1];
      ScanRootScope(r, init);
      RootScopeOfFile(Scan(r, init), files[|files| - 1]);
      assert forall k :: 0 <= k < |init| ==> init[k] == files[k];
    }
  }

  /** `uiRouter` ends up set exactly when some file names `ui.router` in quotes. */
  lemma {:induction false} ScanUiRouter(r: Results, files: seq<FileEntry>)
    ensures Scan(r, files).uiRouter <==>
      r.uiRouter || exists k :: 0 <= k < |files| && HasQuoted(files[k].content, "ui.router")
    decreases |files|
  {
    if files != [] {
      var init := files[..|files| - 1];
      ScanUiRouter(r, init);
      RoutersOfFile(Scan(r, init), files[|files| - 1]);
      assert forall k :: 0 <= k < |init| ==> init[k] == files[k];
    }
  }

  /** `angularjsRouter` ends up set exactly when some single file names
      `ngRoute` in quotes and does not name `ui.router` in quotes. */
  lemma {:induction false} ScanNgRoute(r: Results, files: seq<FileEntry>)
    ensures Scan(r, files).angularjsRouter <==>
      r.angularjsRouter ||
      exists k :: 0 <= k < |files| && !HasQuoted(files[k].content, "ui.router")
                                   && HasQuoted(files[k].content, "ngRoute")
    decreases |files|
  {
    if files != [] {
      var init := files[..|files| - 1];
      ScanNgRoute(r, init);
      RoutersOfFile(Scan(r, init), files[|files| - 1]);
      assert forall k :: 0 <= k < |init| ==> init[k] == files[k];
    }
  }

  /** `angularElement` ends up set exactly when some file's text contains
      `NgElementConstructor`. */
  lemma {:induction false} ScanAngularElement(r: Results, files: seq<FileEntry>)
    ensures Scan(r, files).angularElement <==>
      r.angularElement || exists k :: 0 <= k < |files| && Contains(files[k].content, "NgElementConstructor")
    decreases |files|
  {
    if files != [] {
      var init := files[..|files| - 1];
      ScanAngularElement(r, init);
      ElementOfFile(Scan(r, init), files[|files| - 1]);
      assert forall k :: 0 <= k < |init| ==> init[k] == files[k];
    }
  }

  /** `angularRouter` ends up set exactly when some single file names
      `@angular/router` in quotes and names neither `ui.router` nor `ngRoute`
      in quotes. */
  lemma {:induction false} ScanAngularRouter(r: Results, files: seq<FileEntry>)
    ensures Scan(r, files).angularRouter <==>
      r.angularRouter ||
      exists k :: 0 <= k < |files| && !HasQuoted(files[k].content, "ui.router")
                                   && !HasQuoted(files[k].content, "ngRoute")
                                   && HasQuoted(files[k].content, "@angular/router")
    decreases |files|
  {
    if files != [] {
      var init := files[..|files| - 1];
      ScanAngularRouter(r, init);
      AngularRouterOfFile(Scan(r, init), files[|files| - 1]);
      assert forall k :: 0 <= k < |init| ==> init[k] == files[k];
    }
  }

  /** `hasUnitTest` ends up set exactly when some path has `spec` in the window. */
  lemma {:induction false} ScanUnitTest(r: Results, files: seq<FileEntry>)
    ensures Scan(r, files).hasUnitTest <==>
      r.hasUnitTest || exists k :: 0 <= k < |files| && SpecInSubstrWindow(files[k].path)
    decreases |files|
  {
    if files != [] {
      var init := files[..|files| - 1];
      ScanUnitTest(r, init);
      UnitTestOfFile(Scan(r, init), files[|files| - 1]);
      assert forall k :: 0 <= k < |init| ==> init[k] == files[k];
    }
  }

  /** The two file counters count the paths ending in `.js` and in `.ts`. */
  lemma {:induction false} ScanFileCounts(r: Results, files: seq<FileEntry>)
    ensures Scan(r, files).jsFileCount == r.jsFileCount + CountEnding(files, ".js")
    ensures Scan(r, files).tsFileCount == r.tsFileCount + CountEnding(files, ".ts")
    decreases |files|
  {
    if files != [] {
      ScanFileCounts(r, files[..|files| - 1]);
      CountersOfFile(Scan(r, files[..|files| - 1]), files[|files| - 1]);
    }
  }

  /** The two registration counters count files, not occurrences. */
  lemma {:induction false} ScanRegistrationCounts(r: Results, files: seq<FileEntry>)
    ensures Scan(r, files).controllersCount == r.controllersCount + CountControllerFiles(files)
    ensures Scan(r, files).componentDirectivesCount == r.componentDirectivesCount + CountComponentFiles(files)
    decreases |files|
  {
    if files != [] {
      ScanRegistrationCounts(r, files[..|files| - 1]);
      CountersOfFile(Scan(r, files[..|files| - 1]), files[|files| - 1]);
    }
  }

  lemma RootScopeOfFile(r: Results, f: FileEntry)
    ensures FileUpdate(r, f).rootScope == (r.rootScope || Contains(f.content, "$rootScope"))
  {
    FileUpdateEffect(r, f);
  }

  lemma RoutersOfFile(r: Results, f: FileEntry)
    ensures FileUpdate(r, f).uiRouter == (r.uiRouter || HasQuoted(f.content, "ui.router"))
    ensures FileUpdate(r, f).angularjsRouter ==
      (r.angularjsRouter || (!HasQuoted(f.content, "ui.router") && HasQuoted(f.content, "ngRoute")))
  {
    FileUpdateEffect(r, f);
  }

  lemma ElementOfFile(r: Results, f: FileEntry)
    ensures FileUpdate(r, f).angularElement ==
      (r.angularElement || Contains(f.content, "NgElementConstructor"))
  {
    FileUpdateEffect(r, f);
  }

  lemma AngularRouterOfFile(r: Results, f: FileEntry)
    ensures FileUpdate(r, f).angularRouter ==
      (r.angularRouter || (!HasQuoted(f.content, "ui.router") && !HasQuoted(f.content, "ngRoute")
                           && HasQuoted(f.content, "@angular/router")))
  {
    FileUpdateEffect(r, f);
  }

  lemma CountersOfFile(r: Results, f: FileEntry)
    ensures FileUpdate(r, f).jsFileCount == r.jsFileCount + (if EndsWith(f.path, ".js") then 1 else 0)
    ensures FileUpdate(r, f).tsFileCount == r.tsFileCount + (if EndsWith(f.path, ".ts") then 1 else 0)
    ensures FileUpdate(r, f).controllersCount ==
      r.controllersCount + (if Contains(f.content, ".controller(") then 1 else 0)
    ensures FileUpdate(r, f).componentDirectivesCount ==
      r.componentDirectivesCount + (if HasComponentCall(f.content) then 1 else 0)
  {
    FileUpdateEffect(r, f);
  }

  lemma UnitTestOfFile(r: Results, f: FileEntry)
    ensures FileUpdate(r, f).hasUnitTest == (r.hasUnitTest || SpecInSubstrWindow(f.path))
  {
    FileUpdateEffect(r, f);
  }
}
