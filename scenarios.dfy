/** Whole runs over small applications, from the file list to the estimate. */
module Scenarios {
  import opened Regex
  import opened JsString
  import opened Detectors
  import opened Walk
  import opened Decision

  /** An empty directory: nothing is found and the estimate is raised only
      for the missing unit tests. */
  lemma EmptyApp()
    ensures Scan(Initial, []) == Initial
    ensures Estimate(Scan(Initial, [])) == 1320.0
    ensures Recommendations(Scan(Initial, [])) == []
  {
  }

  lemma OccursAtChars(w: string, s: string, i: nat, k: nat)
    requires OccursAt(w, s, i) && k < |w|
    ensures s[i + k] == w[k]
  {
    assert s[i..i + |w|][k] == w[k];
  }

  const LegacyText: string := "$rootScope" + ".controller("

  lemma LegacyTextMatches()
    ensures Contains(LegacyText, "$rootScope")
    ensures Contains(LegacyText, ".controller(")
  {
    assert OccursAt("$rootScope", LegacyText, 0);
    assert OccursAt(".controller(", LegacyText, 10);
  }

  lemma LegacyTextHasNoElement()
    ensures !Contains(LegacyText, "NgElementConstructor")
  {
    if Contains(LegacyText, "NgElementConstructor") {
      var i: nat :| OccursAt("NgElementConstructor", LegacyText, i);
      OccursAtChars("NgElementConstructor", LegacyText, i, 0);
      assert false;
    }
  }

  lemma LegacyTextHasNoComponent()
    ensures !HasComponentCall(LegacyText)
  {
    if HasComponentCall(LegacyText) {
      var i: nat :| ComponentCallAt(LegacyText, i);
      OccursAtChars("component(", LegacyText, i, 0);
      OccursAtChars("component(", LegacyText, i, 2);
      assert false;
    }
  }

  lemma LegacyTextHasNoQuotes(name: string)
    ensures !HasQuoted(LegacyText, name)
  {
  }

  lemma LegacyPathFacts()
    ensures SpecInSubstrWindow("app/a.spec.js")
    ensures EndsWith("app/a.spec.js", ".js") && !EndsWith("app/a.spec.js", ".ts")
  {
    assert "app/a.spec.js"[6..10] == "spec";
    assert "app/a.spec.js"[10..] == ".js";
  }

  /** What the checks record for the one file of the scenario below. */
  lemma LegacyFileRecord()
    ensures FileUpdate(Initial, FileEntry("app/a.spec.js", LegacyText)) ==
      Initial.(rootScope := true, hasUnitTest := true, jsFileCount := 1, controllersCount := 1)
  {
    LegacyTextMatches();
    LegacyTextHasNoElement();
    LegacyTextHasNoComponent();
    LegacyTextHasNoQuotes("ui.router");
    LegacyTextHasNoQuotes("ngRoute");
    LegacyTextHasNoQuotes("@angular/router");
    LegacyPathFacts();
    FileUpdateEffect(Initial, FileEntry("app/a.spec.js", LegacyText));
  }

  /** One spec file in JavaScript that uses $rootScope and registers a
      controller: rootScope, the JavaScript file and the controller raise the
      estimate, the spec file name spares the unit-test rule. */
  lemma LegacySpecFile()
    ensures var r := Scan(Initial, [FileEntry("app/a.spec.js", LegacyText)]);
      && r == Initial.(rootScope := true, hasUnitTest := true, jsFileCount := 1, controllersCount := 1)
      && Estimate(r) == 3960.0
      && Recommendations(r) == [JsLeft(1), TsConverted(0), BeginConverting(1)]
  {
    var files := [FileEntry("app/a.spec.js", LegacyText)];
    assert files[..0] == [];
    assert Scan(Initial, files) == FileUpdate(Initial, files[0]);
    LegacyFileRecord();
    LegacyControllerApp();
  }
}
