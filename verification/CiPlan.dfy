// Which verification a change gets.
module CiPlans {
  import opened Options
  import opened Texts

  datatype Plan = Plan(mode: string, audit: bool, windows: bool)

  const INERT_DOCUMENTS: set<string> := {
    ".github/pull_request_template.md", "code_of_conduct.md", "contributing.md", "docs/adapters.md",
    "docs/architecture.md", "docs/artifact-library-entry-contract.md",
    "docs/decisions/0001-" + "automatic-image-edit-strength.md", "docs/decisions/0002-" + "portable-archive-encryption.md",
    "docs/editing-studio.md", "docs/getting-started.md", "docs/merge-queue.md", "docs/privacy.md",
    "docs/workflow-packages.md", "docs/workflow-recipes.md", "security.md", "support.md"}

  const DEPENDENCY_FILES: set<string> := {
    "apps/web/package.json", "package-lock.json", "package.json", "services/api/pyproject.toml", "services/api/uv.lock"}

  const WINDOWS_PATHS: set<string> := {
    ".github/workflows/ci.yml", "packaging/lmatelier.spec", "scripts/build-windows-installer.ps1",
    "scripts/ci-plan.py", "scripts/smoke-windows-installer.ps1", "scripts/verify.ps1"}

  const WINDOWS_PREFIXES: set<string> := {"scripts/", "packaging/windows/", "services/api/"}

  function Slashed(text: string): (slashed: string)
    ensures |slashed| == |text|
    ensures forall i :: 0 <= i < |text| ==> slashed[i] == if text[i] == '\\' then '/' else text[i]
  {
    seq(|text|, i requires 0 <= i < |text| => if text[i] == '\\' then '/' else text[i])
  }

  function WithoutPrefix(text: string, prefix: string): string {
    if prefix <= text then text[|prefix|..] else text
  }

  /** A path as the policy compares it; `fold` is the caseless form of a text. */
  function Normalized(path: string, fold: string -> string): string {
    fold(WithoutPrefix(Slashed(Strip(path)), "./"))
  }

  predicate IsInert(path: string, fold: string -> string) {
    Normalized(path, fold) in INERT_DOCUMENTS
  }

  predicate IsWindows(normalized: string) {
    normalized in WINDOWS_PATHS || exists prefix | prefix in WINDOWS_PREFIXES :: prefix <= normalized
  }

  predicate RequiresWindows(paths: seq<string>, fold: string -> string) {
    exists i | 0 <= i < |paths| :: IsWindows(Normalized(paths[i], fold))
  }

  predicate RequiresAudit(paths: seq<string>, fold: string -> string) {
    exists i | 0 <= i < |paths| :: Normalized(paths[i], fold) in DEPENDENCY_FILES
  }

  function Changed(paths: seq<string>, fold: string -> string): seq<string> {
    if paths == [] then []
    else (if Normalized(paths[0], fold) != "" then [paths[0]] else []) + Changed(paths[1..], fold)
  }

  /** Documentation alone, or the full plan with its audit. */
  function Classify(paths: seq<string>, fold: string -> string): (string, bool) {
    var changed := Changed(paths, fold);
    if changed != [] && forall i | 0 <= i < |changed| :: IsInert(changed[i], fold) then ("documentation", false)
    else ("full", RequiresAudit(changed, fold))
  }

  /** The plan of an event; `valid` is what the checks of refs and commits said. */
  function Select(event: string, baseRef: string, valid: bool, paths: seq<string>, fold: string -> string): Option<Plan> {
    if event == "workflow_dispatch" then Some(Plan("full", true, true))
    else if !valid then None
    else if event == "merge_group" || (event == "pull_request" && baseRef == "develop") then
      var (mode, audit) := Classify(paths, fold);
      Some(Plan(mode, audit, mode == "full" && RequiresWindows(paths, fold)))
    else if event == "pull_request" && baseRef == "main" then Some(Plan("promotion", false, false))
    else None
  }

  /** How the plan's answer about Windows is published. */
  function Published(answer: bool): string {
    if answer then "true" else "false"
  }

  lemma {:induction false} ChangedMembers(paths: seq<string>, fold: string -> string)
    ensures forall p :: p in Changed(paths, fold) <==> p in paths && Normalized(p, fold) != ""
  {
    if paths != [] { ChangedMembers(paths[1..], fold); }
  }

  /** Nothing established as inert is a Windows path, and no Windows path is empty. */
  lemma InertIsNotWindows(normalized: string)
    requires IsWindows(normalized)
    ensures normalized !in INERT_DOCUMENTS && normalized != ""
  {
    WindowsStarts(normalized);
    if normalized in INERT_DOCUMENTS { InertStarts(normalized); }
  }

  predicate Starts(text: string, a: char, b: char) {
    |text| > 1 && text[0] == a && text[1] == b
  }

  lemma WindowsStarts(normalized: string)
    requires IsWindows(normalized)
    ensures Starts(normalized, 's', 'c') || Starts(normalized, 'p', 'a') || Starts(normalized, 's', 'e')
            || normalized == ".github/workflows/ci.yml"
    ensures Starts(normalized, 's', 'e') ==> "services/api/" <= normalized
  {
  }

  lemma InertStarts(normalized: string)
    requires normalized in INERT_DOCUMENTS
    ensures !Starts(normalized, 's', 'c') && !Starts(normalized, 'p', 'a') && normalized != ".github/workflows/ci.yml"
    ensures !("services/api/" <= normalized)
  {
    InertFirst(normalized);
    assert ".github/workflows/ci.yml"[8] == 'w' && "services/api/"[0] == 's' && "services/api/"[2] == 'r';
  }

  lemma DecisionsFirst()
    ensures ("docs/decisions/0001-" + "automatic-image-edit-strength.md")[0] == 'd'
    ensures ("docs/decisions/0002-" + "portable-archive-encryption.md")[0] == 'd'
  {
    var a, b, c, d := "docs/decisions/0001-", "automatic-image-edit-strength.md", "docs/decisions/0002-",
                      "portable-archive-encryption.md";
    assert (a + b)[0] == a[0] && (c + d)[0] == c[0];
  }

  lemma InertFirst(normalized: string)
    requires normalized in INERT_DOCUMENTS
    ensures |normalized| > 8
    ensures normalized[0] in {'.', 'c', 'd'} || (normalized[0] == 's' && normalized[1] != 'c' && normalized[2] != 'r')
    ensures normalized[0] == '.' ==> normalized[8] == 'p'
  {
    assert ".github/pull_request_template.md"[0] == '.' && ".github/pull_request_template.md"[8] == 'p';
    assert "code_of_conduct.md"[0] == 'c' && "contributing.md"[0] == 'c' && "docs/adapters.md"[0] == 'd';
    assert "docs/architecture.md"[0] == 'd' && "docs/artifact-library-entry-contract.md"[0] == 'd';
    DecisionsFirst();
    assert "docs/editing-studio.md"[0] == 'd' && "docs/getting-started.md"[0] == 'd' && "docs/merge-queue.md"[0] == 'd';
    assert "docs/privacy.md"[0] == 'd' && "docs/workflow-packages.md"[0] == 'd' && "docs/workflow-recipes.md"[0] == 'd';
    assert "security.md"[0] == 's' && "security.md"[1] == 'e' && "security.md"[2] == 'c';
    assert "support.md"[0] == 's' && "support.md"[1] == 'u' && "support.md"[2] == 'p';
  }

  /** A change with a Windows path gets the full plan, Windows included; and Windows is
      asked for only then. */
  lemma WindowsNeverLost(paths: seq<string>, fold: string -> string)
    ensures RequiresWindows(paths, fold) ==> Classify(paths, fold).0 == "full"
    ensures (Classify(paths, fold).0 == "full" && RequiresWindows(paths, fold)) <==> RequiresWindows(paths, fold)
  {
    hide IsWindows, Normalized;
    if RequiresWindows(paths, fold) {
      var i :| 0 <= i < |paths| && IsWindows(Normalized(paths[i], fold));
      InertIsNotWindows(Normalized(paths[i], fold));
      ChangedMembers(paths, fold);
      var changed := Changed(paths, fold);
      assert paths[i] in changed;
      var j :| 0 <= j < |changed| && changed[j] == paths[i];
      assert !IsInert(changed[j], fold);
    }
  }

  /** Only changes made of inert documents, and at least one, skip the suites. */
  lemma DocumentationIff(paths: seq<string>, fold: string -> string)
    ensures Classify(paths, fold).0 == "documentation"
            <==> (exists p :: p in paths && Normalized(p, fold) != "")
                 && forall p :: p in paths && Normalized(p, fold) != "" ==> IsInert(p, fold)
  {
    hide Normalized;
    var changed := Changed(paths, fold);
    ChangedMembers(paths, fold);
    assert "documentation"[0] == 'd' && "full"[0] == 'f';
    if changed != [] { assert changed[0] in changed; }
    if forall i | 0 <= i < |changed| :: IsInert(changed[i], fold) {
      forall p | p in changed ensures IsInert(p, fold) {}
    }
  }

  /** `n` is the path between its outer blanks, slashed, without a leading `./`, folded. */
  ghost predicate NormalOf(path: string, n: string, fold: string -> string, i: nat, j: nat, slashed: string) {
    && i <= j <= |path| && Bare(path[i..j]) && Between(path, path[i..j], i, j)
    && |slashed| == j - i
    && (forall k :: 0 <= k < |slashed| ==> slashed[k] == if path[i + k] == '\\' then '/' else path[i + k])
    && (if |slashed| >= 2 && slashed[0] == '.' && slashed[1] == '/' then n == fold(slashed[2..]) else n == fold(slashed))
  }

  lemma NormalizedMeans(path: string, fold: string -> string) returns (i: nat, j: nat, slashed: string)
    ensures NormalOf(path, Normalized(path, fold), fold, i, j, slashed)
  {
    hide Blank;
    i, j := Stripped(path);
    StripIff(path, Strip(path));
    slashed := Slashed(Strip(path));
    assert "./" <= slashed <==> |slashed| >= 2 && slashed[0] == '.' && slashed[1] == '/';
  }

  /** Every Windows path but two stands below one of three directories. */
  lemma WindowsMeans(n: string)
    ensures IsWindows(n) <==> "scripts/" <= n || "packaging/windows/" <= n || "services/api/" <= n
                              || n == ".github/workflows/ci.yml" || n == "packaging/lmatelier.spec"
  {
  }

  lemma DependenciesAreCode(n: string)
    requires n in DEPENDENCY_FILES
    ensures n != "" && n !in INERT_DOCUMENTS
  {
    if n in INERT_DOCUMENTS { InertFirst(n); }
    assert "apps/web/package.json"[0] == 'a' && "package-lock.json"[0] == 'p' && "package.json"[0] == 'p';
    assert "services/api/pyproject.toml"[2] == 'r' && "services/api/uv.lock"[2] == 'r';
    assert "services/api/pyproject.toml"[0] == 's' && "services/api/uv.lock"[0] == 's';
  }

  /** The audit runs exactly for changes with a dependency file, which also forces the
      full plan. */
  lemma AuditNeverLost(paths: seq<string>, fold: string -> string)
    ensures Classify(paths, fold).1 <==> exists p :: p in paths && Normalized(p, fold) in DEPENDENCY_FILES
    ensures Classify(paths, fold).1 ==> Classify(paths, fold).0 == "full"
  {
    hide Normalized;
    var changed := Changed(paths, fold);
    ChangedMembers(paths, fold);
    forall p | p in paths && Normalized(p, fold) in DEPENDENCY_FILES
      ensures p in changed && !IsInert(p, fold)
    {
      DependenciesAreCode(Normalized(p, fold));
    }
    forall i | 0 <= i < |changed| ensures changed[i] in paths { assert changed[i] in changed; }
    if p :| p in paths && Normalized(p, fold) in DEPENDENCY_FILES {
      var i :| 0 <= i < |changed| && changed[i] == p;
    }
  }

  /** No plan without valid refs unless the run was asked for by hand; the light plan for
      develop alone; Windows for a develop change exactly if it has a Windows path. */
  lemma SelectFailsClosed(event: string, baseRef: string, valid: bool, paths: seq<string>, fold: string -> string)
    ensures var plan := Select(event, baseRef, valid, paths, fold);
            && (event == "workflow_dispatch" ==> plan == Some(Plan("full", true, true)))
            && (plan.Some? && event != "workflow_dispatch" ==> valid && event in {"merge_group", "pull_request"})
            && (plan.Some? && plan.value.mode == "documentation" ==>
                  (event == "merge_group" || baseRef == "develop") && !plan.value.windows && !plan.value.audit)
            && (plan.Some? && event != "workflow_dispatch" && (event == "merge_group" || baseRef == "develop") ==>
                  plan.value.windows == RequiresWindows(paths, fold))
  {
    hide RequiresWindows, Normalized;
    WindowsNeverLost(paths, fold);
    EventNames();
  }

  lemma EventNames()
    ensures "workflow_dispatch" != "merge_group" && "workflow_dispatch" != "pull_request" && "merge_group" != "pull_request"
    ensures "documentation" != "full" && "documentation" != "promotion" && "develop" != "main"
  {
    assert "workflow_dispatch"[0] == 'w' && "merge_group"[0] == 'm' && "pull_request"[0] == 'p';
    assert "documentation"[0] == 'd' && "full"[0] == 'f' && "promotion"[0] == 'p' && "develop"[0] == 'd' && "main"[0] == 'm';
  }
}
