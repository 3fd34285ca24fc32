// Whether a head may be merged, from what its run published; and what the plan and
// the gate come to together.
module MergeGates {
  import opened Options
  import opened CiPlans

  const BOOLEANS: set<string> := {"true", "false"}
  const ACTIONS: set<string> := {"opened", "synchronize", "reopened", "ready_for_review", "converted_to_draft", "edited"}
  const RESULTS: set<string> := {"success", "failure", "cancelled", "skipped"}
  const SUCCESS := "success"
  const QUEUE_REF := "refs/heads/gh-readonly-queue/develop/"

  predicate IsSha(text: string) {
    |text| == 40 && forall i | 0 <= i < 40 :: '0' <= text[i] <= '9' || 'a' <= text[i] <= 'f'
  }

  /** What the environment holds under a name, empty if nothing. */
  function Get(env: map<string, string>, name: string): string {
    if name in env then env[name] else ""
  }

  /** The head is one a pull request run may authorize. */
  predicate PullRequestReady(env: map<string, string>) {
    && Get(env, "DRAFT") == "false" && Get(env, "ACTION") in ACTIONS && Get(env, "BASE_CHANGED") in BOOLEANS
    && (Get(env, "ACTION") == "edited" ==> Get(env, "BASE_CHANGED") == "true")
  }

  /** The run is of a develop merge group's own head on another base. */
  predicate MergeGroupReady(env: map<string, string>) {
    && Get(env, "ACTION") == "checks_requested"
    && "REPOSITORY_PRIVATE" in env && env["REPOSITORY_PRIVATE"] == "false"
    && "BASE_REF" in env && env["BASE_REF"] == "refs/heads/develop" && QUEUE_REF <= Get(env, "HEAD_REF")
    && IsSha(Get(env, "BASE_SHA")) && Get(env, "BASE_SHA") != Get(env, "HEAD_SHA")
    && "RUN_SHA" in env && env["RUN_SHA"] == Get(env, "HEAD_SHA")
  }

  /** Every job that had to succeed did, on a head that is one. */
  predicate Verified(env: map<string, string>) {
    && IsSha(Get(env, "HEAD_SHA")) && Get(env, "PLAN") == SUCCESS && Get(env, "UBUNTU") == SUCCESS
    && Get(env, "WINDOWS") in RESULTS && Get(env, "WINDOWS_REQUIRED") in BOOLEANS
    && (Get(env, "WINDOWS_REQUIRED") == "true" ==> Get(env, "WINDOWS") == SUCCESS)
  }

  /** The whole verdict in one place. */
  predicate Authorized(env: map<string, string>) {
    && ((Get(env, "EVENT_NAME") == "pull_request" && PullRequestReady(env))
        || (Get(env, "EVENT_NAME") == "merge_group" && MergeGroupReady(env)))
    && Verified(env)
  }

  /** The names of the inputs outside their domains, in the order they are asked. */
  method Malformed(env: map<string, string>, inputs: seq<(string, set<string>)>) returns (names: seq<string>)
    ensures names == [] <==> forall i :: 0 <= i < |inputs| ==> Get(env, inputs[i].0) in inputs[i].1
  {
    names := [];
    for i := 0 to |inputs|
      invariant names == [] <==> forall j :: 0 <= j < i ==> Get(env, inputs[j].0) in inputs[j].1
    {
      if Get(env, inputs[i].0) !in inputs[i].1 { names := names + [inputs[i].0]; }
    }
  }

  /** A pull request whose own inputs are all known; its results may be anything. */
  predicate Known(env: map<string, string>) {
    && Get(env, "EVENT_NAME") == "pull_request"
    && Get(env, "DRAFT") in BOOLEANS && Get(env, "ACTION") in ACTIONS && Get(env, "BASE_CHANGED") in BOOLEANS
  }

  lemma ReasonsDiffer()
    ensures "green" !in {"unusable merge group", "unsupported event", "unusable authority input", "draft", "edited text",
                         "plan", "ubuntu", "windows"}
    ensures "pull_request" != "merge_group" && "true" != "false"
  {
    assert |"green"| == 5 && |"draft"| == 5 && "draft"[0] == 'd' && "green"[0] == 'g';
    assert |"plan"| == 4 && |"ubuntu"| == 6 && |"windows"| == 7 && "edited text"[0] == 'e' && "unsupported event"[0] == 'u';
    assert "unusable merge group"[0] == 'u' && "unusable authority input"[0] == 'u';
    assert "pull_request"[0] == 'p' && "merge_group"[0] == 'm' && "true"[0] == 't' && "false"[0] == 'f';
  }

  /** Whether a run was supposed to happen, answered before anything it found is looked at. */
  method Precondition(env: map<string, string>) returns (reason: Option<string>)
    ensures reason.None? <==> (Get(env, "EVENT_NAME") == "pull_request" && PullRequestReady(env))
                              || (Get(env, "EVENT_NAME") == "merge_group" && MergeGroupReady(env))
    ensures reason.Some? ==> reason.value != "green"
    ensures Known(env) && Get(env, "DRAFT") == "true" ==> reason == Some("draft")
    ensures Known(env) && Get(env, "DRAFT") == "false" && Get(env, "ACTION") == "edited" && Get(env, "BASE_CHANGED") == "false"
            ==> reason == Some("edited text")
  {
    hide IsSha, Get;
    ReasonsDiffer();
    var event, action, head := Get(env, "EVENT_NAME"), Get(env, "ACTION"), Get(env, "HEAD_SHA");
    if event == "merge_group" {
      var base := Get(env, "BASE_SHA");
      if action != "checks_requested"
         || "REPOSITORY_PRIVATE" !in env || env["REPOSITORY_PRIVATE"] != "false"
         || "BASE_REF" !in env || env["BASE_REF"] != "refs/heads/develop"
         || !(QUEUE_REF <= Get(env, "HEAD_REF"))
         || !IsSha(base) || base == head
         || "RUN_SHA" !in env || env["RUN_SHA"] != head {
        return Some("unusable merge group");
      }
      return None;
    }
    if event != "pull_request" { return Some("unsupported event"); }
    var inputs := [("DRAFT", BOOLEANS), ("ACTION", ACTIONS), ("BASE_CHANGED", BOOLEANS)];
    var unusable := Malformed(env, inputs);
    if unusable != [] {
      assert exists i :: 0 <= i < 3 && Get(env, inputs[i].0) !in inputs[i].1;
      return Some("unusable authority input");
    }
    assert Get(env, inputs[0].0) in inputs[0].1 && Get(env, inputs[1].0) in inputs[1].1 && Get(env, inputs[2].0) in inputs[2].1;
    if Get(env, "DRAFT") == "true" { return Some("draft"); }
    if action == "edited" && Get(env, "BASE_CHANGED") != "true" { return Some("edited text"); }
    return None;
  }

  /** What the run found. */
  method Outcome(env: map<string, string>) returns (reason: Option<string>)
    ensures reason.None? <==> Verified(env)
    ensures reason.Some? ==> reason.value != "green"
  {
    hide IsSha, Get;
    ReasonsDiffer();
    var results := [("WINDOWS_REQUIRED", BOOLEANS), ("PLAN", RESULTS), ("UBUNTU", RESULTS), ("WINDOWS", RESULTS)];
    var malformed := Malformed(env, results);
    if !IsSha(Get(env, "HEAD_SHA")) { malformed := malformed + ["HEAD_SHA"]; }
    if malformed != [] {
      assert SUCCESS in RESULTS;
      return Some("unusable authority input");
    }
    assert Get(env, results[0].0) in results[0].1 && Get(env, results[3].0) in results[3].1;
    if Get(env, "PLAN") != SUCCESS { return Some("plan"); }
    if Get(env, "UBUNTU") != SUCCESS { return Some("ubuntu"); }
    if Get(env, "WINDOWS_REQUIRED") == "true" && Get(env, "WINDOWS") != SUCCESS { return Some("windows"); }
    return None;
  }

  /** The decision as it is made: the event's identity, then whether a run was supposed
      to happen, then what it found. Each verdict is reasoned for in the log, and a draft
      or an edited text is refused for what it is, whatever the results say. */
  method Decide(env: map<string, string>, log: seq<string>) returns (status: int, after: seq<string>)
    ensures status == 0 || status == 1
    ensures status == 0 <==> Authorized(env)
    ensures log < after && (status == 0 <==> after[|after| - 1] == "green")
    ensures Known(env) && Get(env, "DRAFT") == "true" ==> after == log + ["inputs", "results", "draft"]
    ensures Known(env) && Get(env, "DRAFT") == "false" && Get(env, "ACTION") == "edited" && Get(env, "BASE_CHANGED") == "false"
            ==> after == log + ["inputs", "results", "edited text"]
  {
    hide IsSha, Get, PullRequestReady, MergeGroupReady, Verified;
    after := log + ["inputs", "results"];
    var early := Precondition(env);
    if early.Some? { return 1, after + [early.value]; }
    var late := Outcome(env);
    if late.Some? { return 1, after + [late.value]; }
    if Get(env, "WINDOWS_REQUIRED") != "true" { after := after + ["windows not required"]; }
    return 0, after + ["green"];
  }

  /** A develop pull request or merge group that touches a Windows path: once its plan
      is published, the gate opens only on a full success, Windows included. */
  lemma WindowsChangeNeedsWindows(event: string, baseRef: string, valid: bool, paths: seq<string>,
                                  fold: string -> string, env: map<string, string>)
    requires Select(event, baseRef, valid, paths, fold).Some?
    requires event == "merge_group" || (event == "pull_request" && baseRef == "develop")
    requires RequiresWindows(paths, fold)
    requires Get(env, "WINDOWS_REQUIRED") == Published(Select(event, baseRef, valid, paths, fold).value.windows)
    ensures Select(event, baseRef, valid, paths, fold).value.windows
    ensures Authorized(env) ==>
              && IsSha(Get(env, "HEAD_SHA"))
              && Get(env, "PLAN") == SUCCESS && Get(env, "UBUNTU") == SUCCESS && Get(env, "WINDOWS") == SUCCESS
  {
    hide RequiresWindows, Classify, IsSha, MergeGroupReady, PullRequestReady;
    WindowsNeverLost(paths, fold);
    EventsDiffer();
  }

  lemma EventsDiffer()
    ensures "workflow_dispatch" != "merge_group" && "workflow_dispatch" != "pull_request" && "merge_group" != "pull_request"
  {
  }

  /** Without a Windows path the result of a Windows run does not matter, so long as it
      is one. */
  lemma WindowsIgnoredOtherwise(event: string, baseRef: string, valid: bool, paths: seq<string>,
                                fold: string -> string, env: map<string, string>, result: string)
    requires Select(event, baseRef, valid, paths, fold).Some?
    requires event == "merge_group" || (event == "pull_request" && baseRef == "develop")
    requires !RequiresWindows(paths, fold)
    requires Get(env, "WINDOWS_REQUIRED") == Published(Select(event, baseRef, valid, paths, fold).value.windows)
    requires result in RESULTS && Get(env, "WINDOWS") in RESULTS
    ensures Authorized(env) <==> Authorized(env["WINDOWS" := result])
  {
    hide RequiresWindows, Classify, PullRequestReady, MergeGroupReady, Verified, Get;
    EventsDiffer();
    WindowsNeverLost(paths, fold);
    NamesDiffer(env, result);
    ReadyAlike(env, result);
    VerifiedAlike(env, result);
  }

  lemma ReadyAlike(env: map<string, string>, result: string)
    ensures PullRequestReady(env["WINDOWS" := result]) == PullRequestReady(env)
    ensures MergeGroupReady(env["WINDOWS" := result]) == MergeGroupReady(env)
  {
    hide Get, IsSha;
    NamesDiffer(env, result);
  }

  lemma VerifiedAlike(env: map<string, string>, result: string)
    requires Get(env, "WINDOWS_REQUIRED") == "false" && result in RESULTS && Get(env, "WINDOWS") in RESULTS
    ensures Verified(env["WINDOWS" := result]) == Verified(env)
  {
  }

  lemma NamesDiffer(env: map<string, string>, result: string)
    ensures forall name :: name != "WINDOWS" ==> Get(env["WINDOWS" := result], name) == Get(env, name)
    ensures "WINDOWS_REQUIRED" != "WINDOWS" && "PLAN" != "WINDOWS" && "UBUNTU" != "WINDOWS" && "HEAD_SHA" != "WINDOWS"
    ensures "EVENT_NAME" != "WINDOWS" && "DRAFT" != "WINDOWS" && "ACTION" != "WINDOWS" && "BASE_CHANGED" != "WINDOWS"
    ensures "REPOSITORY_PRIVATE" != "WINDOWS" && "BASE_REF" != "WINDOWS" && "HEAD_REF" != "WINDOWS"
    ensures "BASE_SHA" != "WINDOWS" && "RUN_SHA" != "WINDOWS"
  {
  }
}
