// The merge-gate job as the repository declares it.
module MergeGateJobs {
  import opened Texts
  import opened TypedEquality
  import opened JobSchemas

  function Text(text: string): Value {
    Leaf(Str(text))
  }

  function Field(name: string, value: Value): Entry {
    Entry(Str(name), value)
  }

  function EventExpression(field: string, fallback: string): string {
    "${{ github.event_name == 'merge_group' && github.event.merge_group." + field + " || " + fallback + " }}"
  }

  function HeadSha(): Value {
    Text(EventExpression("head_sha", "github.event.pull_request.head.sha"))
  }

  function Environment(): seq<Entry> {
    [Field("EVENT_NAME", Text("${{ github.event_name }}")),
     Field("REPOSITORY_PRIVATE", Text("${{ github.event.repository.private }}")),
     Field("BASE_REF", Text(EventExpression("base_ref", "github.base_ref"))),
     Field("BASE_SHA", Text(EventExpression("base_sha", "github.event.pull_request.base.sha"))),
     Field("HEAD_REF", Text(EventExpression("head_ref", "github.head_ref"))),
     Field("RUN_SHA", Text("${{ github.sha }}")),
     Field("DRAFT", Text("${{ github.event.pull_request.draft }}")),
     Field("ACTION", Text("${{ github.event.action }}")),
     Field("HEAD_SHA", HeadSha()),
     Field("PLAN", Text("${{ needs.verification-plan.result }}")),
     Field("UBUNTU", Text("${{ needs.compatibility.result }}")),
     Field("WINDOWS", Text("${{ needs.windows-compatibility.result }}")),
     Field("WINDOWS_REQUIRED", Text("${{ needs.verification-plan.outputs.windows }}")),
     Field("BASE_CHANGED",
           Text("${{ github.event.changes.base.ref.from != '' || github.event.changes.base.sha.from != '' }}"))]
  }

  /** An action pinned to a commit. */
  function Action(name: string, commit: string): string {
    "actions/" + (name + "@" + commit)
  }

  function Checkout(): seq<Entry> {
    [Field("uses", Text(Action("checkout", "3d3c42e5aac5ba805825da76410c181273ba90b1"))),
     Field("with", Dict([Field("ref", HeadSha()), Field("persist-credentials", Leaf(Bool(false)))]))]
  }

  function PythonSetup(): seq<Entry> {
    [Field("uses", Text(Action("setup-python", "5fda3b95a4ea91299a34e894583c3862153e4b97"))),
     Field("with", Dict([Field("python-version", Text("3.12"))]))]
  }

  const TITLE := "Require " + "real verification for this exact head"
  const COMMAND := "python scripts/ci-merge-gate.py"

  function Decision(): seq<Entry> {
    [Field("name", Text(TITLE)),
     Field("env", Dict(Environment())),
     Field("run", Text(COMMAND))]
  }

  function Needs(): Value {
    List([Text("verification-plan"), Text("compatibility"), Text("windows-compatibility")])
  }

  function JobFields(): seq<Entry> {
    [Field("name", Text("Merge gate")),
     Field("if", Text("always() && (github.event_name == 'pull_request' || github.event_name == 'merge_group')")),
     Field("needs", Needs()),
     Field("runs-on", Text("ubuntu-24.04")),
     Field("timeout-minutes", Leaf(Int(5)))]
  }

  function MergeGate(): Schema {
    Schema(JobFields(), [Checkout(), PythonSetup(), Decision()])
  }

  predicate KeysApart(fields: seq<Entry>) {
    forall i, j | 0 <= i < j < |fields| :: fields[i].key != fields[j].key
  }

  ghost predicate ValuesProper(fields: seq<Entry>) {
    forall i | 0 <= i < |fields| :: fields[i].key.Str? && Proper(fields[i].value) && fields[i].value != Leaf(Null)
  }

  /** The names apart, and a value that is itself proper under each. */
  lemma FieldsProper(fields: seq<Entry>)
    requires KeysApart(fields) && ValuesProper(fields)
    ensures Declarable(fields) && Proper(Dict(fields))
  {
  }

  /** Enough of a name to tell the environment's apart. */
  function Code(name: string): int {
    if name == "" then 0 else |name| * 1000000 + name[0] as int * 1000 + name[|name| - 1] as int
  }

  const CODES: seq<int> :=
    [10069069, 18082069, 8066070, 8066065, 8072070, 7082065, 5068084, 6065078, 8072065, 4080078, 6085085, 7087083,
     16087068, 12066068]

  predicate Coded(fields: seq<Entry>) {
    |fields| == |CODES| && forall i | 0 <= i < |fields| :: fields[i].key.Str? && Code(fields[i].key.text) == CODES[i]
  }

  lemma EnvironmentCodes()
    ensures Coded(Environment())
  {
    hide EventExpression, Text;
  }

  lemma EnvironmentKeys()
    ensures KeysApart(Environment())
  {
    hide Environment, Code;
    EnvironmentCodes();
  }

  lemma EnvironmentValues()
    ensures ValuesProper(Environment())
  {
    hide EventExpression;
  }

  lemma EnvironmentProper()
    ensures Proper(Dict(Environment()))
  {
    hide Environment;
    EnvironmentKeys();
    EnvironmentValues();
    FieldsProper(Environment());
  }

  lemma CheckoutProper()
    ensures Declarable(Checkout()) && Proper(Dict(Checkout()))
  {
    hide HeadSha, EventExpression;
    assert "persist-credentials"[0] == 'p' && "ref"[0] == 'r' && "uses"[0] == 'u' && "with"[0] == 'w';
    HeadProper();
    FieldsProper([Field("ref", HeadSha()), Field("persist-credentials", Leaf(Bool(false)))]);
    FieldsProper(Checkout());
  }

  lemma HeadProper()
    ensures Proper(HeadSha()) && HeadSha() != Leaf(Null)
  {
  }

  lemma PythonProper()
    ensures Declarable(PythonSetup()) && Proper(Dict(PythonSetup()))
  {
    assert "uses"[0] == 'u' && "with"[0] == 'w';
    FieldsProper([Field("python-version", Text("3.12"))]);
    FieldsProper(PythonSetup());
  }

  lemma DecisionProper()
    ensures Declarable(Decision()) && Proper(Dict(Decision()))
  {
    hide Environment;
    EnvironmentProper();
    assert "name"[0] == 'n' && "env"[0] == 'e' && "run"[0] == 'r';
    FieldsProper(Decision());
  }

  lemma JobValues()
    ensures ValuesProper(JobFields())
  {
  }

  lemma JobKeys()
    ensures KeysApart(JobFields()) && Lacks(JobFields(), STEPS)
  {
    hide Text, Needs;
    assert |"name"| == 4 && |"needs"| == 5 && |"steps"| == 5 && "steps"[0] == 's' && "needs"[0] == 'n';
    assert "if"[0] == 'i' && "runs-on"[0] == 'r' && "timeout-minutes"[0] == 't';
  }

  lemma JobFieldsProper()
    ensures var fields := JobFields();
            Declarable(fields) && Proper(Dict(fields)) && Lacks(fields, STEPS)
  {
    hide JobFields;
    JobValues();
    JobKeys();
    FieldsProper(JobFields());
  }

  /** The declaration is one the comparison can be made against. */
  lemma MergeGateOK()
    ensures SchemaOK(MergeGate())
  {
    hide Checkout, PythonSetup, Decision, Proper, Declarable;
    CheckoutProper();
    PythonProper();
    DecisionProper();
    JobFieldsProper();
  }

  /** No declared text of a step has outer blanks, so a job that is the declared one is
      accepted. */
  lemma MergeGateBare()
    ensures BareSteps(MergeGate())
  {
    hide Environment, HeadSha, JobFields, Bare;
    TextsBare();
    forall i | 0 <= i < |Checkout()| && IsText(Checkout()[i].value) ensures Bare(Checkout()[i].value.scalar.text) {}
    forall i | 0 <= i < |PythonSetup()| && IsText(PythonSetup()[i].value) ensures Bare(PythonSetup()[i].value.scalar.text) {}
    forall i | 0 <= i < |Decision()| && IsText(Decision()[i].value) ensures Bare(Decision()[i].value.scalar.text) {}
  }

  lemma TextsBare()
    ensures Bare(Action("checkout", "3d3c42e5aac5ba805825da76410c181273ba90b1"))
    ensures Bare(Action("setup-python", "5fda3b95a4ea91299a34e894583c3862153e4b97"))
    ensures Bare(TITLE) && Bare(COMMAND)
  {
    ActionBare("checkout", "3d3c42e5aac5ba805825da76410c181273ba90b1");
    ActionBare("setup-python", "5fda3b95a4ea91299a34e894583c3862153e4b97");
    var a, b := "Require ", "real verification for this exact head";
    assert TITLE == a + b && (a + b)[0] == a[0] && (a + b)[|a| + |b| - 1] == b[|b| - 1];
    assert a[0] == 'R' && |b| == 37 && b[36] == 'd';
    assert |COMMAND| == 31 && COMMAND[30] == 'y' && COMMAND[0] == 'p';
  }

  lemma ActionBare(name: string, commit: string)
    requires commit != "" && !Blank(commit[|commit| - 1])
    ensures Bare(Action(name, commit))
  {
    var a, b := "actions/", name + "@" + commit;
    assert (a + b)[0] == a[0] && (a + b)[|a| + |b| - 1] == b[|b| - 1] == commit[|commit| - 1];
  }

  /** The job is accepted exactly when it has the declared fields and steps and nothing
      else, blanks around a step's texts apart. */
  method ValidateMergeGate(job: seq<Entry>) returns (v: Verdict)
    requires Proper(Dict(job))
    ensures v == Problems([]) <==> JobRight(MergeGate(), job)
  {
    hide MergeGate, JobRight, SchemaOK;
    MergeGateOK();
    v := Validate(MergeGate(), job);
  }

  /** A timeout of `true`, or of any other type or number than five minutes, is refused. */
  lemma TimeoutPinned(job: seq<Entry>, i: nat)
    requires Proper(Dict(job)) && i < |job| && job[i].key == Str("timeout-minutes") && job[i].value != Leaf(Int(5))
    ensures !JobRight(MergeGate(), job)
  {
    hide EventExpression, Environment, Checkout, PythonSetup, Decision, StepsRight, SchemaOK;
    MergeGateOK();
    FoundOnce(false, MergeGate().fields[4], job, i);
    assert MergeGate().fields[4] == Field("timeout-minutes", Leaf(Int(5)));
  }

  /** A right field is the only entry under its key. */
  lemma FoundOnce(step: bool, want: Entry, got: seq<Entry>, i: nat)
    requires Distinct(got) && i < |got| && got[i].key == want.key
    ensures Found(step, want, got) ==> FieldRight(step, want.value, got[i].value)
  {
    hide FieldRight;
    DistinctKeys(got);
  }

  /** A decision step whose `run` is anything but the gate's command, blanks around it
      apart, is refused. */
  lemma RunPinned(job: seq<Entry>, s: nat, i: nat)
    requires Proper(Dict(job)) && s < |job| && job[s].key == STEPS && job[s].value.List? && |job[s].value.items| == 3
    requires job[s].value.items[2].Dict?
    requires var decision := job[s].value.items[2].entries;
             && i < |decision| && decision[i].key == Str("run")
             && (IsText(decision[i].value) ==> forall m, n :: !Between(decision[i].value.scalar.text, COMMAND, m, n))
    ensures !JobRight(MergeGate(), job)
  {
    hide Environment, Checkout, PythonSetup, JobFields, Between, Bare;
    DistinctKeys(job);
    var decision := job[s].value.items[2].entries;
    assert MergeGate().steps[2] == Decision() && Decision()[2] == Field("run", Text(COMMAND));
    assert Proper(job[s].value.items[2]);
    FoundOnce(true, Decision()[2], decision, i);
    assert forall j :: 0 <= j < |job| && job[j].key == STEPS ==> j == s;
    assert StepsRight(MergeGate().steps, job[s].value) ==> StepRight(Decision(), job[s].value.items[2]);
  }
}
