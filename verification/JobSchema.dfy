// A workflow job compared whole against its declaration.
module JobSchemas {
  import opened Texts
  import opened TypedEquality

  /** The job's declared fields, and its declared steps in order. */
  datatype Schema = Schema(fields: seq<Entry>, steps: seq<seq<Entry>>)

  datatype Problem =
    | Unexpected(keys: set<Scalar>)
    | WrongField(key: Scalar, found: Value)
    | WrongSteps(found: Value)
    | NotMapping(index: nat)
    | UnexpectedInStep(index: nat, keys: set<Scalar>)
    | WrongStepField(index: nat, key: Scalar, found: Value)

  /** The problems found, or the crash of sorting keys that have no order. */
  datatype Verdict = Problems(list: seq<Problem>) | Crash

  const STEPS := Str("steps")

  /** Text keys, all different, and no value that an absent key would read as. */
  predicate Declarable(want: seq<Entry>) {
    && (forall i, j :: 0 <= i < j < |want| ==> want[i].key != want[j].key)
    && (forall i :: 0 <= i < |want| ==> want[i].key.Str? && want[i].value != Leaf(Null))
  }

  ghost predicate SchemaOK(schema: Schema) {
    && Declarable(schema.fields) && Lacks(schema.fields, STEPS) && Proper(Dict(schema.fields))
    && forall i :: 0 <= i < |schema.steps| ==> Declarable(schema.steps[i]) && Proper(Dict(schema.steps[i]))
  }

  /** What a mapping holds under a key, none if it is absent. */
  function Get(entries: seq<Entry>, key: Scalar): Value {
    if entries == [] then Leaf(Null)
    else if entries[0].key == key then entries[0].value
    else Get(entries[1..], key)
  }

  function Extra(got: seq<Entry>, want: seq<Entry>): set<Scalar> {
    Keys(got) - Keys(want)
  }

  /** Keys that can be sorted: all text, all numbers, or at most one. */
  predicate Sortable(keys: set<Scalar>) {
    |keys| <= 1 || (forall k | k in keys :: k.Str?) || (forall k | k in keys :: Numeric(k) != [])
  }

  lemma {:induction false} GetAt(entries: seq<Entry>, key: Scalar)
    ensures Lacks(entries, key) ==> Get(entries, key) == Leaf(Null)
    ensures !Lacks(entries, key) ==> exists j :: 0 <= j < |entries| && entries[j].key == key && Get(entries, key) == entries[j].value
  {
    if entries != [] && entries[0].key != key {
      GetAt(entries[1..], key);
      if !Lacks(entries, key) {
        var j :| 0 <= j < |entries| && entries[j].key == key;
        assert entries[1..][j - 1] == entries[j];
        var k :| 0 <= k < |entries[1..]| && entries[1..][k].key == key && Get(entries[1..], key) == entries[1..][k].value;
        assert entries[k + 1] == entries[1..][k];
      }
    }
  }

  /** Distinct keys: what is held under one is the value of its only entry. */
  lemma GetOnly(entries: seq<Entry>, j: nat)
    requires Distinct(entries) && j < |entries|
    ensures Get(entries, entries[j].key) == entries[j].value
  {
    DistinctKeys(entries);
    GetAt(entries, entries[j].key);
  }

  lemma AnsweredIffGot(want: Entry, got: seq<Entry>)
    requires Distinct(got) && want.value != Leaf(Null)
    ensures Answered(want, got) <==> Same(want.value, Get(got, want.key))
  {
    if Answered(want, got) {
      var j :| 0 <= j < |got| && got[j].key == want.key && Same(want.value, got[j].value);
      GetOnly(got, j);
    }
    GetAt(got, want.key);
  }

  /** No key too many and every declared one right: the mappings are the same. */
  lemma MappingExact(want: seq<Entry>, got: seq<Entry>)
    requires Declarable(want) && Distinct(want) && Distinct(got)
    ensures Extra(got, want) == {} && (forall i :: 0 <= i < |want| ==> Same(want[i].value, Get(got, want[i].key)))
            <==> Same(Dict(want), Dict(got))
  {
    forall i | 0 <= i < |want| ensures Answered(want[i], got) <==> Same(want[i].value, Get(got, want[i].key)) {
      AnsweredIffGot(want[i], got);
    }
    if Same(Dict(want), Dict(got)) {
      SameKeys(want, got);
      assert Extra(got, want) == {};
    }
    if Extra(got, want) == {} && forall i :: 0 <= i < |want| ==> Same(want[i].value, Get(got, want[i].key)) {
      AllThere(want, got);
    }
  }

  lemma AllThere(want: seq<Entry>, got: seq<Entry>)
    requires Distinct(want) && Distinct(got) && Extra(got, want) == {}
    requires forall i :: 0 <= i < |want| ==> Answered(want[i], got)
    ensures |want| == |got|
  {
    forall k | k in Keys(want) ensures k in Keys(got) {
      var i :| 0 <= i < |want| && want[i].key == k;
      assert Answered(want[i], got);
    }
    forall k | k in Keys(got) ensures k in Keys(want) { assert k !in Keys(want) ==> k in Extra(got, want); }
    assert Keys(want) == Keys(got);
    DistinctKeys(want);
    DistinctKeys(got);
    KeyCount(want);
    KeyCount(got);
  }

  // ------------------------------------------------------------ what a job must be

  predicate IsText(value: Value) {
    value.Leaf? && value.scalar.Str?
  }

  /** In a step, a text that is the declared one between blanks; anywhere else, and for
      any other value, the very value declared. */
  ghost predicate FieldRight(step: bool, want: Value, got: Value) {
    if step && IsText(want) then
      && IsText(got) && Bare(want.scalar.text)
      && exists i, j :: Between(got.scalar.text, want.scalar.text, i, j)
    else Same(want, got)
  }

  /** Under the declared key stands a right value. */
  ghost predicate Found(step: bool, want: Entry, got: seq<Entry>) {
    exists j :: 0 <= j < |got| && got[j].key == want.key && FieldRight(step, want.value, got[j].value)
  }

  ghost predicate StepRight(want: seq<Entry>, step: Value) {
    && step.Dict? && |step.entries| == |want|
    && forall i :: 0 <= i < |want| ==> Found(true, want[i], step.entries)
  }

  ghost predicate StepsRight(steps: seq<seq<Entry>>, got: Value) {
    && got.List? && |got.items| == |steps|
    && forall i :: 0 <= i < |steps| ==> StepRight(steps[i], got.items[i])
  }

  /** The declared fields and steps, each once, and nothing else. */
  ghost predicate JobRight(schema: Schema, job: seq<Entry>) {
    && |job| == |schema.fields| + 1
    && (forall i :: 0 <= i < |schema.fields| ==> Found(false, schema.fields[i], job))
    && exists j :: 0 <= j < |job| && job[j].key == STEPS && StepsRight(schema.steps, job[j].value)
  }

  /** The one job the schema declares. */
  function Declared(schema: Schema): seq<Entry> {
    schema.fields + [Entry(STEPS, DeclaredSteps(schema.steps))]
  }

  function DeclaredSteps(steps: seq<seq<Entry>>): (value: Value)
    ensures value.List? && |value.items| == |steps|
    ensures forall i :: 0 <= i < |steps| ==> value.items[i] == Dict(steps[i])
  {
    List(seq(|steps|, i requires 0 <= i < |steps| => Dict(steps[i])))
  }

  /** No declared text of a step has outer blanks. */
  predicate BareSteps(schema: Schema) {
    forall s, i | 0 <= s < |schema.steps| && 0 <= i < |schema.steps[s]| ::
      IsText(schema.steps[s][i].value) ==> Bare(schema.steps[s][i].value.scalar.text)
  }

  lemma SameFieldRight(step: bool, want: Value, got: Value)
    requires Same(want, got) && (IsText(want) ==> Bare(want.scalar.text))
    ensures FieldRight(step, want, got)
  {
    if step && IsText(want) {
      var text := want.scalar.text;
      assert text == text[0..|text|];
      assert Between(text, text, 0, |text|);
    }
  }

  lemma SameStepRight(want: seq<Entry>, step: Value)
    requires forall i :: 0 <= i < |want| && IsText(want[i].value) ==> Bare(want[i].value.scalar.text)
    requires Same(Dict(want), step)
    ensures StepRight(want, step)
  {
    hide FieldRight;
    forall i | 0 <= i < |want| ensures Found(true, want[i], step.entries) {
      assert Answered(want[i], step.entries);
      var j :| 0 <= j < |step.entries| && step.entries[j].key == want[i].key && Same(want[i].value, step.entries[j].value);
      SameFieldRight(true, want[i].value, step.entries[j].value);
    }
  }

  /** Every job that is the declared one, in whatever order its keys stand, is right. */
  lemma DeclaredRight(schema: Schema, job: seq<Entry>)
    requires BareSteps(schema) && Same(Dict(Declared(schema)), Dict(job))
    ensures JobRight(schema, job)
  {
    hide StepRight;
    var want := Declared(schema);
    forall i | 0 <= i < |schema.fields| ensures Found(false, schema.fields[i], job) {
      assert want[i] == schema.fields[i] && Answered(want[i], job);
    }
    assert want[|schema.fields|] == Entry(STEPS, DeclaredSteps(schema.steps));
    assert Answered(want[|schema.fields|], job);
    var j :| 0 <= j < |job| && job[j].key == STEPS && Same(DeclaredSteps(schema.steps), job[j].value);
    forall s | 0 <= s < |schema.steps| ensures StepRight(schema.steps[s], job[j].value.items[s]) {
      SameStepRight(schema.steps[s], job[j].value.items[s]);
    }
  }

  // ------------------------------------------------------------ the comparison

  /** What is compared: a step's text is stripped first where text is declared. */
  function Seen(step: bool, want: Value, got: Value): Value {
    if step && IsText(want) && IsText(got) then Leaf(Str(Strip(got.scalar.text))) else got
  }

  lemma SeenRight(step: bool, want: Value, got: Value)
    ensures Same(want, Seen(step, want, got)) <==> FieldRight(step, want, got)
    ensures step && IsText(want) && IsText(got) ==>
              && IsText(Seen(step, want, got)) && Bare(Seen(step, want, got).scalar.text)
              && exists i, j :: Between(got.scalar.text, Seen(step, want, got).scalar.text, i, j)
    ensures !step || !IsText(want) || !IsText(got) ==> Seen(step, want, got) == got
  {
    if step && IsText(want) && IsText(got) {
      StripIff(got.scalar.text, want.scalar.text);
      StripIff(got.scalar.text, Strip(got.scalar.text));
    }
  }

  /** What the mapping holds under the declared key is right. */
  ghost predicate Right(step: bool, want: Entry, got: seq<Entry>) {
    FieldRight(step, want.value, Get(got, want.key))
  }

  lemma FoundIffRight(step: bool, want: Entry, got: seq<Entry>)
    requires Distinct(got) && want.value != Leaf(Null)
    ensures Found(step, want, got) <==> Right(step, want, got)
  {
    hide Between, Bare;
    if Found(step, want, got) {
      var j :| 0 <= j < |got| && got[j].key == want.key && FieldRight(step, want.value, got[j].value);
      GetOnly(got, j);
    }
    GetAt(got, want.key);
  }

  /** Distinct keys: as many as declared and each declared one there, or none too many
      and each there, is the same. */
  lemma NoneTooMany(want: seq<Entry>, got: seq<Entry>)
    requires Distinct(want) && Distinct(got) && Keys(want) <= Keys(got)
    ensures Extra(got, want) == {} <==> |got| == |want|
  {
    DistinctKeys(want);
    DistinctKeys(got);
    KeyCount(want);
    KeyCount(got);
    if |got| == |want| { Subsets(Keys(want), Keys(got)); }
    if Extra(got, want) == {} {
      forall k | k in Keys(got) ensures k in Keys(want) { assert k !in Keys(want) ==> k in Extra(got, want); }
      assert Keys(got) == Keys(want);
    }
  }

  lemma FoundKeys(step: bool, want: seq<Entry>, got: seq<Entry>)
    requires forall i :: 0 <= i < |want| ==> Found(step, want[i], got)
    ensures Keys(want) <= Keys(got)
  {
    hide FieldRight;
    forall k | k in Keys(want) ensures k in Keys(got) {
      var i :| 0 <= i < |want| && want[i].key == k;
      assert Found(step, want[i], got);
    }
  }

  /** The declared fields the mapping gets wrong, in the declared order. */
  method CheckFields(step: bool, want: seq<Entry>, got: seq<Entry>) returns (wrong: seq<Entry>)
    requires Proper(Dict(want)) && Proper(Dict(got))
    ensures forall i :: 0 <= i < |want| ==> (want[i] in wrong <==> !Right(step, want[i], got))
    ensures forall e :: e in wrong ==> e in want
  {
    hide FieldRight;
    wrong := [];
    DistinctKeys(want);
    for i := 0 to |want|
      invariant forall j :: 0 <= j < i ==> (want[j] in wrong <==> !Right(step, want[j], got))
      invariant forall e :: e in wrong ==> e in want[..i]
    {
      GetProper(got, want[i].key);
      assert want[i] !in want[..i];
      SeenRight(step, want[i].value, Get(got, want[i].key));
      var same := ExactlyEqual(want[i].value, Seen(step, want[i].value, Get(got, want[i].key)));
      if !same { wrong := wrong + [want[i]]; }
      assert want[..i + 1] == want[..i] + [want[i]];
    }
    assert want[..|want|] == want;
  }

  lemma GetProper(got: seq<Entry>, key: Scalar)
    requires Proper(Dict(got))
    ensures Proper(Get(got, key))
  {
  }

  lemma StepExact(want: seq<Entry>, got: seq<Entry>)
    requires Declarable(want) && Distinct(want) && Distinct(got)
    ensures Extra(got, want) == {} && (forall i :: 0 <= i < |want| ==> Right(true, want[i], got))
            <==> StepRight(want, Dict(got))
  {
    hide FieldRight, Extra, Right;
    forall i | 0 <= i < |want| ensures Found(true, want[i], got) <==> Right(true, want[i], got) {
      FoundIffRight(true, want[i], got);
    }
    if forall i :: 0 <= i < |want| ==> Found(true, want[i], got) {
      FoundKeys(true, want, got);
      NoneTooMany(want, got);
    }
  }

  /** One step; no answer if its keys could not be sorted for the message. No problem
      exactly if it is right; every wrong field is reported, and no other. */
  method CheckStep(index: nat, want: seq<Entry>, step: Value) returns (v: Verdict)
    requires Declarable(want) && Proper(Dict(want)) && Proper(step)
    ensures v == Problems([]) <==> StepRight(want, step)
    ensures v.Crash? ==> step.Dict? && !Sortable(Extra(step.entries, want))
    ensures v.Problems? && step.Dict? ==> forall i :: 0 <= i < |want| ==>
              (WrongStepField(index, want[i].key, Seen(true, want[i].value, Get(step.entries, want[i].key))) in v.list
               <==> !Right(true, want[i], step.entries))
  {
    hide FieldRight, Right;
    if !step.Dict? { return Problems([NotMapping(index)]); }
    var got := step.entries;
    StepExact(want, got);
    var problems: seq<Problem> := [];
    var extra := Extra(got, want);
    if extra != {} {
      if !Sortable(extra) { return Crash; }
      problems := [UnexpectedInStep(index, extra)];
    }
    var wrong := CheckFields(true, want, got);
    WrongNone(true, want, got, wrong);
    var found := seq(|wrong|, i requires 0 <= i < |wrong| =>
      WrongStepField(index, wrong[i].key, Seen(true, wrong[i].value, Get(got, wrong[i].key))));
    ghost var all := problems + found;
    forall i | 0 <= i < |want|
      ensures WrongStepField(index, want[i].key, Seen(true, want[i].value, Get(got, want[i].key))) in all <==> want[i] in wrong
    {
      StepReported(index, want, got, wrong, problems, i);
    }
    return Problems(problems + found);
  }

  lemma StepReported(index: nat, want: seq<Entry>, got: seq<Entry>, wrong: seq<Entry>, before: seq<Problem>, i: nat)
    requires i < |want| && Declarable(want) && (forall e :: e in wrong ==> e in want)
    requires forall p :: p in before ==> p.UnexpectedInStep?
    ensures var found := seq(|wrong|, i requires 0 <= i < |wrong| =>
              WrongStepField(index, wrong[i].key, Seen(true, wrong[i].value, Get(got, wrong[i].key))));
            WrongStepField(index, want[i].key, Seen(true, want[i].value, Get(got, want[i].key))) in before + found
            <==> want[i] in wrong
  {
    var found := seq(|wrong|, i requires 0 <= i < |wrong| =>
      WrongStepField(index, wrong[i].key, Seen(true, wrong[i].value, Get(got, wrong[i].key))));
    var p := WrongStepField(index, want[i].key, Seen(true, want[i].value, Get(got, want[i].key)));
    if p in before + found {
      assert p in found;
      var j :| 0 <= j < |found| && found[j] == p;
      assert wrong[j] in want;
      var k :| 0 <= k < |want| && want[k] == wrong[j];
      assert want[k].key == want[i].key;
    }
    if want[i] in wrong {
      var j :| 0 <= j < |wrong| && wrong[j] == want[i];
      assert found[j] == p;
      assert (before + found)[|before| + j] == p;
    }
  }

  lemma WrongNone(step: bool, want: seq<Entry>, got: seq<Entry>, wrong: seq<Entry>)
    requires forall i :: 0 <= i < |want| ==> (want[i] in wrong <==> !Right(step, want[i], got))
    requires forall e :: e in wrong ==> e in want
    ensures wrong == [] <==> forall i :: 0 <= i < |want| ==> Right(step, want[i], got)
  {
    if wrong != [] { assert wrong[0] in want; }
  }

  /** The whole job: no problem exactly when it has the declared fields and steps, key for
      key and step for step, blanks around a step's texts apart. */
  method Validate(schema: Schema, job: seq<Entry>) returns (v: Verdict)
    requires SchemaOK(schema) && Proper(Dict(job))
    ensures v == Problems([]) <==> JobRight(schema, job)
  {
    hide FieldRight, Right, StepRight, Extra;
    JobExact(schema, job);
    var problems: seq<Problem> := [];
    var extra := Extra(job, Declared(schema));
    if extra != {} {
      if !Sortable(extra) { return Crash; }
      problems := [Unexpected(extra)];
    }
    var wrong := CheckFields(false, schema.fields, job);
    WrongNone(false, schema.fields, job, wrong);
    problems := problems + seq(|wrong|, i requires 0 <= i < |wrong| => WrongField(wrong[i].key, Get(job, wrong[i].key)));
    assert problems == [] <==> extra == {} && wrong == [];
    var steps := Get(job, STEPS);
    GetProper(job, STEPS);
    if !steps.List? || |steps.items| != |schema.steps| {
      return Problems(problems + [WrongSteps(steps)]);
    }
    for i := 0 to |schema.steps|
      invariant problems == [] <==> extra == {} && wrong == []
                                    && forall j :: 0 <= j < i ==> StepRight(schema.steps[j], steps.items[j])
    {
      var checked := CheckStep(i, schema.steps[i], steps.items[i]);
      if checked.Crash? { return Crash; }
      problems := problems + checked.list;
    }
    return Problems(problems);
  }

  /** A right job read key by key. */
  lemma JobExact(schema: Schema, job: seq<Entry>)
    requires SchemaOK(schema) && Proper(Dict(job))
    ensures JobRight(schema, job) <==>
              && Extra(job, Declared(schema)) == {}
              && (forall i :: 0 <= i < |schema.fields| ==> Right(false, schema.fields[i], job))
              && StepsRight(schema.steps, Get(job, STEPS))
  {
    hide FieldRight, Right, Extra, StepsRight, Found;
    forall i | 0 <= i < |schema.fields| ensures Found(false, schema.fields[i], job) <==> Right(false, schema.fields[i], job) {
      FoundIffRight(false, schema.fields[i], job);
    }
    StepsHeld(schema, job);
    if (forall i :: 0 <= i < |schema.fields| ==> Found(false, schema.fields[i], job)) && !Lacks(job, STEPS) {
      FoundKeys(false, schema.fields, job);
      DeclaredKeys(schema, job);
      NoneTooMany(Declared(schema), job);
    }
  }

  lemma StepsHeld(schema: Schema, job: seq<Entry>)
    requires Distinct(job)
    ensures (exists j :: 0 <= j < |job| && job[j].key == STEPS && StepsRight(schema.steps, job[j].value))
            <==> StepsRight(schema.steps, Get(job, STEPS))
    ensures StepsRight(schema.steps, Get(job, STEPS)) ==> !Lacks(job, STEPS)
  {
    hide StepRight;
    GetAt(job, STEPS);
    if exists j :: 0 <= j < |job| && job[j].key == STEPS && StepsRight(schema.steps, job[j].value) {
      var j :| 0 <= j < |job| && job[j].key == STEPS && StepsRight(schema.steps, job[j].value);
      GetOnly(job, j);
    }
  }

  lemma DeclaredKeys(schema: Schema, job: seq<Entry>)
    requires SchemaOK(schema) && Keys(schema.fields) <= Keys(job) && !Lacks(job, STEPS)
    ensures Distinct(Declared(schema)) && Keys(Declared(schema)) <= Keys(job)
  {
    var want := Declared(schema);
    forall k | k in Keys(want) ensures k in Keys(job) {
      var i :| 0 <= i < |want| && want[i].key == k;
      if i < |schema.fields| { assert schema.fields[i].key == k; }
    }
  }
}
