// Failures of the lease tool, and what a cleanup boundary makes of one: the
// closes the kernel refused join the report, the first failure stays its cause.
module Strands {
  import opened Options

  datatype Kind = Descriptor | Handle | Probe | DirectoryProbe | PinHandle

  /** One refused close: the object as the report names it, and the kernel handle
      that is still live behind it (a descriptor owns its handle). */
  datatype Strand = Strand(kind: Kind, number: int, error: int, handle: int)

  /** What can be raised: a refusal, a refusal naming a contending holder, an
      operating-system error, any other exception, or a strand with its cause. */
  datatype Failure =
    | Refused
    | Contended
    | OsError
    | Fault
    | Stranded(strands: seq<Strand>, cause: Option<Failure>)

  datatype Result<+T> = Ok(value: T) | Fail(failure: Failure)

  /** The strand a boundary folds in: the refused closes it already reports. */
  function Nested(f: Failure): seq<Strand> {
    if f.Stranded? then f.strands else []
  }

  /** The failure an outer report is raised from. */
  function Primary(f: Failure): Failure {
    if f.Stranded? && f.cause.Some? then f.cause.value else f
  }

  /** A boundary that met `f` and then had `refused` closes refused. */
  function Reraise(f: Failure, refused: seq<Strand>): Failure {
    if Nested(f) + refused == [] then f
    else Stranded(Nested(f) + refused, Some(Primary(f)))
  }

  /** The failure leaving a nest of boundaries, the innermost first. */
  function Through(f: Failure, boundaries: seq<seq<Strand>>): Failure
    decreases |boundaries|
  {
    if boundaries == [] then f
    else Through(Reraise(f, boundaries[0]), boundaries[1..])
  }

  function Concat(lists: seq<seq<Strand>>): seq<Strand> {
    if lists == [] then [] else lists[0] + Concat(lists[1..])
  }

  /** As raised where it happens: not a strand, or a strand of refused closes alone. */
  predicate First(f: Failure) {
    f.Stranded? ==> f.strands != [] && f.cause.None?
  }

  /** As seen outside boundaries: a strand names its first failure as cause. */
  predicate Rooted(f: Failure) {
    f.Stranded? ==>
      && f.strands != []
      && f.cause.Some? && First(f.cause.value)
      && Nested(f.cause.value) <= f.strands
  }

  lemma {:induction false} ThroughRooted(f: Failure, cause: Failure, boundaries: seq<seq<Strand>>)
    requires f.Stranded? && f.strands != [] && f.cause == Some(cause)
    ensures Through(f, boundaries) == Stranded(f.strands + Concat(boundaries), Some(cause))
    decreases |boundaries|
  {
    if boundaries != [] {
      ThroughRooted(Reraise(f, boundaries[0]), cause, boundaries[1..]);
      assert (f.strands + boundaries[0]) + Concat(boundaries[1..]) == f.strands + Concat(boundaries);
    } else {
      assert f.strands + [] == f.strands;
    }
  }

  /** Any depth of boundaries: the report is every refused close in the order the
      closes were attempted, and its cause is the failure that started it. */
  lemma {:induction false} NestedReport(f: Failure, boundaries: seq<seq<Strand>>)
    requires First(f)
    ensures Through(f, boundaries) ==
            if boundaries == [] || Nested(f) + Concat(boundaries) == [] then f
            else Stranded(Nested(f) + Concat(boundaries), Some(f))
    decreases |boundaries|
  {
    if boundaries != [] {
      var g := Reraise(f, boundaries[0]);
      if g.Stranded? {
        ThroughRooted(g, f, boundaries[1..]);
        assert (Nested(f) + boundaries[0]) + Concat(boundaries[1..]) == Nested(f) + Concat(boundaries);
      } else {
        assert boundaries[0] == [];
        NestedReport(f, boundaries[1..]);
        assert Concat(boundaries) == Concat(boundaries[1..]);
      }
    }
  }
}
