// Holding the machine for a block, asking who holds it, and the exit codes that
// tell a host whether it may go on.
module Holdings {
  import opened Options
  import opened Namespace
  import opened Fences
  import opened Mapping
  import opened Strands
  import opened Kernels
  import opened Cleanup
  import opened Guards
  import opened PinFacts
  import opened Pins
  import opened Bindings
  import opened LeaseOpens
  import opened Leases

  /** The lease let go, then its record removed if the file may be removed; `tried` is the
      state in which that is tried. */
  method Release(k: Kernel, lease: AcquiredLease) returns (r: Result<()>, ghost tried: State)
    requires lease.Valid(k)
    modifies lease, k`s, k`fds
    ensures lease.Valid(k) && lease.Owned(k) == {} && lease.descriptor == -1
    ensures Carry(old(k.s), k.s) && Closes(old(k.s), k.s, old(lease.Owned(k)))
    ensures k.fds == if old(lease.descriptor) == -1 then old(k.fds) else old(k.fds) - {old(lease.descriptor)}
    ensures old(k.s).refused <= k.s.refused && (r.Ok? <==> k.s.refused == old(k.s).refused)
    ensures r.Ok? ==> StateOK(tried) && Carry(old(k.s), tried) && Tidied(tried, k.s, lease.path)
    ensures r.Fail? ==> r.failure.Stranded? && Reports(old(k.s), k.s, r.failure)
  {
    hide StateOK, Settled, Carry, Attempts, PinsApart, NoFollow;
    tried := k.s;
    r := lease.Close(k);
    if r.Ok? {
      ghost var closed := k.s;
      tried := k.Unlink(lease.path);
      CarryOn(old(k.s), closed, k.s);
      CarryOn(old(k.s), closed, tried);
    }
  }

  /** What the name denotes is removed, if the share rule allows it. */
  ghost predicate Tidied(a: State, b: State, name: Path) {
    var at := NoFollow(a.w.ns, name);
    b == if at.Some? && Allowed(a.w, Removing(at.value)) then a.(w := Apply(a.w, Removing(at.value))) else a
  }

  /** A barrier passed: when it began and ended, and what it saw. */
  datatype Mark = Mark(began: State, ended: State, first: State, last: Query)

  /** Barriers passed one after the other. */
  ghost predicate AllIntact(a: State, z: State, b: Binding, marks: seq<Mark>) {
    && Carry(a, z)
    && (forall i :: 0 <= i < |marks| ==>
          && StateOK(marks[i].began) && Intact(marks[i].began, marks[i].ended, b, marks[i].first, marks[i].last)
          && Carry(a, marks[i].began) && Carry(marks[i].ended, z))
    && forall i :: 0 < i < |marks| ==> Carry(marks[i - 1].ended, marks[i].began)
  }

  lemma IntactNone(a: State, b: Binding)
    ensures AllIntact(a, a, b, [])
  {
    CarryNone(a);
  }

  lemma IntactMore(a: State, y: State, z: State, b: Binding, marks: seq<Mark>, first: State, q: Query)
    requires StateOK(y) && AllIntact(a, y, b, marks) && Intact(y, z, b, first, q) && Carry(y, z)
    ensures AllIntact(a, z, b, marks + [Mark(y, z, first, q)])
  {
    hide Carry, StateOK, Intact;
    var more := marks + [Mark(y, z, first, q)];
    CarryOn(a, y, z);
    CarryNone(z);
    forall i | 0 <= i < |marks| ensures more[i] == marks[i] && Carry(marks[i].ended, z) { CarryOn(marks[i].ended, y, z); }
  }

  lemma IntactOn(a: State, y: State, z: State, b: Binding, marks: seq<Mark>)
    requires AllIntact(a, y, b, marks) && Carry(y, z)
    ensures AllIntact(a, z, b, marks)
  {
    hide Carry, StateOK, Intact;
    CarryOn(a, y, z);
    forall i | 0 <= i < |marks| ensures Carry(marks[i].ended, z) { CarryOn(marks[i].ended, y, z); }
  }

  /** The block run while holding: some rounds of the barrier, ended by the first
      that refuses, by any other failure of the block, or by the end of its input. */
  method Rounds(k: Kernel, lease: AcquiredLease, rounds: nat) returns (r: Result<()>, ghost marks: seq<Mark>)
    requires lease.Valid(k) && lease.binding.Some?
    modifies k`s, k`log
    ensures k.OK() && Carry(old(k.s), k.s) && AddsNothing(old(k.s), k.s) && old(k.log) <= k.log
    ensures r.Fail? ==> PlainlyReports(old(k.s), k.s, r.failure)
    ensures r.Ok? ==> k.s.refused == old(k.s).refused && (rounds > 0 ==> lease.descriptor != -1)
    ensures r.Ok? ==> |marks| == rounds && AllIntact(old(k.s), k.s, lease.binding.value, marks)
  {
    hide StateOK, Settled, Carry, Intact, AllIntact;
    CarryNone(k.s);
    NothingAdded(k.s);
    IntactNone(k.s, lease.binding.value);
    marks := [];
    var ready: Result<()> := *;
    if ready.Fail? { return Fail(if ready.failure == OsError then OsError else Fault), marks; }
    for i := 0 to rounds
      invariant k.OK() && Carry(old(k.s), k.s) && AddsNothing(old(k.s), k.s) && k.s.refused == old(k.s).refused
      invariant i > 0 ==> lease.descriptor != -1
      invariant |marks| == i && AllIntact(old(k.s), k.s, lease.binding.value, marks) && old(k.log) <= k.log
    {
      ghost var before := k.s;
      var bound := lease.AssertBound(k);
      CarryOn(old(k.s), before, k.s);
      if bound.Fail? { return bound, marks; }
      ghost var first, q :| Intact(before, k.s, lease.binding.value, first, q);
      IntactMore(old(k.s), before, k.s, lease.binding.value, marks, first, q);
      marks := marks + [Mark(before, k.s, first, q)];
    }
    return Ok(()), marks;
  }

  /** What leaves a block whose release always runs: the release's failure hides the
      block's own. */
  function Leaving(block: Result<()>, released: Result<()>): Result<()> {
    if released.Fail? then released else block
  }

  function Told(r: Result<()>): seq<Strand> {
    if r.Fail? then Nested(r.failure) else []
  }

  /** Every refused close is told exactly when the block and the release did not both
      strand. */
  lemma LeavingTells(block: Result<()>, released: Result<()>)
    requires released.Fail? ==> released.failure.Stranded? && released.failure.strands != []
    ensures Told(Leaving(block, released)) == Told(block) + Told(released)
            <==> Told(block) == [] || Told(released) == []
    ensures Told(block) + Told(released) != [] <==> Told(Leaving(block, released)) != []
  {
  }

  lemma KeysKept(a: State, b: State)
    requires StateOK(a) && AddsNothing(a, b)
    ensures a.table.Keys <= b.table.Keys
  {
    NothingKeeps(a, b);
    assert forall h :: h in a.table.Keys ==> h in b.table;
  }

  /** A lease that was had: how it was taken, by when, and the barriers passed under it;
      `kept` says that the block ran to its end. */
  datatype Tenure = Tenure(binding: Binding, file: nat, account: Account, at: State, log: seq<Event>,
                           kept: bool, marks: seq<Mark>)

  ghost predicate Tenured(a: State, z: State, start: nat, from: Path, rounds: nat, t: Tenure) {
    && StateOK(t.at) && Leased(a, t.at, t.log, start, from, t.binding, {Read, Write}, t.file, t.account)
    && InPlace(t.at, t.file) && Carry(t.at, z)
    && (t.kept ==> |t.marks| == rounds && AllIntact(t.at, z, t.binding, t.marks))
  }

  /** What a hold came to: done exactly if the lease was had, every barrier passed and
      every close of the release was granted; contended only if another open stood against
      the lease's. */
  ghost predicate HoldMeans(a: State, z: State, log: seq<Event>, start: nat, purpose: string, from: Option<Path>,
                            rounds: nat, r: Result<()>, had: Option<Tenure>, letting: seq<Strand>) {
    && (r.Ok? <==> had.Some? && had.value.kept && letting == [])
    && (had.Some? ==> from.Some? && Acceptable(purpose, None) && Tenured(a, z, start, from.value, rounds, had.value))
    && (r == Fail(Contended) ==> had.None? && from.Some? && Contested(a, z, log, start, from.value, {Read, Write}))
  }

  lemma TenureOver(a: State, y: State, z: State, start: nat, from: Path, rounds: nat, t: Tenure)
    requires Tenured(a, y, start, from, rounds, t) && Carry(y, z)
    ensures Tenured(a, z, start, from, rounds, t)
  {
    hide Carry, StateOK, Leased, AllIntact, InPlace;
    CarryOn(t.at, y, z);
    if t.kept { IntactOn(t.at, y, z, t.binding, t.marks); }
  }

  /** Acquire, run the block, release. `block` are the closes refused before the
      release, `letting` those the release met; `had` is the lease, if one was had. */
  method HoldLease(k: Kernel, purpose: string, start: Option<Path>, rounds: nat, depth: nat)
    returns (r: Result<()>, ghost block: seq<Strand>, ghost letting: seq<Strand>, ghost had: Option<Tenure>)
    requires k.OK() && -1 !in k.fds
    modifies k
    ensures k.OK() && Settled(old(k.s), k.s, {}) && k.fds == old(k.fds)
    ensures old(k.s).refused <= k.s.refused && RefusedSince(old(k.s), k.s) == block + letting
    ensures r.Ok? ==> block == [] && letting == []
    ensures r.Fail? ==> (r.failure.Stranded? <==> block + letting != [])
    ensures Told(r) == if letting != [] then letting else block
    ensures Told(r) == RefusedSince(old(k.s), k.s) <==> block == [] || letting == []
    ensures HoldMeans(old(k.s), k.s, k.log, |old(k.log)|, purpose, start, rounds, r, had, letting)
  {
    hide StateOK, Settled, Carry, PinsApart, Secured, AllInherit, Handles, OpenOf, Leased, Contested, AllIntact, Resolve,
         InPlace, Tidied;
    ghost var s0 := k.s;
    block, letting, had := [], [], None;
    ghost var file, g, c;
    var lease;
    lease, file, g, c := Acquire(k, purpose, start, None, depth);
    if lease.Fail? {
      block := Nested(lease.failure);
      assert block + [] == block;
      return Fail(lease.failure), block, letting, had;
    }
    ghost var s1, owned, log := k.s, lease.value.Owned(k), k.log;
    ghost var b := lease.value.binding.value;
    var done, marks := Rounds(k, lease.value, rounds);
    ghost var s2 := k.s;
    KeysKept(s1, s2);
    block := Told(done);
    had := Some(Tenure(b, file, c, s1, log, done.Ok?, marks));
    var released, tried := Release(k, lease.value);
    letting := Told(released);
    TenureOver(s0, s2, k.s, |old(k.log)|, start.value, rounds, had.value);
    assert Settled(s0, k.s, {}) by { assert owned - owned == {}; }
    assert RefusedSince(s0, k.s) == RefusedSince(s1, s2) + RefusedSince(s2, k.s);
    LeavingTells(done, released);
    return Leaving(done, released), block, letting, had;
  }

  // ------------------------------------------------------------ the status probe

  datatype Answer = Free | HeldBy | Stale

  /** What the probe looked at: the name of the common directory, when it was asked for
      and when the lease's name was tested; how many questions were put by then; and the
      state the probe's open was done in. */
  datatype Probing = Probing(name: Path, asked: State, tested: State, from: nat, done: State)

  /** The lease's name was tested under the directory git named. */
  ghost predicate NameTested(a: State, z: State, start: Path, present: bool, p: Probing) {
    && StateOK(p.asked) && Carry(a, p.asked) && Resolve(p.asked.w.ns, start).name == Some(p.name)
    && StateOK(p.tested) && Carry(p.asked, p.tested) && Carry(p.tested, z)
    && (present <==> Follow(p.tested.w.ns, p.name + [LEASE]).end.Some?)
  }

  /** A write open of a lease entry was granted, entered from there. */
  ghost predicate ProbeOpened(log: seq<Event>, start: Path, p: Probing) {
    exists b, file, c :: Leased(p.tested, p.done, log, p.from, start, b, {Write}, file, c)
  }

  lemma ProbeGranted(log: seq<Event>, more: seq<Event>, start: Path, p: Probing, b: Binding, file: nat, c: Account)
    requires Leased(p.tested, p.done, log, p.from, start, b, {Write}, file, c) && log <= more
    ensures ProbeOpened(more, start, p)
  {
    hide Entered, LeaseTaken, StateOK;
    NowLeased(p.tested, c.held, p.done, log, more, p.from, start, b, b, {Write}, file, c.story, c.work) by {
      SamePathsSelf(b.pins);
    }
  }

  /** What each answer means: free, that nothing was there under the lease's name; held,
      that a live open of the lease entry stood against the probe's; stale, that none did
      and the probe's was granted. */
  ghost predicate StatusMeans(a: State, z: State, log: seq<Event>, from: Option<Path>, answer: Answer, p: Probing) {
    && from.Some? && NameTested(a, z, from.value, answer != Free, p)
    && (answer == HeldBy ==> Contested(p.tested, z, log, p.from, from.value, {Write}))
    && (answer == Stale ==> ProbeOpened(log, from.value, p) && Carry(p.done, z))
  }

  /** Who holds the machine: the probe takes the lease itself to find out, and lets
      it go before it answers. */
  method Status(k: Kernel, start: Option<Path>, depth: nat) returns (r: Result<Answer>, ghost p: Probing)
    requires k.OK()
    modifies k`s, k`log
    ensures k.OK() && Settled(old(k.s), k.s, {})
    ensures r.Ok? ==> k.s.refused == old(k.s).refused && k.s.table == old(k.s).table
    ensures r.Ok? ==> StatusMeans(old(k.s), k.s, k.log, start, r.value, p)
    ensures r.Fail? ==> PlainlyReports(old(k.s), k.s, r.failure)
  {
    hide StateOK, Settled, Carry, PinsApart, AllInherit, Handles, OpenOf, Secured, Leased, Contested, Resolve, Follow,
         ProbeOpened, InPlace;
    ghost var s0 := k.s;
    SettledSelf(s0);
    p := Probing([], s0, s0, 0, s0);
    if start.None? { return Fail(Refused), p; }
    var common := k.CommonDir(start.value);
    if common.Fail? { return Fail(Refused), p; }
    ghost var asked := k.s;
    var present := k.TestPath(common.value + [LEASE]);
    if present.Fail? { return Fail(OsError), p; }
    ghost var s1 := k.s;
    CarryNone(s1);
    p := Probing(common.value, asked, s1, |k.log|, s1);
    if !present.value {
      Untouched(s0, k.s);
      return Ok(Free), p;
    }
    ghost var file, g, c;
    var grasped;
    grasped, file, g, c := OpenLeaseHandle(k, start, {Write}, false, depth);
    ghost var s2, log := k.s, k.log;
    p := p.(done := s2);
    CarryOn(asked, s1, s2);
    if grasped.Fail? {
      SettledOn(s0, s1, k.s, {});
      if grasped.failure != Contended { return Fail(grasped.failure), p; }
      r := Line(k, common.value, HeldBy, s0);
      CarryOn(s1, s2, k.s);
      ContestedOn(s1, s2, k.s, log, k.log, p.from, start.value, {Write});
      return r, p;
    }
    var o := grasped.value;
    ghost var owned := Handles(o.binding.pins) + {o.handle};
    SettledOn(s0, s1, k.s, owned);
    SettledGrants(s1, k.s, owned);
    OneItem(Item(Probe, o.handle));
    assert {o.handle} + Handles(o.binding.pins) == owned;
    var refused := Abandon(k, [Item(Probe, o.handle)], o.binding.pins);
    ghost var s3 := k.s;
    assert Settled(s0, k.s, {}) by { assert owned - owned == {}; }
    if refused != [] { return Fail(Stranded(refused, None)), p; }
    r := Line(k, common.value, Stale, s0);
    CarryOn(s2, s3, k.s);
    CarryOn(s1, s2, k.s);
    ProbeGranted(log, k.log, start.value, p, o.binding, file, c);
    return r, p;
  }

  /** The answer with the recorded holder beside it; reading the record may fail. */
  method Line(k: Kernel, common: Path, answer: Answer, ghost base: State) returns (r: Result<Answer>)
    requires k.OK() && Settled(base, k.s, {}) && k.s.refused == base.refused
    modifies k`s, k`log
    ensures k.OK() && Settled(base, k.s, {}) && k.s.refused == base.refused
    ensures Carry(old(k.s), k.s) && old(k.log) <= k.log
    ensures r.Ok? ==> k.s.table == base.table && r.value == answer
    ensures r.Fail? ==> r.failure == Fault
  {
    hide StateOK, Settled, Carry;
    var line := HolderLine(k, common + [LEASE]);
    if line.Fail? { return Fail(Fault); }
    Untouched(base, k.s);
    return Ok(answer);
  }

  /** Nothing gained and nothing refused: the table is as it was. */
  lemma Untouched(a: State, b: State)
    requires Settled(a, b, {}) && b.refused == a.refused
    ensures b.table == a.table
  {
    forall h | h in b.table ensures h in a.table { assert !Stuck(a, b, h); }
    assert forall h :: h in a.table <==> h in b.table;
    assert a.table.Keys == b.table.Keys;
    assert forall h :: h in a.table ==> b.table[h] == a.table[h];
  }

  lemma SettledOn(a: State, b: State, c: State, gained: set<int>)
    requires StateOK(b) && Settled(a, b, {}) && Settled(b, c, gained)
    ensures Settled(a, c, gained)
  {
    SettledThen(a, b, c, {}, gained);
    assert {} + gained == gained;
  }

  // ------------------------------------------------------------ exit codes

  const DONE: int := 0
  const UNCAUGHT: int := 1
  const REFUSED: int := 2
  const USAGE: int := 3
  const STRANDED: int := 4

  datatype Command = Unparsable | AskStatus | Hold(purpose: string)

  /** How a failure that reaches the program's edge ends it. An operating-system error
      is a refusal only while holding. */
  function ExitCode(f: Failure, holding: bool): int {
    match f
    case Refused => REFUSED
    case Contended => REFUSED
    case Stranded(_, _) => STRANDED
    case OsError => if holding then REFUSED else UNCAUGHT
    case Fault => UNCAUGHT
  }

  /** What a command came to. */
  datatype Ending =
    | Unread
    | Asked(answer: Result<Answer>, probing: Probing)
    | Over(outcome: Result<()>, had: Option<Tenure>, letting: seq<Strand>)

  /** One command: 0 is done, 1 any other error, 2 a refusal, 3 a wrong command line and 4
      a close that was refused. */
  method Run(k: Kernel, command: Command, start: Option<Path>, rounds: nat, depth: nat)
    returns (code: int, ghost ending: Ending)
    requires k.OK() && -1 !in k.fds
    modifies k
    ensures k.OK() && Settled(old(k.s), k.s, {}) && k.fds == old(k.fds)
    ensures code == 4 <==> k.s.refused != old(k.s).refused
    ensures code != 4 ==> k.s.table == old(k.s).table
    ensures code == 3 <==> command.Unparsable?
    ensures code in {0, 1, 2, 3, 4}
    ensures command.AskStatus? ==>
              && ending.Asked? && (code == 0 <==> ending.answer.Ok?) && (code == 2 <==> ending.answer == Fail(Refused))
              && (ending.answer.Ok? ==> StatusMeans(old(k.s), k.s, k.log, start, ending.answer.value, ending.probing))
    ensures command.Hold? ==>
              && ending.Over? && (code == 0 <==> ending.had.Some? && ending.had.value.kept && ending.letting == [])
              && (code == 2 <==> ending.outcome in {Fail(Refused), Fail(Contended), Fail(OsError)})
              && HoldMeans(old(k.s), k.s, k.log, |old(k.log)|, command.purpose, start, rounds,
                           ending.outcome, ending.had, ending.letting)
  {
    hide StateOK, Settled, Carry, Handles, StatusMeans, Tenured, Contested;
    SettledSelf(k.s);
    ghost var s0 := k.s;
    code, ending := USAGE, Unread;
    match command {
    case Unparsable =>
    case AskStatus =>
      var answer, probing := Status(k, start, depth);
      code := if answer.Fail? then ExitCode(answer.failure, false) else DONE;
      if answer.Fail? { StrandedReports(s0, k.s, answer.failure); }
      ending := Asked(answer, probing);
    case Hold(purpose) =>
      var held, block, letting, had := HoldLease(k, purpose, start, rounds, depth);
      code := if held.Fail? then ExitCode(held.failure, true) else DONE;
      ending := Over(held, had, letting);
      assert k.s.refused == s0.refused + RefusedSince(s0, k.s);
    }
    if k.s.refused == s0.refused { Untouched(s0, k.s); }
  }

  lemma StrandedReports(a: State, b: State, f: Failure)
    requires Reports(a, b, f)
    ensures f.Stranded? <==> b.refused != a.refused
  {
  }
}
