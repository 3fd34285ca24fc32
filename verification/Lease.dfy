// The lease a process holds: taken by one open, let go exactly once, asserted at
// every barrier, and probed without being kept.
module Leases {
  import opened Options
  import opened Namespace
  import opened Fences
  import opened Mapping
  import opened Strands
  import opened Kernels
  import opened Cleanup
  import opened Guards
  import opened PinFacts
  import opened Pins
  import opened Bindings
  import opened LeaseOpens

  const MAX_PURPOSE: nat := 120

  /** The handle behind a descriptor, none if it is -1. */
  ghost function Behind(fds: map<int, int>, descriptor: int): set<int> {
    if descriptor != -1 && descriptor in fds then {fds[descriptor]} else {}
  }

  /** The descriptor's close, if there is one: it is gone either way, its handle may
      stay, and its refusal is the cause of what is raised for it. */
  method CloseOwner(k: Kernel, descriptor: int) returns (refused: seq<Strand>, cause: Option<Failure>)
    requires k.OK() && (descriptor != -1 ==> descriptor in k.fds && k.fds[descriptor] in k.s.table)
    modifies k`s, k`fds
    ensures k.OK() && Carry(old(k.s), k.s)
    ensures k.fds == if descriptor == -1 then old(k.fds) else old(k.fds) - {descriptor}
    ensures Closes(old(k.s), k.s, Behind(old(k.fds), descriptor))
    ensures KeepsTable(old(k.s), k.s, Behind(old(k.fds), descriptor))
    ensures old(k.s).refused <= k.s.refused && refused == RefusedSince(old(k.s), k.s)
    ensures k.s.tried == old(k.s).tried + Attempts(old(k.s), Ahead(old(k.fds), descriptor))
    ensures refused == [] || (descriptor != -1 && |refused| == 1 && refused[0].kind == Descriptor
                              && refused[0].number == descriptor && refused[0].handle == old(k.fds)[descriptor])
    ensures cause == if refused != [] then Some(OsError) else None
    ensures descriptor == -1 ==> k.s == old(k.s)
  {
    hide Carry, Closes, StateOK, Settled;
    refused, cause := [], None;
    ClosesNone(k.s);
    CarryNone(k.s);
    if descriptor != -1 {
      var handle := k.fds[descriptor];
      var error := k.CloseDescriptor(descriptor);
      if error != 0 { refused, cause := [Strand(Descriptor, descriptor, error, handle)], Some(OsError); }
    }
  }

  /** The whole cleanup: the descriptor, which owns its handle, then the pins. */
  method AbandonLease(k: Kernel, descriptor: int, pins: seq<Pin>)
    returns (refused: seq<Strand>, cause: Option<Failure>)
    requires k.OK() && PinsApart(pins) && Handles(pins) <= k.s.table.Keys
    requires descriptor != -1 ==> descriptor in k.fds && k.fds[descriptor] in k.s.table
    requires descriptor != -1 ==> k.fds[descriptor] !in Handles(pins)
    modifies k`s, k`fds
    ensures k.OK() && Carry(old(k.s), k.s)
    ensures k.fds == if descriptor == -1 then old(k.fds) else old(k.fds) - {descriptor}
    ensures Closes(old(k.s), k.s, Behind(old(k.fds), descriptor) + Handles(pins))
    ensures old(k.s).refused <= k.s.refused && refused == RefusedSince(old(k.s), k.s)
    ensures k.s.tried == old(k.s).tried + Attempts(old(k.s), Ahead(old(k.fds), descriptor) + PinItems(pins))
    ensures descriptor == -1 && pins == [] ==> k.s == old(k.s)
    ensures cause == None || cause == Some(OsError)
    ensures cause.Some? ==> refused != [] && refused[0].kind == Descriptor && refused[0].number == descriptor
    ensures refused != [] && refused[0].kind == Descriptor ==> cause.Some?
  {
    hide Carry, Closes, StateOK, Settled, KeepsTable, Attempts, TriesOnly, Handles, PinsApart, Accounted, Behind, Ahead;
    ghost var owned := Behind(k.fds, descriptor);
    OwnerApart(k.fds, descriptor, pins);
    refused, cause := CloseOwner(k, descriptor);
    ghost var mid := k.s;
    PinsLeft(old(k.s), mid, owned, pins);
    NoNumbers();
    assert {} + Handles(pins) == Handles(pins) && [] + PinItems(pins) == PinItems(pins);
    var more := Abandon(k, [], pins);
    CarryOn(old(k.s), mid, k.s);
    ClosesTogether(old(k.s), mid, k.s, owned, Handles(pins));
    AttemptsAfter(old(k.s), mid, old(k.fds), descriptor, pins);
    PinsAccounted(mid, k.s, pins, more);
    assert refused + more == RefusedSince(old(k.s), k.s);
    refused := refused + more;
  }

  lemma OwnerApart(fds: map<int, int>, descriptor: int, pins: seq<Pin>)
    requires descriptor != -1 ==> descriptor in fds && fds[descriptor] !in Handles(pins)
    ensures Behind(fds, descriptor) !! Handles(pins)
  {
  }

  lemma PinsAccounted(a: State, b: State, pins: seq<Pin>, refused: seq<Strand>)
    requires Accounted(a, b, PinItems(pins), refused)
    ensures b.tried == a.tried + Attempts(a, PinItems(pins))
    ensures forall i :: 0 <= i < |refused| ==> refused[i].kind == PinHandle
  {
  }

  lemma PinsLeft(a: State, mid: State, owned: set<int>, pins: seq<Pin>)
    requires KeepsTable(a, mid, owned) && owned !! Handles(pins) && Handles(pins) <= a.table.Keys
    ensures Handles(pins) <= mid.table.Keys
  {
  }

  /** The descriptor's handle, as the first thing to close. */
  ghost function Ahead(fds: map<int, int>, descriptor: int): seq<Item> {
    if descriptor != -1 && descriptor in fds then [Item(Descriptor, fds[descriptor])] else []
  }

  lemma AttemptsAfter(a: State, mid: State, fds: map<int, int>, descriptor: int, pins: seq<Pin>)
    requires KeepsTable(a, mid, Behind(fds, descriptor)) && Behind(fds, descriptor) !! Handles(pins)
    requires Handles(pins) <= a.table.Keys
    requires descriptor != -1 ==> descriptor in fds
    ensures Attempts(a, Ahead(fds, descriptor) + PinItems(pins)) == Attempts(a, Ahead(fds, descriptor)) + Attempts(mid, PinItems(pins))
  {
  }

  /** What initialization may turn an opened handle into: inheritable, owned by a
      descriptor, its record written; it may fail at any of these points. */
  method Initialize(k: Kernel, handle: int) returns (r: Result<()>, descriptor: int)
    requires k.OK() && handle in k.s.table && -1 !in k.fds
    modifies k`s, k`fds
    ensures k.OK() && Carry(old(k.s), k.s) && k.s == old(k.s).(table := k.s.table)
    ensures k.s.table == old(k.s).table
            || k.s.table == old(k.s).table[handle := old(k.s).table[handle].(inherit := true)]
    ensures forall a, owned: set<int> {:trigger Settled(a, old(k.s), owned)} ::
              handle in owned && Settled(a, old(k.s), owned) ==> Settled(a, k.s, owned)
    ensures if descriptor == -1 then k.fds == old(k.fds)
            else descriptor >= 0 && descriptor !in old(k.fds) && k.fds == old(k.fds)[descriptor := handle]
    ensures r.Ok? ==> descriptor != -1 && k.s.table[handle].inherit
    ensures r.Fail? ==> r.failure in {Refused, OsError, Fault}
  {
    hide StateOK, Settled, Carry;
    CarryNone(k.s);
    var marked := k.MarkInherit(handle);
    if !marked { return Fail(Refused), -1; }
    var owner := k.OpenDescriptor(handle);
    if owner.Fail? { return Fail(owner.failure), -1; }
    var recorded: Result<()> := *;
    if recorded.Fail? { return Fail(if recorded.failure == OsError then OsError else Fault), owner.value; }
    return Ok(()), owner.value;
  }

  /** The arguments an acquisition takes. */
  predicate Acceptable(purpose: string, holderPid: Option<int>) {
    0 < |purpose| <= MAX_PURPOSE && (holderPid.Some? ==> holderPid.value > 0)
  }

  /** An open, inheritable write handle behind a descriptor: the exclusion itself. */
  class AcquiredLease {
    var descriptor: int
    const path: Path
    const purpose: string
    var binding: Option<Binding>

    constructor (descriptor: int, path: Path, purpose: string, binding: Option<Binding>)
      ensures this.descriptor == descriptor && this.path == path && this.purpose == purpose && this.binding == binding
    {
      this.descriptor, this.path, this.purpose, this.binding := descriptor, path, purpose, binding;
    }

    function Pins(): seq<Pin> reads this {
      if binding.Some? then binding.value.pins else []
    }

    /** The handles the lease answers for. */
    ghost function Owned(k: Kernel): set<int> reads this, k {
      Behind(k.fds, descriptor) + Handles(Pins())
    }

    ghost predicate Valid(k: Kernel) reads this, k {
      && k.OK() && -1 !in k.fds
      && PinsApart(Pins()) && Handles(Pins()) <= k.s.table.Keys
      && (descriptor != -1 ==>
            descriptor in k.fds && k.fds[descriptor] in k.s.table && k.fds[descriptor] !in Handles(Pins()))
    }

    /** The descriptor and every pin let go, each once, whatever the kernel answers;
        the lease answers for nothing afterwards, so a second close does nothing. */
    method Close(k: Kernel) returns (r: Result<()>)
      requires Valid(k)
      modifies this, k`s, k`fds
      ensures Valid(k) && Owned(k) == {} && descriptor == -1 && Pins() == []
      ensures binding == match old(binding) case None => None case Some(b) => Some(b.(pins := []))
      ensures Carry(old(k.s), k.s) && Closes(old(k.s), k.s, old(Owned(k)))
      ensures k.fds == if old(descriptor) == -1 then old(k.fds) else old(k.fds) - {old(descriptor)}
      ensures k.s.tried == old(k.s).tried
                           + Attempts(old(k.s), Ahead(old(k.fds), old(descriptor)) + PinItems(old(Pins())))
      ensures old(k.s).refused <= k.s.refused && (r.Ok? <==> k.s.refused == old(k.s).refused)
      ensures r.Fail? ==> r.failure.Stranded? && Reports(old(k.s), k.s, r.failure)
      ensures old(Owned(k)) == {} ==> r.Ok? && k.s == old(k.s) && k.fds == old(k.fds)
    {
      hide StateOK, Settled, Carry, Closes, Attempts, PinsApart;
      var retired := descriptor;
      descriptor := -1;
      var pins: seq<Pin> := [];
      if binding.Some? {
        pins := binding.value.pins;
        binding := Some(binding.value.(pins := []));
      }
      NoPins(pins);
      NoNumbers();
      var refused, cause := AbandonLease(k, retired, pins);
      NoneApart();
      if refused != [] { return Fail(Stranded(refused, cause)); }
      return Ok(());
    }

    /** The barrier: the descriptor open, every pin answering, both identities
        unchanged. It changes nothing the process holds. */
    method AssertBound(k: Kernel) returns (r: Result<()>)
      requires k.OK()
      modifies k`s, k`log
      ensures k.OK() && Carry(old(k.s), k.s) && AddsNothing(old(k.s), k.s) && k.fds == old(k.fds) && old(k.log) <= k.log
      ensures r.Fail? ==> PlainlyReports(old(k.s), k.s, r.failure)
      ensures r.Ok? ==> k.s.refused == old(k.s).refused && descriptor != -1 && Handles(Pins()) <= old(k.s).table.Keys
      ensures r.Ok? && binding.Some? ==>
                exists first, q :: Intact(old(k.s), k.s, binding.value, first, q)
      ensures descriptor == -1 ==> r == Fail(Refused) && k.s == old(k.s)
    {
      hide StateOK, Settled, Carry, Fence, Walk, Follow;
      CarryNone(k.s);
      NothingAdded(k.s);
      if descriptor == -1 { return Fail(Refused); }
      if binding.None? { NoNumbers(); return Ok(()); }
      var pins := binding.value.pins;
      for i := 0 to |pins|
        invariant k.OK() && Carry(old(k.s), k.s) && AddsNothing(old(k.s), k.s)
        invariant k.s == old(k.s).(w := k.s.w) && k.fds == old(k.fds) && k.log == old(k.log)
        invariant forall j :: 0 <= j < i ==> pins[j].handle in k.s.table
      {
        ghost var before := k.s;
        var answer := k.Inform(pins[i].handle);
        CarryOn(old(k.s), before, k.s);
        if answer.Fail? { return Fail(Refused); }
      }
      ghost var mid := k.s;
      var asserted, first, q := AssertBinding(k, binding.value);
      CarryOn(old(k.s), mid, k.s);
      CarryNone(k.s);
      if asserted.Ok? { IntactSince(old(k.s), mid, k.s, k.s, binding.value, first, q); }
      return asserted;
    }
  }

  lemma NothingAdded(a: State)
    ensures AddsNothing(a, a)
  {
  }

  lemma NoneApart()
    ensures PinsApart([])
  {
  }

  lemma NoPins(pins: seq<Pin>)
    ensures Handles(pins) == {} ==> pins == []
  {
    if pins != [] { assert pins[0].handle in Handles(pins); }
  }

  /** A lease in hand: the process gained its descriptor's handle and its pins, each
      inheritable, and nothing else. */
  ghost predicate Taken(a: State, k: Kernel, lease: AcquiredLease, file: nat)
    reads k, lease
  {
    && lease.Valid(k) && lease.descriptor >= 0 && lease.binding.Some?
    && Settled(a, k.s, lease.Owned(k)) && k.s.refused == a.refused
    && AllInherit(k.s, lease.Pins()) && k.s.table[k.fds[lease.descriptor]].inherit
    && OpenOf(k.s, k.fds[lease.descriptor]) == Open(file, {Read, Write}, {Read})
    && lease.path == lease.binding.value.common + [LEASE]
  }

  /** The opened handle carried through a successful initialization. */
  lemma Initialized(a: State, s1: State, s2: State, o: Grasp, file: nat)
    requires Grasped(a, s1, o, file, {Read, Write}) && StateOK(s2)
    requires s2 == s1.(table := s1.table[o.handle := s1.table[o.handle].(inherit := true)])
    requires Settled(a, s2, Handles(o.binding.pins) + {o.handle})
    ensures PinsApart(o.binding.pins) && Handles(o.binding.pins) <= s2.table.Keys
    ensures AllInherit(s2, o.binding.pins) && s2.refused == a.refused && o.handle !in Handles(o.binding.pins)
    ensures o.handle in s2.table && OpenOf(s2, o.handle) == Open(file, {Read, Write}, {Read})
  {
    forall i | 0 <= i < |o.binding.pins| ensures o.binding.pins[i].handle in Handles(o.binding.pins) {}
    forall h | h in Handles(o.binding.pins) ensures h in s2.table {
      assert h in Handles(o.binding.pins) + {o.handle};
    }
  }

  lemma SameLanding(s1: State, s2: State, file: nat)
    requires s2.w == s1.w && InPlace(s1, file)
    ensures InPlace(s2, file)
  {
  }

  lemma InitializedSecured(s1: State, s2: State, g: Guard, b: Binding, file: nat)
    requires StateOK(s1) && StateOK(s2) && Carry(s1, s2) && s2 == s1.(table := s2.table) && Secured(s1, g, b, file)
    ensures Secured(s2, g, b, file)
  {
    hide Carry, StateOK, Fence, Guarded, LeaseAt;
    SecuredCarried(s1, s2, g, b, file);
  }

  /** A lease taken stays taken, its pins loose, while they are not tried. */
  lemma LeasedOn(a: State, y: State, z: State, log: seq<Event>, start: nat, from: Path, o: Grasp, file: nat, c: Account)
    requires Grasped(a, y, o, file, {Read, Write}) && Leased(a, y, log, start, from, o.binding, {Read, Write}, file, c)
    requires StateOK(z) && Carry(y, z) && z == y.(table := z.table)
    requires z.table == y.table[o.handle := y.table[o.handle].(inherit := true)] || z.table == y.table
    ensures Leased(a, z, log, start, from, o.binding, {Read, Write}, file, c)
  {
    hide StateOK, Settled, Carry, EntryTaken, AllLoose, Intact, Entered, PinsApart, AllInherit;
    var pins := o.binding.pins;
    OwnedUntried(a, y, Handles(pins) + {o.handle}, pins);
    forall i | 0 <= i < |pins|
      ensures pins[i].handle in z.table && z.table[pins[i].handle].grant == y.table[pins[i].handle].grant
    {
    }
    CarryNone(c.work.taken);
    LooseOn(c.work.taken, y, z, pins, {o.binding.common});
    IntactSince(c.work.taken, c.work.taken, y, z, o.binding, c.work.first, c.work.last);
  }

  /** Open the machine's one write handle, or refuse. Everything after the open runs
      under a boundary; a sure lease is secured. */
  method Acquire(k: Kernel, purpose: string, start: Option<Path>, holderPid: Option<int>, depth: nat)
    returns (r: Result<AcquiredLease>, ghost file: nat, ghost g: Guard, ghost c: Account)
    requires k.OK() && -1 !in k.fds
    modifies k
    ensures k.OK() && -1 !in k.fds && old(k.log) <= k.log && Carry(old(k.s), k.s)
    ensures r.Ok? ==> fresh(r.value) && Taken(old(k.s), k, r.value, file) && r.value.purpose == purpose
                      && r.value.descriptor !in old(k.fds) && k.fds - {r.value.descriptor} == old(k.fds)
    ensures r.Ok? ==>
              && start.Some? && InPlace(k.s, file)
              && Leased(old(k.s), k.s, k.log, |old(k.log)|, start.value, r.value.binding.value, {Read, Write}, file, c)
    ensures r.Ok? && Sure(k.log, |old(k.log)|, c.story.t.tested, r.value.binding.value) ==>
              Secured(k.s, g, r.value.binding.value, file) && Since(g, old(k.s))
    ensures r.Ok? ==> Acceptable(purpose, holderPid)
    ensures !Acceptable(purpose, holderPid) ==> r == Fail(Refused) && k.s == old(k.s)
    ensures r.Fail? ==> Settled(old(k.s), k.s, {}) && Reports(old(k.s), k.s, r.failure) && k.fds == old(k.fds)
    ensures r == Fail(Contended) ==>
              start.Some? && Contested(old(k.s), k.s, k.log, |old(k.log)|, start.value, {Read, Write})
  {
    hide StateOK, Settled, Carry, Fence, Guarded, Secured, PinsApart, AllInherit, Handles, Crooked, HasCommondir,
         AtHome, HeldSince, InPlace, Leased, Contested, Resolve;
    ghost var s0 := k.s;
    file, g, c := 0, Guard({}, {}, {}, {}), NoAccount(k.s);
    SettledSelf(s0);
    CarryNone(s0);
    if !Acceptable(purpose, holderPid) { return Fail(Refused), file, g, c; }
    var grasped;
    grasped, file, g, c := OpenLeaseHandle(k, start, {Read, Write}, true, depth);
    if grasped.Fail? { return Fail(grasped.failure), file, g, c; }
    var o := grasped.value;
    ghost var s1 := k.s;
    ghost var owned := Handles(o.binding.pins) + {o.handle};
    SettledGrants(s0, s1, owned);
    var ready, descriptor := Initialize(k, o.handle);
    ghost var s2 := k.s;
    CarryOn(s0, s1, s2);
    SettledGrants(s0, s2, owned);
    if ready.Ok? {
      Initialized(s0, s1, s2, o, file);
      SameLanding(s1, s2, file);
      LeasedOn(s0, s1, s2, k.log, |old(k.log)|, start.value, o, file, c);
      if Sure(k.log, |old(k.log)|, c.story.t.tested, o.binding) { InitializedSecured(s1, s2, g, o.binding, file); }
      var lease := new AcquiredLease(descriptor, o.path, purpose, Some(o.binding));
      assert lease.Pins() == o.binding.pins;
      assert lease.Owned(k) == owned;
      return Ok(lease), file, g, c;
    }
    var refused := AbandonStarted(k, descriptor, o);
    CarryOn(s0, s2, k.s);
    assert Settled(s0, k.s, {}) by { assert owned - owned == {}; }
    ReportsThen(s0, s2, k.s, ready.failure, refused);
    return Fail(Reraise(ready.failure, refused)), file, g, c;
  }

  /** A failed acquisition's cleanup: the descriptor if it owns the handle, else the
      raw handle, then the pins. */
  method AbandonStarted(k: Kernel, descriptor: int, o: Grasp) returns (refused: seq<Strand>)
    requires k.OK() && o.handle >= 0 && o.handle in k.s.table && Handles(o.binding.pins) <= k.s.table.Keys
    requires PinsApart(o.binding.pins) && o.handle !in Handles(o.binding.pins)
    requires descriptor != -1 ==> descriptor in k.fds && k.fds[descriptor] == o.handle
    modifies k`s, k`fds
    ensures k.OK() && Carry(old(k.s), k.s)
    ensures k.fds == if descriptor == -1 then old(k.fds) else old(k.fds) - {descriptor}
    ensures Closes(old(k.s), k.s, Handles(o.binding.pins) + {o.handle})
    ensures old(k.s).refused <= k.s.refused && refused == RefusedSince(old(k.s), k.s)
    ensures var first := if descriptor != -1 then Descriptor else Handle;
            k.s.tried == old(k.s).tried + Attempts(old(k.s), [Item(first, o.handle)] + PinItems(o.binding.pins))
  {
    hide StateOK, Settled, Carry, Closes, PinsApart, Handles;
    assert {o.handle} + Handles(o.binding.pins) == Handles(o.binding.pins) + {o.handle};
    if descriptor != -1 {
      var cause;
      refused, cause := AbandonLease(k, descriptor, o.binding.pins);
    } else {
      OneItem(Item(Handle, o.handle));
      refused := Abandon(k, [Item(Handle, o.handle)], o.binding.pins);
    }
  }
}
