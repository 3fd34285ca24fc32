// Holding the chain that resolves a checkout to its common directory. The walk
// yields each name before it is inspected and the name is pinned at the yield; the
// two are one loop here, because the walk runs only when asked for its next name.
module Pins {
  import opened Options
  import opened Namespace
  import opened Fences
  import opened Mapping
  import opened Strands
  import opened Kernels
  import opened Cleanup
  import opened Guards
  import opened Relaxing
  import opened PinFacts

  /** Open an inheritable hold of a name with the selected sharing. */
  method OpenSharedPin(k: Kernel, path: Path, role: string, share: set<Right>) returns (r: Result<Pin>)
    requires k.OK()
    modifies k`s, k`log
    ensures k.OK() && Carry(old(k.s), k.s)
    ensures Tried(old(k.log), k.log, path)
    ensures r.Ok? ==>
              && NoFollow(k.s.w.ns, path).Some? && NoFollow(k.s.w.ns, path).value in k.s.w.ns
              && k.log == old(k.log) + [HeldAs(k.s.w.ns, path)]
              && r.value.path == path && r.value.role == role
              && PinnedAt(old(k.s), k.s, path, r.value.handle, share)
              && Adds(old(k.s), k.s, {r.value.handle})
    ensures r.Fail? ==> AddsNothing(old(k.s), k.s) && PlainlyReports(old(k.s), k.s, r.failure)
  {
    hide StateOK, Settled, Fence, Walk, Follow, Carry, NoFollow, KeepsTable, TriesOnly;
    var reply := k.CreateFile(path, false, {Read}, share, false);
    if !reply.Opened? { return Fail(Refused); }
    var h := reply.handle;
    ghost var opened' := k.s;
    assert Settled(old(k.s), opened', {} + {h}) by { SettledSelf(old(k.s)); }
    var marked := k.MarkInherit(h);
    CarryOn(old(k.s), opened', k.s);
    if !marked {
      OneItem(Item(PinHandle, h));
      var refused := Abandon(k, [Item(PinHandle, h)], []);
      CarryOn(old(k.s), opened', k.s);
      TakenAndClosed(old(k.s), opened', k.s, h);
      return Fail(Reraise(Refused, refused));
    }
    MarkedAdds(old(k.s), opened', k.s, h);
    return Ok(Pin(path, role, h));
  }

  /** One walk of the resolution chain: the pins taken, the names seen. `base` and
      `start` are the state and the log when its boundary began, `other` what else
      the boundary owns; `flat` says that every link met so far was written as the
      physical name of what it reached, `whole` that the guard is made of all pins. */
  class PinWalk {
    const k: Kernel
    ghost const base: State
    ghost const start: nat
    ghost const other: set<int>
    var pins: seq<Pin>
    var seen: set<Path>
    var rootSeen: bool
    ghost var flat: bool
    ghost var whole: bool
    ghost var g: Guard

    constructor (k: Kernel)
      requires k.OK()
      ensures this.k == k && base == k.s && start == |k.log| && pins == [] && seen == {} && other == {}
      ensures flat && whole && g == Guard({}, {}, {}, {})
      ensures Owned() && Ordered() && Fenced() && Walked() && Clear()
    {
      this.k := k;
      base := k.s;
      start := |k.log|;
      other := {};
      pins := [];
      seen := {};
      rootSeen := false;
      flat := true;
      whole := true;
      g := Guard({}, {}, {}, {});
      new;
      SettledSelf(k.s);
      assert Handles(pins) + other == {};
    }

    /** The pins of an acquisition, to be adjusted while `other` is owned beside them. */
    constructor Adjusting(k: Kernel, pins: seq<Pin>, ghost base: State, ghost other: set<int>, ghost flat: bool, ghost g: Guard)
      requires k.OK() && Settled(base, k.s, Handles(pins) + other) && PinsApart(pins) && other !! Handles(pins)
      requires AllInherit(k.s, pins) && k.s.refused == base.refused
      requires flat ==> OwnHolds(k.s, g) && Guarded(k.s.w, g) && PinsPlaced(k.s, g, pins) && Since(g, base)
      ensures this.k == k && this.base == base && start == |k.log| && this.pins == pins && seen == {}
      ensures this.other == other && this.flat == flat && this.g == g && !whole
      ensures Owned() && Ordered() && Fenced() && Clear()
    {
      this.k := k;
      this.base := base;
      start := |k.log|;
      this.other := other;
      this.pins := pins;
      seen := {};
      rootSeen := false;
      this.flat := flat;
      this.whole := false;
      this.g := g;
    }

    /** The walk as it stands. */
    ghost function Now(): Snap reads this, k {
      Snap(k.s, k.log, pins, seen, flat, g)
    }

    ghost function Owning(): set<int> reads this {
      Handles(pins) + other
    }

    /** Since the boundary began, exactly what it owns was gained, and refused closes. */
    ghost predicate Owned() reads this, k {
      && k.OK() && Settled(base, k.s, Owning()) && PinsApart(pins) && other !! Handles(pins)
    }

    ghost predicate Ordered() reads this, k {
      && start <= |k.log| && HeldFirst(k.log, start)
      && (forall n :: n in seen ==> HeldSince(k.log, start, n))
      && AllInherit(k.s, pins)
    }

    ghost predicate Fenced() reads this, k {
      flat ==> OwnHolds(k.s, g) && Guarded(k.s.w, g) && PinsPlaced(k.s, g, pins)
               && (whole ==> PinsOwn(k.s, g.gs, pins)) && Since(g, base)
    }

    /** Unless every link was written as what it reached, the log shows one that was not. */
    ghost predicate Straight() reads this, k {
      !flat ==> Crooked(k.log, start)
    }

    ghost predicate Walked() reads this, k {
      Straight() && AllPinned(seen, pins) && (flat ==> g.done + g.busy == seen)
    }

    /** No close has been refused since the walk began. */
    ghost predicate Clear() reads this, k {
      k.s.refused == base.refused
    }

    /** A yield of the walk: the caller pins the name before the walk goes on. Nothing
        but the pins is open then. */
    method Hold(prefix: Path, role: string) returns (r: Result<()>)
      requires Owned() && Ordered() && Fenced() && Walked() && Clear() && prefix !in seen
      requires flat ==> prefix != [] && Covered(k.s.w.ns, g.c, Parent(prefix))
      modifies this, k`s, k`log
      ensures old(k.log) <= k.log
      ensures Owned() && start <= |k.log| && HeldFirst(k.log, start)
      ensures r.Ok? ==>
                && Ordered() && Fenced() && Clear() && flat == old(flat)
                && Straight() && seen == old(seen) + {prefix} && AllPinned(seen, pins)
                && old(pins) < pins && |pins| == |old(pins)| + 1 && pins[|old(pins)|].path == prefix
                && pins[|old(pins)|].role == role
                && g.done == old(g).done && g.busy == old(g).busy && old(g).c <= g.c
                && (flat ==> HeldAt(k.s.w.ns, g.c, prefix) && Agree(old(k.s).w.ns, k.s.w.ns, old(g).c))
      ensures whole == old(whole) && Carry(old(k.s), k.s)
      ensures r.Fail? ==> PlainlyReports(old(k.s), k.s, r.failure)
    {
      hide StateOK, Settled, Fence, Walk, Follow, Guarded, Placed, PinsPlaced, OwnHolds, PinsOwn, Since, AllInherit, Carry,
           HeldAt, Covered, NoFollow, HeldFirst, HeldSince, Crooked, AllPinned, Agree;
      ghost var before := k.s;
      var got := OpenSharedPin(k, prefix, role, {Read});
      HeldFirstTried(old(k.log), k.log, start, prefix);
      if got.Fail? { return Fail(got.failure); }
      if !flat { CrookedOn(old(k.log), k.log, start, start); }
      var pin := got.value;
      HandlesExtended(pins, pin);
      assert Settled(base, k.s, Owning() + {pin.handle});
      OwnedLive(base, before, pins, other);
      assert pin.handle !in Owning();
      assert Handles(pins + [pin]) + other == Owning() + {pin.handle};
      InheritMore(before, k.s, pins, pin, {Read});
      if flat {
        PinnedGuard(before, k.s, g, pins, pin, prefix);
        SinceMore(g, base, before, k.s.table[pin.handle].grant, g.c + {NoFollow(k.s.w.ns, prefix).value});
        g := g.(gs := g.gs + {k.s.table[pin.handle].grant}, c := g.c + {NoFollow(k.s.w.ns, prefix).value});
      }
      PinnedMore(seen, prefix, pins, pins + [pin]);
      seen := seen + {prefix};
      pins := pins + [pin];
      return Ok(());
    }

    /** The drive root, when it is the very name walked: pinned and inspected like any
        other, though nothing can move it. */
    method HoldRoot(role: string) returns (r: Result<()>)
      requires Owned() && Ordered() && Fenced() && Walked() && Clear() && !rootSeen
      modifies this`pins, this`rootSeen, k`s, k`log
      ensures old(k.log) <= k.log
      ensures Owned() && start <= |k.log| && HeldFirst(k.log, start)
      ensures r.Ok? ==>
                && Ordered() && Fenced() && Walked() && Clear() && rootSeen
                && old(pins) < pins && |pins| == |old(pins)| + 1 && pins[|old(pins)|].path == []
                && pins[|old(pins)|].role == role
                && (flat ==> Agree(old(k.s).w.ns, k.s.w.ns, g.c))
                && |k.log| > |old(k.log)| && k.log[|k.log| - 1].Saw? && k.log[|k.log| - 1].name == []
      ensures Carry(old(k.s), k.s)
      ensures r.Fail? ==> PlainlyReports(old(k.s), k.s, r.failure)
    {
      hide StateOK, Settled, Fence, Walk, Follow, Guarded, Placed, PinsPlaced, OwnHolds, PinsOwn, Since, AllInherit, Carry,
           HeldAt, Covered, NoFollow, HeldFirst, HeldSince, Crooked, Agree, AllPinned, PinsApart, Handles;
      ghost var before := k.s;
      var got := OpenSharedPin(k, [], role, {Read});
      HeldFirstTried(old(k.log), k.log, start, []);
      if got.Fail? { return Fail(got.failure); }
      var pin := got.value;
      HandlesExtended(pins, pin);
      assert Settled(base, k.s, Owning() + {pin.handle});
      OwnedLive(base, before, pins, other);
      assert pin.handle !in Owning();
      assert Handles(pins + [pin]) + other == Owning() + {pin.handle};
      InheritMore(before, k.s, pins, pin, {Read});
      if flat { OutsidePin(before, k.s, g, pins, pin); }
      rootSeen := true;
      PinnedMore(seen, [], pins, pins + [pin]);
      pins := pins + [pin];
      ghost var held, log := k.s, k.log;
      var node := k.Attributes([]);
      CarryOn(before, held, k.s);
      Undisturbed(base, held, k.s, Owning(), pins, flat, g);
      HeldFirstNext(log, start, if node.Ok? then Saw([], node.value) else Looked([]));
      if !flat { CrookedOn(old(k.log), k.log, start, start); }
      if node.Fail? { return Fail(node.failure); }
      if flat { AgreeTwice(before.w.ns, held.w.ns, k.s.w.ns, g.c); }
      return Ok(());
    }

    /** A held name's attributes. */
    method Look(prefix: Path) returns (r: Result<Node>)
      requires Owned() && Ordered() && Fenced() && Straight() && prefix in seen
      requires flat ==> HeldAt(k.s.w.ns, g.c, prefix)
      modifies k`s, k`log
      ensures old(k.log) <= k.log
      ensures r.Ok? ==> k.log == old(k.log) + [Saw(prefix, r.value)]
      ensures Owned() && Ordered() && Fenced() && Straight() && k.s.refused == old(k.s).refused
      ensures flat ==> HeldAt(k.s.w.ns, g.c, prefix) && Agree(old(k.s).w.ns, k.s.w.ns, g.c)
      ensures r.Ok? ==> NodeAt(k.s.w.ns, prefix, r.value)
      ensures Carry(old(k.s), k.s)
      ensures r.Fail? ==> r.failure == Refused
    {
      hide StateOK, Settled, Fence, Walk, Follow, Guarded, Placed, Carry, HeldAt, Covered, NoFollow, HeldFirst,
           HeldSince, Crooked;
      r := k.Attributes(prefix);
      Undisturbed(base, old(k.s), k.s, Owning(), pins, flat, g);
      HeldFirstNext(old(k.log), start, if r.Ok? then Saw(prefix, r.value) else Looked(prefix));
      if !flat { CrookedOn(old(k.log), k.log, start, start); }
      if flat {
        StateWorlds(old(k.s), k.s);
        HeldAgrees(old(k.s).w, k.s.w, g.c, prefix);
      }
    }

    /** The last answer was that the name is a link, written so. */
    ghost predicate JustSaw(prefix: Path, written: Path) reads this, k {
      start < |k.log| && k.log[|k.log| - 1].Saw? && k.log[|k.log| - 1].name == prefix && k.log[|k.log| - 1].node.Link?
      && k.log[|k.log| - 1].node.target == written
    }

    /** The identity a held link reaches, and the physical name of what it reaches. */
    method Target(prefix: Path, ghost written: Path) returns (r: Result<(nat, Path)>, ghost looked: State, ghost named: State)
      requires Owned() && Ordered() && Fenced() && Straight() && Clear() && prefix in seen
      requires JustSaw(prefix, written) && AllPinned(seen, pins)
      requires flat ==> g.done + g.busy == seen - {prefix}
      requires flat ==> LinkAt(k.s.w.ns, g.c, prefix)
                        && k.s.w.ns[NoFollow(k.s.w.ns, prefix).value].node.target == written
      modifies this`flat, this`g, k`s, k`log
      ensures old(k.log) <= k.log
      ensures Owned() && start <= |k.log| && HeldFirst(k.log, start)
      ensures Carry(old(k.s), k.s) && seen == old(seen) && pins == old(pins)
      ensures r.Ok? ==>
                && k.log == old(k.log) + [Looked(prefix), Final(r.value.1)]
                && StateOK(looked) && Carry(old(k.s), looked) && ReachesIdentity(looked.w.ns, prefix, r.value.0)
                && StateOK(named) && Carry(looked, named) && Carry(named, k.s)
                && r.value.1 in named.w.ns && named.w.ns[r.value.1].id == r.value.0
      ensures r.Fail? ==> PlainlyReports(old(k.s), k.s, r.failure)
      ensures r.Ok? ==> Ordered() && Fenced() && Walked() && Clear() && (flat ==> old(flat))
      ensures r.Ok? && flat ==>
                && g == old(g).(busy := old(g).busy + {prefix}) && r.value.1 == written
                && (forall m :: m in g.busy ==> !(m <= written))
                && LinkAt(k.s.w.ns, g.c, prefix)
                && k.s.w.ns[NoFollow(k.s.w.ns, prefix).value].node.target == written
                && Agree(old(k.s).w.ns, k.s.w.ns, g.c)
    {
      hide StateOK, Settled, Fence, Walk, Follow, Guarded, Placed, PinsPlaced, OwnHolds, AllInherit, Carry, HeldAt,
           LinkAt, Covered, NoFollow, HeldFirst, HeldSince, Crooked, Roles, HasCommondir, Agree, PinsApart, Handles, AllPinned;
      ghost var g0, s0 := g, k.s;
      var probe;
      probe, looked, named := ProbeTarget(k, prefix);
      HeldFirstNext(old(k.log), start, Looked(prefix));
      if |k.log| > |old(k.log)| + 1 {
        assert k.log == (old(k.log) + [Looked(prefix)]) + [k.log[|k.log| - 1]];
        HeldFirstNext(old(k.log) + [Looked(prefix)], start, k.log[|k.log| - 1]);
      }
      Undisturbed(base, s0, k.s, Owning(), pins, flat, g);
      if probe.Fail? { return probe, looked, named; }
      if !flat { CrookedOn(old(k.log), k.log, start, start); }
      if flat && probe.value.1 != written { CrookedNow(old(k.log), start, prefix, written, probe.value.1); }
      flat := flat && probe.value.1 == written;
      if flat {
        BeginLink(s0, looked, named, k.s, g, prefix, written, probe.value.0);
        PlacedBusy(k.s, g, g.busy + {prefix}, pins);
        g := g.(busy := g.busy + {prefix});
        assert g.done + g.busy == (g0.done + g0.busy) + {prefix} == seen;
      }
      return probe, looked, named;
    }

    /** The link's two names still reach the object the probe read. */
    method Confirm(prefix: Path, target: Path, identity: nat) returns (r: Result<()>, ghost first: State, ghost second: State)
      requires Owned() && Ordered() && Fenced() && Walked() && Clear() && prefix in seen
      requires target != [] ==> target in seen
      requires flat ==> prefix in g.busy && Covered(k.s.w.ns, g.c, target) && LinkAt(k.s.w.ns, g.c, prefix)
                        && k.s.w.ns[NoFollow(k.s.w.ns, prefix).value].node.target == target
      modifies this`g, k`s, k`log
      ensures old(k.log) <= k.log
      ensures Owned() && start <= |k.log| && HeldFirst(k.log, start)
      ensures r.Fail? ==> PlainlyReports(old(k.s), k.s, r.failure)
      ensures r.Ok? ==> Ordered() && Fenced() && Walked() && Clear()
      ensures Carry(old(k.s), k.s) && seen == old(seen) && pins == old(pins)
      ensures r.Ok? ==>
                && StateOK(first) && Carry(old(k.s), first) && ReachesIdentity(first.w.ns, prefix, identity)
                && StateOK(second) && Carry(first, second) && ReachesIdentity(second.w.ns, target, identity) && Carry(second, k.s)
      ensures r.Ok? && flat ==>
                && g == old(g).(busy := old(g).busy - {prefix}, done := old(g).done + {prefix})
                && Agree(old(k.s).w.ns, k.s.w.ns, g.c)
    {
      hide StateOK, Settled, Fence, Walk, Follow, Guarded, Placed, PinsPlaced, OwnHolds, AllInherit, Carry, HeldAt,
           LinkAt, Covered, NoFollow, HeldFirst, HeldSince, Crooked, Roles, HasCommondir, Agree, PinsApart, Handles,
           AllPinned, ReachesIdentity;
      ghost var s0 := k.s;
      second := s0;
      var one;
      one, first := Reread(prefix);
      if one.Fail? { return Fail(one.failure), first, second; }
      if one.value != identity { return Fail(Refused), first, second; }
      if flat { EndLink(s0, first, k.s, g, prefix, target, identity); }
      ghost var s1 := k.s;
      var two;
      two, second := Reread(target);
      CarryOn(s0, s1, k.s);
      if two.Fail? { return Fail(two.failure), first, second; }
      if two.value != identity { return Fail(Refused), first, second; }
      CarryOn(first, s1, second);
      if flat {
        CoveredAgrees(s1.w.ns, k.s.w.ns, g.c, prefix);
        LinkFinished(k.s, g, prefix, pins);
        AgreeTwice(s0.w.ns, s1.w.ns, k.s.w.ns, g.c);
        g := g.(busy := g.busy - {prefix}, done := g.done + {prefix});
      }
      return Ok(()), first, second;
    }

    /** A held file's text. */
    method ReadHeld(name: Path) returns (r: Result<Text>)
      requires Owned() && Ordered() && Fenced() && Straight() && name in seen
      requires flat ==> Covered(k.s.w.ns, g.c, name)
      modifies k`s, k`log
      ensures old(k.log) <= k.log
      ensures Owned() && Ordered() && Fenced() && Straight() && k.s.refused == old(k.s).refused
      ensures flat ==> Agree(old(k.s).w.ns, k.s.w.ns, g.c)
      ensures Carry(old(k.s), k.s) && (r.Ok? ==> TextAt(k.s.w.ns, name, r.value))
      ensures r.Ok? && flat ==> Covered(k.s.w.ns, g.c, name)
      ensures r.Fail? ==> r.failure == OsError || r.failure == Fault
    {
      hide StateOK, Settled, Fence, Walk, Follow, Guarded, Placed, PinsPlaced, OwnHolds, AllInherit, Carry, HeldAt,
           LinkAt, Covered, NoFollow, HeldFirst, HeldSince, Crooked, Roles, HasCommondir, Agree, PinsApart, Handles;
      r := k.ReadText(name);
      Undisturbed(base, old(k.s), k.s, Owning(), pins, flat, g);
      HeldFirstNext(old(k.log), start, Looked(name));
      if !flat { CrookedOn(old(k.log), k.log, start, start); }
      if flat {
        CoveredAgrees(old(k.s).w.ns, k.s.w.ns, g.c, name);
      }
    }

    /** Whether a name not yet held is a file: an existence test, nothing more. */
    method TestName(name: Path) returns (r: Result<bool>)
      requires Owned() && Ordered() && Fenced() && Straight()
      modifies k`s, k`log
      ensures old(k.log) <= k.log
      ensures Owned() && Ordered() && Fenced() && Straight() && k.s.refused == old(k.s).refused
      ensures flat ==> Agree(old(k.s).w.ns, k.s.w.ns, g.c)
      ensures Carry(old(k.s), k.s) && (r.Ok? ==> r.value == IsFile(k.s.w.ns, Follow(k.s.w.ns, name).end))
      ensures r.Fail? ==> r.failure == OsError
    {
      hide StateOK, Settled, Fence, Walk, Follow, Guarded, Placed, PinsPlaced, OwnHolds, AllInherit, Carry, HeldAt,
           LinkAt, Covered, NoFollow, HeldFirst, HeldSince, Crooked, Roles, HasCommondir, Agree, PinsApart, Handles;
      r := k.TestFile(name);
      Undisturbed(base, old(k.s), k.s, Owning(), pins, flat, g);
      HeldFirstNext(old(k.log), start, Tested(name));
      if !flat { CrookedOn(old(k.log), k.log, start, start); }
    }

    /** A held link's target, named and walked. */
    method Through(prefix: Path, role: string, ghost written: Path, depth: nat)
      returns (r: Result<(nat, Path)>, ghost looked: State, ghost named: State)
      requires Owned() && Ordered() && Fenced() && Straight() && Clear() && prefix in seen
      requires JustSaw(prefix, written) && AllPinned(seen, pins)
      requires flat ==> g.done + g.busy == seen - {prefix}
      requires flat ==> LinkAt(k.s.w.ns, g.c, prefix)
                        && k.s.w.ns[NoFollow(k.s.w.ns, prefix).value].node.target == written
      modifies this, k`s, k`log
      ensures old(k.log) <= k.log
      ensures Owned() && start <= |k.log| && HeldFirst(k.log, start)
      ensures r.Ok? ==>
                && Ordered() && Fenced() && Walked() && Clear() && old(seen) <= seen && old(pins) <= pins
                && Roles(pins, |old(pins)|, role)
                && FollowedAt(k.log, |old(k.log)| - 1, seen) && k.log[|old(k.log)| + 1] == Final(r.value.1)
                && Explored(k.log, |old(k.log)|, seen - old(seen), seen) && Met(r.value.1, seen)
                && StateOK(looked) && Carry(old(k.s), looked) && ReachesIdentity(looked.w.ns, prefix, r.value.0)
                && StateOK(named) && Carry(looked, named) && Carry(named, k.s)
                && r.value.1 in named.w.ns && named.w.ns[r.value.1].id == r.value.0
      ensures r.Ok? && flat ==>
                && old(flat) && g.busy == old(g).busy + {prefix} && old(g).done <= g.done && old(g).c <= g.c
                && Agree(old(k.s).w.ns, k.s.w.ns, old(g).c)
                && Covered(k.s.w.ns, g.c, r.value.1) && LinkAt(k.s.w.ns, g.c, prefix)
                && k.s.w.ns[NoFollow(k.s.w.ns, prefix).value].node.target == r.value.1
      ensures whole == old(whole) && Carry(old(k.s), k.s)
      ensures r.Fail? ==> PlainlyReports(old(k.s), k.s, r.failure)
      decreases depth, 0
    {
      hide StateOK, Settled, Fence, Walk, Follow, Guarded, Placed, PinsPlaced, OwnHolds, AllInherit, Carry, HeldAt,
           LinkAt, Covered, NoFollow, HeldFirst, HeldSince, Crooked, Roles, HasCommondir, Agree, PinsApart, Handles,
           AllPinned, Explored, ReachesIdentity, Progress, FollowedAt, PinsOwn, Since;
      ghost var s0, g0 := k.s, g;
      r, looked, named := Target(prefix, written);
      if r.Fail? { return; }
      if depth == 0 { return Fail(Fault), looked, named; }
      var target := r.value.1;
      ghost var s1, g1, log1 := k.s, g, k.log;
      ghost var crossing := Now();
      var nested := PathChain(target, role, true, depth - 1);
      CarryOn(s0, s1, k.s);
      if nested.Fail? { return Fail(nested.failure), looked, named; }
      ProgressMeans(crossing, Now(), role);
      CarryOn(named, s1, k.s);
      assert target[..|target|] == target;
      if flat {
        StateWorlds(s1, k.s);
        LinkAgrees(s1.w, k.s.w, g1.c, g.c, prefix);
        TargetDone(k.s.w, g, target, seen);
        AgreeTwice(s0.w.ns, s1.w.ns, k.s.w.ns, g0.c);
      }
      ThenFollowed(old(k.log), log1, k.log, prefix, target, seen);
      ExploredOn(k.log, k.log, |log1|, |old(k.log)|, seen - old(seen), seen, seen);
    }

    /** A held link: its target's namespace is walked too, and both names are read
        again afterwards. */
    method CrossLink(prefix: Path, role: string, ghost written: Path, depth: nat) returns (r: Result<()>)
      requires Owned() && Ordered() && Fenced() && Straight() && Clear() && prefix in seen
      requires JustSaw(prefix, written) && AllPinned(seen, pins)
      requires flat ==> g.done + g.busy == seen - {prefix}
      requires flat ==> LinkAt(k.s.w.ns, g.c, prefix)
                        && k.s.w.ns[NoFollow(k.s.w.ns, prefix).value].node.target == written
      modifies this, k`s, k`log
      ensures old(k.log) <= k.log
      ensures Owned() && start <= |k.log| && HeldFirst(k.log, start)
      ensures r.Ok? ==>
                && Ordered() && Fenced() && Walked() && Clear() && old(seen) <= seen && old(pins) <= pins
                && Roles(pins, |old(pins)|, role)
                && FollowedAt(k.log, |old(k.log)| - 1, seen)
                && Explored(k.log, |old(k.log)|, seen - old(seen), seen)
                && Crossed(old(k.s), k.s, prefix, k.log[|old(k.log)| + 1].path)
                && (flat ==> old(flat) && g.busy == old(g).busy && old(g).done + {prefix} <= g.done
                             && old(g).c <= g.c && Agree(old(k.s).w.ns, k.s.w.ns, old(g).c))
      ensures whole == old(whole) && Carry(old(k.s), k.s)
      ensures r.Fail? ==> PlainlyReports(old(k.s), k.s, r.failure)
      decreases depth, 1
    {
      hide StateOK, Settled, Fence, Walk, Follow, Guarded, Placed, PinsPlaced, OwnHolds, AllInherit, Carry, HeldAt,
           LinkAt, Covered, NoFollow, HeldFirst, HeldSince, Crooked, Roles, HasCommondir, Agree, PinsApart, Handles,
           AllPinned, Explored, ReachesIdentity, Crossed, PinsOwn, Since;
      ghost var s0, g0 := k.s, g;
      var through, looked, named := Through(prefix, role, written, depth);
      if through.Fail? { return Fail(through.failure); }
      var identity, target := through.value.0, through.value.1;
      ghost var s2, log2 := k.s, k.log;
      assert target[..|target|] == target;
      var confirmed, first, second := Confirm(prefix, target, identity);
      CarryOn(s0, s2, k.s);
      if confirmed.Fail? { return confirmed; }
      if flat {
        AgreeLess(s2.w.ns, k.s.w.ns, g0.c, g.c);
        AgreeTwice(s0.w.ns, s2.w.ns, k.s.w.ns, g0.c);
        assert g.busy == (g0.busy + {prefix}) - {prefix} == g0.busy;
      }
      CarryNone(s2);
      ThenCrossed(s0, s2, s2, k.s, prefix, target, identity, looked, named, first, second);
      assert k.log[..|log2|] == log2;
      ExploredOn(log2, k.log, |old(k.log)|, |old(k.log)|, seen - old(seen), seen, seen);
      return Ok(());
    }

    /** A held name's identity, read again. */
    method Reread(name: Path) returns (r: Result<nat>, ghost looked: State)
      requires Owned() && Ordered() && Fenced() && Straight() && (name != [] ==> name in seen)
      modifies k`s, k`log
      ensures old(k.log) <= k.log
      ensures Owned() && start <= |k.log| && HeldFirst(k.log, start)
      ensures r.Ok? ==> Ordered() && Fenced() && Straight() && k.s.refused == old(k.s).refused
      ensures Carry(old(k.s), k.s)
      ensures r.Fail? ==> PlainlyReports(old(k.s), k.s, r.failure)
      ensures flat ==> Agree(old(k.s).w.ns, k.s.w.ns, g.c)
      ensures r.Ok? ==> StateOK(looked) && Carry(old(k.s), looked) && Carry(looked, k.s)
                        && ReachesIdentity(looked.w.ns, name, r.value)
    {
      hide StateOK, Settled, Fence, Walk, Follow, Guarded, Placed, Carry, HeldAt, Covered, NoFollow, HeldFirst,
           HeldSince, Crooked;
      r, looked := DirectoryIdentity(k, name);
      Undisturbed(base, old(k.s), k.s, Owning(), pins, flat, g);
      HeldFirstNext(old(k.log), start, Looked(name));
      if !flat { CrookedOn(old(k.log), k.log, start, start); }
    }

    /** A name not met before: pinned, then inspected. */
    method Inspect(prefix: Path, part: string, role: string) returns (r: Result<Node>)
      requires Owned() && Ordered() && Fenced() && Walked() && Clear() && prefix !in seen
      requires part == role || part == OnTheWay(role)
      requires flat ==> prefix != [] && Covered(k.s.w.ns, g.c, Parent(prefix))
      modifies this, k`s, k`log
      ensures old(k.log) <= k.log
      ensures Owned() && start <= |k.log| && HeldFirst(k.log, start)
      ensures r.Ok? ==>
                && Ordered() && Fenced() && Straight() && Clear() && flat == old(flat)
                && seen == old(seen) + {prefix} && AllPinned(seen, pins)
                && old(pins) <= pins && Roles(pins, |old(pins)|, role)
                && |old(k.log)| < |k.log| && k.log[|k.log| - 1] == Saw(prefix, r.value)
                && g.done == old(g).done && g.busy == old(g).busy && old(g).c <= g.c
      ensures r.Ok? && flat ==>
                && HeldAt(k.s.w.ns, g.c, prefix) && k.s.w.ns[NoFollow(k.s.w.ns, prefix).value].node == r.value
                && Agree(old(k.s).w.ns, k.s.w.ns, old(g).c)
      ensures whole == old(whole) && Carry(old(k.s), k.s)
      ensures r.Fail? ==> PlainlyReports(old(k.s), k.s, r.failure)
    {
      hide StateOK, Settled, Fence, Walk, Follow, Guarded, Placed, PinsPlaced, OwnHolds, AllInherit, Carry, HeldAt,
           LinkAt, Covered, NoFollow, HeldFirst, HeldSince, Crooked, Roles, HasCommondir, Agree, PinsApart, Handles,
           AllPinned;
      ghost var s1, g1 := k.s, g;
      var held := Hold(prefix, part);
      if held.Fail? { return Fail(held.failure); }
      OneRole(old(pins), pins, role);
      ghost var s2 := k.s;
      r := Look(prefix);
      CarryOn(s1, s2, k.s);
      if flat {
        AgreeLess(s2.w.ns, k.s.w.ns, g1.c, g.c);
        AgreeTwice(s1.w.ns, s2.w.ns, k.s.w.ns, g1.c);
      }
    }

    /** One component of the walk that was not met before: pinned, then inspected,
        then, if it is a link, followed. */
    method Visit(prefix: Path, part: string, role: string, depth: nat) returns (r: Result<()>)
      requires Owned() && Ordered() && Fenced() && Walked() && Clear() && prefix !in seen
      requires part == role || part == OnTheWay(role)
      requires flat ==> prefix != [] && Covered(k.s.w.ns, g.c, Parent(prefix))
      modifies this, k`s, k`log
      ensures old(k.log) <= k.log
      ensures Owned() && start <= |k.log| && HeldFirst(k.log, start)
      ensures r.Ok? ==>
                && Ordered() && Fenced() && Walked() && Clear()
                && Progress(old(Now()), Now(), role) && prefix in seen && (flat ==> prefix in g.done)
      ensures whole == old(whole) && Carry(old(k.s), k.s)
      ensures r.Fail? ==> PlainlyReports(old(k.s), k.s, r.failure)
      decreases depth, 2
    {
      hide StateOK, Settled, Fence, Walk, Follow, Guarded, Placed, PinsPlaced, OwnHolds, AllInherit, Carry, HeldAt,
           LinkAt, Covered, NoFollow, HeldFirst, HeldSince, Crooked, Roles, HasCommondir, Agree, PinsApart, Handles,
           AllPinned, Explored, FollowedAt;
      ghost var s1, g1, log1 := k.s, g, k.log;
      var node := Inspect(prefix, part, role);
      if node.Fail? { return Fail(node.failure); }
      ghost var s3, g3, log3, seen3, first := k.s, g, k.log, seen, pins;
      if node.value.Link? {
        if flat { IsLinkAt(k.s.w.ns, g.c, prefix); }
        var crossed := CrossLink(prefix, role, node.value.target, depth);
        CarryOn(s1, s3, k.s);
        if crossed.Fail? { return crossed; }
        RolesThrough(old(pins), first, pins, role);
        if flat {
          AgreeLess(s3.w.ns, k.s.w.ns, g1.c, g3.c);
          AgreeTwice(s1.w.ns, s3.w.ns, k.s.w.ns, g1.c);
        }
      } else {
        ExploredNone(k.log, |log3|, seen - seen3, seen);
        if flat {
          NameFinished(k.s, g, prefix, pins);
          g := g.(done := g.done + {prefix});
        }
      }
      VisitExplored(log1, log3, k.log, prefix, old(seen), seen3, seen);
      return Ok(());
    }

    /** One component of a name, unless it was met before. */
    method Component(path: Path, i: nat, itself: bool, role: string, depth: nat) returns (r: Result<()>)
      requires Owned() && Ordered() && Fenced() && Walked() && Clear() && 1 <= i <= |path|
      requires flat ==> forall m :: m in g.busy ==> !(m <= path)
      requires i > 1 ==> path[..i - 1] in seen
      modifies this, k`s, k`log
      ensures old(k.log) <= k.log
      ensures Owned() && start <= |k.log| && HeldFirst(k.log, start)
      ensures r.Ok? ==>
                && Ordered() && Fenced() && Walked() && Clear()
                && Progress(old(Now()), Now(), role) && path[..i] in seen
      ensures whole == old(whole) && Carry(old(k.s), k.s)
      ensures r.Fail? ==> PlainlyReports(old(k.s), k.s, r.failure)
      decreases depth, 3
    {
      hide StateOK, Settled, Fence, Walk, Follow, Guarded, Placed, PinsPlaced, OwnHolds, AllInherit, Carry, HeldAt,
           LinkAt, Covered, NoFollow, HeldFirst, HeldSince, Crooked, Roles, HasCommondir, Agree, PinsApart, Handles,
           AllPinned, Explored, Progress;
      CarryNone(k.s);
      AgreeSelf(k.s, g, flat);
      OneRole(pins, pins, role);
      ProgressNone(Now(), Now(), role);
      var prefix := path[..i];
      assert prefix != [] && Parent(prefix) == path[..i - 1];
      if prefix in seen { return Ok(()); }
      if flat { ParentDone(k.s.w, g, path, i - 1, seen); }
      var part := if itself && i == |path| then role else OnTheWay(role);
      r := Visit(prefix, part, role, depth);
    }

    /** The components of a name, each pinned before it is inspected; a link's target
        is walked in the same way, through the same set of names seen. `depth` is what
        the interpreter's recursion limit still allows. */
    method PathChain(path: Path, role: string, itself: bool, depth: nat) returns (r: Result<()>)
      requires Owned() && Ordered() && Fenced() && Walked() && Clear()
      requires flat ==> forall m :: m in g.busy ==> !(m <= path)
      modifies this, k`s, k`log
      ensures old(k.log) <= k.log
      ensures Owned() && start <= |k.log| && HeldFirst(k.log, start)
      ensures r.Ok? ==>
                && Ordered() && Fenced() && Walked() && Clear() && Progress(old(Now()), Now(), role)
                && (forall i :: 1 <= i <= Components(path, itself) ==> path[..i] in seen) && (itself ==> Met(path, seen))
      ensures whole == old(whole) && Carry(old(k.s), k.s)
      ensures r.Fail? ==> PlainlyReports(old(k.s), k.s, r.failure)
      decreases depth, 4
    {
      hide StateOK, Settled, Fence, Walk, Follow, Guarded, Placed, PinsPlaced, OwnHolds, AllInherit, Carry, HeldAt,
           LinkAt, Covered, NoFollow, HeldFirst, HeldSince, Crooked, Roles, HasCommondir, Agree, PinsApart, Handles,
           AllPinned, Explored, Progress;
      ghost var began := Now();
      AgreeSelf(k.s, g, flat);
      CarryNone(k.s);
      if itself && path == [] && !rootSeen {
        var root := HoldRoot(role);
        if root.Fail? { return root; }
      }
      OneRole(old(pins), pins, role);
      ProgressNone(began, Now(), role);
      for i := 1 to Components(path, itself) + 1
        invariant Owned() && Ordered() && Fenced() && Walked() && Clear() && old(k.log) <= k.log
        invariant Progress(began, Now(), role) && Carry(began.s, k.s)
        invariant flat ==> began.flat && g.busy == began.g.busy
        invariant forall j :: 1 <= j < i ==> path[..j] in seen
        invariant whole == old(whole)
      {
        ghost var before := Now();
        var component := Component(path, i, itself, role, depth);
        CarryOn(began.s, before.s, k.s);
        if component.Fail? { return component; }
        ProgressThen(began, before, Now(), role);
        ProgressKeeps(before, Now(), role);
      }
      return Ok(());
    }

    /** The `.git` entry as a file: the private directory it points to, walked too. */
    method PointerChain(anchor: Path, entry: Path, depth: nat)
      returns (r: Result<Path>, ghost pointed: State, ghost pointer: Text)
      requires Owned() && Ordered() && Fenced() && Walked() && Clear() && (flat ==> g.busy == {})
      requires entry == anchor + [GIT] && entry in seen
      requires flat ==> entry in g.done && HeldAt(k.s.w.ns, g.c, entry)
                        && !DirectoryFlag(k.s.w.ns[NoFollow(k.s.w.ns, entry).value].node)
      modifies this, k`s, k`log
      ensures old(k.log) <= k.log
      ensures Owned() && start <= |k.log| && HeldFirst(k.log, start)
      ensures r.Ok? ==> Ordered() && Fenced() && Walked() && Clear() && Stretch(old(Now()), Now())
      ensures r.Ok? ==>
                && StateOK(pointed) && Carry(old(k.s), pointed) && Carry(pointed, k.s)
                && TextAt(pointed.w.ns, entry, pointer) && pointer.pointer.Some?
                && r.value == Join(anchor, pointer.pointer.value) && Met(r.value, seen)
      ensures r.Ok? ==> HasCommondir(pins) ==> HasCommondir(old(pins))
      ensures r.Ok? && flat ==> g.busy == {} && PrivateHeld(k.s.w.ns, g.c, anchor, r.value)
      ensures whole == old(whole) && Carry(old(k.s), k.s)
      ensures r.Fail? ==> PlainlyReports(old(k.s), k.s, r.failure)
    {
      hide StateOK, Settled, Fence, Walk, Follow, Guarded, Placed, PinsPlaced, OwnHolds, AllInherit, Carry, HeldAt,
           LinkAt, Covered, NoFollow, HeldFirst, HeldSince, Crooked, Roles, HasCommondir, Agree, PinsApart, Handles,
           WorldOK, Private, Normal, AllPinned, Explored, Progress, Met, TextAt;
      StateWorlds(k.s, k.s);
      ghost var began, s1 := Now(), k.s;
      if flat { NameDone(k.s.w, g, entry); }
      var text := ReadHeld(entry);
      pointed, pointer := k.s, Text(None, Named(false, []));
      StateWorlds(k.s, k.s);
      if text.Fail? { return Fail(text.failure), pointed, pointer; }
      pointer := text.value;
      if text.value.pointer.None? { return Fail(Refused), pointed, pointer; }
      if flat {
        HeldAgrees(s1.w, k.s.w, g.c, entry);
        HeldNode(s1.w, k.s.w, g.c, entry);
        TextAtMeans(k.s.w.ns, entry, text.value);
        PrivateFromPointer(k.s.w, g.c, anchor, text.value);
      }
      ghost var read, s2, g2, before := Now(), k.s, g, pins;
      StretchIdle(began, read);
      var private := Join(anchor, text.value.pointer.value);
      var third := PathChain(private, PRIVATE_DIRECTORY, true, depth);
      StateWorlds(k.s, k.s);
      CarryOn(s1, s2, k.s);
      if third.Fail? { return Fail(third.failure), pointed, pointer; }
      ProgressMeans(read, Now(), PRIVATE_DIRECTORY);
      StretchThen(began, read, Now());
      OtherRole(before, pins, PRIVATE_DIRECTORY);
      if flat {
        PrivateAgrees(s2.w, k.s.w, g2.c, anchor);
      }
      return Ok(private), pointed, pointer;
    }

    /** The checkout and its `.git` entry, walked and the entry inspected. */
    method EntryChain(anchor: Path, depth: nat) returns (r: Result<Node>)
      requires Owned() && Ordered() && Fenced() && Walked() && Clear() && g.busy == {}
      modifies this, k`s, k`log
      ensures old(k.log) <= k.log
      ensures Owned() && start <= |k.log| && HeldFirst(k.log, start)
      ensures r.Ok? ==> Ordered() && Fenced() && Walked() && Clear() && Stretch(old(Now()), Now())
      ensures r.Ok? ==> Met(anchor + [GIT], seen) && anchor + [GIT] in seen && NodeAt(k.s.w.ns, anchor + [GIT], r.value)
      ensures r.Ok? ==> HasCommondir(pins) ==> HasCommondir(old(pins))
      ensures r.Ok? && flat ==> g.busy == {} && anchor + [GIT] in g.done && HeldAt(k.s.w.ns, g.c, anchor + [GIT])
      ensures whole == old(whole) && Carry(old(k.s), k.s)
      ensures r.Fail? ==> PlainlyReports(old(k.s), k.s, r.failure)
    {
      hide StateOK, Settled, Fence, Walk, Follow, Guarded, Placed, PinsPlaced, OwnHolds, AllInherit, Carry, HeldAt,
           LinkAt, Covered, NoFollow, HeldFirst, HeldSince, Crooked, Roles, HasCommondir, Agree, PinsApart, Handles,
           WorldOK, AllPinned, Explored, Progress, Stretch, Met, PinsOwn, Since;
      ghost var began := Now();
      var first := PathChain(anchor, REPOSITORY, true, depth);
      if first.Fail? { return Fail(first.failure); }
      ghost var one, mid := Now(), pins;
      ProgressMeans(began, one, REPOSITORY);
      OtherRole(old(pins), pins, REPOSITORY);
      var entry := anchor + [GIT];
      var second := PathChain(entry, ENTRY, true, depth);
      CarryOn(began.s, one.s, k.s);
      if second.Fail? { return Fail(second.failure); }
      ghost var two := Now();
      ProgressMeans(one, two, ENTRY);
      StretchThen(began, one, two);
      OtherRole(mid, pins, ENTRY);
      LastMet(entry, seen);
      if flat { NameDone(k.s.w, g, entry); }
      r := Look(entry);
      CarryOn(began.s, two.s, k.s);
      if r.Fail? { return; }
      StretchIdle(two, Now());
      StretchThen(began, two, Now());
    }

    /** The checkout and its `.git` entry, and the private directory the entry is or
        points to. */
    method PrivateChain(anchor: Path, depth: nat) returns (r: Result<Path>, ghost t: Reading)
      requires Owned() && Ordered() && Fenced() && Walked() && Clear() && g.busy == {}
      modifies this, k`s, k`log
      ensures old(k.log) <= k.log
      ensures Owned() && start <= |k.log| && HeldFirst(k.log, start)
      ensures r.Ok? ==> Ordered() && Fenced() && Walked() && Clear() && Stretch(old(Now()), Now())
      ensures r.Ok? ==> PrivateRead(old(k.s), t, anchor) && Carry(t.pointed, k.s) && t.private == r.value
                        && Met(anchor + [GIT], seen) && Met(r.value, seen)
      ensures r.Ok? ==> HasCommondir(pins) ==> HasCommondir(old(pins))
      ensures r.Ok? && flat ==> g.busy == {} && PrivateHeld(k.s.w.ns, g.c, anchor, r.value)
      ensures whole == old(whole) && Carry(old(k.s), k.s)
      ensures r.Fail? ==> PlainlyReports(old(k.s), k.s, r.failure)
    {
      hide StateOK, Settled, Fence, Walk, Follow, Guarded, Placed, PinsPlaced, OwnHolds, AllInherit, Carry, HeldAt,
           LinkAt, Covered, NoFollow, HeldFirst, HeldSince, Crooked, Roles, HasCommondir, Agree, PinsApart, Handles,
           WorldOK, Private, Normal, AllPinned, Explored, Progress, Stretch, Met, TextAt, Join, PinsOwn, Since;
      ghost var began := Now();
      t := Unread(k.s);
      var node := EntryChain(anchor, depth);
      StateWorlds(k.s, k.s);
      if node.Fail? { return Fail(node.failure), t; }
      var entry := anchor + [GIT];
      ghost var one := Now();
      t := t.(entered := k.s, pointed := k.s, private := entry);
      CarryNone(k.s);
      if DirectoryFlag(node.value) {
        if flat { PrivateFromEntry(k.s.w, g.c, anchor); }
        return Ok(entry), t;
      }
      var pointed, at, pointer := PointerChain(anchor, entry, depth);
      CarryOn(began.s, one.s, k.s);
      if pointed.Fail? { return Fail(pointed.failure), t; }
      t := t.(pointed := at, pointer := pointer, private := pointed.value);
      StretchThen(began, one, Now());
      StretchMeans(one, Now());
      MetMore(entry, one.seen, seen);
      return pointed, t;
    }

    /** The `commondir` file walked and read. */
    method CommondirText(anchor: Path, private: Path, commondir: Path, depth: nat) returns (r: Result<Text>)
      requires Owned() && Ordered() && Fenced() && Walked() && Clear() && (flat ==> g.busy == {})
      requires commondir == private + [COMMONDIR] && (flat ==> PrivateHeld(k.s.w.ns, g.c, anchor, private))
      modifies this, k`s, k`log
      ensures old(k.log) <= k.log
      ensures Owned() && start <= |k.log| && HeldFirst(k.log, start)
      ensures r.Ok? ==> Ordered() && Fenced() && Walked() && Clear() && Stretch(old(Now()), Now())
      ensures r.Ok? ==> TextAt(k.s.w.ns, commondir, r.value) && Met(commondir, seen)
      ensures r.Ok? && flat ==> g.busy == {} && PrivateHeld(k.s.w.ns, g.c, anchor, private) && Covered(k.s.w.ns, g.c, commondir)
      ensures whole == old(whole) && Carry(old(k.s), k.s)
      ensures r.Fail? ==> PlainlyReports(old(k.s), k.s, r.failure)
    {
      hide StateOK, Settled, Fence, Walk, Follow, Guarded, Placed, PinsPlaced, OwnHolds, AllInherit, Carry, HeldAt,
           LinkAt, Covered, NoFollow, HeldFirst, HeldSince, Crooked, Roles, HasCommondir, Agree, PinsApart, Handles,
           WorldOK, Private, PinsOwn, Since, AllPinned, Explored, Progress, Met, TextAt, Stretch;
      StateWorlds(k.s, k.s);
      ghost var began, g2 := Now(), g;
      var first := PathChain(commondir, COMMONDIR_FILE, true, depth);
      StateWorlds(k.s, k.s);
      if first.Fail? { return Fail(first.failure); }
      ghost var one := Now();
      ProgressMeans(began, one, COMMONDIR_FILE);
      LastMet(commondir, seen);
      if flat {
        PrivateAgrees(began.s.w, k.s.w, g2.c, anchor);
        NameDone(k.s.w, g, commondir);
      }
      r := ReadHeld(commondir);
      StateWorlds(k.s, k.s);
      CarryOn(began.s, one.s, k.s);
      if r.Fail? { return; }
      if flat { PrivateAgrees(one.s.w, k.s.w, g.c, anchor); }
      StretchIdle(one, Now());
      StretchThen(began, one, Now());
    }

    /** The `commondir` file and the directory it names, both walked too. */
    method CommondirChain(anchor: Path, private: Path, commondir: Path, depth: nat)
      returns (r: Result<()>, ghost read: State, ghost text: Text)
      requires Owned() && Ordered() && Fenced() && Walked() && Clear() && (flat ==> g.busy == {})
      requires commondir == private + [COMMONDIR] && (flat ==> PrivateHeld(k.s.w.ns, g.c, anchor, private))
      modifies this, k`s, k`log
      ensures old(k.log) <= k.log
      ensures Owned() && start <= |k.log| && HeldFirst(k.log, start)
      ensures r.Ok? ==> Ordered() && Fenced() && Walked() && Clear() && Stretch(old(Now()), Now())
      ensures r.Ok? ==>
                && StateOK(read) && Carry(old(k.s), read) && Carry(read, k.s) && TextAt(read.w.ns, commondir, text)
                && Met(commondir, seen) && Met(Join(private, text.bare), seen)
      ensures r.Ok? && flat ==> g.busy == {} && ChainHeld(k.s.w.ns, g.c, anchor)
      ensures whole == old(whole) && Carry(old(k.s), k.s)
      ensures r.Fail? ==> PlainlyReports(old(k.s), k.s, r.failure)
    {
      hide StateOK, Settled, Fence, Walk, Follow, Guarded, Placed, PinsPlaced, OwnHolds, AllInherit, Carry, HeldAt,
           LinkAt, Covered, NoFollow, HeldFirst, HeldSince, Crooked, Roles, HasCommondir, Agree, PinsApart, Handles,
           WorldOK, Private, Join, ChainHeld, PinsOwn, Since, AllPinned, Explored, Progress, Met, TextAt, Stretch;
      ghost var began := Now();
      read, text := k.s, Text(None, Named(false, []));
      var got := CommondirText(anchor, private, commondir, depth);
      StateWorlds(k.s, k.s);
      if got.Fail? { return Fail(got.failure), read, text; }
      ghost var two := Now();
      read, text := k.s, got.value;
      var common := Join(private, got.value.bare);
      var second := PathChain(common, COMMON_DIRECTORY, true, depth);
      StateWorlds(k.s, k.s);
      CarryOn(began.s, two.s, k.s);
      if second.Fail? { return Fail(second.failure), read, text; }
      ProgressMeans(two, Now(), COMMON_DIRECTORY);
      StretchThen(began, two, Now());
      MetMore(commondir, two.seen, seen);
      assert common != [] ==> common in seen by { if common != [] { LastMet(common, seen); } }
      if flat {
        PrivateAgrees(two.s.w, k.s.w, two.g.c, anchor);
        TextAtMeans(two.s.w.ns, commondir, text);
        FileAgrees(two.s.w, k.s.w, two.g.c, commondir);
        TargetDone(k.s.w, g, common, seen);
        CoveredMore(k.s.w.ns, two.g.c, g.c, commondir);
        ChainFromNames(k.s.w, g.c, anchor, private, got.value);
      }
      return Ok(()), read, text;
    }

    /** The whole chain; the answer says whether a `commondir` file was there when it was
        asked for. All the chain consists of was met, pinned, inspected and followed. */
    method ResolutionChain(anchor: Path, depth: nat) returns (r: Result<bool>, ghost t: Reading)
      requires Owned() && Ordered() && Fenced() && Walked() && Clear() && g.busy == {}
      modifies this, k`s, k`log
      ensures old(k.log) <= k.log
      ensures Owned() && start <= |k.log| && HeldFirst(k.log, start)
      ensures r.Ok? ==> Ordered() && Fenced() && Walked() && Clear() && Stretch(old(Now()), Now())
      ensures r.Ok? ==> ChainRead(old(k.s), k.s, t, anchor, r.value) && t.names == seen && ChainMet(t, anchor, r.value)
      ensures r.Ok? && HasCommondir(pins) ==> HasCommondir(old(pins)) || r.value
      ensures r.Ok? && flat ==> g.busy == {} && (r.value ==> ChainHeld(k.s.w.ns, g.c, anchor))
      ensures r.Ok? && flat ==> Private(t.tested.w.ns, anchor).end == Some(t.private)
                                && Resolve(t.tested.w.ns, anchor).named == r.value
      ensures whole == old(whole) && Carry(old(k.s), k.s)
      ensures r.Fail? ==> PlainlyReports(old(k.s), k.s, r.failure)
    {
      hide StateOK, Settled, Fence, Walk, Follow, Guarded, Placed, PinsPlaced, OwnHolds, AllInherit, Carry, HeldAt,
           LinkAt, Covered, NoFollow, HeldFirst, HeldSince, Crooked, Roles, HasCommondir, Agree, PinsApart, Handles,
           WorldOK, Private, Join, ChainHeld, PinsOwn, Since, Settled, AllPinned, Explored, Stretch, Met, TextAt,
           PrivateRead, Resolve;
      ghost var began := Now();
      var private;
      private, t := PrivateChain(anchor, depth);
      StateWorlds(k.s, k.s);
      if private.Fail? { return Fail(private.failure), t; }
      ghost var one := Now();
      var commondir := private.value + [COMMONDIR];
      ghost var s1, g1 := k.s, g;
      var present := TestName(commondir);
      StateWorlds(k.s, k.s);
      CarryOn(began.s, s1, k.s);
      CarryOn(t.pointed, s1, k.s);
      if present.Fail? { return Fail(present.failure), t; }
      ghost var two := Now();
      StretchIdle(one, two);
      StretchThen(began, one, two);
      if flat {
        PrivateAgrees(s1.w, k.s.w, g1.c, anchor);
        TestedNamed(k.s.w.ns, anchor, private.value);
      }
      CarryNone(k.s);
      SameRead(began.s, t, anchor, k.s, k.s, seen);
      t := t.(tested := k.s, read := k.s, names := seen);
      if !present.value { return Ok(false), t; }
      var walked, read, text := CommondirChain(anchor, private.value, commondir, depth);
      CarryOn(began.s, two.s, k.s);
      if walked.Fail? { return Fail(walked.failure), t; }
      SameRead(began.s, t, anchor, t.tested, read, seen);
      t := t.(read := read, text := text, names := seen);
      StretchThen(began, two, Now());
      StretchMeans(two, Now());
      MetMore(anchor + [GIT], two.seen, seen);
      MetMore(private.value, two.seen, seen);
      return Ok(true), t;
    }

    /** The original hold is let go, exactly once; the replacement stays. */
    method Retire(original: Pin, ghost before: seq<Pin>, ghost parents: set<Path>) returns (r: Result<()>)
      requires !whole
      requires k.OK() && Settled(base, k.s, Owning() + {original.handle}) && original.handle !in Owning()
      requires PinsApart(pins) && other !! Handles(pins) && AllInherit(k.s, pins)
      requires start <= |k.log| && HeldFirst(k.log, start) && (forall n :: n in seen ==> HeldSince(k.log, start, n))
      requires Fenced() && Clear() && original.handle in k.s.table
      requires flat ==> k.s.table[original.handle].grant !in g.gs && Childed(k.s, g, pins, parents)
      modifies k`s
      ensures Owned() && start <= |k.log| && HeldFirst(k.log, start)
      ensures r.Ok? ==> Ordered() && Fenced() && Clear() && SameObjects(old(k.s), k.s, pins, pins)
      ensures r.Ok? && flat ==> Childed(k.s, g, pins, parents) && Agree(old(k.s).w.ns, k.s.w.ns, g.c)
      ensures r.Ok? ==> OthersKept(old(k.s), k.s, g, g, other)
      ensures Carry(old(k.s), k.s) && KeepsTable(old(k.s), k.s, {original.handle})
      ensures r.Fail? ==> PlainlyReports(old(k.s), k.s, r.failure)
    {
      hide StateOK, Settled, Fence, Walk, Follow, Guarded, Placed, Carry, HeldFirst, HeldSince, Crooked, Roles,
           HasCommondir, Agree, HasChild, Childed;
      ghost var s0 := k.s;
      OnePin(original);
      OwnedUntried(base, s0, Owning() + {original.handle}, pins);
      var refused := Abandon(k, [], [original]);
      assert {} + {original.handle} == {original.handle};
      assert Settled(base, k.s, Owning()) by {
        assert Owning() + {original.handle} - ({} + {original.handle}) == Owning();
      }
      forall i | 0 <= i < |pins| ensures pins[i].handle != original.handle { assert pins[i].handle in Handles(pins); }
      OthersByCarry(base, s0, k.s, g, Owning() + {original.handle}, other, {} + {original.handle});
      OpensKept(s0, k.s, pins, original.handle);
      if flat {
        UntriedBut(s0, k.s, g, original.handle);
        PlacedCarried(s0, k.s, g, pins);
        ChildedCarried(s0, k.s, g, pins, parents);
      }
      if refused != [] { return Fail(Stranded(refused, Some(Refused))); }
      return Ok(());
    }

    /** An owned handle's object, asked of the handle itself. */
    method Inquire(h: int, ghost parents: set<Path>) returns (r: Result<Info>)
      requires Owned() && Ordered() && Fenced() && h in k.s.table
      requires flat ==> Childed(k.s, g, pins, parents)
      modifies k`s
      ensures Owned() && Ordered() && Fenced() && k.s.refused == old(k.s).refused && SameObjects(old(k.s), k.s, pins, pins)
      ensures Carry(old(k.s), k.s) && k.s.table == old(k.s).table && k.s.tried == old(k.s).tried
      ensures flat ==> Childed(k.s, g, pins, parents) && Agree(old(k.s).w.ns, k.s.w.ns, g.c)
      ensures SameOpens(old(k.s), k.s)
      ensures OthersKept(old(k.s), k.s, g, g, other)
      ensures r.Ok? ==> r.value.id == OpenOf(k.s, h).id
                        && forall p :: p in k.s.w.ns && k.s.w.ns[p].id == r.value.id ==> k.s.w.ns[p].node == r.value.node
      ensures r.Fail? ==> r.failure == Refused
    {
      hide Settled, Fence, Walk, Follow, Guarded, Placed, Carry, HeldFirst, HeldSince, Crooked, Roles, HasCommondir,
           Agree, HasChild, Childed, NoFollow, Handles, WorldOK;
      ghost var s0 := k.s;
      OwnedUntried(base, s0, Owning(), pins);
      r := k.Inform(h);
      Undisturbed(base, s0, k.s, Owning(), pins, flat, g);
      OthersByCarry(base, s0, k.s, g, Owning(), other, {});
      if flat {
        ChildedCarried(s0, k.s, g, pins, parents);
      }
    }

    /** The replacement, opened and owned beside the original. */
    method Reopen(index: nat, ghost parents: set<Path>) returns (r: Result<()>)
      requires !whole
      requires Owned() && Ordered() && Fenced() && Clear() && index < |pins|
      requires flat ==> Childed(k.s, g, pins, parents)
      modifies this`pins, k`s, k`log
      ensures old(k.log) <= k.log
      ensures Owned() && start <= |k.log| && HeldFirst(k.log, start)
      ensures r.Ok? ==>
                && Ordered() && Fenced() && Clear() && |pins| == |old(pins)| + 1 && pins[..|old(pins)|] == old(pins)
                && SameObjects(old(k.s), k.s, old(pins), old(pins))
                && var last := pins[|old(pins)|];
                   && last.path == old(pins)[index].path && last.role == old(pins)[index].role
                   && last.handle in k.s.table && OpenOf(k.s, last.handle).share == {Read, Write}
                   && (flat ==> k.s.table[last.handle].grant !in g.gs)
      ensures r.Ok? && flat ==> Childed(k.s, g, pins, parents) && Agree(old(k.s).w.ns, k.s.w.ns, g.c)
      ensures r.Ok? ==> OthersKept(old(k.s), k.s, g, g, other)
      ensures Carry(old(k.s), k.s) && (r.Ok? ==> KeepsTable(old(k.s), k.s, {}))
      ensures r.Fail? ==> PlainlyReports(old(k.s), k.s, r.failure)
    {
      hide StateOK, Settled, Fence, Walk, Follow, Guarded, Placed, PinsOwn, Since, AllInherit, Carry, HeldFirst, HeldSince,
           Crooked, Roles, HasCommondir, Agree, HasChild, Childed, NoFollow, Handles, WorldOK, SameObjects,
           OthersKept;
      ghost var s0 := k.s;
      OwnedUntried(base, s0, Owning(), pins);
      var got := OpenSharedPin(k, pins[index].path, pins[index].role, {Read, Write});
      HeldFirstTried(old(k.log), k.log, start, pins[index].path);
      if got.Fail? { return Fail(got.failure); }
      var pin := got.value;
      HandlesExtended(pins, pin);
      assert Settled(base, k.s, Owning() + {pin.handle});
      assert pin.handle !in Owning() by { OwnedLive(base, s0, pins, other); }
      assert Handles(pins + [pin]) + other == Owning() + {pin.handle};
      if flat {
        PlacedCarried(s0, k.s, g, pins);
        ChildedCarried(s0, k.s, g, pins, parents);
        FreshGrant(s0, g, k.s.table[pin.handle].grant);
        ChildedOutside(k.s, g, pins, pin, parents);
      }
      OthersByCarry(base, s0, k.s, g, Owning(), other, {});
      ObjectsKept(s0, k.s, pins);
      InheritMore(s0, k.s, pins, pin, {Read, Write});
      pins := pins + [pin];
      return Ok(());
    }

    /** The replacement beside the original, once both answer for one object. */
    method Double(index: nat, ghost parents: set<Path>) returns (r: Result<()>)
      requires !whole
      requires Owned() && Ordered() && Fenced() && Clear() && index < |pins|
      requires flat ==> Childed(k.s, g, pins, parents)
      modifies this`pins, k`s, k`log
      ensures old(k.log) <= k.log
      ensures Owned() && start <= |k.log| && HeldFirst(k.log, start)
      ensures r.Ok? ==>
                && Ordered() && Fenced() && Clear() && |pins| == |old(pins)| + 1 && pins[..|old(pins)|] == old(pins)
                && SameObjects(old(k.s), k.s, old(pins), old(pins))
                && var last := pins[|old(pins)|];
                   && last.path == old(pins)[index].path && last.role == old(pins)[index].role
                   && last.handle in k.s.table && OpenOf(k.s, last.handle).share == {Read, Write}
                   && (flat ==> k.s.table[last.handle].grant !in g.gs)
                   && old(pins)[index].handle in k.s.table
                   && OpenOf(k.s, last.handle).id == OpenOf(k.s, old(pins)[index].handle).id
      ensures r.Ok? && flat ==> Childed(k.s, g, pins, parents) && Agree(old(k.s).w.ns, k.s.w.ns, g.c)
      ensures r.Ok? ==> OthersKept(old(k.s), k.s, g, g, other)
      ensures Carry(old(k.s), k.s) && (r.Ok? ==> KeepsTable(old(k.s), k.s, {}))
      ensures r.Fail? ==> PlainlyReports(old(k.s), k.s, r.failure)
    {
      hide StateOK, Settled, Fence, Walk, Follow, Guarded, Placed, PinsPlaced, Carry, HeldFirst, HeldSince, Crooked,
           Roles, HasCommondir, Agree, HasChild, Childed, NoFollow, Handles, OwnHolds, PinsApart, PinsOwn, Since,
           AllInherit, OthersKept;
      ghost var s1, before := k.s, pins;
      var original := pins[index];
      var reopened := Reopen(index, parents);
      if reopened.Fail? { return Fail(reopened.failure); }
      ghost var s2 := k.s;
      var replacement := pins[|pins| - 1];
      var fresh_ := Inquire(replacement.handle, parents);
      CarryOn(s1, s2, k.s);
      if fresh_.Fail? { return Fail(fresh_.failure); }
      ghost var s3 := k.s;
      var held := Inquire(original.handle, parents);
      CarryOn(s1, s3, k.s);
      if held.Fail? { return Fail(held.failure); }
      if fresh_.value.id != held.value.id { return Fail(Refused); }
      OthersThrough(s1, s2, s3, g, g, g, other);
      OthersThrough(s1, s3, k.s, g, g, g, other);
      PrefixSame(s2, s3, before, replacement);
      PrefixSame(s3, k.s, before, replacement);
      SameThen(s1, s2, s3, before, before, before);
      SameThen(s1, s3, k.s, before, before, before);
      if flat {
        AgreeTwice(s1.w.ns, s2.w.ns, s3.w.ns, g.c);
        AgreeTwice(s1.w.ns, s3.w.ns, k.s.w.ns, g.c);
      }
      return Ok(());
    }

    /** One pin's sharing adjusted: an ordinary directory among `parents` is opened
        again, sharing writes; the two must be one object; the old hold is let go. */
    method RelaxAt(index: nat, ghost parents: set<Path>) returns (r: Result<()>)
      requires !whole
      requires Owned() && Ordered() && Fenced() && Clear() && index < |pins| && pins[index].path in parents
      requires flat ==> Childed(k.s, g, pins, parents)
      modifies this`pins, this`g, k`s, k`log
      ensures old(k.log) <= k.log
      ensures Owned() && start <= |k.log| && HeldFirst(k.log, start)
      ensures r.Ok? ==> Ordered() && Fenced() && Clear() && SameObjects(old(k.s), k.s, old(pins), pins)
      ensures r.Ok? ==> forall i :: 0 <= i < |pins| && i != index ==> pins[i] == old(pins)[i]
      ensures r.Ok? && flat ==> && Childed(k.s, g, pins, parents) && g == old(g).(gs := g.gs)
                                && Agree(old(k.s).w.ns, k.s.w.ns, g.c)
      ensures r.Ok? ==> OthersKept(old(k.s), k.s, old(g), g, other)
      ensures Carry(old(k.s), k.s)
      ensures r.Ok? ==> KeepsTable(old(k.s), k.s, {old(pins)[index].handle}) || KeepsTable(old(k.s), k.s, {})
      ensures r.Ok? ==> Adjusted(old(k.s), k.s, old(pins)[index], pins[index])
      ensures r.Fail? ==> PlainlyReports(old(k.s), k.s, r.failure)
    {
      hide StateOK, Settled, Fence, Walk, Follow, Guarded, Placed, PinsPlaced, Carry, HeldFirst, HeldSince, Crooked,
           Roles, HasCommondir, Agree, HasChild, Childed, NoFollow, Handles, OthersKept, OwnHolds, SameObjects,
           AllInherit, KeepsTable, Adjusted, PinsOwn;
      ghost var s0, before := k.s, pins;
      var original := pins[index];
      OwnedUntried(base, s0, Owning(), pins);
      var info := Inquire(original.handle, parents);
      if info.Fail? { return Fail(info.failure); }
      if info.value.node != Dir {
        NotDirectoryNow(s0, k.s, original);
        SameTable(s0, k.s);
        return Ok(());
      }
      ghost var s1 := k.s;
      var doubled := Double(index, parents);
      CarryOn(s0, s1, k.s);
      if doubled.Fail? { return doubled; }
      ghost var s4 := k.s;
      var replacement := pins[|pins| - 1];
      OthersThrough(s0, s1, s4, g, g, g, other);
      SameThen(s0, s1, s4, before, before, before);
      if flat { AgreeTwice(s0.w.ns, s1.w.ns, s4.w.ns, g.c); }
      OwnedUntried(base, s4, Owning(), pins);
      SwapOwned(pins, before, index, replacement, other);
      if flat {
        Swappable(s1, s4, g, before, index, replacement, info.value, parents);
      }
      ghost var g4 := g;
      if flat { g := Swapped(s4, g, original, replacement); }
      assert replacement.handle !in other by { assert pins[|before|] == replacement; LastIn(pins); }
      OthersSwapped(s4, g4, original, replacement, other);
      OthersThrough(s0, s4, s4, g4, g4, g, other);
      pins := pins[index := replacement];
      pins := pins[..|pins| - 1];
      assert pins == before[index := replacement];
      SameSwapped(s0, s4, before, index, replacement);
      AllInheritSwapped(s4, before, index, replacement);
      var retired := Retire(original, before, parents);
      CarryOn(s0, s4, k.s);
      if retired.Ok? {
        assert pins[index] == replacement;
        OwnedUntried(base, k.s, Owning(), pins);
        LooseStill(s4, k.s, replacement, original.handle);
        KeepsThrough(s0, s1, s4, {});
        KeepsThrough(s0, s4, k.s, {original.handle});
        SameThen(s0, s4, k.s, before, pins, pins);
        OthersThrough(s0, s4, k.s, g4, g, g, other);
        if flat { AgreeTwice(s0.w.ns, s4.w.ns, k.s.w.ns, g.c); }
      }
      return retired;
    }

    /** Every ordinary directory among the parents is adjusted, in place. */
    method RelaxParentPins(heldChild: Option<Path>) returns (r: Result<()>)
      requires Owned() && Ordered() && Fenced() && Clear() && !whole
      requires flat ==> Childed(k.s, g, pins, ParentNames(pins, heldChild))
      modifies this`pins, this`g, k`s, k`log
      ensures old(k.log) <= k.log
      ensures Owned() && start <= |k.log| && HeldFirst(k.log, start)
      ensures r.Ok? ==> Ordered() && Fenced() && Clear() && SameObjects(old(k.s), k.s, old(pins), pins)
      ensures r.Ok? ==>
                forall i :: 0 <= i < |pins| && pins[i] != old(pins)[i] ==> pins[i].path in ParentNames(old(pins), heldChild)
      ensures r.Ok? && flat ==> Childed(k.s, g, pins, ParentNames(old(pins), heldChild))
      ensures r.Ok? && flat ==> g == old(g).(gs := g.gs) && Agree(old(k.s).w.ns, k.s.w.ns, g.c)
      ensures r.Ok? ==> OthersKept(old(k.s), k.s, old(g), g, other)
      ensures Carry(old(k.s), k.s)
      ensures r.Ok? ==> AllAdjusted(old(k.s), k.s, old(pins), pins, ParentNames(old(pins), heldChild), |pins|)
      ensures r.Fail? ==> PlainlyReports(old(k.s), k.s, r.failure)
    {
      hide StateOK, Settled, Fence, Walk, Follow, Guarded, Placed, PinsPlaced, Carry, HeldFirst, HeldSince, Crooked,
           Roles, HasCommondir, Agree, HasChild, Childed, NoFollow, Handles, OwnHolds, PinsApart, Adjusted, KeepsTable,
           SameObjects, AllInherit, OthersKept;
      ghost var s0 := k.s;
      var parents := ParentNames(pins, heldChild);
      OwnedUntried(base, s0, Owning(), pins);
      SameFirst(s0, pins);
      AgreeSelf(s0, g, flat);
      CarryNone(s0);
      OthersSelf(s0, g, other);
      for index := 0 to |pins|
        invariant Owned() && Ordered() && Fenced() && Clear() && |pins| == |old(pins)| && old(k.log) <= k.log
        invariant SameObjects(s0, k.s, old(pins), pins)
        invariant forall i :: index <= i < |pins| ==> pins[i] == old(pins)[i]
        invariant forall i :: 0 <= i < |pins| && pins[i] != old(pins)[i] ==> pins[i].path in parents
        invariant Carry(s0, k.s) && AllAdjusted(s0, k.s, old(pins), pins, parents, index)
        invariant OthersKept(s0, k.s, old(g), g, other)
        invariant flat ==> Childed(k.s, g, pins, parents) && g == old(g).(gs := g.gs)
        invariant flat ==> Agree(s0.w.ns, k.s.w.ns, g.c)
      {
        ghost var s1, before, g1 := k.s, pins, g;
        if pins[index].path in parents {
          var relaxed := RelaxAt(index, parents);
          CarryOn(s0, s1, k.s);
          if relaxed.Fail? { return relaxed; }
          SameThen(s0, s1, k.s, old(pins), before, pins);
          AdjustedMore(base, s0, s1, k.s, old(pins), before, pins, parents, index, Owning());
          OthersThrough(s0, s1, k.s, old(g), g1, g, other);
          if flat { AgreeTwice(s0.w.ns, s1.w.ns, k.s.w.ns, g.c); }
        }
      }
      return Ok(());
    }
  }

  /** Every link of the chain pinned by a new walk, then the parents loosened. */
  method PinChain(walk: PinWalk, anchor: Path, depth: nat) returns (r: Result<()>, ghost named: bool, ghost t: Reading)
    requires walk.Owned() && walk.Ordered() && walk.Fenced() && walk.Walked() && walk.Clear() && walk.other == {}
    requires walk.base == walk.k.s && walk.start == |walk.k.log| && walk.pins == [] && walk.seen == {}
    requires walk.whole && walk.flat && walk.g == Guard({}, {}, {}, {})
    modifies walk, walk.k`s, walk.k`log
    ensures old(walk.k.log) <= walk.k.log
    ensures walk.Owned() && walk.start <= |walk.k.log| && HeldFirst(walk.k.log, walk.start) && Carry(walk.base, walk.k.s)
    ensures r.Ok? ==> walk.Ordered() && walk.Clear()
    ensures r.Ok? && walk.flat ==>
              && Pinned(walk.k.s, walk.pins, walk.g) && Since(walk.g, walk.base)
              && (named ==> ChainHeld(walk.k.s.w.ns, walk.g.c, anchor)) && Private(t.tested.w.ns, anchor).end == Some(t.private)
    ensures r.Ok? && !walk.flat ==> Crooked(walk.k.log, walk.start)
    ensures r.Ok? && HasCommondir(walk.pins) ==> named
    ensures r.Ok? ==> ChainPinned(walk.base, walk.k.s, t, anchor, named, walk.pins)
                      && Explored(walk.k.log, walk.start, t.names, t.names) && ParentsLoose(walk.k.s, walk.pins)
    ensures r.Fail? ==> PlainlyReports(walk.base, walk.k.s, r.failure)
  {
    hide StateOK, Settled, Fence, Walk, Follow, Guarded, Placed, PinsPlaced, Carry, HeldFirst, HeldSince, Crooked,
         Roles, HasCommondir, Agree, HasChild, Childed, Tight, NoFollow, Handles, OwnHolds, PinsApart, ChainHeld,
         Private, Stretch, ChainRead, ChainMet, AllPinned, Explored, AllAdjusted, SameObjects, OthersKept, AllInherit,
         PinsOwn, Since, ChainPinned, ParentsLoose, Resolve;
    named := false;
    ghost var began := walk.Now();
    var chain;
    chain, t := walk.ResolutionChain(anchor, depth);
    if chain.Fail? { return Fail(chain.failure), named, t; }
    named := chain.value;
    ghost var walked := walk.Now();
    OneRole([], [], REPOSITORY);
    if walk.flat { WalkChilded(walk.k.s, walk.g, walk.pins); }
    walk.whole := false;
    r := walk.RelaxParentPins(None);
    CarryOn(began.s, walked.s, walk.k.s);
    if r.Fail? { return; }
    SameRoles(walked.s, walk.k.s, walked.pins, walk.pins);
    AdjustedEach(walked.s, walk.k.s, walked.pins, walk.pins, ParentNames(walked.pins, None), |walk.pins|);
    Relaxed(walked.s, walk.k.s, walked.pins, walk.pins, t, anchor, named, began.s);
    ExploredAll(began, walked, walk.k.log, t.names);
    if walk.flat {
      ChildedTight(walk.k.s, walk.g, walk.pins, ParentNames(walked.pins, None));
      if named {
        StateWorlds(walked.s, walk.k.s);
        ChainAgrees(walked.s.w, walk.k.s.w, walked.g.c, anchor);
      }
    } else {
      CrookedOn(walked.log, walk.k.log, walk.start, walk.start);
    }
  }

  /** Pin every link of the chain, then loosen the parents; a failure lets every pin
      taken go. `flat` and `g` say what the pins hold, `t` what was read of the chain, and
      `named` that a `commondir` file was there. */
  method OpenPins(k: Kernel, anchor: Path, depth: nat)
    returns (r: Result<seq<Pin>>, ghost named: bool, ghost flat: bool, ghost g: Guard, ghost t: Reading)
    requires k.OK()
    modifies k`s, k`log
    ensures k.OK() && |old(k.log)| <= |k.log| && HeldFirst(k.log, |old(k.log)|) && Carry(old(k.s), k.s)
    ensures r.Ok? ==> Settled(old(k.s), k.s, Handles(r.value)) && PinsApart(r.value) && AllInherit(k.s, r.value)
                      && k.s.refused == old(k.s).refused
    ensures r.Ok? && flat ==> Pinned(k.s, r.value, g) && Since(g, old(k.s)) && (named ==> ChainHeld(k.s.w.ns, g.c, anchor))
    ensures old(k.log) <= k.log && (r.Ok? && !flat ==> Crooked(k.log, |old(k.log)|))
    ensures r.Ok? && HasCommondir(r.value) ==> named
    ensures r.Ok? ==> ChainPinned(old(k.s), k.s, t, anchor, named, r.value)
                      && Explored(k.log, |old(k.log)|, t.names, t.names) && ParentsLoose(k.s, r.value)
    ensures r.Ok? && flat ==> Private(t.tested.w.ns, anchor).end == Some(t.private)
    ensures r.Fail? ==> Settled(old(k.s), k.s, {}) && PlainlyReports(old(k.s), k.s, r.failure)
  {
    hide StateOK, Settled, Fence, Walk, Follow, Guarded, Placed, PinsPlaced, Carry, HeldFirst, HeldSince, Crooked,
         HasCommondir, Handles, OwnHolds, PinsApart, ChainHeld, Private, Explored, AllInherit, PinsOwn, Since,
         ChainPinned, ParentsLoose, AllPinned, Pinned;
    ghost var began := k.s;
    var walk := new PinWalk(k);
    var pinned;
    pinned, named, t := PinChain(walk, anchor, depth);
    flat, g := walk.flat, walk.g;
    assert Handles(walk.pins) + {} == Handles(walk.pins);
    if pinned.Ok? { return Ok(walk.pins), named, flat, g, t; }
    ghost var s2 := k.s;
    OwnedLive(old(k.s), s2, walk.pins, {});
    NoNumbers();
    var refused := Abandon(k, [], walk.pins);
    CarryOn(began, s2, k.s);
    assert Settled(old(k.s), k.s, {}) by {
      assert Handles(walk.pins) - ({} + Handles(walk.pins)) == {};
    }
    ReportsThen(old(k.s), s2, k.s, pinned.failure, refused);
    r := Fail(Reraise(pinned.failure, refused));
  }
}
