// Opening the lease file under the held common directory.
module LeaseOpens {
  import opened Options
  import opened Namespace
  import opened Fences
  import opened Mapping
  import opened Strands
  import opened Kernels
  import opened Cleanup
  import opened Guards
  import opened Relaxing
  import opened PinFacts
  import opened Pins
  import opened Bindings

  /** The lease file stands, fenced, in the directory the checkout maps to. */
  ghost predicate LeaseAt(ns: map<Path, Entry>, c: set<Path>, anchor: Path, dir: nat, file: nat) {
    && MapsTo(ns, c, anchor, dir)
    && var home := Follow(ns, Resolve(ns, anchor).name.value).end.value + [LEASE];
       home in c && home in ns && ns[home].id == file
  }

  lemma LeaseAgrees(v: World, w: World, c: set<Path>, anchor: Path, dir: nat, file: nat)
    requires WorldOK(v) && WorldOK(w) && Agree(v.ns, w.ns, c) && LeaseAt(v.ns, c, anchor, dir, file)
    ensures LeaseAt(w.ns, c, anchor, dir, file)
  {
    ChainAgrees(v, w, c, anchor);
    MapsAgrees(v, w, c, anchor, dir);
  }

  /** What makes a lease sure: every link met was written as what it reached, the
      checkout's reading had a `commondir` file in it when one was asked for, and what was
      opened under the directory's name was the directory bound, at that name. */
  ghost predicate Sure(log: seq<Event>, start: nat, tested: State, b: Binding) {
    !Crooked(log, start) && Resolve(tested.w.ns, b.anchor).named && AtHome(log, start, b.common, b.commonId)
  }

  /** The guard with the lease file in it, when its directory is fenced. */
  ghost function WithLease(s: State, g: Guard, h: int, p: Path): Guard
    requires h in s.table && p != []
  {
    if Parent(p) == [] || Parent(p) in g.c then g.(gs := g.gs + {s.table[h].grant}, c := g.c + {p}) else g
  }

  lemma ParentOfLease(s: State, common: Path, p: Path)
    requires StateOK(s) && NoFollow(s.w.ns, common + [LEASE]) == Some(p)
    ensures p != [] && Follow(s.w.ns, common).end == Some(Parent(p)) && Parent(p) + [LEASE] == p
    ensures IsDirectory(s.w.ns, Parent(p))
  {
    assert Parent(common + [LEASE]) == common;
  }

  /** A pinned common directory has the lease file for its held child. */
  lemma LeaseIsChild(s: State, g: Guard, common: Path, z: nat, h: int, p: Path)
    requires StateOK(s) && h in s.table && Placed(s.w, g, common, z) && DirAt(s.w.ns, common)
    requires NoFollow(s.w.ns, common + [LEASE]) == Some(p) && p in s.w.ns && OpenOf(s, h).id == s.w.ns[p].id
    requires OpenOf(s, h).share == {Read} && p != []
    ensures HasChild(s.w, WithLease(s, g, h, p), common)
  {
    hide Walk, Follow;
    var g' := WithLease(s, g, h, p);
    ParentOfLease(s, common, p);
    HeldCovers(s.w, g.c, common);
    CoveredGrows(s.w.ns, g.c, g'.c, common);
    assert Parent(common + [LEASE]) == common;
    assert Placed(s.w, g', common + [LEASE], s.table[h].grant);
  }

  lemma ChildStays(w: World, g: Guard, g': Guard, n: Path)
    requires forall m, y :: Placed(w, g, m, y) ==> Placed(w, g', m, y)
    ensures HasChild(w, g, n) ==> HasChild(w, g', n)
  {
    hide Placed;
    if HasChild(w, g, n) {
      var m, z := Child(w, g, n);
      assert Placed(w, g', m, z);
    }
  }

  /** With the lease in the guard, the common directory's pins may be loosened. */
  lemma LeaseChilds(s: State, g: Guard, pins: seq<Pin>, common: Path, h: int, p: Path)
    requires StateOK(s) && PinsPlaced(s, g, pins) && Tight(s, g, pins) && h in s.table
    requires forall i :: 0 <= i < |pins| ==> pins[i].handle != h
    requires NoFollow(s.w.ns, common + [LEASE]) == Some(p) && p in s.w.ns && OpenOf(s, h).id == s.w.ns[p].id
    requires OpenOf(s, h).share == {Read} && p != []
    requires forall m, y :: Placed(s.w, g, m, y) ==> Placed(s.w, WithLease(s, g, h, p), m, y)
    ensures PinsPlaced(s, WithLease(s, g, h, p), pins) && Childed(s, WithLease(s, g, h, p), pins, {common})
  {
    hide Walk, Follow, NoFollow, Placed, HasChild, DirAt, WorldOK;
    var g' := WithLease(s, g, h, p);
    forall i | 0 <= i < |pins| && pins[i].handle in s.table && s.table[pins[i].handle].grant in g'.gs
      ensures s.table[pins[i].handle].grant in g.gs
      ensures HasChild(s.w, g, pins[i].path) ==> HasChild(s.w, g', pins[i].path)
      ensures pins[i].path == common && DirAt(s.w.ns, common) ==> HasChild(s.w, g', common)
    {
      OtherGrant(s, pins[i].handle, h);
      ChildStays(s.w, g, g', pins[i].path);
      if pins[i].path == common && DirAt(s.w.ns, common) {
        LeaseIsChild(s, g, common, s.table[pins[i].handle].grant, h, p);
      }
    }
  }

  lemma MapsGrows(ns: map<Path, Entry>, c: set<Path>, more: set<Path>, anchor: Path, id: nat)
    requires c <= more && MapsTo(ns, c, anchor, id)
    ensures MapsTo(ns, more, anchor, id)
  {
  }

  /** Where the directory's own name is fenced, the lease landed in the directory the
      checkout maps to. */
  lemma HomedLands(s: State, g: Guard, b: Binding, h: int, p: Path)
    requires StateOK(s) && Guarded(s.w, g) && h in s.table && MapsTo(s.w.ns, g.c, b.anchor, b.commonId)
    requires NoFollow(s.w.ns, b.common + [LEASE]) == Some(p) && p in s.w.ns && OpenOf(s, h).id == s.w.ns[p].id
    requires Homed(s, b, g)
    ensures p != [] && LeaseAt(s.w.ns, WithLease(s, g, h, p).c, b.anchor, b.commonId, OpenOf(s, h).id)
  {
    ParentOfLease(s, b.common, p);
    var name := Resolve(s.w.ns, b.anchor).name.value;
    var e := Follow(s.w.ns, name).end.value;
    WalkEndsInside(s.w, [], name, MAX_LINKS);
    assert e == b.common == Parent(p);
    MapsGrows(s.w.ns, g.c, WithLease(s, g, h, p).c, b.anchor, b.commonId);
  }

  lemma LeaseGuard(s: State, g: Guard, b: Binding, named: bool, h: int, p: Path)
    requires StateOK(s) && Bound(s, b, g, named)
    requires h in s.table && s.table[h].grant !in s.tried && OpenOf(s, h).share == {Read}
    requires forall i :: 0 <= i < |b.pins| ==> b.pins[i].handle != h
    requires NoFollow(s.w.ns, b.common + [LEASE]) == Some(p) && p in s.w.ns && OpenOf(s, h).id == s.w.ns[p].id
    ensures p != []
    ensures var g' := WithLease(s, g, h, p);
            && OwnHolds(s, g') && Guarded(s.w, g') && PinsPlaced(s, g', b.pins)
            && Childed(s, g', b.pins, {b.common}) && g'.busy == {}
            && (named ==> MapsTo(s.w.ns, g'.c, b.anchor, b.commonId))
            && (named && Homed(s, b, g) ==> LeaseAt(s.w.ns, g'.c, b.anchor, b.commonId, OpenOf(s, h).id))
  {
    hide Fence, Walk, Follow, Guarded, PinsPlaced, Placed, Childed, MapsTo, NoFollow, LeaseAt, Homed, WorldOK;
    ParentOfLease(s, b.common, p);
    var g' := WithLease(s, g, h, p);
    if g' != g { GuardGrows(s.w, g, s.table[h].grant, p); }
    LeaseChilds(s, g, b.pins, b.common, h, p);
    if named {
      MapsGrows(s.w.ns, g.c, g'.c, b.anchor, b.commonId);
      if Homed(s, b, g) { HomedLands(s, g, b, h, p); }
    }
  }

  lemma BoundKept(a: State, c: State, b: Binding, g: Guard, named: bool)
    requires StateOK(a) && StateOK(c) && Carry(a, c) && Bound(a, b, g, named)
    requires KeepsTable(a, c, {}) && c.tried == a.tried
    requires forall i :: 0 <= i < |b.pins| ==> b.pins[i].handle in a.table
    ensures Bound(c, b, g, named) && (Homed(a, b, g) ==> Homed(c, b, g))
  {
    hide StateOK, Fence, Walk, Follow, Guarded, Placed, Carry, MapsTo, Resolve, Tight, Homed;
    PinnedCarried(a, c, g, b.pins);
    if Homed(a, b, g) { HomedAgrees(a, c, b, g); }
    if named {
      StateWorlds(a, c);
      MapsAgrees(a.w, c.w, g.c, b.anchor, b.commonId);
    }
  }

  /** The holder's record, read for the refusal's message; a record that is not an
      object is an error of its own, an unreadable one is not. */
  method HolderLine(k: Kernel, lease: Path) returns (r: Result<()>)
    requires k.OK()
    modifies k`s, k`log
    ensures old(k.log) <= k.log
    ensures k.OK() && Carry(old(k.s), k.s) && AddsNothing(old(k.s), k.s)
    ensures k.s.refused == old(k.s).refused && k.s.tried == old(k.s).tried
    ensures r.Fail? ==> r.failure == Fault
  {
    var text := k.ReadText(lease);
    var isObject: bool := *;
    if text.Ok? && !isObject { return Fail(Fault); }
    return Ok(());
  }

  const HEAD := "HEAD"
  const CONFIG := "config"

  /** An open of the object there stands among the others', each of which it goes with. */
  ghost predicate Admitted(w: World, p: Path, access: set<Right>, share: set<Right>) {
    p in w.ns && exists g :: g in w.opens && w.opens[g] == Open(w.ns[p].id, access, share) && Unopposed(w, g)
  }

  ghost predicate Unopposed(w: World, g: nat)
    requires g in w.opens
  {
    forall x :: x in w.opens && x != g && w.opens[x].id == w.opens[g].id ==> Compatible(w.opens[x], w.opens[g])
  }

  /** The directory's HEAD and config were files, one after the other; then the lease
      entry itself was opened, sharing reads alone, and it was no directory and no link. */
  ghost predicate EntryTaken(a: State, z: State, common: Path, access: set<Right>, file: nat,
                             head: State, config: State, at: State) {
    && StateOK(head) && Carry(a, head) && IsFile(head.w.ns, Follow(head.w.ns, common + [HEAD]).end)
    && StateOK(config) && Carry(head, config) && IsFile(config.w.ns, Follow(config.w.ns, common + [CONFIG]).end)
    && StateOK(at) && Carry(config, at) && Carry(at, z)
    && var p := NoFollow(at.w.ns, common + [LEASE]);
       && p.Some? && Called(at.w.ns, p.value, file) && Admitted(at.w, p.value, access, {Read})
       && OrdinaryFile(z.w.ns, file)
  }

  ghost predicate OrdinaryFile(ns: map<Path, Entry>, file: nat) {
    forall p :: p in ns && ns[p].id == file ==> ns[p].node.File?
  }

  /** The open of the lease entry did not go with one that was live. */
  ghost predicate EntryContended(a: State, z: State, common: Path, access: set<Right>, at: State) {
    && StateOK(at) && Carry(a, at) && Carry(at, z)
    && var p := NoFollow(at.w.ns, common + [LEASE]);
       p.Some? && Contends(at.w, p.value, access, {Read})
  }

  /** The open is the acquisition: write access, sharing reads alone, the entry itself
      and not what a link there names; anything but an ordinary file is refused.
      `at` is the state in which it opened; `contended` says that the kernel answered that
      another open stands against it. */
  method TakeLease(k: Kernel, common: Path, access: set<Right>, create: bool)
    returns (r: Result<()>, handle: int, ghost head: State, ghost before: State, ghost at: State, ghost contended: bool)
    requires k.OK()
    modifies k`s, k`log
    ensures old(k.log) <= k.log
    ensures k.OK() && Adds(old(k.s), k.s, One(handle)) && Carry(old(k.s), k.s)
    ensures k.s.refused == old(k.s).refused && k.s.tried == old(k.s).tried
    ensures r.Fail? ==> !r.failure.Stranded?
    ensures r.Ok? ==>
              && handle >= 0 && handle in k.s.table
              && StateOK(before) && Carry(old(k.s), before) && AddsNothing(old(k.s), before) && before.tried == old(k.s).tried
              && StateOK(at) && Carry(before, at) && Carry(at, k.s)
              && Adds(before, at, {handle}) && AddsNothing(at, k.s)
              && NoFollow(at.w.ns, common + [LEASE]).Some?
              && OpenedAt(before, at, handle, NoFollow(at.w.ns, common + [LEASE]).value, access, {Read})
              && EntryTaken(old(k.s), k.s, common, access, OpenOf(at, handle).id, head, before, at)
    ensures contended ==> r == Fail(Contended) || r == Fail(Fault)
    ensures r == Fail(Contended) ==> contended && handle == -1 && EntryContended(old(k.s), k.s, common, access, at)
  {
    hide StateOK, Settled, Fence, Walk, Follow, NoFollow, Carry, Contends, Admitted, Harmless, IsFile;
    ghost var s0 := k.s;
    handle, head, before, at, contended := -1, s0, s0, s0, false;
    AddsNone(s0);
    var first := k.TestFile(common + [HEAD]);
    AddsNone(k.s);
    ghost var s1 := k.s;
    head := s1;
    AddsJoin(s0, s1, s1, {});
    if first.Fail? { return Fail(OsError), handle, head, before, at, contended; }
    if !first.value { return Fail(Refused), handle, head, before, at, contended; }
    var config := k.TestFile(common + [CONFIG]);
    CarryOn(s0, s1, k.s);
    ghost var s2 := k.s;
    AddsNone(s2);
    AddsJoin(s1, s2, s2, {});
    AddsJoin(s0, s1, s2, {});
    if config.Fail? { return Fail(OsError), handle, head, before, at, contended; }
    if !config.value { return Fail(Refused), handle, head, before, at, contended; }
    before := s2;
    var reply := k.CreateFile(common + [LEASE], false, access, {Read}, create);
    ghost var s3 := k.s;
    at := s3;
    CarryOn(s0, s2, s3);
    AddsNone(s3);
    if reply.Violation? {
      AddsJoin(s2, s3, s3, {});
      AddsJoin(s0, s2, s3, {});
      var line := HolderLine(k, common + [LEASE]);
      CarryOn(s0, s3, k.s);
      AddsNone(k.s);
      AddsJoin(s3, k.s, k.s, {});
      AddsJoin(s0, s3, k.s, {});
      contended := true;
      return Fail(if line.Ok? then Contended else Fault), handle, head, before, at, contended;
    }
    if reply.Denied? {
      AddsJoin(s2, s3, s3, {});
      AddsJoin(s0, s2, s3, {});
      return Fail(Refused), handle, head, before, at, contended;
    }
    handle := reply.handle;
    AddsJoin(s0, s2, s3, {handle});
    var info := k.Inform(handle);
    CarryOn(s0, s3, k.s);
    AddsNone(k.s);
    AddsJoin(s0, s3, k.s, {handle});
    if info.Fail? { return Fail(Refused), handle, head, before, at, contended; }
    if !info.value.node.File? { return Fail(Refused), handle, head, before, at, contended; }
    OpenAdmitted(before, at, k.s, handle, NoFollow(at.w.ns, common + [LEASE]).value, access);
    return Ok(()), handle, head, before, at, contended;
  }

  lemma OpenAdmitted(a: State, b: State, c: State, h: int, p: Path, access: set<Right>)
    requires StateOK(b) && StateOK(c) && OpenedAt(a, b, h, p, access, {Read}) && Harmless(b, h)
    requires Carry(b, c) && c == b.(w := c.w)
    ensures Called(b.w.ns, p, OpenOf(b, h).id) && Admitted(b.w, p, access, {Read})
  {
    hide WorldOK;
    assert Unopposed(b.w, b.table[h].grant);
  }

  lemma AddsNone(a: State)
    ensures Adds(a, a, {})
  {
  }

  /** A call that adds nothing before or after one that adds changes nothing. */
  lemma AddsJoin(a: State, b: State, c: State, gained: set<int>)
    requires ((AddsNothing(a, b) || Adds(a, b, {})) && Adds(b, c, gained)) || (Adds(a, b, gained) && AddsNothing(b, c))
    ensures Adds(a, c, gained)
  {
    hide Settled;
    forall base, owned: set<int> | Settled(base, a, owned) ensures Settled(base, c, owned + gained) {
      assert owned + {} == owned;
      assert Settled(base, b, owned) || Settled(base, b, owned + gained);
    }
  }

  /** What the guard says of a lease: its checkout keeps mapping to the directory the
      lease file stands in. */
  ghost predicate Secured(s: State, g: Guard, b: Binding, file: nat) {
    OwnHolds(s, g) && Guarded(s.w, g) && LeaseAt(s.w.ns, g.c, b.anchor, b.commonId, file)
  }

  lemma SecuredCarried(a: State, c: State, g: Guard, b: Binding, file: nat)
    requires StateOK(a) && StateOK(c) && Carry(a, c) && Secured(a, g, b, file)
    requires forall x :: x in g.gs ==> x !in c.tried
    ensures Secured(c, g, b, file)
  {
    hide StateOK, Fence, Walk, Follow, Guarded, LeaseAt, Carry;
    GuardCarried(a, c, g);
    StateWorlds(a, c);
    LeaseAgrees(a.w, c.w, g.c, b.anchor, b.commonId, file);
  }

  /** The common directory's pins loosened in place now that the lease file is held,
      and the binding asserted. The pins are in the out-parameter however it ends. */
  method Adjust(k: Kernel, b: Binding, directory: int, handle: int, ghost base: State,
                ghost secured: bool, ghost flat: bool, ghost g0: Guard, ghost file: nat)
    returns (r: Result<()>, pins: seq<Pin>, ghost g: Guard, ghost first: State, ghost q: Query)
    requires k.OK() && directory >= 0 && handle >= 0 && directory != handle
    requires Settled(base, k.s, Handles(b.pins) + {handle, directory}) && PinsApart(b.pins)
    requires {handle, directory} !! Handles(b.pins) && AllInherit(k.s, b.pins) && k.s.refused == base.refused
    requires flat ==> OwnHolds(k.s, g0) && Guarded(k.s.w, g0) && PinsPlaced(k.s, g0, b.pins) && Since(g0, base)
                      && Childed(k.s, g0, b.pins, {b.common})
    requires flat ==> directory in k.s.table && k.s.table[directory].grant !in g0.gs
    requires secured ==> flat && Secured(k.s, g0, b, file)
    requires handle in k.s.table && k.s.table[handle].grant in k.s.w.opens && OpenOf(k.s, handle).share == {Read}
    modifies k`s, k`log
    ensures old(k.log) <= k.log
    ensures k.OK() && Settled(base, k.s, Handles(pins) + {handle, directory}) && PinsApart(pins)
    ensures Carry(old(k.s), k.s)
    ensures {handle, directory} !! Handles(pins)
    ensures r.Ok? ==> AllInherit(k.s, pins) && k.s.refused == base.refused
    ensures r.Ok? ==> HandleKept(old(k.s), k.s, handle) && SamePaths(b.pins, pins)
    ensures r.Ok? ==> AllLoose(old(k.s), k.s, pins, {b.common}) && Intact(old(k.s), k.s, b, first, q)
    ensures r.Ok? && secured ==> Secured(k.s, g, b, file) && Since(g, base)
                                 && directory in k.s.table && k.s.table[directory].grant !in g.gs
    ensures r.Fail? ==> PlainlyReports(base, k.s, r.failure)
  {
    hide StateOK, Settled, Fence, Walk, Follow, Guarded, Placed, PinsPlaced, Carry, Agree, HeldFirst, HeldSince,
         OwnHolds, LeaseAt, Childed, Handles, NoFollow, Stays, AllLoose, Loose, SamePaths, Intact;
    ghost var s0 := k.s;
    g, first, q := g0, s0, Query([], s0, s0);
    SettledGrants(base, s0, Handles(b.pins) + {handle, directory});
    var walk := new PinWalk.Adjusting(k, b.pins, base, {handle, directory}, flat, g0);
    assert Above(b.common + [LEASE]) == b.common;
    var relaxed := walk.RelaxParentPins(Some(b.common + [LEASE]));
    pins := walk.pins;
    g := walk.g;
    ghost var s1 := k.s;
    ghost var all := Handles(pins) + {handle, directory};
    if relaxed.Fail? { return Fail(relaxed.failure), pins, g, first, q; }
    ObjectPaths(s0, s1, b.pins, pins);
    LooseNow(s0, s1, b.pins, pins, {b.common});
    if secured { SecuredRelaxed(s0, s1, g0, g, b, file); }
    var asserted;
    asserted, first, q := AssertBinding(k, b);
    CarryOn(s0, s1, k.s);
    ghost var s2 := k.s;
    SettledGrants(base, s2, all);
    SettledGrants(base, s1, all);
    HandlesLive(s1, pins);
    InheritThrough(s1, s2, pins);
    if asserted.Fail? { return Fail(asserted.failure), pins, g, first, q; }
    IntactSince(s0, s1, s2, s2, b, first, q) by { CarryNone(s2); }
    LooseIdle(base, s0, s1, s2, pins, {b.common}, all);
    OpenCarried(s1, s2, handle);
    NothingKeeps(s1, s2);
    StaysCarried(s1, s2, handle);
    StaysOn(s0.w.ns, s1.w.ns, s2.w.ns, OpenOf(s0, handle).id);
    if secured {
      UntriedStays(s1, s2, g);
      SecuredCarried(s1, s2, g, b, file);
    }
    return Ok(()), pins, g, first, q;
  }

  lemma ObjectPaths(a: State, b: State, before: seq<Pin>, after: seq<Pin>)
    requires SameObjects(a, b, before, after)
    ensures SamePaths(before, after)
  {
  }

  lemma IntactSince(a: State, b: State, c: State, d: State, x: Binding, first: State, q: Query)
    requires Carry(a, b) && Intact(b, c, x, first, q) && Carry(c, d)
    ensures Intact(a, d, x, first, q)
  {
    hide Carry, StateOK, Resolve, ReachesIdentity;
    CarryOn(a, b, first);
    CarryOn(q.looked, c, d);
  }

  /** Loose pins stay so over a call that adds nothing. */
  lemma LooseIdle(base: State, a: State, y: State, z: State, pins: seq<Pin>, parents: set<Path>, owned: set<int>)
    requires StateOK(y) && StateOK(z) && Carry(y, z) && AddsNothing(y, z) && AllLoose(a, y, pins, parents)
    requires Settled(base, y, owned) && Handles(pins) <= owned
    ensures AllLoose(a, z, pins, parents)
  {
    hide StateOK, Carry, AllLoose, Settled;
    NothingKeeps(y, z);
    OwnedUntried(base, y, owned, pins);
    OwnedUntried(base, z, owned, pins);
    LooseOn(a, y, z, pins, parents);
  }

  /** The handle's open is the same, and what it is on has not left its place. */
  ghost predicate HandleKept(a: State, b: State, h: int)
    requires StateOK(a) && h in a.table
  {
    StateOK(b) && h in b.table && OpenOf(b, h) == OpenOf(a, h) && Stays(a.w.ns, b.w.ns, OpenOf(a, h).id)
  }

  lemma HandleKeptThrough(a: State, b: State, c: State, h: int)
    requires StateOK(a) && h in a.table && HandleKept(a, b, h) && HandleKept(b, c, h)
    ensures HandleKept(a, c, h)
  {
  }

  /** The pins adjusted and the directory's temporary handle let go: what is left is the
      lease's. */
  method SettleLease(k: Kernel, b: Binding, directory0: int, handle: int, ghost base: State,
                     ghost secured: bool, ghost flat: bool, ghost g0: Guard, ghost file: nat)
    returns (r: Result<()>, directory: int, pins: seq<Pin>, ghost g: Guard, ghost first: State, ghost q: Query)
    requires k.OK() && directory0 >= 0 && handle >= 0 && directory0 != handle
    requires Settled(base, k.s, Handles(b.pins) + {handle, directory0}) && PinsApart(b.pins)
    requires {handle, directory0} !! Handles(b.pins) && AllInherit(k.s, b.pins) && k.s.refused == base.refused
    requires flat ==> OwnHolds(k.s, g0) && Guarded(k.s.w, g0) && PinsPlaced(k.s, g0, b.pins) && Since(g0, base)
                      && Childed(k.s, g0, b.pins, {b.common})
    requires flat ==> directory0 in k.s.table && k.s.table[directory0].grant !in g0.gs
    requires secured ==> flat && Secured(k.s, g0, b, file)
    requires handle in k.s.table && k.s.table[handle].grant in k.s.w.opens && OpenOf(k.s, handle).share == {Read}
    modifies k`s, k`log
    ensures old(k.log) <= k.log
    ensures k.OK() && Settled(base, k.s, Handles(pins) + {handle} + One(directory)) && PinsApart(pins)
    ensures Carry(old(k.s), k.s)
    ensures {handle} + One(directory) !! Handles(pins) && directory != handle
    ensures r.Ok? ==> directory == -1 && AllInherit(k.s, pins) && k.s.refused == base.refused
    ensures r.Ok? ==> HandleKept(old(k.s), k.s, handle) && SamePaths(b.pins, pins)
    ensures r.Ok? ==> AllLoose(old(k.s), k.s, pins, {b.common}) && Intact(old(k.s), k.s, b, first, q)
    ensures r.Ok? && secured ==> Secured(k.s, g, b, file) && Since(g, base)
    ensures r.Fail? ==> PlainlyReports(base, k.s, r.failure)
  {
    hide StateOK, Settled, Fence, Walk, Follow, Guarded, Placed, PinsPlaced, Carry, Agree, HeldFirst, HeldSince,
         OwnHolds, LeaseAt, Childed, Handles, NoFollow, Stays, AllLoose, Loose, SamePaths, Intact;
    ghost var s0 := k.s;
    directory := directory0;
    var adjusted;
    adjusted, pins, g, first, q := Adjust(k, b, directory0, handle, base, secured, flat, g0, file);
    ghost var s2 := k.s;
    ghost var all := Handles(pins) + {handle, directory};
    assert all == Handles(pins) + {handle} + One(directory);
    if adjusted.Fail? { return adjusted, directory, pins, g, first, q; }
    SettledGrants(base, s2, all);
    OneItem(Item(DirectoryProbe, directory));
    var retired := directory;
    directory := -1;
    var refused := Abandon(k, [Item(DirectoryProbe, retired)], []);
    assert Settled(base, k.s, Handles(pins) + {handle} + One(-1)) by {
      assert all - {retired} == Handles(pins) + {handle} + One(-1);
    }
    CarryOn(s0, s2, k.s);
    if refused != [] { return Fail(Stranded(refused, None)), directory, pins, g, first, q; }
    IntactSince(s0, s0, s2, k.s, b, first, q) by { CarryNone(s0); }
    ApartFrom(pins, retired);
    InheritKept(s2, k.s, pins, retired);
    LooseBeside(base, s0, s2, k.s, pins, {b.common}, all, Handles(pins) + {handle} + One(-1), retired);
    OpenAcross(s2, k.s, handle, retired);
    assert {} + {retired} == {retired};
    assert k.s.table[handle].grant !in k.s.tried by { SettledGrants(base, k.s, Handles(pins) + {handle} + One(-1)); }
    StaysCarried(s2, k.s, handle);
    HandleKeptThrough(s0, s2, k.s, handle);
    if secured {
      UntriedBut(s2, k.s, g, retired);
      SecuredCarried(s2, k.s, g, b, file);
    }
    return Ok(()), directory, pins, g, first, q;
  }

  /** ... and over a close of something else. */
  lemma LooseBeside(base: State, a: State, y: State, z: State, pins: seq<Pin>, parents: set<Path>,
                    owned: set<int>, left: set<int>, closed: int)
    requires StateOK(y) && StateOK(z) && Carry(y, z) && KeepsTable(y, z, {closed}) && AllLoose(a, y, pins, parents)
    requires Settled(base, y, owned) && Handles(pins) <= owned && Settled(base, z, left) && Handles(pins) <= left
    requires closed !in Handles(pins)
    ensures AllLoose(a, z, pins, parents)
  {
    hide StateOK, Carry, AllLoose, Settled;
    OwnedUntried(base, y, owned, pins);
    OwnedUntried(base, z, left, pins);
    ApartFrom(pins, closed);
    LooseOn(a, y, z, pins, parents);
  }

  /** What a handle holds against removal stays in place while the handle is not tried. */
  lemma StaysCarried(a: State, b: State, h: int)
    requires StateOK(a) && Carry(a, b) && h in a.table && a.table[h].grant !in b.tried
    requires Delete !in OpenOf(a, h).share
    ensures Stays(a.w.ns, b.w.ns, OpenOf(a, h).id)
  {
    hide Stays;
    assert a.table[h].grant in Grants(a);
  }

  lemma SecuredRelaxed(a: State, c: State, g0: Guard, g: Guard, b: Binding, file: nat)
    requires StateOK(a) && StateOK(c) && Agree(a.w.ns, c.w.ns, g0.c) && g == g0.(gs := g.gs)
    requires OwnHolds(c, g) && Guarded(c.w, g) && Secured(a, g0, b, file)
    ensures Secured(c, g, b, file)
  {
    LeaseAgrees(a.w, c.w, g0.c, b.anchor, b.commonId, file);
  }

  lemma InheritThrough(a: State, b: State, pins: seq<Pin>)
    requires StateOK(a) && AddsNothing(a, b) && AllInherit(a, pins)
    ensures AllInherit(b, pins)
  {
    NothingKeeps(a, b);
  }

  /** From the state the lease opened in to the one its checks ended in. */
  lemma LeaseReady(s1: State, before: State, at: State, s2: State, b: Binding, g: Guard, named: bool,
                   h: int, access: set<Right>, base: State)
    requires StateOK(s1) && StateOK(before) && StateOK(at) && StateOK(s2)
    requires Carry(s1, before) && Carry(before, at) && Carry(at, s2)
    requires AddsNothing(s1, before) && Adds(before, at, {h}) && AddsNothing(at, s2)
    requires before.tried == s1.tried
    requires Bound(s1, b, g, named) && Since(g, base) && base.w.next <= s1.w.next <= before.w.next
    requires forall i :: 0 <= i < |b.pins| ==> b.pins[i].handle in s1.table
    requires NoFollow(at.w.ns, b.common + [LEASE]).Some?
    requires OpenedAt(before, at, h, NoFollow(at.w.ns, b.common + [LEASE]).value, access, {Read})
    ensures h in at.table && at.table[h].grant in at.w.opens && NoFollow(at.w.ns, b.common + [LEASE]).value != []
    ensures var file := OpenOf(at, h).id;
            var g' := WithLease(at, g, h, NoFollow(at.w.ns, b.common + [LEASE]).value);
            && h in s2.table && OpenOf(s2, h) == Open(file, access, {Read})
            && OwnHolds(s2, g') && Guarded(s2.w, g') && PinsPlaced(s2, g', b.pins) && Since(g', base)
            && Childed(s2, g', b.pins, {b.common})
            && (named && Homed(s1, b, g) ==> Secured(s2, g', b, file))
  {
    hide StateOK, Settled, Fence, Walk, Follow, Guarded, Placed, PinsPlaced, Carry, Agree, LeaseAt, Childed,
         NoFollow, Bound, Homed;
    NothingKeeps(s1, before);
    BoundKept(s1, before, b, g, named);
    AddingKeeps(before, at, {h});
    BoundKept(before, at, b, g, named);
    var p := NoFollow(at.w.ns, b.common + [LEASE]).value;
    ParentOfLease(at, b.common, p);
    var g' := WithLease(at, g, h, p);
    StateSlots(at, h);
    UntriedFresh(before, at.table[h].grant);
    LeaseGuard(at, g, b, named, h, p);
    NothingKeeps(at, s2);
    UntriedStays(at, s2, g');
    PlacedCarried(at, s2, g', b.pins);
    ChildedCarried(at, s2, g', b.pins, {b.common});
    OpenCarried(at, s2, h);
    if named && Homed(s1, b, g) {
      assert Secured(at, g', b, OpenOf(at, h).id);
      SecuredCarried(at, s2, g', b, OpenOf(at, h).id);
    }
  }

  lemma OpenAcross(a: State, b: State, h: int, closed: int)
    requires StateOK(a) && StateOK(b) && Carry(a, b) && KeepsTable(a, b, {} + {closed}) && TriesOnly(a, b, {} + {closed})
    requires h in a.table && h != closed && a.table[h].grant !in a.tried && closed in a.table
    ensures h in b.table && OpenOf(b, h) == OpenOf(a, h)
  {
    assert {} + {closed} == {closed};
    assert a.table[h].grant !in b.tried;
    assert a.table[h].grant in Grants(a);
  }

  lemma NextGrows(a: State, b: State)
    requires StateOK(a) && AddsNothing(a, b)
    ensures a.w.next <= b.w.next
  {
    SettledSelf(a);
    assert Settled(a, b, {});
  }

  /** The directory's handle stays outside a guard that gained the lease. */
  lemma DirectoryOut(s1: State, at: State, s2: State, g: Guard, directory: int, h: int, p: Path)
    requires StateOK(s1) && StateOK(s2) && h in at.table && p != []
    requires directory in s1.table && s1.table[directory].grant !in g.gs && h !in s1.table
    requires directory in s2.table && s2.table[directory] == s1.table[directory]
    requires h in s2.table && s2.table[h] == at.table[h]
    ensures s2.table[directory].grant !in WithLease(at, g, h, p).gs
  {
  }

  lemma StateSlots(s: State, h: int)
    requires StateOK(s) && h in s.table
    ensures s.table[h].grant in s.w.opens && h >= 0
  {
  }

  /** A held lease, as the opener hands it to the acquisition. */
  datatype Grasp = Grasp(handle: int, path: Path, binding: Binding)

  /** What the process holds once the opener returned: the lease handle, the pins of
      its binding, and nothing else that it did not hold before. */
  ghost predicate Grasped(a: State, b: State, o: Grasp, file: nat, access: set<Right>) {
    && StateOK(b)
    && Settled(a, b, Handles(o.binding.pins) + {o.handle})
    && o.handle >= 0 && o.handle !in Handles(o.binding.pins) && PinsApart(o.binding.pins)
    && AllInherit(b, o.binding.pins) && b.refused == a.refused
    && o.handle in b.table && OpenOf(b, o.handle) == Open(file, access, {Read})
    && o.path == o.binding.common + [LEASE]
  }

  /** The lease file stands, called so, in some directory. */
  ghost predicate InPlace(s: State, file: nat) {
    exists dir :: Stands(s.w.ns, LEASE, file, dir)
  }

  /** Where the lease file was when it opened it still is. */
  lemma LandedSince(at: State, s2: State, s3: State, b: Binding, h: int, p: Path)
    requires StateOK(at) && StateOK(s2) && Carry(at, s2) && h in at.table && h in s2.table
    requires at.table[h].grant !in s2.tried && OpenOf(at, h).share == {Read}
    requires OpenOf(s2, h) == OpenOf(at, h) && HandleKept(s2, s3, h)
    requires NoFollow(at.w.ns, b.common + [LEASE]) == Some(p) && p in at.w.ns && OpenOf(at, h).id == at.w.ns[p].id
    ensures InPlace(s3, OpenOf(at, h).id)
  {
    hide Walk, Follow, NoFollow, Carry;
    ParentOfLease(at, b.common, p);
    var file, d := OpenOf(at, h).id, at.w.ns[Parent(p)].id;
    assert p[|p| - 1] == LEASE by { assert (Parent(p) + [LEASE])[|p| - 1] == LEASE; }
    assert StandsAt(at.w.ns, p, LEASE, file, d);
    StaysCarried(at, s2, h);
    assert Stands(s3.w.ns, LEASE, file, d);
  }

  /** How a lease was taken under a binding: when its directory was checked and the entry
      opened, and, from the state `taken`, when the binding was asserted. */
  datatype Work = Work(head: State, config: State, at: State, taken: State, first: State, last: Query)

  /** The lease entry was opened; then the common directory's pins were loosened and the
      binding asserted. */
  ghost predicate LeaseTaken(a: State, z: State, b: Binding, access: set<Right>, file: nat, w: Work) {
    && StateOK(w.taken) && EntryTaken(a, w.taken, b.common, access, file, w.head, w.config, w.at)
    && AllLoose(w.taken, z, b.pins, {b.common}) && Intact(w.taken, z, b, w.first, w.last)
  }

  lemma LeaseMade(a: State, z: State, b: Binding, pins: seq<Pin>, access: set<Right>, file: nat,
                  head: State, config: State, at: State, taken: State, first: State, q: Query)
    requires StateOK(taken) && EntryTaken(a, taken, b.common, access, file, head, config, at)
    requires AllLoose(taken, z, pins, {b.common}) && Intact(taken, z, b, first, q)
    ensures LeaseTaken(a, z, b.(pins := pins), access, file, Work(head, config, at, taken, first, q))
  {
    hide EntryTaken, AllLoose, Confirmed, Carry, ReachesIdentity;
  }

  /** The steps up to the transfer; what was acquired is in the out-parameters however
      it ends. */
  method LeaseAll(k: Kernel, directory0: int, b: Binding, access: set<Right>, create: bool,
                  ghost base: State, ghost named: bool, ghost flat: bool, ghost g0: Guard)
    returns (r: Result<()>, handle: int, directory: int, pins: seq<Pin>, ghost file: nat, ghost g: Guard, ghost w: Work)
    requires k.OK() && directory0 >= 0
    requires Settled(base, k.s, {directory0} + Handles(b.pins)) && directory0 !in Handles(b.pins)
    requires PinsApart(b.pins) && AllInherit(k.s, b.pins) && k.s.refused == base.refused
    requires flat ==> Bound(k.s, b, g0, named) && Since(g0, base)
                      && directory0 in k.s.table && k.s.table[directory0].grant !in g0.gs
    modifies k`s, k`log
    ensures old(k.log) <= k.log
    ensures k.OK() && Settled(base, k.s, One(handle) + One(directory) + Handles(pins)) && PinsApart(pins)
    ensures One(handle) + One(directory) !! Handles(pins) && (handle == directory ==> handle == -1)
    ensures r.Ok? ==> directory == -1
                      && Grasped(base, k.s, Grasp(handle, b.common + [LEASE], b.(pins := pins)), file, access)
    ensures Carry(old(k.s), k.s)
    ensures r.Ok? ==> SamePaths(b.pins, pins) && LeaseTaken(old(k.s), k.s, b.(pins := pins), access, file, w)
    ensures r.Ok? ==> InPlace(k.s, file)
    ensures r.Ok? && flat && named && Homed(old(k.s), b, g0) ==> Secured(k.s, g, b, file) && Since(g, base)
    ensures r.Fail? ==> Reports(base, k.s, r.failure)
    ensures r == Fail(Contended) ==> EntryContended(old(k.s), k.s, b.common, access, w.at)
  {
    hide StateOK, Settled, Fence, Walk, Follow, Guarded, Placed, PinsPlaced, Carry, Agree, OwnHolds, LeaseAt, Childed,
         NoFollow, Bound, Homed, Secured, Handles, WithLease, Stays, InPlace, EntryTaken, EntryContended, SamePaths,
         AllLoose, Intact, LeaseTaken;
    ghost var s1 := k.s;
    directory, pins, file, g := directory0, b.pins, 0, g0;
    SettledGrants(base, s1, {directory0} + Handles(b.pins));
    var took;
    ghost var head, before, at, contended;
    took, handle, head, before, at, contended := TakeLease(k, b.common, access, create);
    ghost var s2 := k.s;
    w := Work(head, before, at, s2, s2, Query([], s2, s2));
    LeaseOwned(base, s1, s2, directory, handle, pins);
    if took.Fail? { return took, handle, directory, pins, file, g, w; }
    InheritAdded(s1, s2, pins, One(handle));
    ghost var g1 := g0;
    ghost var p := NoFollow(at.w.ns, b.common + [LEASE]).value;
    StateSlots(at, handle);
    file := OpenOf(at, handle).id;
    ghost var homed := Homed(s1, b, g0);
    NextGrows(s1, before);
    SettledGrants(base, s1, {directory0} + Handles(b.pins));
    AddingKeeps(s1, s2, One(handle));
    assert Handles(b.pins) + {handle, directory0} == One(handle) + One(directory) + Handles(pins);
    UntriedFresh(before, at.table[handle].grant);
    OpenCarried(at, s2, handle);
    StateSlots(s2, handle);
    NothingKeeps(s1, before);
    ParentOfLease(at, b.common, p);
    if flat {
      DirectoryOut(s1, at, s2, g0, directory0, handle, p);
      LeaseReady(s1, before, at, s2, b, g0, named, handle, access, base);
      g1 := WithLease(at, g0, handle, p);
    }
    ghost var first, q;
    r, directory, pins, g, first, q := SettleLease(k, b, directory0, handle, base, flat && named && homed, flat, g1, file);
    assert Handles(pins) + {handle} + One(directory) == One(handle) + One(directory) + Handles(pins);
    CarryOn(s1, s2, k.s);
    if r.Ok? {
      w := Work(head, before, at, s2, first, q);
      LeaseMade(s1, k.s, b, pins, access, file, head, before, at, s2, first, q);
      assert Handles(pins) + {handle} == One(handle) + One(directory) + Handles(pins);
      LandedSince(at, s2, k.s, b, handle, p);
    }
    return r, handle, directory, pins, file, g, w;
  }

  lemma LeaseOwned(base: State, s1: State, s2: State, directory: int, handle: int, pins: seq<Pin>)
    requires StateOK(s1) && Settled(base, s1, {directory} + Handles(pins)) && Adds(s1, s2, One(handle))
    requires directory >= 0 && directory !in Handles(pins)
    ensures Settled(base, s2, One(handle) + One(directory) + Handles(pins))
    ensures One(handle) + One(directory) !! Handles(pins) && (handle == directory ==> handle == -1)
  {
    var before := {directory} + Handles(pins);
    assert before + One(handle) == One(handle) + One(directory) + Handles(pins);
    SettledSelf(s1);
    assert Settled(s1, s2, {} + One(handle));
    assert {} + One(handle) == One(handle);
    assert forall h :: h in One(handle) ==> h !in s1.table;
    assert forall h :: h in before ==> h in s1.table;
  }

  lemma InheritAdded(a: State, b: State, pins: seq<Pin>, gained: set<int>)
    requires StateOK(a) && Adds(a, b, gained) && AllInherit(a, pins)
    ensures AllInherit(b, pins)
  {
    AddingKeeps(a, b, gained);
  }

  /** How a lease was entered from the name asked for and taken. */
  datatype Account = Account(story: Story, held: State, work: Work)

  ghost function NoAccount(s: State): Account {
    var q := Query([], s, s);
    Account(Story(Names(s, s, s, [], s, s, s, q), s, Unread(s), q), s, Work(s, s, s, s, s, q))
  }

  ghost predicate Leased(a: State, z: State, log: seq<Event>, start: nat, from: Path, b: Binding,
                         access: set<Right>, file: nat, c: Account) {
    && StateOK(c.held) && Entered(a, c.held, log, start, from, b, c.story)
    && LeaseTaken(c.held, z, b, access, file, c.work)
  }

  /** A binding was entered from the name asked for, and then the open of its lease entry
      did not go with one that was live. */
  ghost predicate Contested(a: State, z: State, log: seq<Event>, start: nat, from: Path, access: set<Right>) {
    exists b, y, held, at :: ContestedAt(a, z, log, start, from, access, b, y, held, at)
  }

  ghost predicate ContestedAt(a: State, z: State, log: seq<Event>, start: nat, from: Path, access: set<Right>,
                              b: Binding, y: Story, held: State, at: State) {
    StateOK(held) && Entered(a, held, log, start, from, b, y) && EntryContended(held, z, b.common, access, at)
  }

  lemma NowLeased(a: State, held: State, z: State, log: seq<Event>, more: seq<Event>, start: nat, from: Path,
                  b: Binding, c: Binding, access: set<Right>, file: nat, y: Story, w: Work)
    requires StateOK(held) && Entered(a, held, log, start, from, b, y) && log <= more
    requires c == b.(pins := c.pins) && SamePaths(b.pins, c.pins) && LeaseTaken(held, z, c, access, file, w)
    ensures Leased(a, z, more, start, from, c, access, file, Account(y, held, w))
  {
    hide StateOK, Entered, SamePaths, LeaseTaken, Carry;
    CarryNone(held);
    EnteredOn(a, held, held, log, more, start, from, b, c, y);
  }

  lemma NowContested(a: State, held: State, y: State, z: State, log: seq<Event>, more: seq<Event>, start: nat, from: Path,
                     access: set<Right>, b: Binding, story: Story, at: State)
    requires StateOK(held) && Entered(a, held, log, start, from, b, story) && log <= more
    requires EntryContended(held, y, b.common, access, at) && Carry(y, z)
    ensures Contested(a, z, more, start, from, access)
  {
    hide StateOK, Entered, SamePaths, Carry, Contends, NoFollow;
    CarryNone(held);
    EnteredOn(a, held, held, log, more, start, from, b, b, story) by { SamePathsSelf(b.pins); }
    CarryOn(at, y, z);
    assert ContestedAt(a, z, more, start, from, access, b, story, held, at);
  }

  lemma ContestedOn(a: State, y: State, z: State, log: seq<Event>, more: seq<Event>, start: nat, from: Path,
                    access: set<Right>)
    requires Contested(a, y, log, start, from, access) && Carry(y, z) && log <= more
    ensures Contested(a, z, more, start, from, access)
  {
    hide StateOK, Carry, Entered, EntryContended;
    var b, story, held, at :| ContestedAt(a, y, log, start, from, access, b, story, held, at);
    NowContested(a, held, y, z, log, more, start, from, access, b, story, at);
  }

  /** Open the lease under the common directory of the repository asked for; a failure,
      before the open or after it, lets everything go. The lease file stands called so in
      some directory; a sure lease is secured: whatever the others do, the checkout keeps
      mapping to the directory it is in. */
  method OpenLeaseHandle(k: Kernel, start: Option<Path>, access: set<Right>, create: bool, depth: nat)
    returns (r: Result<Grasp>, ghost file: nat, ghost g: Guard, ghost c: Account)
    requires k.OK()
    modifies k`s, k`log
    ensures k.OK() && old(k.log) <= k.log && Carry(old(k.s), k.s)
    ensures r.Ok? ==> Grasped(old(k.s), k.s, r.value, file, access) && InPlace(k.s, file)
    ensures r.Ok? ==>
              start.Some? && Leased(old(k.s), k.s, k.log, |old(k.log)|, start.value, r.value.binding, access, file, c)
    ensures r.Ok? && Sure(k.log, |old(k.log)|, c.story.t.tested, r.value.binding) ==>
              Secured(k.s, g, r.value.binding, file) && Since(g, old(k.s))
    ensures r.Fail? ==> Settled(old(k.s), k.s, {}) && Reports(old(k.s), k.s, r.failure)
    ensures r == Fail(Contended) ==>
              start.Some? && Contested(old(k.s), k.s, k.log, |old(k.log)|, start.value, access)
  {
    hide StateOK, Settled, Fence, Walk, Follow, Guarded, Placed, PinsPlaced, Carry, Agree, OwnHolds, LeaseAt, Childed,
         NoFollow, Bound, Homed, Handles, Crooked, AtHome, InPlace, Entered, LeaseTaken, Leased, Contested, EntryContended,
         SamePaths, Resolve, HasCommondir, FileThere, Secured, Grasped;
    ghost var s0 := k.s;
    file := 0;
    ghost var flat, y;
    var held;
    held, flat, g, y := HoldCommonDir(k, start, depth);
    c := NoAccount(k.s);
    if held.Fail? { return Fail(held.failure), file, g, c; }
    ghost var log, mid := k.log, k.s;
    var b := held.value.1;
    ghost var named := Resolve(y.t.tested.w.ns, b.anchor).named;
    var taken, handle, directory, pins;
    ghost var w;
    taken, handle, directory, pins, file, g, w := LeaseAll(k, held.value.0, b, access, create, s0, named, flat, g);
    CarryOn(s0, mid, k.s);
    if taken.Ok? {
      c := Account(y, mid, w);
      if !flat { CrookedOn(log, k.log, |old(k.log)|, |old(k.log)|); }
      if AtHome(k.log, |old(k.log)|, b.common, b.commonId) {
        AtHomeBefore(log, k.log, |old(k.log)|, |old(k.log)|, b.common, b.commonId);
      }
      NowLeased(s0, mid, k.s, log, k.log, |old(k.log)|, start.value, b, b.(pins := pins), access, file, y, w);
      SameBinding(k.s, g, b, b.(pins := pins), file);
      return Ok(Grasp(handle, b.common + [LEASE], b.(pins := pins))), file, g, c;
    }
    ghost var s1 := k.s;
    ghost var all := One(handle) + One(directory) + Handles(pins);
    SettledGrants(s0, s1, all);
    HeldNumbers(Item(Handle, handle), Item(DirectoryProbe, directory));
    var refused := Abandon(k, Holding(Handle, handle) + Holding(DirectoryProbe, directory), pins);
    CarryOn(s0, s1, k.s);
    assert Settled(s0, k.s, {}) by { assert all - all == {}; }
    ReportsThen(s0, s1, k.s, taken.failure, refused);
    if taken.failure == Contended {
      NowContested(s0, mid, s1, k.s, log, k.log, |old(k.log)|, start.value, access, b, y, w.at);
    }
    return Fail(Reraise(taken.failure, refused)), file, g, c;
  }

  lemma SameBinding(s: State, g: Guard, b: Binding, c: Binding, file: nat)
    requires c.anchor == b.anchor && c.commonId == b.commonId
    ensures Secured(s, g, b, file) ==> Secured(s, g, c, file)
  {
  }
}
