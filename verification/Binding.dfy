// Holding a checkout and the common git directory it names, and asking again
// whether the one still names the other.
module Bindings {
  import opened Options
  import opened Namespace
  import opened Fences
  import opened Mapping
  import opened Strands
  import opened Kernels
  import opened Cleanup
  import opened Guards
  import opened Relaxing
  import opened PinFacts
  import opened Pins

  /** The repository directory and the common directory it named, as names and
      identities, and the pins on every link between them. */
  datatype Binding = Binding(anchor: Path, anchorId: nat, common: Path, commonId: nat, pins: seq<Pin>)

  /** A name git gave, when it was asked for it, and when the name was looked up. */
  datatype Query = Query(name: Path, asked: State, looked: State)

  /** git named a directory, and that was the object `id`. */
  ghost predicate Confirmed(s0: State, s1: State, anchor: Path, id: nat, q: Query) {
    && StateOK(q.asked) && StateOK(q.looked)
    && Carry(s0, q.asked) && Carry(q.asked, q.looked) && Carry(q.looked, s1)
    && Resolve(q.asked.w.ns, anchor).name == Some(q.name) && ReachesIdentity(q.looked.w.ns, q.name, id)
  }

  /** git names a directory; its identity is read back. */
  method ConfirmCommon(k: Kernel, anchor: Path, id: nat) returns (r: Result<()>, ghost q: Query)
    requires k.OK()
    modifies k`s, k`log
    ensures old(k.log) <= k.log
    ensures k.OK() && Carry(old(k.s), k.s) && AddsNothing(old(k.s), k.s)
    ensures r.Fail? ==> PlainlyReports(old(k.s), k.s, r.failure)
    ensures r.Ok? ==> Confirmed(old(k.s), k.s, anchor, id, q) && k.s.refused == old(k.s).refused
  {
    hide StateOK, Settled, Fence, Walk, Follow, Agree;
    ghost var s0 := k.s;
    q := Query([], s0, s0);
    var resolved := k.CommonDir(anchor);
    ghost var asked := k.s;
    if resolved.Fail? { return Fail(resolved.failure), q; }
    var found, looked := DirectoryIdentity(k, resolved.value);
    CarryOn(s0, asked, k.s);
    if found.Fail? { return Fail(found.failure), q; }
    if found.value != id { return Fail(Refused), q; }
    return Ok(()), Query(resolved.value, asked, looked);
  }

  /** The repository opened by its name, found to be the same object, and asked through
      git for its common directory, all under one temporary handle. */
  method NameCommon(k: Kernel, anchor: Path, id: nat) returns (r: Result<Path>, ghost first: State, ghost asked: State)
    requires k.OK()
    modifies k`s, k`log
    ensures old(k.log) <= k.log
    ensures k.OK() && Carry(old(k.s), k.s) && AddsNothing(old(k.s), k.s)
    ensures r.Fail? ==> PlainlyReports(old(k.s), k.s, r.failure)
    ensures r.Ok? ==>
              && StateOK(first) && Carry(old(k.s), first) && Carry(first, asked) && StateOK(asked) && Carry(asked, k.s)
              && ReachesIdentity(first.w.ns, anchor, id) && Resolve(asked.w.ns, anchor).name == Some(r.value)
              && k.s.refused == old(k.s).refused
  {
    hide StateOK, Settled, Fence, Walk, Follow, Agree, Resolve;
    ghost var s0 := k.s;
    first, asked := s0, s0;
    var probe := OpenDirectory(k, anchor);
    first := k.s;
    if probe.Fail? { return Fail(probe.failure), first, asked; }
    var h := probe.value;
    assert OpenOf(k.s, h).id == k.s.w.ns[Follow(k.s.w.ns, anchor).end.value].id;
    var info := k.Inform(h);
    ghost var s1 := k.s;
    CarryOn(s0, first, s1);
    var got: Result<Path> := Fail(Refused);
    CarryNone(k.s);
    if info.Ok? && info.value.id == id {
      got := k.CommonDir(anchor);
      NothingKeeps(s1, k.s);
      CarryOn(s0, s1, k.s);
      CarryOn(first, s1, k.s);
    }
    asked := k.s;
    OneItem(Item(DirectoryProbe, h));
    var refused := Abandon(k, [Item(DirectoryProbe, h)], []);
    CarryOn(s0, asked, k.s);
    TakenAndClosed(s0, asked, k.s, h);
    LetGoReports(s0, asked, k.s, got, refused);
    r := LetGo(got, refused);
  }

  /** In between the anchor was the object it had been, then it named a directory, and
      that was the one bound. */
  ghost predicate Intact(s0: State, s1: State, b: Binding, first: State, q: Query) {
    && StateOK(first) && Carry(s0, first) && ReachesIdentity(first.w.ns, b.anchor, b.anchorId)
    && Confirmed(first, s1, b.anchor, b.commonId, q)
  }

  /** The repository still names the held common directory: the one is still the
      object it was, the other is still what it names. */
  method AssertBinding(k: Kernel, b: Binding) returns (r: Result<()>, ghost first: State, ghost q: Query)
    requires k.OK()
    modifies k`s, k`log
    ensures old(k.log) <= k.log
    ensures k.OK() && Carry(old(k.s), k.s) && AddsNothing(old(k.s), k.s)
    ensures r.Fail? ==> PlainlyReports(old(k.s), k.s, r.failure)
    ensures r.Ok? ==> Intact(old(k.s), k.s, b, first, q) && k.s.refused == old(k.s).refused
  {
    hide StateOK, Settled, Fence, Agree, Resolve, ReachesIdentity, Carry;
    ghost var s0 := k.s;
    q := Query([], s0, s0);
    var resolved;
    ghost var asked;
    resolved, first, asked := NameCommon(k, b.anchor, b.anchorId);
    if resolved.Fail? { return Fail(resolved.failure), first, q; }
    ghost var s2 := k.s;
    var found, looked := DirectoryIdentity(k, resolved.value);
    CarryOn(s0, s2, k.s);
    if found.Fail? { return Fail(found.failure), first, q; }
    if found.value != b.commonId { return Fail(Refused), first, q; }
    CarryOn(asked, s2, looked);
    return Ok(()), first, Query(resolved.value, asked, looked);
  }

  /** A local handle variable, -1 while it holds nothing. */
  ghost function One(h: int): set<int> {
    if h == -1 then {} else {h}
  }

  function Holding(kind: Kind, h: int): seq<Item> {
    if h == -1 then [] else [Item(kind, h)]
  }

  lemma HeldNumbers(a: Item, b: Item)
    ensures Numbers(Holding(a.kind, a.handle) + Holding(b.kind, b.handle)) == One(a.handle) + One(b.handle)
    ensures (a.handle == b.handle ==> a.handle == -1) ==> Apart(Holding(a.kind, a.handle) + Holding(b.kind, b.handle))
  {
    var items := Holding(a.kind, a.handle) + Holding(b.kind, b.handle);
    if a.handle != -1 { assert items[0] == a; }
    if b.handle != -1 { assert items[|items| - 1] == b; }
  }

  /** Identity and current name of an open object, from its handle. */
  method Describe(k: Kernel, h: int) returns (r: Result<(nat, Path)>)
    requires k.OK()
    modifies k`s, k`log
    ensures k.OK() && AddsNothing(old(k.s), k.s) && k.s.refused == old(k.s).refused && old(k.log) <= k.log
    ensures Carry(old(k.s), k.s) && k.s == old(k.s).(w := k.s.w)
    ensures r.Ok? ==> h in k.s.table && r.value.0 == OpenOf(k.s, h).id
                      && r.value.1 in k.s.w.ns && k.s.w.ns[r.value.1].id == r.value.0
    ensures r.Fail? ==> r.failure == Refused
  {
    hide Settled, Fence, WorldOK, Carry;
    ghost var s0 := k.s;
    var info := k.Inform(h);
    if info.Fail? { return Fail(Refused); }
    ghost var s1 := k.s;
    var name := k.FinalPath(h);
    CarryOn(s0, s1, k.s);
    if name.Fail? { return Fail(Refused); }
    return Ok((info.value.id, name.value));
  }

  /** The object is called so. */
  ghost predicate Called(ns: map<Path, Entry>, path: Path, id: nat) {
    path in ns && ns[path].id == id
  }

  /** A directory opened by a name was the object `id`, and the kernel then called it `path`. */
  ghost predicate Identified(a: State, z: State, name: Path, id: nat, path: Path, found: State, called: State) {
    && StateOK(found) && Carry(a, found) && ReachesIdentity(found.w.ns, name, id)
    && StateOK(called) && Carry(found, called) && Carry(called, z) && Called(called.w.ns, path, id)
  }

  /** The object still has this name and this identity. */
  method Unmoved(k: Kernel, h: int, id: nat, name: Path) returns (r: Result<()>, ghost still: State)
    requires k.OK() && h in k.s.table && k.s.table[h].grant !in k.s.tried
    modifies k`s, k`log
    ensures k.OK() && AddsNothing(old(k.s), k.s) && k.s.refused == old(k.s).refused && old(k.log) <= k.log
    ensures Carry(old(k.s), k.s) && k.s == old(k.s).(w := k.s.w)
    ensures r.Ok? ==> h in k.s.table && OpenOf(k.s, h).id == id
    ensures r.Ok? ==> StateOK(still) && Carry(old(k.s), still) && Carry(still, k.s) && Called(still.w.ns, name, id)
    ensures r.Fail? ==> r.failure == Refused
  {
    hide StateOK, Settled, Fence, Carry;
    ghost var s0 := k.s;
    still := s0;
    CarryNone(s0);
    var now := k.FinalPath(h);
    if now.Fail? || now.value != name { return Fail(Refused), still; }
    ghost var s1 := k.s;
    var info := k.Inform(h);
    CarryOn(s0, s1, k.s);
    if info.Fail? || info.value.id != id { return Fail(Refused), still; }
    OpenKept(s1, k.s, h);
    return Ok(()), s1;
  }

  /** The repository opened as an object, identified and named from its handle. */
  method HoldAnchor(k: Kernel, start: Option<Path>) returns (r: Result<(nat, Path)>, anchor: int, ghost reached: State)
    requires k.OK()
    modifies k`s, k`log
    ensures old(k.log) <= k.log
    ensures k.OK() && Settled(old(k.s), k.s, One(anchor)) && k.s.refused == old(k.s).refused && Carry(old(k.s), k.s)
    ensures r.Ok? ==> anchor >= 0 && anchor in k.s.table && OpenOf(k.s, anchor).id == r.value.0
    ensures r.Ok? ==> start.Some? && Identified(old(k.s), k.s, start.value, r.value.0, r.value.1, reached, k.s)
    ensures r.Fail? ==> r.failure == Refused
  {
    hide StateOK, Settled, Fence, Walk, Follow, Carry;
    ghost var s0 := k.s;
    SettledSelf(s0);
    CarryNone(s0);
    anchor, reached := -1, s0;
    if start.None? { return Fail(Refused), anchor, reached; }
    var first := OpenDirectory(k, start.value);
    reached := k.s;
    if first.Fail? { return Fail(first.failure), anchor, reached; }
    anchor := first.value;
    assert {} + {anchor} == One(anchor);
    OpenUntried(s0, reached, anchor);
    var described := Describe(k, anchor);
    CarryOn(s0, reached, k.s);
    CarryNone(k.s);
    if described.Ok? { OpenKept(reached, k.s, anchor); }
    return described, anchor, reached;
  }

  /** How the names were found: the repository opened by the name asked for and called,
      git asked through that, what it named opened and called, the repository called so
      still, and git asked again. */
  datatype Names = Names(reached: State, placed: State, asked: State, name: Path, found: State, called: State,
                         still: State, again: Query)

  ghost predicate NamedThrough(a: State, z: State, b: Binding, n: Names) {
    && StateOK(n.asked) && Carry(a, n.asked) && Resolve(n.asked.w.ns, b.anchor).name == Some(n.name)
    && Identified(n.asked, n.still, n.name, b.commonId, b.common, n.found, n.called)
    && StateOK(n.still) && Called(n.still.w.ns, b.anchor, b.anchorId)
    && Confirmed(n.still, z, b.anchor, b.commonId, n.again)
  }

  ghost predicate NamesFound(a: State, z: State, start: Path, b: Binding, n: Names) {
    Identified(a, n.placed, start, b.anchorId, b.anchor, n.reached, n.placed) && NamedThrough(n.placed, z, b, n)
  }

  /** The common directory named through the held repository, opened, identified and
      named in turn; the repository unmoved, and what it names asked again. */
  method HoldNamed(k: Kernel, anchor: int, anchorId: nat, anchorName: Path)
    returns (r: Result<Binding>, directory: int, ghost n: Names)
    requires k.OK() && anchor in k.s.table && k.s.table[anchor].grant !in k.s.tried
    modifies k`s, k`log
    ensures old(k.log) <= k.log
    ensures k.OK() && Settled(old(k.s), k.s, One(directory)) && Carry(old(k.s), k.s)
    ensures r.Ok? ==>
              && directory >= 0 && k.s.refused == old(k.s).refused
              && r.value == Binding(anchorName, anchorId, r.value.common, r.value.commonId, [])
              && directory in k.s.table && OpenOf(k.s, directory).id == r.value.commonId
              && anchor in k.s.table && OpenOf(k.s, anchor).id == anchorId
              && NamedThrough(old(k.s), k.s, r.value, n)
    ensures r.Fail? ==> PlainlyReports(old(k.s), k.s, r.failure)
  {
    hide StateOK, Settled, Fence, Walk, Follow, Carry, Resolve, ReachesIdentity, Called;
    ghost var s0 := k.s;
    SettledSelf(s0);
    directory, n := -1, Names(s0, s0, s0, [], s0, s0, s0, Query([], s0, s0));
    var common := k.CommonDir(anchorName);
    if common.Fail? { return Fail(common.failure), directory, n; }
    ghost var s1 := k.s;
    NothingKeeps(s0, s1);
    var second := OpenDirectory(k, common.value);
    ghost var found := k.s;
    CarryOn(s0, s1, found);
    if second.Fail? { return Fail(second.failure), directory, n; }
    directory := second.value;
    assert {} + {directory} == One(directory);
    OpenReaches(s1, found, common.value, directory);
    var named := Describe(k, directory);
    CarryOn(s0, found, k.s);
    if named.Fail? { return Fail(named.failure), directory, n; }
    var id, name := named.value.0, named.value.1;
    ghost var s2 := k.s;
    OpenKept(found, s2, directory);
    CalledNow(s2, name, id);
    SettledGrants(s0, s2, One(directory));
    StillUntried(s0, s2, One(directory), anchor);
    var unmoved, still := Unmoved(k, anchor, anchorId, anchorName);
    CarryOn(s0, s2, k.s);
    if unmoved.Fail? { return Fail(unmoved.failure), directory, n; }
    ghost var s3 := k.s;
    SettledGrants(s0, s3, One(directory));
    StillUntried(s0, s3, One(directory), anchor);
    OpenKept(s2, s3, directory);
    var again, q := ConfirmCommon(k, anchorName, id);
    CarryOn(s0, s3, k.s);
    if again.Fail? { return Fail(again.failure), directory, n; }
    OpenCarried(s3, k.s, directory);
    OpenCarried(s3, k.s, anchor);
    CarryOn(still, s3, q.asked);
    n := Names(s0, s0, s1, common.value, found, s2, still, q);
    return Ok(Binding(anchorName, anchorId, name, id, [])), directory, n;
  }

  /** A handle had before a boundary is not tried in it. */
  lemma StillUntried(a: State, b: State, owned: set<int>, h: int)
    requires StateOK(a) && Settled(a, b, owned) && h in a.table && a.table[h].grant !in a.tried
    ensures h in b.table && b.table[h] == a.table[h] && b.table[h].grant !in b.tried
  {
  }

  /** A handle just opened was not tried. */
  lemma OpenUntried(a: State, b: State, h: int)
    requires StateOK(a) && h in b.table && b.table[h].grant >= a.w.next && b.tried == a.tried
    ensures b.table[h].grant !in b.tried
  {
  }

  lemma OpenReaches(a: State, b: State, name: Path, h: int)
    requires StateOK(a) && StateOK(b) && Follow(b.w.ns, name).end.Some?
    requires OpenedAt(a, b, h, Follow(b.w.ns, name).end.value, {}, SHARE_ALL)
    ensures ReachesIdentity(b.w.ns, name, OpenOf(b, h).id) && b.table[h].grant !in b.tried
  {
    hide Follow;
  }

  lemma CalledNow(s: State, path: Path, id: nat)
    requires path in s.w.ns && s.w.ns[path].id == id
    ensures Called(s.w.ns, path, id)
  {
  }

  lemma OpenKept(a: State, b: State, h: int)
    requires StateOK(a) && StateOK(b) && Carry(a, b) && b == a.(w := b.w) && h in a.table && a.table[h].grant !in b.tried
    ensures OpenOf(b, h) == OpenOf(a, h)
  {
  }

  /** The repository held as an object, its common directory named through it, held
      and described in turn, and both asked again. The binding's identities are those
      of the objects held. */
  method HoldNames(k: Kernel, start: Option<Path>) returns (r: Result<Binding>, anchor: int, directory: int, ghost n: Names)
    requires k.OK()
    modifies k`s, k`log
    ensures old(k.log) <= k.log
    ensures k.OK() && Settled(old(k.s), k.s, One(anchor) + One(directory)) && Carry(old(k.s), k.s)
    ensures anchor == directory ==> anchor == -1
    ensures r.Ok? ==> anchor >= 0 && directory >= 0 && k.s.refused == old(k.s).refused && r.value.pins == []
    ensures r.Ok? ==>
              && anchor in k.s.table && OpenOf(k.s, anchor).id == r.value.anchorId
              && directory in k.s.table && OpenOf(k.s, directory).id == r.value.commonId
    ensures r.Ok? ==> start.Some? && NamesFound(old(k.s), k.s, start.value, r.value, n)
    ensures r.Fail? ==> PlainlyReports(old(k.s), k.s, r.failure)
  {
    hide StateOK, Settled, Fence, Walk, Follow, Carry, Identified, NamedThrough;
    ghost var s0 := k.s;
    var held;
    ghost var reached;
    held, anchor, reached := HoldAnchor(k, start);
    directory, n := -1, Names(s0, s0, s0, [], s0, s0, s0, Query([], s0, s0));
    assert One(anchor) + One(directory) == One(anchor);
    if held.Fail? { return Fail(held.failure), anchor, directory, n; }
    ghost var s1 := k.s;
    SettledGrants(s0, s1, One(anchor));
    r, directory, n := HoldNamed(k, anchor, held.value.0, held.value.1);
    CarryOn(s0, s1, k.s);
    SettledThen(s0, s1, k.s, One(anchor), One(directory));
    SettledGrants(s1, k.s, One(directory));
    if r.Ok? {
      SameNaming(s1, k.s, r.value, n, reached);
      n := n.(reached := reached, placed := s1);
    }
  }

  lemma SameNaming(a: State, z: State, b: Binding, n: Names, reached: State)
    requires NamedThrough(a, z, b, n)
    ensures NamedThrough(a, z, b, n.(reached := reached, placed := a))
  {
  }

  /** A handle just opened is none of those already owned. */
  lemma SettledApart(a: State, b: State, owned: set<int>, h: int)
    requires Settled(a, b, owned) && h !in b.table
    ensures h !in owned
  {
  }

  /** What the pins of a binding hold: they are placed, and if the chain contains a
      `commondir` file it names the bound directory from now on. */
  ghost predicate Bound(s: State, b: Binding, g: Guard, named: bool) {
    Pinned(s, b.pins, g) && (named ==> MapsTo(s.w.ns, g.c, b.anchor, b.commonId))
  }

  /** The name recorded for the common directory is still its own: what the code never
      asks once the chain is pinned. */
  ghost predicate OwnName(s: State, b: Binding) {
    b.common in s.w.ns && s.w.ns[b.common].id == b.commonId
  }

  /** The way to the recorded name is fenced, and it ends in the bound directory. */
  ghost predicate Homed(s: State, b: Binding, g: Guard) {
    Covered(s.w.ns, g.c, b.common) && Follow(s.w.ns, b.common).end == Some(b.common) && OwnName(s, b)
  }

  lemma {:induction false} FencedWay(w: World, gs: set<nat>, c: set<Path>, x: Path)
    requires WorldOK(w) && Fence(w, gs, c) && (x == [] || x in c) && x in w.ns && !w.ns[x].node.Link?
    ensures Covered(w.ns, c, x) && Follow(w.ns, x).end == Some(x)
    decreases |x|
  {
    hide WorldOK, Walk, Follow, Kept;
    if x == [] {
      RootCovered(w.ns, c);
    } else {
      AboveOf(w, x);
      FencedWay(w, gs, c, Parent(x));
      LastCovered(w.ns, c, x);
    }
  }

  lemma RootCovered(ns: map<Path, Entry>, c: set<Path>)
    ensures Covered(ns, c, []) && Follow(ns, []).end == Some([])
  {
  }

  lemma AboveOf(w: World, x: Path)
    requires WorldOK(w) && x != [] && x in w.ns
    ensures IsDirectory(w.ns, Parent(x))
  {
  }

  lemma LastCovered(ns: map<Path, Entry>, c: set<Path>, x: Path)
    requires x != [] && x in c && x in ns && !ns[x].node.Link? && IsDirectory(ns, Parent(x))
    requires Covered(ns, c, Parent(x)) && Follow(ns, Parent(x)).end == Some(Parent(x))
    ensures Covered(ns, c, x) && Follow(ns, x).end == Some(x)
  {
    FollowLast(ns, x);
    assert [x[|x| - 1]][1..] == [];
    assert Parent(x) + [x[|x| - 1]] == x;
  }

  /** Where the chain ends is fenced, or it is the drive root. */
  lemma ChainEnd(w: World, c: set<Path>, b: Binding)
    requires WorldOK(w) && MapsTo(w.ns, c, b.anchor, b.commonId)
    ensures forall x :: x in w.ns && w.ns[x].id == b.commonId ==> x == [] || (x in c && !w.ns[x].node.Link?)
  {
    var name := Resolve(w.ns, b.anchor).name.value;
    hide Resolve;
    WalkEndsInside(w, [], name, MAX_LINKS);
    if name == [] { assert Follow(w.ns, name).end == Some([]); }
  }

  /** A fenced chain that names the bound directory fences the directory's own name. */
  lemma OwnNameHomed(s: State, b: Binding, g: Guard)
    requires StateOK(s) && Bound(s, b, g, true) && OwnName(s, b)
    ensures Homed(s, b, g)
  {
    hide Resolve, ChainHeld, Walk, Follow, PinsPlaced, Tight, Covered;
    ChainEnd(s.w, g.c, b) by { hide Fence; }
    RootPlain(s.w);
    FencedWay(s.w, g.gs, g.c, b.common);
  }

  lemma RootPlain(w: World)
    requires WorldOK(w)
    ensures [] in w.ns && w.ns[[]].node == Dir
  {
  }

  /** A name that is the directory's own while the chain is fenced stays so. */
  lemma OwnNameKept(s: State, t: State, b: Binding, c: set<Path>)
    requires StateOK(s) && StateOK(t) && Agree(s.w.ns, t.w.ns, c)
    requires ChainHeld(s.w.ns, c, b.anchor) && MapsTo(t.w.ns, c, b.anchor, b.commonId) && OwnName(s, b)
    ensures OwnName(t, b)
  {
    hide Resolve, Walk, Follow;
    StateWorlds(s, t);
    ChainAgrees(s.w, t.w, c, b.anchor);
    EarlierEnd(s.w, t.w, c, b);
    ChainEnd(s.w, c, b);
  }

  lemma EarlierEnd(v: World, w: World, c: set<Path>, b: Binding)
    requires WorldOK(v) && WorldOK(w) && Agree(v.ns, w.ns, c) && ChainHeld(v.ns, c, b.anchor)
    requires Resolve(w.ns, b.anchor) == Resolve(v.ns, b.anchor)
    requires Follow(w.ns, Resolve(v.ns, b.anchor).name.value) == Follow(v.ns, Resolve(v.ns, b.anchor).name.value)
    requires MapsTo(w.ns, c, b.anchor, b.commonId)
    ensures MapsTo(v.ns, c, b.anchor, b.commonId)
  {
    hide Resolve;
    WalkEndsInside(v, [], Resolve(v.ns, b.anchor).name.value, MAX_LINKS);
  }

  lemma HomedAgrees(s: State, t: State, b: Binding, g: Guard)
    requires StateOK(s) && StateOK(t) && Agree(s.w.ns, t.w.ns, g.c) && Homed(s, b, g)
    ensures Homed(t, b, g)
  {
    CoveredAgrees(s.w.ns, t.w.ns, g.c, b.common);
    hide Walk;
    WalkEndsInside(s.w, [], b.common, MAX_LINKS);
  }

  /** A `commondir` file was there when it was asked for. */
  ghost predicate FileThere(t: Reading) {
    IsFile(t.tested.w.ns, Follow(t.tested.w.ns, t.private + [COMMONDIR]).end)
  }

  lemma FileNamed(t: Reading, anchor: Path)
    requires Private(t.tested.w.ns, anchor).end == Some(t.private)
    ensures Resolve(t.tested.w.ns, anchor).named == FileThere(t)
  {
    TestedNamed(t.tested.w.ns, anchor, t.private);
  }

  /** The chain was read as `t` says, and all of it is pinned, each name inspected and
      followed after it was held; so is the common directory under its own name; and then
      git was asked again. */
  ghost predicate Chained(a: State, z: State, log: seq<Event>, start: nat, b: Binding, t: Reading, q: Query) {
    && ChainPinned(a, q.asked, t, b.anchor, FileThere(t), b.pins) && Explored(log, start, t.names, t.names)
    && AllPinned({b.common}, b.pins) && HeldSince(log, start, b.common)
    && Confirmed(a, z, b.anchor, b.commonId, q)
  }

  lemma ChainOn(a: State, b: State, c: State, t: Reading, anchor: Path, named: bool, pins: seq<Pin>, more: seq<Pin>)
    requires ChainPinned(a, b, t, anchor, named, pins) && Carry(b, c) && pins <= more
    ensures ChainPinned(a, c, t, anchor, FileThere(t), more) && named == FileThere(t)
  {
    hide Carry, StateOK, PrivateRead, ChainMet, TextAt, IsFile, Follow;
    CarryOn(t.read, b, c);
    forall n | n in t.names ensures exists i :: 0 <= i < |more| && more[i].path == n {
      var i :| 0 <= i < |pins| && pins[i].path == n;
      assert more[i].path == n;
    }
  }

  /** The pins are of the same names. */
  ghost predicate SamePaths(before: seq<Pin>, after: seq<Pin>) {
    |after| == |before| && forall i :: 0 <= i < |before| ==> after[i].path == before[i].path
  }

  lemma PinnedStillSo(names: set<Path>, before: seq<Pin>, after: seq<Pin>)
    requires SamePaths(before, after) && AllPinned(names, before)
    ensures AllPinned(names, after)
  {
    forall n | n in names ensures exists i :: 0 <= i < |after| && after[i].path == n {
      var i :| 0 <= i < |before| && before[i].path == n;
      assert after[i].path == n;
    }
  }

  lemma ChainedOn(a: State, y: State, z: State, log: seq<Event>, more: seq<Event>, start: nat, earlier: nat,
                  b: Binding, c: Binding, t: Reading, q: Query)
    requires Chained(a, y, log, start, b, t, q) && Carry(y, z) && log <= more && earlier <= start
    requires c == b.(pins := c.pins) && SamePaths(b.pins, c.pins)
    ensures Chained(a, z, more, earlier, c, t, q)
  {
    hide Carry, StateOK, ChainRead, ChainMet, AllPinned, SamePaths, Explored, HeldSince, FileThere, Resolve, ReachesIdentity;
    CarryOn(q.looked, y, z);
    PinnedStillSo(t.names, b.pins, c.pins);
    PinnedStillSo({b.common}, b.pins, c.pins);
    ExploredOn(log, more, start, earlier, t.names, t.names, t.names);
    HeldOn(log, more, start, earlier, b.common);
  }

  /** Every link pinned, the common directory itself pinned, and what the chain names
      asked once more. If the opens of the directory's name found the directory there,
      the name is fenced with the chain. */
  method HoldChain(k: Kernel, b: Binding, depth: nat)
    returns (r: Result<()>, pins: seq<Pin>, ghost flat: bool, ghost g: Guard, ghost t: Reading, ghost q: Query)
    requires k.OK()
    modifies k`s, k`log
    ensures old(k.log) <= k.log
    ensures k.OK() && Settled(old(k.s), k.s, Handles(pins)) && PinsApart(pins) && Carry(old(k.s), k.s)
    ensures r.Ok? ==> AllInherit(k.s, pins) && k.s.refused == old(k.s).refused
    ensures r.Ok? && !flat ==> Crooked(k.log, |old(k.log)|)
    ensures r.Ok? && HasCommondir(pins) ==> FileThere(t)
    ensures r.Ok? ==> Chained(old(k.s), k.s, k.log, |old(k.log)|, b.(pins := pins), t, q)
    ensures r.Ok? && flat ==> Private(t.tested.w.ns, b.anchor).end == Some(t.private)
    ensures r.Ok? && flat ==> Bound(k.s, b.(pins := pins), g, FileThere(t)) && Since(g, old(k.s))
    ensures r.Ok? && flat && FileThere(t) && AtHome(k.log, |old(k.log)|, b.common, b.commonId) ==>
              Homed(k.s, b.(pins := pins), g)
    ensures r.Fail? ==> PlainlyReports(old(k.s), k.s, r.failure)
  {
    hide StateOK, Settled, Fence, Walk, Follow, Guarded, Placed, Carry, Agree, Handles, ChainHeld, Resolve, Private,
         HeldFirst, Crooked, HasCommondir, OwnHolds, MapsTo, Tight, HeldSince, AtHome, Homed, ChainPinned, Explored,
         ParentsLoose, AllPinned, FileThere, Pinned, ReachesIdentity, AllInherit;
    ghost var s0 := k.s;
    SettledSelf(s0);
    pins, flat, g, q := [], false, Guard({}, {}, {}, {}), Query([], s0, s0);
    NoNumbers();
    var chain;
    ghost var named;
    chain, named, flat, g, t := OpenPins(k, b.anchor, depth);
    if chain.Fail? { return Fail(chain.failure), pins, flat, g, t, q; }
    pins := chain.value;
    ghost var s1, log := k.s, k.log;
    OwnedUntried(s0, s1, Handles(pins), pins);
    var extra := OpenSharedPin(k, b.common, COMMON_DIRECTORY, {Read});
    CarryOn(s0, s1, k.s);
    if extra.Fail? { return Fail(extra.failure), pins, flat, g, t, q; }
    var pin := extra.value;
    ghost var s2, extended := k.s, k.log;
    HandlesExtended(pins, pin);
    SettledApart(s0, s1, Handles(pins), pin.handle);
    if flat { ExtraPin(s1, s2, g, pins, pin, b.anchor, named); }
    OneRole(pins, pins + [pin], COMMON_DIRECTORY);
    OtherRole(pins, pins + [pin], COMMON_DIRECTORY);
    ghost var first := pins;
    pins := pins + [pin];
    InheritMore(s1, s2, first, pin, {Read});
    var again;
    again, q := ConfirmCommon(k, b.anchor, b.commonId);
    CarryOn(s0, s2, k.s);
    if again.Fail? { return Fail(again.failure), pins, flat, g, t, q; }
    if !flat { CrookedOn(log, k.log, |old(k.log)|, |old(k.log)|); }
    Undisturbed(s0, s2, k.s, Handles(pins), pins, false, g);
    if flat { PinnedStill(s2, k.s, g, pins); }
    ChainAsked(s0, s1, s2, k.s, log, extended, k.log, |old(k.log)|, b, named, first, pin, t, q);
    if flat && named {
      PinnedHolds(s2, k.s, g, pins);
      ConfirmedMaps(s2, q.asked, q.looked, k.s, g, b.anchor, q.name, b.commonId);
    }
    LastHeld(log, extended, k.log, |old(k.log)|, s2.w.ns, b);
    if flat && named && AtHome(k.log, |old(k.log)|, b.common, b.commonId) {
      ExtraHomed(s2, k.s, b, b.(pins := pins), g);
    }
    return Ok(()), pins, flat, g, t, q;
  }

  lemma PinnedHolds(a: State, b: State, g: Guard, pins: seq<Pin>)
    requires Pinned(a, pins, g) && Pinned(b, pins, g)
    ensures OwnHolds(a, g) && OwnHolds(b, g) && Guarded(a.w, g)
  {
  }

  /** What was read and pinned, and asked after the common directory's own pin. */
  lemma ChainAsked(s0: State, s1: State, s2: State, z: State, log: seq<Event>, extended: seq<Event>, more: seq<Event>,
                   start: nat, b: Binding, named: bool, first: seq<Pin>, pin: Pin, t: Reading, q: Query)
    requires ChainPinned(s0, s1, t, b.anchor, named, first) && Explored(log, start, t.names, t.names)
    requires Carry(s0, s2) && Carry(s1, s2) && Confirmed(s2, z, b.anchor, b.commonId, q)
    requires start <= |log| && log <= extended <= more && |log| < |extended|
    requires extended[|log|].Held? && extended[|log|].name == b.common && pin.path == b.common
    ensures Chained(s0, z, more, start, b.(pins := first + [pin]), t, q) && named == FileThere(t)
  {
    hide Carry, StateOK, ChainPinned, Confirmed, Explored, AllPinned, HeldSince, Chained, FileThere;
    ConfirmedSince(s0, s2, z, b.anchor, b.commonId, q);
    ConfirmedSince(s1, s2, z, b.anchor, b.commonId, q);
    ChainOn(s0, s1, q.asked, t, b.anchor, named, first, first + [pin]);
    ExploredOn(log, more, start, start, t.names, t.names, t.names);
    LastPinned(first + [pin], b.common);
    HeldThen(log, extended, more, start, b.common);
    ChainMade(s0, z, more, start, b.(pins := first + [pin]), t, q);
  }

  lemma ChainMade(a: State, z: State, log: seq<Event>, start: nat, b: Binding, t: Reading, q: Query)
    requires ChainPinned(a, q.asked, t, b.anchor, FileThere(t), b.pins) && Explored(log, start, t.names, t.names)
    requires AllPinned({b.common}, b.pins) && HeldSince(log, start, b.common)
    requires Confirmed(a, z, b.anchor, b.commonId, q)
    ensures Chained(a, z, log, start, b, t, q)
  {
    hide ChainPinned, Explored, AllPinned, HeldSince, Confirmed;
  }

  /** Asked later is asked since. */
  lemma ConfirmedSince(a: State, b: State, z: State, anchor: Path, id: nat, q: Query)
    requires Carry(a, b) && Confirmed(b, z, anchor, id, q)
    ensures Confirmed(a, z, anchor, id, q) && Carry(a, q.asked)
  {
    hide Carry, StateOK, Resolve, ReachesIdentity;
    CarryOn(a, b, q.asked);
  }

  lemma LastPinned(pins: seq<Pin>, path: Path)
    requires pins != [] && pins[|pins| - 1].path == path
    ensures AllPinned({path}, pins)
  {
  }

  lemma HeldThen(log: seq<Event>, extended: seq<Event>, more: seq<Event>, start: nat, name: Path)
    requires start <= |log| && log <= extended <= more && |log| < |extended|
    requires extended[|log|].Held? && extended[|log|].name == name
    ensures HeldSince(more, start, name)
  {
    assert more[|log|] == extended[|log|];
  }

  /** The common directory's own pin is one of the opens of its name. */
  lemma LastHeld(before: seq<Event>, after: seq<Event>, log: seq<Event>, start: nat, ns: map<Path, Entry>, b: Binding)
    requires start <= |before| && NoFollow(ns, b.common).Some? && NoFollow(ns, b.common).value in ns
    requires after == before + [HeldAs(ns, b.common)] && after <= log
    ensures HeldSince(log, start, b.common)
    ensures AtHome(log, start, b.common, b.commonId) ==> b.common in ns && ns[b.common].id == b.commonId
  {
    assert log[|before|] == HeldAs(ns, b.common);
  }

  lemma ExtraHomed(s: State, t: State, b: Binding, c: Binding, g: Guard)
    requires StateOK(s) && StateOK(t) && Carry(s, t) && OwnName(s, b)
    requires c == b.(pins := c.pins) && Bound(t, c, g, true)
    requires Guarded(s.w, g) && OwnHolds(s, g) && ChainHeld(s.w.ns, g.c, b.anchor)
    ensures Homed(t, c, g)
  {
    hide Walk, Follow, Resolve, ChainHeld, Fence, PinsPlaced, Tight, StateOK, Carry;
    assert OwnHolds(t, g);
    CarriedGuard(s, t, g);
    OwnNameKept(s, t, b, g.c);
    OwnNameHomed(t, c, g);
  }

  lemma CarriedGuard(s: State, t: State, g: Guard)
    requires StateOK(s) && StateOK(t) && Carry(s, t) && Guarded(s.w, g) && OwnHolds(s, g) && OwnHolds(t, g)
    ensures Agree(s.w.ns, t.w.ns, g.c)
  {
    GuardCarried(s, t, g);
  }

  /** A pin outside the guard changes nothing the guard says. */
  lemma ExtraPin(s1: State, s2: State, g: Guard, pins: seq<Pin>, pin: Pin, anchor: Path, named: bool)
    requires StateOK(s1) && StateOK(s2) && Carry(s1, s2) && Pinned(s1, pins, g)
    requires PinnedAt(s1, s2, pin.path, pin.handle, {Read})
    requires forall i :: 0 <= i < |pins| ==> pins[i].handle in s1.table
    requires named ==> ChainHeld(s1.w.ns, g.c, anchor)
    ensures Pinned(s2, pins + [pin], g) && (named ==> ChainHeld(s2.w.ns, g.c, anchor))
  {
    hide StateOK, Fence, Walk, Follow, Guarded, Placed, Carry, ChainHeld, Resolve, Tight;
    OutsidePin(s1, s2, g, pins, pin);
    PinnedCarried(s1, s2, g, pins);
    FreshGrant(s1, g, s2.table[pin.handle].grant);
    TightOutside(s2, g, pins, pin);
    if named {
      StateWorlds(s1, s2);
      ChainAgrees(s1.w, s2.w, g.c, anchor);
    }
  }

  lemma PinnedStill(a: State, b: State, g: Guard, pins: seq<Pin>)
    requires StateOK(a) && StateOK(b) && Carry(a, b) && AddsNothing(a, b) && Pinned(a, pins, g) && AllInherit(a, pins)
    ensures Pinned(b, pins, g)
  {
    hide StateOK, Fence, Guarded, Placed, Carry, Tight, Agree;
    NothingKeeps(a, b);
    UntriedStays(a, b, g);
    PinnedCarried(a, b, g, pins);
  }

  lemma SettledGrants(a: State, b: State, owned: set<int>)
    requires Settled(a, b, owned)
    ensures owned <= b.table.Keys && owned !! a.table.Keys && a.w.next <= b.w.next
    ensures forall h :: h in owned ==> b.table[h].grant !in b.tried && b.table[h].grant >= a.w.next
  {
    assert forall h :: h in owned ==> h in b.table && h !in a.table;
  }

  /** A guard taken after `s1` is not made of what the process had at `s1`. */
  lemma EarlierGrant(s1: State, s2: State, g: Guard, h: int)
    requires StateOK(s1) && Since(g, s1) && h in s1.table && h in s2.table && s2.table[h] == s1.table[h]
    ensures s2.table[h].grant !in g.gs
  {
  }

  lemma SettledKeeps(a: State, b: State, owned: set<int>)
    requires Settled(a, b, owned)
    ensures KeepsTable(a, b, {})
  {
  }

  /** Closing a handle that is not the guard's leaves the binding as it was. */
  lemma BoundCarried(a: State, c: State, b: Binding, g: Guard, named: bool, h: int)
    requires StateOK(a) && StateOK(c) && Carry(a, c) && Bound(a, b, g, named)
    requires KeepsTable(a, c, {h}) && TriesOnly(a, c, {h}) && h in a.table && a.table[h].grant !in g.gs
    requires forall i :: 0 <= i < |b.pins| ==> b.pins[i].handle in a.table && b.pins[i].handle != h
    ensures Bound(c, b, g, named) && Agree(a.w.ns, c.w.ns, g.c)
    ensures AllInherit(a, b.pins) ==> AllInherit(c, b.pins)
  {
    hide StateOK, Fence, Walk, Follow, Guarded, Placed, Carry, MapsTo, Resolve, Tight;
    assert {} + {h} == {h};
    UntriedBut(a, c, g, h);
    PinnedCarried(a, c, g, b.pins);
    if named {
      StateWorlds(a, c);
      MapsAgrees(a.w, c.w, g.c, b.anchor, b.commonId);
    }
  }

  lemma ApartFrom(pins: seq<Pin>, h: int)
    requires h !in Handles(pins)
    ensures forall i :: 0 <= i < |pins| ==> pins[i].handle != h
  {
  }

  /** How a binding was entered: how its names were found, and, from the state `bound`,
      how the chain was read and git asked again. */
  datatype Story = Story(names: Names, bound: State, t: Reading, again: Query)

  ghost predicate Entered(a: State, z: State, log: seq<Event>, start: nat, from: Path, b: Binding, y: Story) {
    && StateOK(y.bound) && NamesFound(a, y.bound, from, b, y.names)
    && Chained(y.bound, z, log, start, b, y.t, y.again)
  }

  lemma EnteredOn(a: State, y: State, z: State, log: seq<Event>, more: seq<Event>, start: nat, from: Path,
                  b: Binding, c: Binding, story: Story)
    requires Entered(a, y, log, start, from, b, story) && Carry(y, z) && log <= more
    requires c == b.(pins := c.pins) && SamePaths(b.pins, c.pins)
    ensures Entered(a, z, more, start, from, c, story)
  {
    hide Chained, Identified, Confirmed, SamePaths, Carry, StateOK;
    ChainedOn(story.bound, y, z, log, more, start, start, b, c, story.t, story.again);
  }

  /** The steps up to the transfer; what was acquired is in the out-parameters
      however it ends. */
  method HoldAll(k: Kernel, start: Option<Path>, depth: nat)
    returns (r: Result<Binding>, anchor: int, directory: int, pins: seq<Pin>,
             ghost flat: bool, ghost g: Guard, ghost y: Story)
    requires k.OK()
    modifies k`s, k`log
    ensures old(k.log) <= k.log
    ensures k.OK() && Settled(old(k.s), k.s, One(directory) + One(anchor) + Handles(pins)) && PinsApart(pins)
    ensures Carry(old(k.s), k.s)
    ensures anchor == directory ==> anchor == -1
    ensures Handles(pins) !! One(anchor) + One(directory)
    ensures r.Ok? ==> anchor == -1 && directory >= 0 && AllInherit(k.s, pins) && k.s.refused == old(k.s).refused
                      && r.value.pins == pins
    ensures r.Ok? && !flat ==> Crooked(k.log, |old(k.log)|)
    ensures r.Ok? && HasCommondir(pins) ==> FileThere(y.t)
    ensures r.Ok? ==> start.Some? && Entered(old(k.s), k.s, k.log, |old(k.log)|, start.value, r.value, y)
    ensures r.Ok? && flat ==> Private(y.t.tested.w.ns, r.value.anchor).end == Some(y.t.private)
    ensures r.Ok? && flat ==> Bound(k.s, r.value, g, FileThere(y.t)) && Since(g, old(k.s))
                              && directory in k.s.table && k.s.table[directory].grant !in g.gs
    ensures r.Ok? && flat && FileThere(y.t) && AtHome(k.log, |old(k.log)|, r.value.common, r.value.commonId) ==>
              Homed(k.s, r.value, g)
    ensures r.Fail? ==> PlainlyReports(old(k.s), k.s, r.failure)
  {
    hide StateOK, Settled, Fence, Walk, Follow, Guarded, Placed, Carry, Agree, Handles, ChainHeld, Resolve, Private,
         HeldFirst, Crooked, HasCommondir, OwnHolds, MapsTo, Pinned, Bound, HeldSince, AtHome, Homed, Chained,
         NamesFound, FileThere;
    ghost var s0 := k.s;
    flat, g := false, Guard({}, {}, {}, {});
    var names;
    ghost var n;
    names, anchor, directory, n := HoldNames(k, start);
    y := Story(n, k.s, Unread(k.s), Query([], k.s, k.s));
    pins := [];
    NoNumbers();
    ghost var s1, log := k.s, k.log;
    ghost var two := One(directory) + One(anchor);
    assert two == One(anchor) + One(directory) && two + Handles([]) == two;
    if names.Fail? { return Fail(names.failure), anchor, directory, pins, flat, g, y; }
    SettledGrants(s0, s1, two);
    var chain;
    ghost var t, q;
    chain, pins, flat, g, t, q := HoldChain(k, names.value, depth);
    y := Story(n, s1, t, q);
    ghost var s2 := k.s;
    CarryOn(s0, s1, s2);
    SettledThen(s0, s1, s2, two, Handles(pins));
    SettledGrants(s1, s2, Handles(pins));
    SettledKeeps(s1, s2, Handles(pins));
    if chain.Fail? { return Fail(chain.failure), anchor, directory, pins, flat, g, y; }
    if !flat { CrookedOn(k.log, k.log, |log|, |old(k.log)|); }
    if flat {
      EarlierGrant(s1, s2, g, anchor);
      EarlierGrant(s1, s2, g, directory);
    }
    ApartFrom(pins, anchor);
    OneItem(Item(DirectoryProbe, anchor));
    var retired := anchor;
    anchor := -1;
    var refused := Abandon(k, [Item(DirectoryProbe, retired)], []);
    CarryOn(s0, s2, k.s);
    assert Settled(s0, k.s, One(directory) + One(-1) + Handles(pins)) by {
      assert two + Handles(pins) - {retired} == One(directory) + One(-1) + Handles(pins);
    }
    if refused != [] {
      return Fail(Stranded(refused, None)), anchor, directory, pins, flat, g, y;
    }
    var b := names.value.(pins := pins);
    HandlesLive(s2, pins);
    NamesKept(s0, s1, start.value, names.value, b, n);
    ChainedOn(s1, s2, k.s, k.log, k.log, |log|, |old(k.log)|, b, b, t, q) by { SamePathsSelf(pins); }
    if flat {
      BoundCarried(s2, k.s, b, g, FileThere(t), retired);
      if FileThere(t) && AtHome(k.log, |old(k.log)|, b.common, b.commonId) {
        AtHomeBefore(k.log, k.log, |old(k.log)|, |log|, b.common, b.commonId);
        HomedAgrees(s2, k.s, b, g);
      }
    }
    InheritKept(s2, k.s, pins, retired);
    return Ok(b), anchor, directory, pins, flat, g, y;
  }

  lemma SamePathsSelf(pins: seq<Pin>)
    ensures SamePaths(pins, pins)
  {
  }

  lemma NamesKept(a: State, z: State, from: Path, b: Binding, c: Binding, n: Names)
    requires NamesFound(a, z, from, b, n) && c == b.(pins := c.pins)
    ensures NamesFound(a, z, from, c, n)
  {
    hide Identified, Confirmed;
  }

  lemma HandlesLive(s: State, pins: seq<Pin>)
    requires Handles(pins) <= s.table.Keys
    ensures forall i :: 0 <= i < |pins| ==> pins[i].handle in s.table
  {
  }

  lemma InheritKept(a: State, b: State, pins: seq<Pin>, h: int)
    requires AllInherit(a, pins) && KeepsTable(a, b, {h}) && forall i :: 0 <= i < |pins| ==> pins[i].handle != h
    ensures AllInherit(b, pins)
  {
  }

  /** Hold the repository asked for, then the common directory it names, with every link
      between them pinned; the caller closes the directory's handle. */
  method HoldCommonDir(k: Kernel, start: Option<Path>, depth: nat)
    returns (r: Result<(int, Binding)>, ghost flat: bool, ghost g: Guard, ghost y: Story)
    requires k.OK()
    modifies k`s, k`log
    ensures old(k.log) <= k.log
    ensures k.OK() && Carry(old(k.s), k.s)
    ensures r.Ok? ==>
              var directory, b := r.value.0, r.value.1;
              && Settled(old(k.s), k.s, {directory} + Handles(b.pins)) && directory >= 0
              && directory !in Handles(b.pins) && PinsApart(b.pins) && AllInherit(k.s, b.pins)
              && k.s.refused == old(k.s).refused
              && (flat ==> Bound(k.s, b, g, Resolve(y.t.tested.w.ns, b.anchor).named) && Since(g, old(k.s))
                           && directory in k.s.table && k.s.table[directory].grant !in g.gs)
    ensures r.Ok? && !flat ==> Crooked(k.log, |old(k.log)|)
    ensures r.Ok? && HasCommondir(r.value.1.pins) ==> FileThere(y.t)
    ensures r.Ok? ==> start.Some? && Entered(old(k.s), k.s, k.log, |old(k.log)|, start.value, r.value.1, y)
    ensures r.Ok? ==>
              var b := r.value.1;
              flat && Resolve(y.t.tested.w.ns, b.anchor).named && AtHome(k.log, |old(k.log)|, b.common, b.commonId) ==>
                Homed(k.s, b, g)
    ensures r.Fail? ==> Settled(old(k.s), k.s, {}) && PlainlyReports(old(k.s), k.s, r.failure)
  {
    hide StateOK, Settled, Fence, Walk, Follow, Guarded, Placed, Carry, Agree, Handles, ChainHeld, Resolve, Private,
         HeldFirst, Crooked, HasCommondir, OwnHolds, MapsTo, Pinned, Bound, HeldSince, AtHome, Homed, Entered, FileThere;
    ghost var s0 := k.s;
    var held, anchor, directory, pins;
    held, anchor, directory, pins, flat, g, y := HoldAll(k, start, depth);
    ghost var s1 := k.s;
    ghost var all := One(directory) + One(anchor) + Handles(pins);
    if held.Ok? {
      assert all == {directory} + Handles(pins);
      if flat { FileNamed(y.t, held.value.anchor); }
      return Ok((directory, held.value)), flat, g, y;
    }
    SettledGrants(s0, s1, all);
    HeldNumbers(Item(DirectoryProbe, directory), Item(DirectoryProbe, anchor));
    var refused := Abandon(k, Holding(DirectoryProbe, directory) + Holding(DirectoryProbe, anchor), pins);
    CarryOn(s0, s1, k.s);
    assert Settled(s0, k.s, {}) by { assert all - all == {}; }
    ReportsThen(s0, s1, k.s, held.failure, refused);
    return Fail(Reraise(held.failure, refused)), flat, g, y;
  }
}
