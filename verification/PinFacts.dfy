// What the pins of a walk amount to, state by state: the facts its steps are made of.
module PinFacts {
  import opened Options
  import opened Namespace
  import opened Fences
  import opened Mapping
  import opened Strands
  import opened Kernels
  import opened Cleanup
  import opened Guards
  import opened Relaxing

  ghost predicate HeldSince(log: seq<Event>, start: nat, n: Path) {
    exists j :: start <= j < |log| && log[j].Held? && log[j].name == n
  }

  /** Nothing is asked of a name, the drive root apart, before the name is held. */
  ghost predicate HeldFirst(log: seq<Event>, start: nat) {
    forall i :: start <= i < |log| && Asks(log[i]) && log[i].name != [] ==> HeldSince(log[..i], start, log[i].name)
  }

  lemma HeldFirstNext(log: seq<Event>, start: nat, event: Event)
    requires start <= |log| && HeldFirst(log, start)
    requires Asks(event) && event.name != [] ==> HeldSince(log, start, event.name)
    ensures HeldFirst(log + [event], start)
    ensures forall n :: HeldSince(log, start, n) ==> HeldSince(log + [event], start, n)
    ensures event.Held? ==> HeldSince(log + [event], start, event.name)
  {
    var more := log + [event];
    forall n | HeldSince(log, start, n) ensures HeldSince(more, start, n) {
      var j :| start <= j < |log| && log[j].Held? && log[j].name == n;
      assert more[j] == log[j];
    }
    forall i | start <= i < |more| && Asks(more[i]) && more[i].name != [] ensures HeldSince(more[..i], start, more[i].name) {
      if i < |log| {
        assert more[..i] == log[..i];
      } else {
        assert more[..i] == log;
      }
    }
    assert more[|log|] == event;
  }

  /** One attempt to hold a name: the log gained that the name was held, or nothing. */
  ghost predicate Tried(before: seq<Event>, after: seq<Event>, name: Path) {
    after == before
    || (|after| == |before| + 1 && before <= after && after[|before|].Held? && after[|before|].name == name)
  }

  lemma HeldFirstTried(log: seq<Event>, more: seq<Event>, start: nat, name: Path)
    requires start <= |log| && HeldFirst(log, start) && Tried(log, more, name)
    ensures HeldFirst(more, start) && log <= more
    ensures forall n :: HeldSince(log, start, n) ==> HeldSince(more, start, n)
    ensures more != log ==> HeldSince(more, start, name)
  {
    hide HeldFirst, HeldSince;
    if more != log {
      HeldFirstNext(log, start, more[|log|]);
      assert more == log + [more[|log|]];
    }
  }

  /** All of a name's components are among the names. */
  ghost predicate Met(path: Path, names: set<Path>) {
    forall i :: 1 <= i <= |path| ==> path[..i] in names
  }

  /** What the link seen there reaches was named next, and all of that name was met. */
  ghost predicate FollowedAt(log: seq<Event>, i: nat, names: set<Path>) {
    && i + 2 < |log| && log[i].Saw? && log[i + 1] == Looked(log[i].name)
    && log[i + 2].Final? && Met(log[i + 2].path, names)
  }

  /** The name was inspected, and followed if it was a link. */
  ghost predicate ExploredAt(log: seq<Event>, i: nat, n: Path, names: set<Path>) {
    i < |log| && log[i].Saw? && log[i].name == n && (log[i].node.Link? ==> FollowedAt(log, i, names))
  }

  ghost predicate Explored(log: seq<Event>, start: nat, found: set<Path>, names: set<Path>) {
    forall n :: n in found ==> exists i :: start <= i && ExploredAt(log, i, n, names)
  }

  lemma ExploredOn(log: seq<Event>, more: seq<Event>, start: nat, earlier: nat, found: set<Path>,
                   names: set<Path>, all: set<Path>)
    requires log <= more && earlier <= start && names <= all && Explored(log, start, found, names)
    ensures Explored(more, earlier, found, all)
  {
    forall n | n in found ensures exists i :: earlier <= i && ExploredAt(more, i, n, all) {
      var i :| start <= i && ExploredAt(log, i, n, names);
      assert ExploredAt(more, i, n, all);
    }
  }

  lemma ExploredBoth(log: seq<Event>, start: nat, a: set<Path>, b: set<Path>, names: set<Path>)
    requires Explored(log, start, a, names) && Explored(log, start, b, names)
    ensures Explored(log, start, a + b, names)
  {
  }

  lemma ExploredNone(log: seq<Event>, start: nat, found: set<Path>, names: set<Path>)
    requires found == {}
    ensures Explored(log, start, found, names)
  {
  }

  lemma ExploredOne(log: seq<Event>, start: nat, i: nat, n: Path, names: set<Path>)
    requires start <= i && ExploredAt(log, i, n, names)
    ensures Explored(log, start, {n}, names)
  {
  }

  /** A name newly held and inspected, with all that following it met. */
  lemma VisitExplored(before: seq<Event>, held: seq<Event>, log: seq<Event>, prefix: Path,
                      old_: set<Path>, mid: set<Path>, names: set<Path>)
    requires |before| < |held| && held <= log && held[|held| - 1].Saw? && held[|held| - 1].name == prefix
    requires held[|held| - 1].node.Link? ==> FollowedAt(log, |held| - 1, names)
    requires mid == old_ + {prefix} && mid <= names && Explored(log, |held|, names - mid, names)
    ensures Explored(log, |before|, names - old_, names)
  {
    hide FollowedAt;
    assert log[|held| - 1] == held[|held| - 1];
    ExploredOne(log, |before|, |held| - 1, prefix, names);
    ExploredOn(log, log, |held|, |before|, names - mid, names, names);
    ExploredBoth(log, |before|, {prefix}, names - mid, names);
    forall n | n in names - old_ ensures n in {prefix} + (names - mid) {}
  }

  /** A link's identity and what it leads to were read, and both were found to be the same
      object again afterwards. */
  ghost predicate CrossedBy(a: State, z: State, link: Path, target: Path, id: nat,
                            looked: State, named: State, first: State, second: State) {
    && StateOK(looked) && StateOK(named) && StateOK(first) && StateOK(second)
    && Carry(a, looked) && Carry(looked, named) && Carry(named, first) && Carry(first, second) && Carry(second, z)
    && ReachesIdentity(looked.w.ns, link, id) && target in named.w.ns && named.w.ns[target].id == id
    && ReachesIdentity(first.w.ns, link, id) && ReachesIdentity(second.w.ns, target, id)
  }

  ghost predicate Crossed(a: State, z: State, link: Path, target: Path) {
    exists id, looked, named, first, second :: CrossedBy(a, z, link, target, id, looked, named, first, second)
  }

  lemma ThenCrossed(s0: State, s1: State, s2: State, s3: State, link: Path, target: Path, id: nat,
                    looked: State, named: State, first: State, second: State)
    requires StateOK(looked) && StateOK(named) && StateOK(first) && StateOK(second)
    requires Carry(s0, looked) && Carry(looked, named) && Carry(named, s1) && Carry(s1, s2) && Carry(s2, first)
    requires Carry(first, second) && Carry(second, s3)
    requires ReachesIdentity(looked.w.ns, link, id) && target in named.w.ns && named.w.ns[target].id == id
    requires ReachesIdentity(first.w.ns, link, id) && ReachesIdentity(second.w.ns, target, id)
    ensures Crossed(s0, s3, link, target)
  {
    hide StateOK, Carry, ReachesIdentity;
    CarryOn(named, s1, s2);
    CarryOn(named, s2, first);
    assert CrossedBy(s0, s3, link, target, id, looked, named, first, second);
  }

  lemma ThenFollowed(before: seq<Event>, probed: seq<Event>, log: seq<Event>, link: Path, target: Path, names: set<Path>)
    requires before != [] && before[|before| - 1].Saw? && before[|before| - 1].name == link
    requires probed == before + [Looked(link), Final(target)] && probed <= log && Met(target, names)
    ensures FollowedAt(log, |before| - 1, names) && log[|before| + 1] == Final(target)
  {
    assert log[|before| - 1] == before[|before| - 1] && log[|before|] == probed[|before|];
    assert log[|before| + 1] == probed[|before| + 1];
  }

  /** Each of the names is the path of a pin. */
  ghost predicate AllPinned(names: set<Path>, pins: seq<Pin>) {
    forall n :: n in names ==> exists i :: 0 <= i < |pins| && pins[i].path == n
  }

  lemma PinnedMore(names: set<Path>, n: Path, pins: seq<Pin>, more: seq<Pin>)
    requires AllPinned(names, pins) && |pins| < |more| && pins <= more && more[|pins|].path == n
    ensures AllPinned(names + {n}, more) && AllPinned(names, more)
  {
    forall m | m in names ensures exists i :: 0 <= i < |more| && more[i].path == m {
      var i :| 0 <= i < |pins| && pins[i].path == m;
      assert more[i] == pins[i];
    }
    assert more[|pins|].path == n;
  }

  /** Every open of the name itself found the object `id`, under that very name. */
  ghost predicate AtHome(log: seq<Event>, start: nat, name: Path, id: nat) {
    forall i :: start <= i < |log| && log[i].Held? && log[i].name == name ==> log[i].at == name && log[i].id == id
  }

  lemma AtHomeBefore(log: seq<Event>, more: seq<Event>, start: nat, later: nat, name: Path, id: nat)
    requires log <= more && start <= later && AtHome(more, start, name, id)
    ensures AtHome(log, later, name, id)
  {
    forall i | later <= i < |log| ensures log[i] == more[i] {}
  }

  lemma HeldOn(log: seq<Event>, more: seq<Event>, start: nat, earlier: nat, n: Path)
    requires log <= more && earlier <= start && HeldSince(log, start, n)
    ensures HeldSince(more, earlier, n)
  {
    var j :| start <= j < |log| && log[j].Held? && log[j].name == n;
    assert more[j] == log[j];
  }

  const REPOSITORY := "the repository directory"
  const ENTRY := "the repository's .git entry"
  const PRIVATE_DIRECTORY := "the checkout's private git directory"
  const COMMONDIR_FILE := "the commondir file"
  const COMMON_DIRECTORY := "the common git directory"

  function OnTheWay(role: string): string {
    "a component on the way to " + role
  }

  /** The pins from there on were taken for this role. */
  predicate Roles(pins: seq<Pin>, from: nat, role: string) {
    forall i | from <= i < |pins| :: pins[i].role == role || pins[i].role == OnTheWay(role)
  }

  /** A pin was taken for a `commondir` file itself. */
  predicate HasCommondir(pins: seq<Pin>) {
    exists i | 0 <= i < |pins| :: pins[i].role == COMMONDIR_FILE
  }

  lemma OtherRole(before: seq<Pin>, after: seq<Pin>, role: string)
    requires before <= after && Roles(after, |before|, role)
    requires role in {REPOSITORY, ENTRY, PRIVATE_DIRECTORY, COMMON_DIRECTORY}
    ensures HasCommondir(after) ==> HasCommondir(before)
  {
  }

  lemma SameRoles(a: State, b: State, before: seq<Pin>, after: seq<Pin>)
    requires SameObjects(a, b, before, after)
    ensures HasCommondir(after) ==> HasCommondir(before)
  {
  }

  lemma OneRole(before: seq<Pin>, after: seq<Pin>, role: string)
    requires before <= after && |after| <= |before| + 1
    requires |after| == |before| + 1 ==> after[|before|].role == role || after[|before|].role == OnTheWay(role)
    ensures Roles(after, |before|, role) && !HasCommondir([])
  {
  }

  lemma RolesThrough(first: seq<Pin>, second: seq<Pin>, third: seq<Pin>, role: string)
    requires first <= second <= third && Roles(second, |first|, role) && Roles(third, |second|, role)
    ensures Roles(third, |first|, role)
  {
  }

  /** Some link was seen to be written as another name than the one its handle then
      gave for what it reached. */
  ghost predicate Crooked(log: seq<Event>, start: nat) {
    exists i :: start <= i && i + 2 < |log| && CrookedAt(log, i)
  }

  predicate CrookedAt(log: seq<Event>, i: nat)
    requires i + 2 < |log|
  {
    log[i].Saw? && log[i].node.Link? && log[i + 2].Final? && log[i + 2].path != log[i].node.target
  }

  lemma CrookedNow(log: seq<Event>, start: nat, prefix: Path, written: Path, reached: Path)
    requires start < |log| && log[|log| - 1].Saw? && log[|log| - 1].node.Link? && log[|log| - 1].node.target == written
    requires reached != written
    ensures Crooked(log + [Looked(prefix), Final(reached)], start)
  {
    var more := log + [Looked(prefix), Final(reached)];
    assert more[|log| + 1] == Final(reached) && more[|log| - 1] == log[|log| - 1];
    assert CrookedAt(more, |log| - 1);
  }

  lemma CrookedOn(log: seq<Event>, more: seq<Event>, start: nat, earlier: nat)
    requires log <= more && earlier <= start && Crooked(log, start)
    ensures Crooked(more, earlier)
  {
    var i :| start <= i && i + 2 < |log| && CrookedAt(log, i);
    assert CrookedAt(more, i);
  }

  /** The pin `h`, new and inheritable, is an open of the object `path` itself denotes. */
  ghost predicate PinnedAt(a: State, b: State, path: Path, h: int, share: set<Right>) {
    && h >= 0 && h !in a.table && h in b.table && b.table[h].inherit
    && b.table == a.table[h := b.table[h]]
    && b.table[h].grant >= a.w.next && b.table[h].grant in b.w.opens
    && NoFollow(b.w.ns, path).Some? && NoFollow(b.w.ns, path).value in b.w.ns
    && b.w.opens[b.table[h].grant] == Open(b.w.ns[NoFollow(b.w.ns, path).value].id, {Read}, share)
    && b.tried == a.tried && b.refused == a.refused
  }

  lemma MarkedAdds(a: State, b: State, c: State, h: int)
    requires Adds(a, b, {h})
    requires forall base, owned: set<int> {:trigger Settled(base, b, owned)} ::
                h in owned && Settled(base, b, owned) ==> Settled(base, c, owned)
    ensures Adds(a, c, {h})
  {
  }

  lemma HandlesExtended(pins: seq<Pin>, pin: Pin)
    ensures Handles(pins + [pin]) == Handles(pins) + {pin.handle}
    ensures PinsApart(pins) && pin.handle !in Handles(pins) ==> PinsApart(pins + [pin])
  {
    var more := pins + [pin];
    forall h | h in Handles(pins) + {pin.handle} ensures h in Handles(more) {
      if h == pin.handle {
        assert more[|pins|].handle == h;
      } else {
        var i :| 0 <= i < |pins| && pins[i].handle == h;
        assert more[i].handle == h;
      }
    }
    forall i | 0 <= i < |pins| ensures pins[i].handle in Handles(pins) {}
  }

  /** Every pin is live and shared with children. */
  ghost predicate AllInherit(s: State, pins: seq<Pin>) {
    forall i :: 0 <= i < |pins| ==> pins[i].handle in s.table && s.table[pins[i].handle].inherit
  }

  lemma InheritMore(a: State, b: State, pins: seq<Pin>, pin: Pin, share: set<Right>)
    requires AllInherit(a, pins) && PinnedAt(a, b, pin.path, pin.handle, share)
    ensures AllInherit(b, pins + [pin])
  {
  }

  /** The pins' handles are as they were. */
  ghost predicate KeepsPins(a: State, b: State, pins: seq<Pin>) {
    forall i :: 0 <= i < |pins| && pins[i].handle in a.table ==>
      pins[i].handle in b.table && b.table[pins[i].handle] == a.table[pins[i].handle]
  }

  lemma AddingKeeps(a: State, b: State, gained: set<int>)
    requires StateOK(a) && Adds(a, b, gained)
    ensures KeepsTable(a, b, {})
  {
    SettledSelf(a);
    assert Settled(a, b, {} + gained);
  }

  lemma NothingKeeps(a: State, b: State)
    requires StateOK(a) && AddsNothing(a, b)
    ensures KeepsTable(a, b, {})
  {
    SettledSelf(a);
    assert Settled(a, b, {});
  }

  /** A guard's own pins stay placed while the table keeps their handles. */
  lemma PlacedCarried(a: State, b: State, g: Guard, pins: seq<Pin>)
    requires StateOK(a) && StateOK(b) && Carry(a, b) && KeepsPins(a, b, pins)
    requires Guarded(a.w, g) && OwnHolds(a, g) && PinsPlaced(a, g, pins)
    requires forall x :: x in g.gs ==> x !in b.tried
    requires forall i :: 0 <= i < |pins| ==> pins[i].handle in a.table
    ensures OwnHolds(b, g) && Guarded(b.w, g) && Agree(a.w.ns, b.w.ns, g.c) && PinsPlaced(b, g, pins)
  {
    hide StateOK, Fence, Walk, Follow, Guarded, Placed, Carry;
    GuardCarried(a, b, g);
  }

  /** Strict pins of the guard stay strict while they are not tried. */
  lemma StrictCarried(a: State, b: State, g: Guard, pins: seq<Pin>)
    requires StateOK(a) && Carry(a, b) && KeepsPins(a, b, pins) && OwnHolds(a, g) && PinsOwn(a, g.gs, pins)
    requires forall x :: x in g.gs ==> x !in b.tried
    ensures PinsOwn(b, g.gs, pins)
  {
    hide StateOK, Carry;
    forall i | 0 <= i < |pins| && pins[i].path != []
      ensures pins[i].handle in b.table && b.table[pins[i].handle].grant in g.gs
      ensures b.table[pins[i].handle].grant in b.w.opens && b.w.opens[b.table[pins[i].handle].grant].share == {Read}
    {
      OpenThrough(a, b, a.table[pins[i].handle].grant);
    }
  }

  lemma PinnedGuard(a: State, b: State, g: Guard, pins: seq<Pin>, pin: Pin, n: Path)
    requires StateOK(a) && StateOK(b) && Carry(a, b) && pin.path == n
    requires Guarded(a.w, g) && OwnHolds(a, g) && PinsPlaced(a, g, pins)
    requires forall i :: 0 <= i < |pins| ==> pins[i].handle in a.table
    requires n != [] && Covered(a.w.ns, g.c, Parent(n)) && PinnedAt(a, b, n, pin.handle, {Read})
    ensures var g' := g.(gs := g.gs + {b.table[pin.handle].grant}, c := g.c + {NoFollow(b.w.ns, n).value});
            && OwnHolds(b, g') && Guarded(b.w, g') && PinsPlaced(b, g', pins + [pin])
            && HeldAt(b.w.ns, g'.c, n) && Agree(a.w.ns, b.w.ns, g.c)
            && (PinsOwn(a, g.gs, pins) ==> PinsOwn(b, g'.gs, pins + [pin]))
  {
    hide StateOK, Fence, Walk, Follow, Guarded, Placed, Carry, HeldAt, Covered, NoFollow;
    PlacedCarried(a, b, g, pins);
    CoveredAgrees(a.w.ns, b.w.ns, g.c, Parent(n));
    var x := b.table[pin.handle].grant;
    assert StateOK(b);
    PinExtends(b, g, n, x);
    var g' := g.(gs := g.gs + {x}, c := g.c + {NoFollow(b.w.ns, n).value});
    assert x in Grants(b);
    assert x !in b.tried by { UntriedFresh(a, x); }
    PlacedHeld(b.w, g', n, x);
    if PinsOwn(a, g.gs, pins) { StrictCarried(a, b, g, pins); }
    var all := pins + [pin];
    forall i | 0 <= i < |all| && all[i].handle in b.table && b.table[all[i].handle].grant in g'.gs
      ensures Placed(b.w, g', all[i].path, b.table[all[i].handle].grant)
    {
      if i < |pins| {
        assert all[i] == pins[i];
        OtherGrant(b, all[i].handle, pin.handle);
      }
    }
  }

  /** A pin outside the guard changes nothing the guard says. */
  lemma OutsidePin(a: State, b: State, g: Guard, pins: seq<Pin>, pin: Pin)
    requires StateOK(a) && StateOK(b) && Carry(a, b) && PinnedAt(a, b, pin.path, pin.handle, {Read})
    requires Guarded(a.w, g) && OwnHolds(a, g) && PinsPlaced(a, g, pins)
    requires forall i :: 0 <= i < |pins| ==> pins[i].handle in a.table
    ensures OwnHolds(b, g) && Guarded(b.w, g) && PinsPlaced(b, g, pins + [pin]) && Agree(a.w.ns, b.w.ns, g.c)
    ensures pin.path == [] && PinsOwn(a, g.gs, pins) ==> PinsOwn(b, g.gs, pins + [pin])
  {
    hide StateOK, Fence, Walk, Follow, Guarded, Placed, Carry, HeldAt, Covered, NoFollow;
    PlacedCarried(a, b, g, pins);
    FreshGrant(a, g, b.table[pin.handle].grant);
    if PinsOwn(a, g.gs, pins) { StrictCarried(a, b, g, pins); }
    var all := pins + [pin];
    forall i | 0 <= i < |pins| ensures all[i] == pins[i] {}
  }

  lemma PlacedHeld(w: World, g: Guard, n: Path, x: nat)
    requires Placed(w, g, n, x)
    ensures HeldAt(w.ns, g.c, n)
  {
  }

  lemma UntriedFresh(a: State, x: nat)
    requires StateOK(a) && x >= a.w.next
    ensures x !in a.tried
  {
  }

  lemma OtherGrant(s: State, h: int, k: int)
    requires StateOK(s) && h in s.table && k in s.table && h != k
    ensures s.table[h].grant != s.table[k].grant
  {
  }

  lemma UntriedStays(a: State, b: State, g: Guard)
    requires StateOK(a) && AddsNothing(a, b) && OwnHolds(a, g)
    ensures forall x :: x in g.gs ==> x !in b.tried
  {
    SettledSelf(a);
    assert Settled(a, b, {});
  }

  /** A call that adds nothing leaves a walk as it was. */
  lemma Undisturbed(base: State, a: State, b: State, owned: set<int>, pins: seq<Pin>, flat: bool, g: Guard)
    requires StateOK(a) && StateOK(b) && Carry(a, b) && AddsNothing(a, b)
    requires Settled(base, a, owned) && AllInherit(a, pins)
    requires flat ==> OwnHolds(a, g) && Guarded(a.w, g) && PinsPlaced(a, g, pins)
    ensures Settled(base, b, owned) && AllInherit(b, pins)
    ensures flat ==> OwnHolds(b, g) && Guarded(b.w, g) && PinsPlaced(b, g, pins) && Agree(a.w.ns, b.w.ns, g.c)
    ensures flat && PinsOwn(a, g.gs, pins) ==> PinsOwn(b, g.gs, pins)
  {
    hide StateOK, Settled, Fence, Walk, Follow, Guarded, Placed, Carry;
    NothingKeeps(a, b);
    if flat {
      UntriedStays(a, b, g);
      if PinsOwn(a, g.gs, pins) { StrictCarried(a, b, g, pins); }
      PlacedCarried(a, b, g, pins);
    }
  }

  /** The guard is made of opens taken since `base`. */
  ghost predicate Since(g: Guard, base: State) {
    forall x :: x in g.gs ==> x >= base.w.next
  }

  lemma SinceMore(g: Guard, base: State, a: State, x: nat, c: set<Path>)
    requires Since(g, base) && base.w.next <= a.w.next <= x
    ensures Since(g.(gs := g.gs + {x}, c := c), base)
  {
  }

  /** The names a hold of which may be loosened: the parent of the held child, or of
      any pin. */
  function ParentNames(pins: seq<Pin>, heldChild: Option<Path>): set<Path> {
    match heldChild
    case Some(child) => {Above(child)}
    case None => set i | 0 <= i < |pins| :: Above(pins[i].path)
  }

  /** A name's parent; the drive root is its own. */
  function Above(p: Path): Path {
    if p == [] then [] else Parent(p)
  }

  lemma SameFirst(s: State, pins: seq<Pin>)
    requires StateOK(s) && forall i :: 0 <= i < |pins| ==> pins[i].handle in s.table
    ensures SameObjects(s, s, pins, pins)
  {
  }

  lemma SameThen(a: State, b: State, c: State, first: seq<Pin>, second: seq<Pin>, third: seq<Pin>)
    requires SameObjects(a, b, first, second) && SameObjects(b, c, second, third)
    ensures SameObjects(a, c, first, third)
  {
  }

  /** In a whole walk, the child that makes a name a parent is itself pinned. */
  lemma WalkChilded(s: State, g: Guard, pins: seq<Pin>)
    requires PinsPlaced(s, g, pins) && PinsOwn(s, g.gs, pins)
    ensures Childed(s, g, pins, ParentNames(pins, None))
  {
  }

  /** What a successful pinning leaves behind, under every interference. */
  ghost predicate Pinned(s: State, pins: seq<Pin>, g: Guard) {
    OwnHolds(s, g) && Guarded(s.w, g) && PinsPlaced(s, g, pins) && Tight(s, g, pins) && g.busy == {}
  }

  lemma PinnedCarried(a: State, b: State, g: Guard, pins: seq<Pin>)
    requires StateOK(a) && StateOK(b) && Carry(a, b) && KeepsPins(a, b, pins) && Pinned(a, pins, g)
    requires forall x :: x in g.gs ==> x !in b.tried
    requires forall i :: 0 <= i < |pins| ==> pins[i].handle in a.table
    ensures Pinned(b, pins, g) && Agree(a.w.ns, b.w.ns, g.c)
  {
    hide StateOK, Fence, Walk, Follow, Guarded, Placed, Carry, Tight, Childed, Agree;
    PlacedCarried(a, b, g, pins);
    TightChilded(a, g, pins);
    ChildedCarried(a, b, g, pins, {});
    TightChilded(b, g, pins);
  }

  /** A pin outside the guard leaves tight what was. */
  lemma TightOutside(s: State, g: Guard, pins: seq<Pin>, pin: Pin)
    requires Tight(s, g, pins) && pin.handle in s.table && s.table[pin.handle].grant !in g.gs
    ensures Tight(s, g, pins + [pin])
  {
    hide DirAt, HasChild;
    var all := pins + [pin];
    forall i | 0 <= i < |pins| ensures all[i] == pins[i] {}
  }

  lemma ChildedOutside(s: State, g: Guard, pins: seq<Pin>, pin: Pin, parents: set<Path>)
    requires Childed(s, g, pins, parents) && pin.handle in s.table && s.table[pin.handle].grant !in g.gs
    ensures Childed(s, g, pins + [pin], parents)
  {
    hide HasChild;
    var all := pins + [pin];
    forall i | 0 <= i < |pins| ensures all[i] == pins[i] {}
  }

  lemma NoNumbers()
    ensures Numbers([]) == {} && Handles([]) == {} && Apart([])
  {
  }

  /** A boundary's report: what the failure reported and what was refused after it. */
  lemma ReportsThen(a: State, b: State, c: State, f: Failure, refused: seq<Strand>)
    requires Reports(a, b, f) && b.refused <= c.refused && refused == RefusedSince(b, c)
    ensures Reports(a, c, Reraise(f, refused))
  {
  }

  /** What the boundary owns beside the pins is as it was and where it was, and no more
      of it is in the guard. */
  ghost predicate OthersKept(a: State, b: State, g0: Guard, g1: Guard, other: set<int>) {
    forall h :: h in other && h in a.table ==>
      && h in b.table && b.table[h] == a.table[h]
      && (a.table[h].grant in a.w.opens ==>
            && a.table[h].grant in b.w.opens && b.w.opens[a.table[h].grant] == a.w.opens[a.table[h].grant]
            && (Delete !in a.w.opens[a.table[h].grant].share ==> Stays(a.w.ns, b.w.ns, a.w.opens[a.table[h].grant].id)))
      && (a.table[h].grant !in g0.gs ==> a.table[h].grant !in g1.gs)
  }

  lemma OthersByCarry(base: State, a: State, b: State, g: Guard, owned: set<int>, other: set<int>, closed: set<int>)
    requires StateOK(a) && StateOK(b) && Carry(a, b) && Settled(base, a, owned) && other <= owned
    requires KeepsTable(a, b, closed) && TriesOnly(a, b, closed) && closed !! other && closed <= a.table.Keys
    ensures OthersKept(a, b, g, g, other)
  {
    hide Stays, Fence, Agree;
    forall h | h in other && h in a.table ensures a.table[h].grant !in b.tried && a.table[h].grant in Grants(a) {}
  }

  lemma OthersSwapped(s: State, g: Guard, original: Pin, replacement: Pin, other: set<int>)
    requires StateOK(s) && original.handle in s.table && replacement.handle in s.table
    requires replacement.handle !in other
    ensures OthersKept(s, s, g, Swapped(s, g, original, replacement), other)
  {
  }

  lemma OthersThrough(a: State, b: State, c: State, g0: Guard, g1: Guard, g2: Guard, other: set<int>)
    requires OthersKept(a, b, g0, g1, other) && OthersKept(b, c, g1, g2, other)
    ensures OthersKept(a, c, g0, g2, other)
  {
  }

  /** The guard once the replacement stands for the original, if that was its own. */
  ghost function Swapped(s: State, g: Guard, original: Pin, replacement: Pin): Guard
    requires original.handle in s.table && replacement.handle in s.table
  {
    var x, y := s.table[original.handle].grant, s.table[replacement.handle].grant;
    if x in g.gs then g.(gs := g.gs + {y} - {x}) else g
  }

  lemma SwapOwned(pins: seq<Pin>, before: seq<Pin>, index: nat, replacement: Pin, other: set<int>)
    requires pins == before + [replacement] && PinsApart(pins) && index < |before| && other !! Handles(pins)
    ensures var after := before[index := replacement];
            && Handles(after) + other + {before[index].handle} == Handles(pins) + other
            && before[index].handle !in Handles(after) + other
            && PinsApart(after) && other !! Handles(after)
            && (forall i :: 0 <= i < |before| ==> before[i].handle != replacement.handle)
            && PinsApart(before)
  {
    forall i | 0 <= i < |before| ensures before[i].handle != replacement.handle {
      assert pins[i] == before[i] && pins[|before|] == replacement;
    }
    forall i, j | 0 <= i < j < |before| ensures before[i].handle != before[j].handle {
      assert pins[i] == before[i] && pins[j] == before[j];
    }
    HandlesExtended(before, replacement);
    assert replacement.handle !in Handles(before);
    SwapHandles(before, index, replacement);
    assert before[index].handle in Handles(before);
  }

  lemma SameSwapped(a: State, b: State, before: seq<Pin>, index: nat, replacement: Pin)
    requires StateOK(a) && StateOK(b) && SameObjects(a, b, before, before) && index < |before|
    requires replacement.path == before[index].path && replacement.role == before[index].role
    requires before[index].handle in b.table && replacement.handle in b.table
    requires OpenOf(b, replacement.handle).id == OpenOf(b, before[index].handle).id
    ensures SameObjects(a, b, before, before[index := replacement])
  {
  }

  lemma AllInheritSwapped(s: State, before: seq<Pin>, index: nat, replacement: Pin)
    requires AllInherit(s, before + [replacement]) && index < |before|
    ensures AllInherit(s, before[index := replacement]) && AllInherit(s, before)
    ensures before[index].handle in s.table && replacement.handle in s.table
  {
    var all := before + [replacement];
    assert all[|before|] == replacement;
    forall i | 0 <= i < |before| ensures all[i] == before[i] {}
  }

  lemma Swappable(s1: State, s4: State, g: Guard, before: seq<Pin>, index: nat, replacement: Pin,
                  info: Info, parents: set<Path>)
    requires StateOK(s1) && StateOK(s4) && Agree(s1.w.ns, s4.w.ns, g.c)
    requires Guarded(s4.w, g) && OwnHolds(s4, g) && index < |before| && PinsApart(before)
    requires PinsPlaced(s4, g, before + [replacement]) && Childed(s4, g, before + [replacement], parents)
    requires forall i :: 0 <= i < |before| ==> before[i].handle in s4.table && before[i].handle != replacement.handle
    requires replacement.handle in s4.table && replacement.path == before[index].path && before[index].path in parents
    requires s4.table[replacement.handle].grant !in g.gs && s4.table[replacement.handle].grant !in s4.tried
    requires OpenOf(s4, replacement.handle).id == OpenOf(s4, before[index].handle).id == info.id
    requires OpenOf(s4, replacement.handle).share == {Read, Write}
    requires info.node == Dir
    requires forall p :: p in s1.w.ns && s1.w.ns[p].id == info.id ==> s1.w.ns[p].node == info.node
    ensures var g' := Swapped(s4, g, before[index], replacement);
            && OwnHolds(s4, g') && Guarded(s4.w, g') && PinsPlaced(s4, g', before[index := replacement])
            && Childed(s4, g', before[index := replacement], parents)
            && s4.table[before[index].handle].grant !in g'.gs
  {
    hide Fence, Walk, Follow, Guarded, HasChild, HeldAt, Covered, Carry;
    var all := before + [replacement];
    forall i | 0 <= i < |before| ensures all[i] == before[i] {}
    var x, y := s4.table[before[index].handle].grant, s4.table[replacement.handle].grant;
    assert x != y;
    if x in g.gs {
      assert Placed(s4.w, g, before[index].path, x);
      PlacedInFence(s4.w, g, before[index].path, x);
      var p := NoFollow(s4.w.ns, before[index].path).value;
      assert s1.w.ns[p] == s4.w.ns[p];
      SwapGuard(s4, g, before, parents, index, replacement);
    }
  }

  lemma PlacedInFence(w: World, g: Guard, n: Path, x: nat)
    requires Placed(w, g, n, x)
    ensures NoFollow(w.ns, n).Some? && NoFollow(w.ns, n).value in g.c && NoFollow(w.ns, n).value in w.ns
    ensures x in w.opens && w.ns[NoFollow(w.ns, n).value].id == w.opens[x].id
  {
  }

  /** Every handle's open is as it was. */
  ghost predicate SameOpens(a: State, b: State)
    requires StateOK(a) && StateOK(b)
  {
    forall h :: h in a.table && h in b.table ==> OpenOf(b, h) == OpenOf(a, h)
  }

  lemma PrefixSame(a: State, b: State, pins: seq<Pin>, last: Pin)
    requires SameObjects(a, b, pins + [last], pins + [last])
    ensures SameObjects(a, b, pins, pins)
  {
    forall i | 0 <= i < |pins| ensures (pins + [last])[i] == pins[i] {}
  }

  lemma ObjectsKept(a: State, b: State, pins: seq<Pin>)
    requires StateOK(a) && StateOK(b) && Carry(a, b) && KeepsPins(a, b, pins) && b.tried == a.tried
    requires forall i :: 0 <= i < |pins| ==> pins[i].handle in a.table && a.table[pins[i].handle].grant !in a.tried
    ensures SameObjects(a, b, pins, pins)
  {
    forall i | 0 <= i < |pins| ensures a.table[pins[i].handle].grant in Grants(a) {}
  }

  lemma FreshGrant(a: State, g: Guard, x: nat)
    requires StateOK(a) && OwnHolds(a, g) && x >= a.w.next
    ensures x !in g.gs
  {
  }

  lemma OwnedUntried(a: State, b: State, owned: set<int>, pins: seq<Pin>)
    requires Settled(a, b, owned) && Handles(pins) <= owned
    ensures forall i :: 0 <= i < |pins| ==>
              && pins[i].handle in b.table && pins[i].handle !in a.table
              && b.table[pins[i].handle].grant !in b.tried && b.table[pins[i].handle].grant >= a.w.next
  {
  }

  lemma LastIn(pins: seq<Pin>)
    requires pins != []
    ensures pins[|pins| - 1].handle in Handles(pins)
  {
  }

  lemma OnePin(pin: Pin)
    ensures Handles([pin]) == {pin.handle} && Numbers([]) == {}
  {
    assert [pin][0].handle == pin.handle;
  }

  lemma UntriedBut(a: State, b: State, g: Guard, h: int)
    requires StateOK(a) && OwnHolds(a, g) && TriesOnly(a, b, {} + {h})
    requires h in a.table && a.table[h].grant !in g.gs
    ensures forall x :: x in g.gs ==> x !in b.tried
  {
  }

  lemma OpensKept(a: State, b: State, pins: seq<Pin>, h: int)
    requires StateOK(a) && StateOK(b) && Carry(a, b) && KeepsTable(a, b, {} + {h}) && TriesOnly(a, b, {} + {h})
    requires forall i :: 0 <= i < |pins| ==> pins[i].handle in a.table && pins[i].handle != h
                                             && a.table[pins[i].handle].grant !in a.tried
    requires h in a.table
    ensures SameObjects(a, b, pins, pins)
  {
    forall i | 0 <= i < |pins| ensures a.table[pins[i].handle].grant !in b.tried {}
  }

  lemma AgreeSelf(s: State, g: Guard, flat: bool)
    requires flat ==> Guarded(s.w, g)
    ensures flat ==> Agree(s.w.ns, s.w.ns, g.c)
  {
  }

  lemma IsLinkAt(ns: map<Path, Entry>, c: set<Path>, n: Path)
    requires HeldAt(ns, c, n) && ns[NoFollow(ns, n).value].node.Link?
    ensures LinkAt(ns, c, n)
  {
  }

  lemma NameFinished(s: State, g: Guard, n: Path, pins: seq<Pin>)
    requires StateOK(s) && Guarded(s.w, g) && OwnHolds(s, g) && PinsPlaced(s, g, pins)
    requires HeldAt(s.w.ns, g.c, n) && !s.w.ns[NoFollow(s.w.ns, n).value].node.Link?
    ensures var g' := g.(done := g.done + {n});
            Guarded(s.w, g') && OwnHolds(s, g') && PinsPlaced(s, g', pins)
  {
    HeldCovers(s.w, g.c, n);
  }

  lemma ParentDone(w: World, g: Guard, path: Path, i: nat, seen: set<Path>)
    requires i <= |path| && Guarded(w, g) && g.done + g.busy == seen
    requires i > 0 ==> path[..i] in seen
    requires forall m :: m in g.busy ==> !(m <= path)
    ensures Covered(w.ns, g.c, path[..i])
  {
  }

  ghost predicate PrivateHeld(ns: map<Path, Entry>, c: set<Path>, anchor: Path, private: Path) {
    Private(ns, anchor).end == Some(private) && Private(ns, anchor).crossed <= c
  }

  lemma CoveredMore(ns: map<Path, Entry>, c: set<Path>, more: set<Path>, n: Path)
    requires c <= more && Covered(ns, c, n)
    ensures Covered(ns, more, n)
  {
  }

  lemma NameDone(w: World, g: Guard, n: Path)
    requires Guarded(w, g) && n in g.done
    ensures Covered(w.ns, g.c, n) && HeldAt(w.ns, g.c, n)
  {
  }

  lemma HeldNode(v: World, w: World, c: set<Path>, n: Path)
    requires Agree(v.ns, w.ns, c) && HeldAt(v.ns, c, n) && HeldAt(w.ns, c, n)
    requires NoFollow(v.ns, n) == NoFollow(w.ns, n)
    ensures w.ns[NoFollow(w.ns, n).value] == v.ns[NoFollow(v.ns, n).value]
  {
  }

  /** The name itself denotes such an object. */
  ghost predicate NodeAt(ns: map<Path, Entry>, name: Path, node: Node) {
    var at := NoFollow(ns, name);
    at.Some? && at.value in ns && ns[at.value].node == node
  }

  ghost predicate TextAt(ns: map<Path, Entry>, name: Path, text: Text) {
    IsFile(ns, Follow(ns, name).end) && ns[Follow(ns, name).end.value].node.text == text
  }

  /** The pin shares reads and writes. */
  ghost predicate Loose(s: State, pin: Pin) {
    pin.handle in s.table && s.table[pin.handle].grant in s.w.opens && s.w.opens[s.table[pin.handle].grant].share == {Read, Write}
  }

  /** At some moment the object was asked for and was no ordinary directory. */
  ghost predicate NotDirectory(a: State, z: State, id: nat) {
    exists asked: State :: NotDirectoryAt(a, z, asked, id)
  }

  ghost predicate NotDirectoryAt(a: State, z: State, asked: State, id: nat) {
    && StateOK(asked) && Carry(a, asked) && Carry(asked, z)
    && forall p :: p in asked.w.ns && asked.w.ns[p].id == id ==> asked.w.ns[p].node != Dir
  }

  /** A pin adjusted: it is loose now, or it is as it was and holds no ordinary directory. */
  ghost predicate Adjusted(a: State, z: State, before: Pin, after: Pin) {
    || Loose(z, after)
    || (after == before && before.handle in a.table && a.table[before.handle].grant in a.w.opens
        && NotDirectory(a, z, a.w.opens[a.table[before.handle].grant].id))
  }

  ghost predicate AllAdjusted(a: State, z: State, before: seq<Pin>, after: seq<Pin>, parents: set<Path>, n: nat) {
    |after| == |before| && n <= |before|
    && forall i :: 0 <= i < n && before[i].path in parents ==> Adjusted(a, z, before[i], after[i])
  }

  lemma NotDirectoryNow(a: State, z: State, pin: Pin)
    requires StateOK(a) && StateOK(z) && Carry(a, z) && pin.handle in a.table && pin.handle in z.table
    requires OpenOf(z, pin.handle) == OpenOf(a, pin.handle)
    requires forall p :: p in z.w.ns && z.w.ns[p].id == OpenOf(z, pin.handle).id ==> z.w.ns[p].node != Dir
    ensures Adjusted(a, z, pin, pin)
  {
    CarryNone(z);
    hide Carry;
    assert NotDirectoryAt(a, z, z, OpenOf(a, pin.handle).id);
  }

  lemma NotDirectoryOn(a: State, b: State, c: State, d: State, id: nat)
    requires Carry(a, b) && NotDirectory(b, c, id) && Carry(c, d)
    ensures NotDirectory(a, d, id)
  {
    hide Carry, StateOK;
    var asked :| NotDirectoryAt(b, c, asked, id);
    CarryOn(a, b, asked);
    CarryOn(asked, c, d);
    assert NotDirectoryAt(a, d, asked, id);
  }

  lemma LooseStill(a: State, b: State, pin: Pin, closed: int)
    requires StateOK(a) && StateOK(b) && Carry(a, b) && KeepsTable(a, b, {closed}) && pin.handle != closed
    requires pin.handle in a.table && OpenOf(a, pin.handle).share == {Read, Write}
    requires pin.handle in b.table && b.table[pin.handle].grant !in b.tried
    ensures Loose(b, pin) && forall before, s :: Adjusted(s, b, before, pin)
  {
    OpenThrough(a, b, a.table[pin.handle].grant);
  }

  lemma KeepsThrough(a: State, b: State, c: State, closed: set<int>)
    requires (b.table == a.table || KeepsTable(a, b, {})) && KeepsTable(b, c, closed)
    ensures KeepsTable(a, c, closed)
  {
  }

  lemma SameTable(a: State, b: State)
    requires b.table == a.table
    ensures KeepsTable(a, b, {})
  {
  }

  lemma OthersSelf(s: State, g: Guard, other: set<int>)
    ensures OthersKept(s, s, g, g, other)
  {
  }

  lemma AdjustedEach(a: State, z: State, before: seq<Pin>, after: seq<Pin>, parents: set<Path>, n: nat)
    requires AllAdjusted(a, z, before, after, parents, n)
    ensures |after| == |before|
  {
  }

  /** One more pin adjusted; those before are as they were. */
  lemma AdjustedMore(base: State, s0: State, s1: State, s2: State, first: seq<Pin>, before: seq<Pin>, after: seq<Pin>,
                     parents: set<Path>, index: nat, owned: set<int>)
    requires StateOK(s1) && StateOK(s2) && Carry(s0, s1) && Carry(s1, s2) && AllAdjusted(s0, s1, first, before, parents, index)
    requires |after| == |before| && index < |before| && before[index] == first[index] && SameObjects(s0, s1, first, before)
    requires forall i :: 0 <= i < |after| && i != index ==> after[i] == before[i]
    requires Adjusted(s1, s2, before[index], after[index])
    requires KeepsTable(s1, s2, {before[index].handle}) || KeepsTable(s1, s2, {})
    requires Settled(base, s2, owned) && Handles(after) <= owned && PinsApart(before)
    ensures AllAdjusted(s0, s2, first, after, parents, index + 1)
  {
    hide StateOK, Carry, Settled;
    forall i | 0 <= i <= index && first[i].path in parents ensures Adjusted(s0, s2, first[i], after[i]) {
      if i == index {
        AdjustedEarlier(s0, s1, s2, first[i], after[i]);
      } else {
        assert after[i].handle in Handles(after);
        OneUntried(base, s2, owned, after[i].handle);
        AdjustedStill(s0, s1, s2, first[i], before[i]);
      }
    }
  }

  lemma OneUntried(a: State, b: State, owned: set<int>, h: int)
    requires Settled(a, b, owned) && h in owned
    ensures h in b.table && b.table[h].grant !in b.tried
  {
  }

  lemma AdjustedEarlier(s0: State, s1: State, s2: State, before: Pin, after: Pin)
    requires Carry(s0, s1) && StateOK(s2) && Adjusted(s1, s2, before, after)
    requires before.handle in s0.table && before.handle in s1.table
    requires s0.table[before.handle].grant in s0.w.opens && s1.table[before.handle].grant in s1.w.opens
    requires s1.w.opens[s1.table[before.handle].grant].id == s0.w.opens[s0.table[before.handle].grant].id
    ensures Adjusted(s0, s2, before, after)
  {
    hide Carry, StateOK, NotDirectory;
    var id := s0.w.opens[s0.table[before.handle].grant].id;
    CarryNone(s2);
    if NotDirectory(s1, s2, id) { NotDirectoryOn(s0, s1, s2, s2, id); }
  }

  lemma AdjustedStill(s0: State, s1: State, s2: State, first: Pin, pin: Pin)
    requires StateOK(s1) && StateOK(s2) && Carry(s0, s1) && Carry(s1, s2) && Adjusted(s0, s1, first, pin)
    requires pin.handle in s2.table && s2.table[pin.handle].grant !in s2.tried
    requires pin.handle in s1.table ==> s2.table[pin.handle] == s1.table[pin.handle]
    ensures Adjusted(s0, s2, first, pin)
  {
    hide StateOK, Carry, NotDirectory;
    CarryNone(s0);
    if Loose(s1, pin) {
      OpenThrough(s1, s2, s1.table[pin.handle].grant);
    } else {
      NotDirectoryOn(s0, s0, s1, s2, s0.w.opens[s0.table[first.handle].grant].id);
    }
  }

  /** A walk at one moment. */
  datatype Snap = Snap(s: State, log: seq<Event>, pins: seq<Pin>, seen: set<Path>, flat: bool, g: Guard)

  /** What a stretch of a walk adds: names, each inspected and followed; what was held
      before stays. */
  ghost predicate Stretch(a: Snap, b: Snap) {
    && a.log <= b.log && a.seen <= b.seen && a.pins <= b.pins
    && Explored(b.log, |a.log|, b.seen - a.seen, b.seen) && Carry(a.s, b.s)
    && (b.flat ==> a.flat && b.g.busy == a.g.busy && a.g.done <= b.g.done && a.g.c <= b.g.c
                   && Agree(a.s.w.ns, b.s.w.ns, a.g.c))
  }

  /** ... all of it pinned in one role. */
  ghost predicate Progress(a: Snap, b: Snap, role: string) {
    Stretch(a, b) && Roles(b.pins, |a.pins|, role)
  }

  lemma StretchThen(a: Snap, b: Snap, c: Snap)
    requires Stretch(a, b) && Stretch(b, c)
    ensures Stretch(a, c)
  {
    hide Carry, Agree, Explored;
    CarryOn(a.s, b.s, c.s);
    ExploredOn(b.log, c.log, |a.log|, |a.log|, b.seen - a.seen, b.seen, c.seen);
    ExploredOn(c.log, c.log, |b.log|, |a.log|, c.seen - b.seen, c.seen, c.seen);
    ExploredBoth(c.log, |a.log|, b.seen - a.seen, c.seen - b.seen, c.seen);
    assert (b.seen - a.seen) + (c.seen - b.seen) == c.seen - a.seen;
    if c.flat {
      AgreeLess(b.s.w.ns, c.s.w.ns, a.g.c, b.g.c);
      AgreeTwice(a.s.w.ns, b.s.w.ns, c.s.w.ns, a.g.c);
    }
  }

  /** A question that pins nothing. */
  lemma StretchIdle(a: Snap, b: Snap)
    requires a.log <= b.log && a.seen == b.seen && a.pins == b.pins && Carry(a.s, b.s)
    requires b.flat ==> a.flat && b.g == a.g && Agree(a.s.w.ns, b.s.w.ns, a.g.c)
    ensures Stretch(a, b)
  {
    hide Carry, Agree;
    ExploredNone(b.log, |a.log|, b.seen - a.seen, b.seen);
  }

  lemma StretchMeans(a: Snap, b: Snap)
    requires Stretch(a, b)
    ensures a.seen <= b.seen && a.pins <= b.pins && a.log <= b.log && Carry(a.s, b.s)
    ensures b.flat ==> a.flat && Agree(a.s.w.ns, b.s.w.ns, a.g.c)
  {
    hide Carry, Agree, Explored;
  }

  lemma MetMore(path: Path, names: set<Path>, more: set<Path>)
    requires Met(path, names) && names <= more
    ensures Met(path, more)
  {
  }

  lemma LastMet(path: Path, names: set<Path>)
    requires Met(path, names) && path != []
    ensures path in names
  {
    assert path[..|path|] == path;
  }

  lemma TextAtMeans(ns: map<Path, Entry>, name: Path, text: Text)
    requires TextAt(ns, name, text)
    ensures IsFile(ns, Follow(ns, name).end) && ns[Follow(ns, name).end.value].node.text == text
  {
  }

  /** The chain was read so, and every name it consists of is pinned. */
  ghost predicate ChainPinned(a: State, z: State, t: Reading, anchor: Path, named: bool, pins: seq<Pin>) {
    ChainRead(a, z, t, anchor, named) && ChainMet(t, anchor, named) && AllPinned(t.names, pins)
  }

  /** A pin of one of the names shares writes, unless, asked for after `a`, it held no
      ordinary directory. */
  ghost predicate AllLoose(a: State, z: State, pins: seq<Pin>, parents: set<Path>) {
    StateOK(a) && Carry(a, z)
    && forall i :: 0 <= i < |pins| && pins[i].path in parents ==> Loose(z, pins[i]) || NoDirectory(a, z, pins[i])
  }

  /** The pins of names with another pinned below are loose. */
  ghost predicate ParentsLoose(z: State, pins: seq<Pin>) {
    exists a: State :: AllLoose(a, z, pins, ParentNames(pins, None))
  }

  /** The pin's object was asked for in between, and was no ordinary directory. */
  ghost predicate NoDirectory(a: State, z: State, pin: Pin) {
    pin.handle in z.table && z.table[pin.handle].grant in z.w.opens
    && NotDirectory(a, z, z.w.opens[z.table[pin.handle].grant].id)
  }

  lemma LooseNow(a: State, z: State, before: seq<Pin>, after: seq<Pin>, parents: set<Path>)
    requires StateOK(a) && Carry(a, z) && SameObjects(a, z, before, after)
    requires AllAdjusted(a, z, before, after, parents, |before|)
    ensures AllLoose(a, z, after, parents)
  {
    hide StateOK, Carry, Loose, NotDirectory;
    forall i | 0 <= i < |after| && after[i].path in parents ensures Loose(z, after[i]) || NoDirectory(a, z, after[i]) {
      assert Adjusted(a, z, before[i], after[i]);
    }
  }

  /** Loose pins stay so while they are not tried. */
  lemma LooseOn(a: State, y: State, z: State, pins: seq<Pin>, parents: set<Path>)
    requires StateOK(y) && StateOK(z) && Carry(y, z) && AllLoose(a, y, pins, parents)
    requires forall i :: 0 <= i < |pins| ==> pins[i].handle in y.table && pins[i].handle in z.table
                                             && z.table[pins[i].handle].grant == y.table[pins[i].handle].grant
                                             && z.table[pins[i].handle].grant !in z.tried
    ensures AllLoose(a, z, pins, parents)
  {
    hide StateOK, Carry, NotDirectory;
    CarryOn(a, y, z);
    CarryNone(a);
    forall i | 0 <= i < |pins| && pins[i].path in parents ensures Loose(z, pins[i]) || NoDirectory(a, z, pins[i]) {
      OpenThrough(y, z, y.table[pins[i].handle].grant);
      if !Loose(y, pins[i]) { NotDirectoryOn(a, a, y, z, y.w.opens[y.table[pins[i].handle].grant].id); }
    }
  }

  lemma Relaxed(s1: State, z: State, before: seq<Pin>, after: seq<Pin>, t: Reading, anchor: Path, named: bool, began: State)
    requires StateOK(s1) && Carry(s1, z) && SameObjects(s1, z, before, after)
    requires AllAdjusted(s1, z, before, after, ParentNames(before, None), |before|)
    requires ChainRead(began, s1, t, anchor, named) && ChainMet(t, anchor, named) && AllPinned(t.names, before)
    ensures ChainPinned(began, z, t, anchor, named, after) && ParentsLoose(z, after)
  {
    hide StateOK, Carry, PrivateRead, ChainMet, Loose, NotDirectory, TextAt, IsFile, Follow, AllLoose, AllAdjusted;
    CarryOn(t.read, s1, z);
    forall n | n in t.names ensures exists i :: 0 <= i < |after| && after[i].path == n {
      var i :| 0 <= i < |before| && before[i].path == n;
      assert after[i].path == n;
    }
    LooseNow(s1, z, before, after, ParentNames(before, None));
    assert ParentNames(after, None) == ParentNames(before, None) by {
      forall i | 0 <= i < |before| ensures before[i].path == after[i].path {}
    }
  }

  lemma ExploredAll(start: Snap, walked: Snap, log: seq<Event>, names: set<Path>)
    requires Stretch(start, walked) && start.seen == {} && walked.seen == names && walked.log <= log
    ensures Explored(log, |start.log|, names, names)
  {
    hide Explored, Carry, Agree;
    assert walked.seen - start.seen == names;
    ExploredOn(walked.log, log, |start.log|, |start.log|, names, names, names);
  }

  ghost function Unread(s: State): Reading {
    var none := Text(None, Named(false, []));
    Reading(s, s, none, [], s, s, none, {})
  }

  /** What was read of the private directory does not depend on what is read later. */
  lemma SameRead(a: State, t: Reading, anchor: Path, tested: State, read: State, names: set<Path>)
    requires PrivateRead(a, t, anchor)
    ensures PrivateRead(a, t.(tested := tested, read := read, names := names), anchor)
    ensures forall text :: PrivateRead(a, t.(tested := tested, read := read, text := text, names := names), anchor)
  {
  }

  lemma ProgressNone(a: Snap, b: Snap, role: string)
    requires a.log <= b.log && a.seen == b.seen && a.pins <= b.pins && Roles(b.pins, |a.pins|, role) && Carry(a.s, b.s)
    requires b.flat ==> a.flat && b.g == a.g && Agree(a.s.w.ns, b.s.w.ns, a.g.c)
    ensures Progress(a, b, role)
  {
    hide Roles, Carry, Agree;
    ExploredNone(b.log, |a.log|, b.seen - a.seen, b.seen);
  }

  lemma ProgressThen(a: Snap, b: Snap, c: Snap, role: string)
    requires Progress(a, b, role) && Progress(b, c, role)
    ensures Progress(a, c, role)
  {
    hide Roles, Stretch;
    StretchThen(a, b, c);
    StretchMeans(a, b);
    StretchMeans(b, c);
    RolesThrough(a.pins, b.pins, c.pins, role);
  }

  /** A stretch keeps the names seen, and the links being walked. */
  lemma ProgressKeeps(a: Snap, b: Snap, role: string)
    requires Progress(a, b, role)
    ensures a.seen <= b.seen && a.log <= b.log && (b.flat ==> a.flat && b.g.busy == a.g.busy)
  {
    hide Roles, Carry, Agree, Explored;
  }

  lemma ProgressMeans(a: Snap, b: Snap, role: string)
    requires Progress(a, b, role)
    ensures Stretch(a, b)
    ensures a.seen <= b.seen && a.pins <= b.pins && Roles(b.pins, |a.pins|, role)
    ensures Explored(b.log, |a.log|, b.seen - a.seen, b.seen)
    ensures b.flat ==> a.flat && b.g.busy == a.g.busy && a.g.done <= b.g.done && a.g.c <= b.g.c
                       && Agree(a.s.w.ns, b.s.w.ns, a.g.c)
  {
    hide Roles, Carry, Agree, Explored;
  }

  /** What a walk of the resolution chain read, and in which states: the `.git` entry
      inspected and, if it is no directory, its text; the `commondir` file asked for and,
      if there is one, its text. */
  datatype Reading = Reading(entered: State, pointed: State, pointer: Text, private: Path,
                             tested: State, read: State, text: Text, names: set<Path>)

  /** The private directory is the entry if that is a directory, else what its text names. */
  ghost predicate PrivateRead(a: State, t: Reading, anchor: Path) {
    && StateOK(t.entered) && StateOK(t.pointed) && Carry(a, t.entered) && Carry(t.entered, t.pointed)
    && var at := NoFollow(t.entered.w.ns, anchor + [GIT]);
       && at.Some? && at.value in t.entered.w.ns
       && if DirectoryFlag(t.entered.w.ns[at.value].node) then t.private == anchor + [GIT]
          else TextAt(t.pointed.w.ns, anchor + [GIT], t.pointer) && t.pointer.pointer.Some?
               && t.private == Join(anchor, t.pointer.pointer.value)
  }

  /** The chain as it was read between `a` and `z`; `named` exactly if a `commondir` file
      was there when it was asked for. */
  ghost predicate ChainRead(a: State, z: State, t: Reading, anchor: Path, named: bool) {
    && PrivateRead(a, t, anchor)
    && StateOK(t.tested) && StateOK(t.read) && Carry(t.pointed, t.tested) && Carry(t.tested, t.read) && Carry(t.read, z)
    && (named <==> IsFile(t.tested.w.ns, Follow(t.tested.w.ns, t.private + [COMMONDIR]).end))
    && (named ==> TextAt(t.read.w.ns, t.private + [COMMONDIR], t.text))
  }

  /** All that the chain consists of was met. */
  ghost predicate ChainMet(t: Reading, anchor: Path, named: bool) {
    && Met(anchor + [GIT], t.names) && Met(t.private, t.names)
    && (named ==> Met(t.private + [COMMONDIR], t.names) && Met(Join(t.private, t.text.bare), t.names))
  }

  /** Whether a `commondir` file is part of a checkout's reading. */
  lemma TestedNamed(ns: map<Path, Entry>, anchor: Path, private: Path)
    requires Private(ns, anchor).end == Some(private)
    ensures Resolve(ns, anchor).named <==> IsFile(ns, Follow(ns, private + [COMMONDIR]).end)
  {
  }

  /** How many components of a name the walk yields. */
  function Components(path: Path, itself: bool): nat {
    if itself || path == [] then |path| else |path| - 1
  }

  lemma BeginLink(s0: State, looked: State, named: State, s1: State, g: Guard, n: Path, target: Path, id: nat)
    requires StateOK(s0) && StateOK(looked) && StateOK(named) && StateOK(s1)
    requires Carry(s0, looked) && Carry(looked, named) && Carry(named, s1) && Carry(s0, s1)
    requires OwnHolds(s0, g) && Guarded(s0.w, g) && OwnHolds(s1, g) && Guarded(s1.w, g)
    requires LinkAt(s0.w.ns, g.c, n)
    requires ReachesIdentity(looked.w.ns, n, id)
    requires target in named.w.ns && named.w.ns[target].id == id
    ensures var g' := g.(busy := g.busy + {n});
            Guarded(s1.w, g') && (forall m :: m in g'.busy ==> !(m <= target))
    ensures LinkAt(s1.w.ns, g.c, n) && NoFollow(s1.w.ns, n) == NoFollow(s0.w.ns, n)
    ensures s1.w.ns[NoFollow(s1.w.ns, n).value] == s0.w.ns[NoFollow(s0.w.ns, n).value]
  {
    hide Fence, Walk, Follow, Covered, NoFollow, HeldAt, Carry, Guarded, StateOK, Placed;
    var g' := g.(busy := g.busy + {n});
    Busier(s0.w, g, n);
    BeforeTried(looked, named, s1, g);
    GuardCarried(s0, looked, g');
    GuardCarried(looked, named, g');
    GuardCarried(s0, s1, g');
    StateWorlds(s0, s1);
    StateWorlds(looked, named);
    assert Agree(s0.w.ns, s1.w.ns, g.c);
    LinkAgrees(s0.w, s1.w, g.c, g.c, n);
    forall m | m in g'.busy ensures !(m <= target) {
      BusyLink(looked.w, g', m);
      BusyLink(s0.w, g', m);
      HeldLinkOffPath(looked.w, named.w, g.c, m, n, target);
    }
  }

  lemma Busier(w: World, g: Guard, n: Path)
    requires Guarded(w, g) && LinkAt(w.ns, g.c, n)
    ensures Guarded(w, g.(busy := g.busy + {n})) && n != []
  {
  }

  lemma BusyLink(w: World, g: Guard, m: Path)
    requires Guarded(w, g) && m in g.busy
    ensures LinkAt(w.ns, g.c, m)
  {
  }

  lemma PlacedBusy(s: State, g: Guard, busy: set<Path>, pins: seq<Pin>)
    requires PinsPlaced(s, g, pins)
    ensures PinsPlaced(s, g.(busy := busy), pins)
    ensures OwnHolds(s, g) ==> OwnHolds(s, g.(busy := busy))
  {
  }

  lemma EndLink(s0: State, looked: State, s1: State, g: Guard, n: Path, target: Path, id: nat)
    requires StateOK(s0) && StateOK(looked) && StateOK(s1) && Carry(s0, looked) && Carry(looked, s1)
    requires OwnHolds(s0, g) && Guarded(s0.w, g) && OwnHolds(s1, g) && Guarded(s1.w, g)
    requires LinkAt(s0.w.ns, g.c, n) && s0.w.ns[NoFollow(s0.w.ns, n).value].node.target == target
    requires Covered(s0.w.ns, g.c, target)
    requires ReachesIdentity(looked.w.ns, n, id)
    ensures Covered(s1.w.ns, g.c, n)
  {
    hide Fence, Walk, Follow, NoFollow;
    BeforeTried(s0, looked, s1, g);
    GuardCarried(s0, looked, g);
    HeldAgrees(s0.w, looked.w, g.c, n);
    CoveredAgrees(s0.w.ns, looked.w.ns, g.c, target);
    LinkCovered(looked.w, g.c, n, target);
    GuardCarried(looked, s1, g);
    CoveredAgrees(looked.w.ns, s1.w.ns, g.c, n);
  }

  lemma LinkFinished(s: State, g: Guard, n: Path, pins: seq<Pin>)
    requires Guarded(s.w, g) && OwnHolds(s, g) && PinsPlaced(s, g, pins)
    requires n in g.busy && Covered(s.w.ns, g.c, n)
    ensures var g' := g.(busy := g.busy - {n}, done := g.done + {n});
            Guarded(s.w, g') && OwnHolds(s, g') && PinsPlaced(s, g', pins)
  {
  }

  lemma BeforeTried(a: State, b: State, c: State, g: Guard)
    requires Carry(a, b) && Carry(b, c) && OwnHolds(c, g)
    ensures forall x :: x in g.gs ==> x !in a.tried && x !in b.tried
  {
  }

  lemma LinkAgrees(v: World, w: World, c: set<Path>, more: set<Path>, n: Path)
    requires WorldOK(v) && WorldOK(w) && Agree(v.ns, w.ns, c) && c <= more && LinkAt(v.ns, c, n)
    ensures LinkAt(w.ns, more, n) && NoFollow(w.ns, n) == NoFollow(v.ns, n)
    ensures w.ns[NoFollow(w.ns, n).value] == v.ns[NoFollow(v.ns, n).value]
  {
    HeldAgrees(v, w, c, n);
  }

  lemma TargetDone(w: World, g: Guard, target: Path, seen: set<Path>)
    requires Guarded(w, g) && g.done + g.busy == seen
    requires target != [] ==> target in seen
    requires forall m :: m in g.busy ==> !(m <= target)
    ensures Covered(w.ns, g.c, target)
  {
  }

  lemma OpenCarried(a: State, b: State, h: int)
    requires StateOK(a) && StateOK(b) && Carry(a, b) && AddsNothing(a, b) && h in a.table && a.table[h].grant !in a.tried
    ensures h in b.table && b.table[h] == a.table[h] && OpenOf(b, h) == OpenOf(a, h)
  {
    SettledSelf(a);
    assert Settled(a, b, {});
    assert a.table[h].grant in Grants(a);
  }

  lemma StateWorlds(a: State, b: State)
    requires StateOK(a) && StateOK(b)
    ensures WorldOK(a.w) && WorldOK(b.w)
  {
  }

  lemma OwnedLive(a: State, b: State, pins: seq<Pin>, other: set<int>)
    requires Settled(a, b, Handles(pins) + other)
    ensures Handles(pins) + other <= b.table.Keys && a.w.next <= b.w.next
    ensures forall i :: 0 <= i < |pins| ==> pins[i].handle in b.table
  {
    var all := Handles(pins) + other;
    assert forall h :: h in all ==> h in b.table;
    forall i | 0 <= i < |pins| ensures pins[i].handle in b.table { assert pins[i].handle in all; }
  }
}
