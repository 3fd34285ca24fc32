// What the pins of a resolution walk establish, name by name, while every other
// process keeps running.
module Guards {
  import opened Options
  import opened Namespace
  import opened Fences
  import opened Mapping
  import opened Kernels
  import opened Cleanup

  /** The lookup of `n` succeeds and crosses only fenced names. */
  ghost predicate Covered(ns: map<Path, Entry>, c: set<Path>, n: Path) {
    Follow(ns, n).end.Some? && Follow(ns, n).crossed <= c
  }

  /** The object `n` itself denotes is fenced, and so is the way to it. */
  ghost predicate HeldAt(ns: map<Path, Entry>, c: set<Path>, n: Path) {
    && n != [] && Covered(ns, c, Parent(n))
    && NoFollow(ns, n).Some? && NoFollow(ns, n).value in c && NoFollow(ns, n).value in ns
  }

  ghost predicate LinkAt(ns: map<Path, Entry>, c: set<Path>, n: Path) {
    HeldAt(ns, c, n) && ns[NoFollow(ns, n).value].node.Link?
  }

  /** A walk's fence: the grants it is made of, the physical names fenced, the names
      whose lookup is covered, and the links whose targets are being walked. */
  datatype Guard = Guard(gs: set<nat>, c: set<Path>, done: set<Path>, busy: set<Path>)

  ghost predicate Guarded(w: World, g: Guard) {
    && Fence(w, g.gs, g.c)
    && (forall n :: n in g.done ==> Covered(w.ns, g.c, n) && HeldAt(w.ns, g.c, n))
    && (forall n :: n in g.busy ==> LinkAt(w.ns, g.c, n))
  }

  /** The pin holds the object its name denotes, against removal. */
  ghost predicate Placed(w: World, g: Guard, n: Path, grant: nat) {
    && HeldAt(w.ns, g.c, n)
    && grant in g.gs && grant in w.opens
    && w.opens[grant].id == w.ns[NoFollow(w.ns, n).value].id
    && Delete !in w.opens[grant].share
  }

  /** The pins that belong to the guard are placed. */
  ghost predicate PinsPlaced(s: State, g: Guard, pins: seq<Pin>) {
    forall i :: 0 <= i < |pins| && pins[i].handle in s.table && s.table[pins[i].handle].grant in g.gs
      ==> Placed(s.w, g, pins[i].path, s.table[pins[i].handle].grant)
  }

  /** The pins, one of the drive root apart, are all of the guard's own and strict. */
  ghost predicate PinsOwn(s: State, gs: set<nat>, pins: seq<Pin>) {
    forall i :: 0 <= i < |pins| && pins[i].path != [] ==>
      && pins[i].handle in s.table && s.table[pins[i].handle].grant in gs
      && s.table[pins[i].handle].grant in s.w.opens && s.w.opens[s.table[pins[i].handle].grant].share == {Read}
  }

  ghost predicate OwnHolds(s: State, g: Guard) {
    g.gs <= Grants(s) && (forall x :: x in g.gs ==> x !in s.tried)
  }

  lemma CoveredAgrees(a: map<Path, Entry>, b: map<Path, Entry>, c: set<Path>, n: Path)
    requires Agree(a, b, c) && Covered(a, c, n)
    ensures Covered(b, c, n) && Follow(b, n) == Follow(a, n)
  {
    WalkAgrees(a, b, c, [], n, MAX_LINKS);
  }

  lemma HeldAgrees(v: World, w: World, c: set<Path>, n: Path)
    requires WorldOK(v) && WorldOK(w) && Agree(v.ns, w.ns, c) && HeldAt(v.ns, c, n)
    ensures HeldAt(w.ns, c, n) && NoFollow(w.ns, n) == NoFollow(v.ns, n)
  {
    CoveredAgrees(v.ns, w.ns, c, Parent(n));
    WalkEndsInside(v, [], Parent(n), MAX_LINKS);
  }

  /** Whatever the others do, a guard made of untried holds stands. */
  lemma GuardCarried(a: State, b: State, g: Guard)
    requires StateOK(a) && StateOK(b) && Carry(a, b) && Guarded(a.w, g)
    requires g.gs <= Grants(a) && (forall x :: x in g.gs ==> x !in b.tried)
    ensures OwnHolds(b, g) && Guarded(b.w, g) && Agree(a.w.ns, b.w.ns, g.c)
    ensures forall n, x :: Placed(a.w, g, n, x) ==> Placed(b.w, g, n, x)
  {
    hide Fence, Covered, HeldAt, WorldOK, Walk, Follow;
    assert Fence(a.w, g.gs, g.c);
    forall n | n in g.done ensures Covered(b.w.ns, g.c, n) && HeldAt(b.w.ns, g.c, n) {
      CoveredAgrees(a.w.ns, b.w.ns, g.c, n);
      HeldAgrees(a.w, b.w, g.c, n);
    }
    forall n | n in g.busy ensures LinkAt(b.w.ns, g.c, n) {
      HeldAgrees(a.w, b.w, g.c, n);
    }
    forall n, x | Placed(a.w, g, n, x) ensures Placed(b.w, g, n, x) {
      HeldAgrees(a.w, b.w, g.c, n);
    }
  }

  lemma FenceGrows(w: World, gs: set<nat>, c: set<Path>, x: nat, p: Path)
    requires Fence(w, gs, c)
    requires p in w.ns && p != [] && (Parent(p) == [] || Parent(p) in c)
    requires x in w.opens && w.opens[x].id == w.ns[p].id
    requires Delete !in w.opens[x].share && Write !in w.opens[x].share
    ensures Fence(w, gs + {x}, c + {p})
  {
    forall q | q in c + {p} ensures Kept(w, gs + {x}, q) {
      if q in c {
        assert Kept(w, gs, q);
      }
    }
  }

  lemma CoveredGrows(ns: map<Path, Entry>, c: set<Path>, more: set<Path>, n: Path)
    requires c <= more
    ensures Covered(ns, c, n) ==> Covered(ns, more, n)
    ensures HeldAt(ns, c, n) ==> HeldAt(ns, more, n)
  {
  }

  /** A strict open of an object below the fence extends the guard by it. */
  lemma GuardGrows(w: World, g: Guard, x: nat, p: Path)
    requires Guarded(w, g)
    requires p in w.ns && p != [] && (Parent(p) == [] || Parent(p) in g.c)
    requires x in w.opens && w.opens[x].id == w.ns[p].id
    requires Delete !in w.opens[x].share && Write !in w.opens[x].share
    ensures var g' := g.(gs := g.gs + {x}, c := g.c + {p});
            Guarded(w, g') && forall m, y :: Placed(w, g, m, y) ==> Placed(w, g', m, y)
  {
    hide Fence, Walk, Follow, NoFollow;
    var g' := g.(gs := g.gs + {x}, c := g.c + {p});
    FenceGrows(w, g.gs, g.c, x, p);
    forall m ensures Covered(w.ns, g.c, m) ==> Covered(w.ns, g'.c, m) {
      CoveredGrows(w.ns, g.c, g'.c, m);
    }
    forall m ensures HeldAt(w.ns, g.c, m) ==> HeldAt(w.ns, g'.c, m) {
      CoveredGrows(w.ns, g.c, g'.c, m);
    }
  }

  /** A strict open of the object `n` itself denotes, taken while the way to it is
      covered, extends the fence by that object. */
  lemma PinExtends(s: State, g: Guard, n: Path, x: nat)
    requires StateOK(s) && Guarded(s.w, g)
    requires n != [] && Covered(s.w.ns, g.c, Parent(n)) && NoFollow(s.w.ns, n).Some?
    requires NoFollow(s.w.ns, n).value in s.w.ns
    requires x in s.w.opens && s.w.opens[x].id == s.w.ns[NoFollow(s.w.ns, n).value].id
    requires s.w.opens[x].share == {Read}
    ensures var g' := g.(gs := g.gs + {x}, c := g.c + {NoFollow(s.w.ns, n).value});
            && Guarded(s.w, g') && Placed(s.w, g', n, x)
            && forall m, y :: Placed(s.w, g, m, y) ==> Placed(s.w, g', m, y)
  {
    var p := NoFollow(s.w.ns, n).value;
    var g' := g.(gs := g.gs + {x}, c := g.c + {p});
    WalkEndsInside(s.w, [], Parent(n), MAX_LINKS);
    assert Parent(p) == Follow(s.w.ns, Parent(n)).end.value;
    GuardGrows(s.w, g, x, p);
    CoveredGrows(s.w.ns, g.c, g'.c, Parent(n));
  }

  /** A held object that is not a link covers its own name. */
  lemma HeldCovers(w: World, c: set<Path>, n: Path)
    requires WorldOK(w) && HeldAt(w.ns, c, n) && !LinkAt(w.ns, c, n)
    ensures Covered(w.ns, c, n) && Follow(w.ns, n).end == NoFollow(w.ns, n)
  {
    FollowLast(w.ns, n);
    var d := Follow(w.ns, Parent(n));
    var x := n[|n| - 1];
    assert [x][1..] == [];
    assert Walk(w.ns, d.end.value, [x], d.fuel).end == Some(d.end.value + [x]);
  }

  /** A name's lookup is its parent's, and one component more. */
  lemma FollowLast(ns: map<Path, Entry>, n: Path)
    requires n != [] && Follow(ns, Parent(n)).end.Some?
    requires IsDirectory(ns, Follow(ns, Parent(n)).end.value)
    ensures var d := Follow(ns, Parent(n));
            var last := Walk(ns, d.end.value, [n[|n| - 1]], d.fuel);
            Follow(ns, n) == last.(crossed := d.crossed + last.crossed)
  {
    assert Parent(n) + [n[|n| - 1]] == n;
    WalkAppend(ns, [], Parent(n), [n[|n| - 1]], MAX_LINKS);
  }

  /** A held link whose written target is covered is covered, once it resolves. */
  lemma LinkCovered(w: World, c: set<Path>, n: Path, target: Path)
    requires WorldOK(w) && LinkAt(w.ns, c, n)
    requires w.ns[NoFollow(w.ns, n).value].node.target == target
    requires Covered(w.ns, c, target) && Follow(w.ns, n).end.Some?
    ensures Covered(w.ns, c, n)
  {
    hide WorldOK, NoFollow;
    FollowLast(w.ns, n) by { HeldDirectory(w.ns, c, n); }
    FuelLeft(w, Parent(n));
    HeldDirectory(w.ns, c, n);
    var d := Follow(w.ns, Parent(n));
    var x := n[|n| - 1];
    assert target + [x][1..] == target;
    WalkMoreFuel(w.ns, [], target, d.fuel - 1, MAX_LINKS);
  }

  lemma FuelLeft(w: World, n: Path)
    requires WorldOK(w)
    ensures Follow(w.ns, n).fuel <= MAX_LINKS
  {
    WalkEndsInside(w, [], n, MAX_LINKS);
  }

  lemma HeldDirectory(ns: map<Path, Entry>, c: set<Path>, n: Path)
    requires HeldAt(ns, c, n)
    ensures n != [] && Follow(ns, Parent(n)).end.Some? && IsDirectory(ns, Follow(ns, Parent(n)).end.value)
    ensures NoFollow(ns, n) == Some(Follow(ns, Parent(n)).end.value + [n[|n| - 1]])
  {
  }

  lemma {:induction false} PlainFollow(w: World, x: Path)
    requires WorldOK(w) && IsDirectory(w.ns, x)
    ensures Follow(w.ns, x).end == Some(x)
    decreases |x|
  {
    if x != [] {
      assert IsDirectory(w.ns, Parent(x));
      hide WorldOK;
      PlainFollow(w, Parent(x));
      PlainLast(w.ns, x);
    }
  }

  lemma PlainLast(ns: map<Path, Entry>, x: Path)
    requires x != [] && IsDirectory(ns, x) && IsDirectory(ns, Parent(x)) && Follow(ns, Parent(x)).end == Some(Parent(x))
    ensures Follow(ns, x).end == Some(x)
  {
    FollowLast(ns, x);
    assert [x[|x| - 1]][1..] == [];
    assert Parent(x) + [x[|x| - 1]] == x;
  }

  /** A physical name of a file reaches the file. */
  lemma PlainFile(w: World, p: Path)
    requires WorldOK(w) && p != [] && p in w.ns && w.ns[p].node.File?
    ensures Follow(w.ns, p).end == Some(p)
  {
    assert IsDirectory(w.ns, Parent(p));
    PlainFollow(w, Parent(p));
    hide WorldOK;
    FollowLast(w.ns, p);
    assert Parent(p) + [p[|p| - 1]] == p;
  }

  /** A physical name denotes its own object. */
  lemma PlainName(w: World, m: Path)
    requires WorldOK(w) && m in w.ns && m != []
    ensures NoFollow(w.ns, m) == Some(m)
  {
    hide Walk, Follow;
    assert IsDirectory(w.ns, Parent(m));
    PlainFollow(w, Parent(m)) by { hide NoFollow; }
    hide WorldOK;
    assert Parent(m) + [m[|m| - 1]] == m;
  }

  /** A link already held is never on the physical name a probe reads back: the
      probe's object is no link, and every name above it is an ordinary directory. */
  lemma HeldLinkOffPath(v: World, w: World, c: set<Path>, m: Path, n: Path, target: Path)
    requires WorldOK(v) && WorldOK(w) && Agree(v.ns, w.ns, c)
    requires LinkAt(v.ns, c, m)
    requires n != [] && Follow(v.ns, n).end.Some? && Follow(v.ns, n).end.value in v.ns
    requires target in w.ns && w.ns[target].id == v.ns[Follow(v.ns, n).end.value].id
    ensures !(m <= target)
  {
    WalkEndsInside(v, [], n, MAX_LINKS);
    HeldAgrees(v, w, c, m);
    if m <= target {
      PrefixInside(w, m, target);
      PlainName(w, m);
    }
  }

  // ------------------------------------------------------------ the mapping

  /** A `commondir` file names the common directory of the checkout at `anchor`, and
      everything its resolution crosses is fenced. */
  ghost predicate ChainHeld(ns: map<Path, Entry>, c: set<Path>, anchor: Path) {
    var m := Resolve(ns, anchor);
    m.named && m.name.Some? && m.crossed <= c && Covered(ns, c, m.name.value)
  }

  lemma FileEndCrossed(w: World, n: Path)
    requires WorldOK(w) && IsFile(w.ns, Follow(w.ns, n).end)
    ensures Follow(w.ns, n).end.value in Follow(w.ns, n).crossed
  {
    WalkEndsInside(w, [], n, MAX_LINKS);
  }

  lemma EntryParent(anchor: Path)
    ensures Parent(anchor + [GIT]) == anchor && Parent(anchor + [COMMONDIR]) == anchor
  {
  }

  lemma NoFollowAgrees(v: World, w: World, c: set<Path>, n: Path)
    requires WorldOK(v) && WorldOK(w) && Agree(v.ns, w.ns, c) && n != []
    requires Covered(v.ns, c, Parent(n)) && NoFollow(v.ns, n).Some? && NoFollow(v.ns, n).value in c
    ensures NoFollow(w.ns, n) == NoFollow(v.ns, n)
  {
    HeldAgrees(v, w, c, n);
  }

  lemma PrivateAgrees(v: World, w: World, c: set<Path>, anchor: Path)
    requires WorldOK(v) && WorldOK(w) && Agree(v.ns, w.ns, c)
    requires Private(v.ns, anchor).end.Some? && Private(v.ns, anchor).crossed <= c
    ensures Private(w.ns, anchor) == Private(v.ns, anchor)
  {
    var entry := anchor + [GIT];
    EntryParent(anchor);
    var at := NoFollow(v.ns, entry);
    assert Follow(v.ns, anchor).end.Some?;
    CoveredAgrees(v.ns, w.ns, c, anchor);
    NoFollowAgrees(v, w, c, entry);
    if !DirectoryFlag(v.ns[at.value].node) {
      CoveredAgrees(v.ns, w.ns, c, entry);
      FileEndCrossed(v, entry);
    }
  }

  /** A fenced chain resolves to the same directory, whatever the others did. */
  lemma ChainAgrees(v: World, w: World, c: set<Path>, anchor: Path)
    requires WorldOK(v) && WorldOK(w) && Agree(v.ns, w.ns, c) && ChainHeld(v.ns, c, anchor)
    ensures ChainHeld(w.ns, c, anchor) && Resolve(w.ns, anchor) == Resolve(v.ns, anchor)
    ensures var name := Resolve(v.ns, anchor).name.value; Follow(w.ns, name) == Follow(v.ns, name)
  {
    var private := Private(v.ns, anchor);
    PrivateAgrees(v, w, c, anchor);
    var file := private.end.value + [COMMONDIR];
    CoveredAgrees(v.ns, w.ns, c, file);
    FileEndCrossed(v, file);
    CoveredAgrees(v.ns, w.ns, c, Resolve(v.ns, anchor).name.value);
  }

  /** What the walk has pinned of one checkout: its `.git` entry with what the entry
      was seen to be, the `commondir` file with its text, and the directory it names. */
  lemma ChainFromNames(w: World, c: set<Path>, anchor: Path, private: Path, text: Text)
    requires WorldOK(w)
    requires Private(w.ns, anchor).end == Some(private) && Private(w.ns, anchor).crossed <= c
    requires Covered(w.ns, c, private + [COMMONDIR])
    requires IsFile(w.ns, Follow(w.ns, private + [COMMONDIR]).end)
    requires w.ns[Follow(w.ns, private + [COMMONDIR]).end.value].node.text == text
    requires Covered(w.ns, c, Join(private, text.bare))
    ensures ChainHeld(w.ns, c, anchor)
  {
  }

  lemma PrivateFromEntry(w: World, c: set<Path>, anchor: Path)
    requires WorldOK(w) && HeldAt(w.ns, c, anchor + [GIT])
    requires DirectoryFlag(w.ns[NoFollow(w.ns, anchor + [GIT]).value].node)
    ensures Private(w.ns, anchor).end == Some(anchor + [GIT]) && Private(w.ns, anchor).crossed <= c
  {
    EntryParent(anchor);
  }

  lemma PrivateFromPointer(w: World, c: set<Path>, anchor: Path, text: Text)
    requires WorldOK(w) && HeldAt(w.ns, c, anchor + [GIT]) && Covered(w.ns, c, anchor + [GIT])
    requires !DirectoryFlag(w.ns[NoFollow(w.ns, anchor + [GIT]).value].node)
    requires IsFile(w.ns, Follow(w.ns, anchor + [GIT]).end)
    requires w.ns[Follow(w.ns, anchor + [GIT]).end.value].node.text == text && text.pointer.Some?
    ensures Private(w.ns, anchor).end == Some(Join(anchor, text.pointer.value))
    ensures Private(w.ns, anchor).crossed <= c
  {
    EntryParent(anchor);
  }

  /** A fenced file is still that file. */
  lemma FileAgrees(v: World, w: World, c: set<Path>, n: Path)
    requires WorldOK(v) && WorldOK(w) && Agree(v.ns, w.ns, c)
    requires Covered(v.ns, c, n) && IsFile(v.ns, Follow(v.ns, n).end)
    ensures Covered(w.ns, c, n) && Follow(w.ns, n).end == Follow(v.ns, n).end
    ensures IsFile(w.ns, Follow(w.ns, n).end)
    ensures w.ns[Follow(w.ns, n).end.value].node == v.ns[Follow(v.ns, n).end.value].node
  {
    CoveredAgrees(v.ns, w.ns, c, n);
    FileEndCrossed(v, n);
  }

  /** The fenced chain names the directory with identity `id`. */
  ghost predicate MapsTo(ns: map<Path, Entry>, c: set<Path>, anchor: Path, id: nat) {
    ChainHeld(ns, c, anchor) && ReachesIdentity(ns, Resolve(ns, anchor).name.value, id)
  }

  lemma MapsAgrees(v: World, w: World, c: set<Path>, anchor: Path, id: nat)
    requires WorldOK(v) && WorldOK(w) && Agree(v.ns, w.ns, c) && MapsTo(v.ns, c, anchor, id)
    ensures MapsTo(w.ns, c, anchor, id) && Resolve(w.ns, anchor) == Resolve(v.ns, anchor)
  {
    ChainAgrees(v, w, c, anchor);
    WalkEndsInside(v, [], Resolve(v.ns, anchor).name.value, MAX_LINKS);
  }

  /** A resolution asked and its end identified while the chain is fenced hold from
      then on. */
  lemma ConfirmedMaps(s0: State, asked: State, looked: State, s1: State, g: Guard, anchor: Path, name: Path, id: nat)
    requires StateOK(s0) && StateOK(asked) && StateOK(looked) && StateOK(s1)
    requires Carry(s0, asked) && Carry(asked, looked) && Carry(looked, s1)
    requires OwnHolds(s0, g) && OwnHolds(s1, g) && Guarded(s0.w, g) && ChainHeld(s0.w.ns, g.c, anchor)
    requires Resolve(asked.w.ns, anchor).name == Some(name) && ReachesIdentity(looked.w.ns, name, id)
    ensures MapsTo(s1.w.ns, g.c, anchor, id)
  {
    hide Walk, Follow, Fence, Resolve, ChainHeld;
    assert forall x :: x in g.gs ==> x !in asked.tried && x !in looked.tried;
    GuardCarried(s0, asked, g);
    ChainAgrees(s0.w, asked.w, g.c, anchor);
    GuardCarried(asked, looked, g);
    ChainAgrees(asked.w, looked.w, g.c, anchor);
    assert MapsTo(looked.w.ns, g.c, anchor, id);
    GuardCarried(looked, s1, g);
    MapsAgrees(looked.w, s1.w, g.c, anchor, id);
  }
}
