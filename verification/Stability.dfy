// When a checkout's mapping can be counted on: it stays what it is through every
// run of allowed steps exactly when every name it crosses is kept by the holds.
module Stability {
  import opened Options
  import opened Namespace
  import opened Fences
  import opened Mapping
  import opened Guards

  /** A run of other processes' steps, none closing one of the opens `gs`. */
  ghost predicate Legal(w: World, steps: seq<Step>, gs: set<nat>)
    decreases |steps|
  {
    steps != [] ==> Allowed(w, steps[0]) && Spares(steps[0], gs) && Legal(Apply(w, steps[0]), steps[1..], gs)
  }

  function After(w: World, steps: seq<Step>): World
    decreases |steps|
  {
    if steps == [] then w else After(Apply(w, steps[0]), steps[1..])
  }

  lemma {:induction false} RunsJoin(w: World, first: seq<Step>, second: seq<Step>, gs: set<nat>)
    requires Legal(w, first, gs) && Legal(After(w, first), second, gs)
    ensures Legal(w, first + second, gs) && After(w, first + second) == After(After(w, first), second)
    decreases |first|
  {
    if first == [] {
      assert first + second == second;
    } else {
      RunsJoin(Apply(w, first[0]), first[1..], second, gs);
      assert (first + second)[1..] == first[1..] + second;
    }
  }

  lemma OneRun(w: World, step: Step, gs: set<nat>)
    requires Allowed(w, step) && Spares(step, gs)
    ensures Legal(w, [step], gs) && After(w, [step]) == Apply(w, step)
  {
    assert [step][1..] == [];
    assert After(Apply(w, step), []) == Apply(w, step);
  }

  /** Every name crossed from a checkout to the directory it maps to. */
  function Links(ns: map<Path, Entry>, anchor: Path): set<Path> {
    var m := Resolve(ns, anchor);
    if m.name.None? then {} else m.crossed + Follow(ns, m.name.value).crossed
  }

  /** A `commondir` file names a directory that is there. */
  ghost predicate Maps(ns: map<Path, Entry>, anchor: Path) {
    var m := Resolve(ns, anchor);
    m.named && m.name.Some? && Follow(ns, m.name.value).end.Some?
    && IsDirectory(ns, Follow(ns, m.name.value).end.value)
  }

  /** The same name, from a `commondir` file in both, reaching the same object. */
  ghost predicate SameMapping(a: map<Path, Entry>, b: map<Path, Entry>, anchor: Path) {
    var m, n := Resolve(a, anchor), Resolve(b, anchor);
    && n.named == m.named && n.name == m.name && m.name.Some?
    && var d, e := Follow(a, m.name.value).end, Follow(b, m.name.value).end;
       d == e && d.Some? && d.value in a && d.value in b && b[d.value].id == a[d.value].id
  }

  // ------------------------------------------------------------ kept, so stable

  lemma {:induction false} RunStands(w: World, steps: seq<Step>, gs: set<nat>, c: set<Path>)
    requires WorldOK(w) && Legal(w, steps, gs) && Fence(w, gs, c)
    ensures WorldOK(After(w, steps)) && Agree(w.ns, After(w, steps).ns, c)
    decreases |steps|
  {
    if steps == [] {
      forall p | p in c ensures p in w.ns { assert Kept(w, gs, p); }
    } else {
      var v := Apply(w, steps[0]);
      StepKeepsWorld(w, steps[0]);
      FenceStands(w, steps[0], gs, c);
      RunStands(v, steps[1..], gs, c);
      AgreeTwice(w.ns, v.ns, After(v, steps[1..]).ns, c);
    }
  }

  /** Names that are there, each with its parent, the root apart. */
  ghost predicate Inside(ns: map<Path, Entry>, c: set<Path>) {
    forall p :: p in c ==> p != [] && p in ns && (Parent(p) == [] || Parent(p) in c)
  }

  lemma FollowInside(w: World, n: Path)
    requires WorldOK(w)
    ensures Inside(w.ns, Follow(w.ns, n).crossed)
  {
    WalkEndsInside(w, [], n, MAX_LINKS);
  }

  /** The `.git` entry stands in the directory its checkout reaches. */
  lemma EntryAt(w: World, anchor: Path)
    requires WorldOK(w) && NoFollow(w.ns, anchor + [GIT]).Some?
    ensures var d, at := Follow(w.ns, anchor), NoFollow(w.ns, anchor + [GIT]).value;
            && at != [] && d.end == Some(Parent(at)) && at in w.ns && IsDirectory(w.ns, Parent(at))
            && (Parent(at) == [] || Parent(at) in d.crossed)
            && at == Parent(at) + [GIT]
  {
    hide Walk;
    EntryParent(anchor);
    EndInside(w, anchor);
    assert (anchor + [GIT])[|anchor + [GIT]| - 1] == GIT;
  }

  lemma PrivateInside(w: World, anchor: Path)
    requires WorldOK(w)
    ensures Inside(w.ns, Private(w.ns, anchor).crossed)
  {
    hide Follow, NoFollow, Join, WorldOK;
    FollowInside(w, anchor);
    FollowInside(w, anchor + [GIT]);
    if NoFollow(w.ns, anchor + [GIT]).Some? { EntryAt(w, anchor); }
  }

  lemma EndInside(w: World, n: Path)
    requires WorldOK(w)
    ensures var way := Follow(w.ns, n); way.end.Some? ==> way.end.value == [] || way.end.value in way.crossed
  {
    WalkEndsInside(w, [], n, MAX_LINKS);
  }

  /** What a mapping crosses is closed under parent. */
  lemma LinksInside(w: World, anchor: Path)
    requires WorldOK(w) && Maps(w.ns, anchor)
    ensures Inside(w.ns, Links(w.ns, anchor)) && ChainHeld(w.ns, Links(w.ns, anchor), anchor)
  {
    hide Walk, Follow, Private;
    PrivateInside(w, anchor);
    FollowInside(w, Private(w.ns, anchor).end.value + [COMMONDIR]);
    FollowInside(w, Resolve(w.ns, anchor).name.value);
  }

  lemma KeptIsStable(w: World, steps: seq<Step>, gs: set<nat>, anchor: Path)
    requires WorldOK(w) && Maps(w.ns, anchor) && Legal(w, steps, gs)
    requires forall p :: p in Links(w.ns, anchor) ==> Kept(w, gs, p)
    ensures SameMapping(w.ns, After(w, steps).ns, anchor)
  {
    var c := Links(w.ns, anchor);
    LinksInside(w, anchor);
    RunStands(w, steps, gs, c);
    var name := Resolve(w.ns, anchor).name.value;
    MapsAgrees(w, After(w, steps), c, anchor, w.ns[Follow(w.ns, name).end.value].id);
    ChainAgrees(w, After(w, steps), c, anchor);
  }

  // ------------------------------------------------------------ not kept, so not stable

  /** `b` is as `a` except at and below `p`, where nothing can be looked up. */
  ghost predicate Cut(a: map<Path, Entry>, b: map<Path, Entry>, p: Path) {
    && p != []
    && (forall x :: x in a && !(p <= x) ==> x in b && b[x] == a[x])
    && (p in b ==> b[p].node.Link? && !b[p].node.directory && |b[p].node.target| == 1 && b[p].node.target !in b)
  }

  lemma {:induction false} WalkMeets(a: map<Path, Entry>, b: map<Path, Entry>, p: Path,
                                     base: Path, rest: seq<string>, fuel: nat)
    requires Cut(a, b, p) && !(p <= base) && p in Walk(a, base, rest, fuel).crossed
    ensures Walk(b, base, rest, fuel).end.None?
    decreases fuel, |rest|
  {
    var x := base + [rest[0]];
    assert Parent(x) == base;
    PrefixOfParent(p, x);
    if x == p {
      if p in b && fuel > 0 {
        var target := b[p].node.target;
        assert [] + [(target + rest[1..])[0]] == target;
      }
    } else {
      match a[x].node
      case Dir => WalkMeets(a, b, p, x, rest[1..], fuel);
      case File(_) =>
      case Link(target, _) => WalkMeets(a, b, p, [], target + rest[1..], fuel - 1);
    }
  }

  lemma {:induction false} Above(w: World, c: set<Path>, p: Path, x: Path)
    requires forall q :: q in c ==> q != [] && (Parent(q) == [] || Parent(q) in c)
    requires p != [] && p <= x && x in c
    ensures p in c
    decreases |x|
  {
    PrefixOfParent(p, x);
    if p != x { Above(w, c, p, Parent(x)); }
  }

  /** What crosses nothing of the cut is as before. */
  lemma CutSpares(v: World, w: World, p: Path, c: set<Path>)
    requires WorldOK(v) && Cut(v.ns, w.ns, p) && p !in c
    requires Inside(v.ns, c)
    ensures Agree(v.ns, w.ns, c)
  {
    forall q | q in c ensures q in w.ns && w.ns[q] == v.ns[q] {
      if p <= q { Above(v, c, p, q); }
    }
    assert !(p <= []);
  }

  /** The checkout is reached as before; what stands at its `.git` entry is not. */
  lemma CutEntry(v: World, w: World, p: Path, anchor: Path)
    requires WorldOK(v) && WorldOK(w) && Cut(v.ns, w.ns, p)
    requires NoFollow(v.ns, anchor + [GIT]).Some? && p !in Follow(v.ns, anchor).crossed
    ensures var at := NoFollow(v.ns, anchor + [GIT]).value;
            && (at != p ==> NoFollow(w.ns, anchor + [GIT]) == Some(at) && at in w.ns && w.ns[at] == v.ns[at])
            && (at == p && NoFollow(w.ns, anchor + [GIT]).Some? ==>
                  NoFollow(w.ns, anchor + [GIT]) == Some(p) && p in w.ns && p in Follow(v.ns, anchor + [GIT]).crossed)
  {
    hide Walk;
    var d, at := Follow(v.ns, anchor), NoFollow(v.ns, anchor + [GIT]).value;
    EntryAt(v, anchor);
    FollowInside(v, anchor);
    CutSpares(v, w, p, d.crossed);
    CoveredAgrees(v.ns, w.ns, d.crossed, anchor);
    EntryParent(anchor);
    if at != p {
      PrefixOfParent(p, at);
      if p <= Parent(at) { Above(v, d.crossed, p, Parent(at)); }
    } else {
      EntryCrossed(v, anchor);
    }
    if NoFollow(w.ns, anchor + [GIT]).Some? { EntryAt(w, anchor); }
  }

  lemma EntryCrossed(w: World, anchor: Path)
    requires WorldOK(w) && NoFollow(w.ns, anchor + [GIT]).Some?
    ensures NoFollow(w.ns, anchor + [GIT]).value in Follow(w.ns, anchor + [GIT]).crossed
  {
    EntryAt(w, anchor);
    EntryParent(anchor);
    FollowLast(w.ns, anchor + [GIT]);
  }

  lemma CutPrivate(v: World, w: World, p: Path, anchor: Path)
    requires WorldOK(v) && WorldOK(w) && Cut(v.ns, w.ns, p)
    requires Private(v.ns, anchor).end.Some? && p in Private(v.ns, anchor).crossed
    ensures Private(w.ns, anchor).end.None?
  {
    hide Walk, Join, WorldOK;
    EntryParent(anchor);
    if p in Follow(v.ns, anchor).crossed {
      WalkMeets(v.ns, w.ns, p, [], anchor, MAX_LINKS);
    } else {
      CutEntry(v, w, p, anchor);
      if p in Follow(v.ns, anchor + [GIT]).crossed { WalkMeets(v.ns, w.ns, p, [], anchor + [GIT], MAX_LINKS); }
    }
  }

  lemma CutMoves(v: World, w: World, p: Path, anchor: Path)
    requires WorldOK(v) && WorldOK(w) && Cut(v.ns, w.ns, p) && Maps(v.ns, anchor) && p in Links(v.ns, anchor)
    ensures !SameMapping(v.ns, w.ns, anchor)
  {
    var private, m := Private(v.ns, anchor), Resolve(v.ns, anchor);
    PrivateInside(v, anchor);
    if p in private.crossed {
      CutPrivate(v, w, p, anchor);
    } else if p in Follow(v.ns, m.name.value).crossed {
      WalkMeets(v.ns, w.ns, p, [], m.name.value, MAX_LINKS);
    } else {
      CutSpares(v, w, p, private.crossed);
      PrivateAgrees(v, w, private.crossed, anchor);
      WalkMeets(v.ns, w.ns, p, [], private.end.value + [COMMONDIR], MAX_LINKS);
    }
  }

  /** `b` is as `a` but for the text of the file at `p`. */
  ghost predicate Edited(a: map<Path, Entry>, b: map<Path, Entry>, p: Path) {
    && p in a && p in b && a[p].node.File? && b[p].node.File? && a.Keys == b.Keys
    && (forall x :: x in a && x != p ==> b[x] == a[x])
  }

  /** An edit changes no lookup, and a file is only ever a lookup's last name. */
  lemma {:induction false} WalkEdited(a: map<Path, Entry>, b: map<Path, Entry>, p: Path,
                                      base: Path, rest: seq<string>, fuel: nat)
    requires Edited(a, b, p)
    ensures var way := Walk(a, base, rest, fuel);
            Walk(b, base, rest, fuel) == way && (p in way.crossed && way.end.Some? ==> way.end.value == p)
    decreases fuel, |rest|
  {
    if rest != [] {
      var x := base + [rest[0]];
      if x in a {
        match a[x].node
        case Dir => WalkEdited(a, b, p, x, rest[1..], fuel);
        case File(_) =>
        case Link(target, _) => if fuel > 0 { WalkEdited(a, b, p, [], target + rest[1..], fuel - 1); }
      }
    }
  }

  lemma FollowEdited(a: map<Path, Entry>, b: map<Path, Entry>, p: Path, n: Path)
    requires Edited(a, b, p)
    ensures var way := Follow(a, n);
            Follow(b, n) == way && (p in way.crossed && way.end.Some? ==> way.end.value == p)
  {
    WalkEdited(a, b, p, [], n, MAX_LINKS);
  }

  /** A file whose text names nothing leaves no private directory; one whose text
      names another directory leaves another mapping. */
  lemma EditMoves(v: World, w: World, p: Path, anchor: Path, text: Text)
    requires WorldOK(v) && WorldOK(w) && Edited(v.ns, w.ns, p) && Maps(v.ns, anchor) && p in Links(v.ns, anchor)
    requires w.ns[p].node == File(text) && text.pointer.None?
    requires forall d :: Join(d, text.bare) != Resolve(v.ns, anchor).name.value
    ensures !SameMapping(v.ns, w.ns, anchor)
  {
    hide Walk, Follow, Join, WorldOK;
    var private, m := Private(v.ns, anchor), Resolve(v.ns, anchor);
    var entry := anchor + [GIT];
    EntryParent(anchor);
    FollowEdited(v.ns, w.ns, p, anchor);
    FollowEdited(v.ns, w.ns, p, entry);
    FollowEdited(v.ns, w.ns, p, m.name.value);
    EntryAt(v, anchor);
    EntryCrossed(v, anchor);
    var at := NoFollow(v.ns, entry).value;
    assert NoFollow(w.ns, entry) == Some(at);
    if p in private.crossed {
      assert Private(w.ns, anchor).end.None?;
    } else {
      FollowEdited(v.ns, w.ns, p, private.end.value + [COMMONDIR]);
    }
  }

  // ------------------------------------------------------------ the runs that move it

  lemma Longest(names: set<string>) returns (n: nat)
    ensures forall x :: x in names ==> |x| <= n
    decreases |names|
  {
    if names == {} {
      n := 0;
    } else {
      var x :| x in names;
      var m := Longest(names - {x});
      n := if |x| > m then |x| else m;
      forall y | y in names ensures |y| <= n { if y != x { assert y in names - {x}; } }
    }
  }

  /** A component nobody uses at the root, nor among `avoid`. */
  lemma Fresh(ns: map<Path, Entry>, avoid: set<string>) returns (f: string)
    ensures [f] !in ns && f !in avoid
  {
    var heads := set x | x in ns && |x| == 1 :: x[0];
    var n := Longest(heads + avoid);
    f := seq(n + 1, i => 'x');
    assert forall x :: x in ns && |x| == 1 ==> |x[0]| <= n;
  }

  /** Every open left is one of `gs`. */
  ghost predicate Alone(w: World, gs: set<nat>) {
    forall g :: g in w.opens ==> g in gs
  }

  lemma AloneGranted(w: World, gs: set<nat>, id: nat, right: Right)
    requires Alone(w, gs) && !Denies(w, gs, id, right)
    ensures Granted(w, id, right)
  {
  }

  lemma Shut(w: World, gs: set<nat>) returns (step: Step)
    requires WorldOK(w)
    ensures Allowed(w, step) && Spares(step, gs)
    ensures var v := Apply(w, step);
            && WorldOK(v) && v.ns == w.ns && Alone(v, gs)
            && (forall id, right :: Denies(v, gs, id, right) == Denies(w, gs, id, right))
  {
    step := Shutting(w.opens.Keys - gs);
    StepKeepsWorld(w, step);
    var v := Apply(w, step);
    assert forall g :: g in gs && g in w.opens ==> g in v.opens && v.opens[g] == w.opens[g];
  }

  /** An object nobody holds is moved away from its name, to a new one at the root. */
  lemma MoveAway(w: World, gs: set<nat>, p: Path) returns (step: Step, f: Path)
    requires WorldOK(w) && Alone(w, gs) && p != [] && p in w.ns && !Holds(w, gs, w.ns[p].id)
    ensures Allowed(w, step) && Spares(step, gs)
    ensures var v := Apply(w, step);
            && WorldOK(v) && v.opens == w.opens && Cut(w.ns, v.ns, p) && p !in v.ns
            && |f| == 1 && f !in w.ns
            && (forall x :: x in v.ns ==> (x in w.ns && !(p <= x) && v.ns[x] == w.ns[x]) || f <= x)
  {
    var name := Fresh(w.ns, {});
    f := [name];
    step := Renaming(p, f);
    AloneGranted(w, gs, w.ns[p].id, Delete);
    assert Parent(f) == [];
    assert !(p <= f) by { PrefixOfParent(p, f); }
    StepKeepsWorld(w, step);
    var v := Apply(w, step);
    forall x | x in w.ns && !(p <= x) ensures x in v.ns && v.ns[x] == w.ns[x] {
      MovedAt(w.ns, p, f, x);
      if f <= x { PrefixInside(w, f, x); }
    }
    forall x | x in v.ns && !(f <= x) ensures x in w.ns && !(p <= x) { MovedAt(w.ns, p, f, x); }
    MovedAt(w.ns, p, f, p);
    if f <= p { PrefixInside(w, f, p); }
  }

  function Children(ns: map<Path, Entry>, p: Path): set<Path> {
    set x | x in ns && x != [] && Parent(x) == p
  }

  /** A directory none of whose direct children is held is emptied. */
  lemma {:induction false} Empty(w: World, gs: set<nat>, p: Path) returns (steps: seq<Step>)
    requires WorldOK(w) && Alone(w, gs) && p != [] && IsDirectory(w.ns, p) && !HeldChild(w, gs, p)
    ensures Legal(w, steps, gs)
    ensures var v := After(w, steps);
            && WorldOK(v) && v.opens == w.opens && p in v.ns && v.ns[p] == w.ns[p] && Childless(v.ns, p)
            && (forall x :: x in w.ns && !(p <= x) ==> x in v.ns && v.ns[x] == w.ns[x])
    decreases |Children(w.ns, p)|
  {
    hide WorldOK, Apply, Allowed;
    if Children(w.ns, p) == {} {
      steps := [];
      assert forall c :: c in w.ns && c != [] && Parent(c) == p ==> c in Children(w.ns, p);
    } else {
      var c :| c in Children(w.ns, p);
      assert !Holds(w, gs, w.ns[c].id);
      var step, f := MoveAway(w, gs, c);
      var v := Apply(w, step);
      PrefixOfParent(c, p);
      assert !(c <= p);
      forall x | x in Children(v.ns, p) ensures x in Children(w.ns, p) - {c} && v.ns[x] == w.ns[x] {
        if f <= x {
          PrefixOfParent(f, x);
          if f <= p { PrefixInside(w, f, p); }
        }
      }
      assert Children(v.ns, p) <= Children(w.ns, p) - {c};
      Smaller(Children(v.ns, p), Children(w.ns, p), c);
      FewerHeld(w, v, gs, p);
      var rest := Empty(v, gs, p);
      steps := [step] + rest;
      assert steps[1..] == rest;
      forall x | x in w.ns && !(p <= x) ensures x in v.ns && v.ns[x] == w.ns[x] {
        PrefixOfParent(p, c);
        PrefixThrough(p, c, x);
      }
    }
  }

  lemma FewerHeld(w: World, v: World, gs: set<nat>, p: Path)
    requires v.opens == w.opens
    requires forall x :: x in Children(v.ns, p) ==> x in Children(w.ns, p) && v.ns[x] == w.ns[x]
    ensures HeldChild(v, gs, p) ==> HeldChild(w, gs, p)
  {
  }

  lemma PrefixThrough(p: Path, c: Path, x: Path)
    ensures p <= c && c <= x ==> p <= x
  {
  }

  lemma Smaller(a: set<Path>, b: set<Path>, c: Path)
    requires a <= b - {c} && c in b
    ensures |a| < |b|
  {
    Fewer(a, b - {c});
  }

  lemma Fewer(a: set<Path>, b: set<Path>)
    requires a <= b
    ensures |a| <= |b|
  {
    assert b == a + (b - a);
  }

  /** A text that names no pointer, and a directory other than `name`. */
  lemma Elsewhere(ns: map<Path, Entry>, name: Path) returns (f: string, text: Text)
    ensures [f] !in ns && text.pointer.None? && forall d :: Join(d, text.bare) != name
  {
    f := Fresh(ns, {".", "..", ""} + if name == [] then {} else {name[0]});
    text := Text(None, Named(true, [f]));
    forall d ensures Join(d, text.bare) != name {
      assert text.bare.parts[1..] == [] && Normal([] + [f], []) == [f];
      assert Join(d, text.bare) == [f];
    }
  }

  /** A file, a link or an empty directory that nobody keeps from being written is
      turned into what moves the mapping. */
  lemma Rewrite(w: World, gs: set<nat>, p: Path, name: Path) returns (step: Step)
    requires WorldOK(w) && Alone(w, gs) && p != [] && p in w.ns && !Denies(w, gs, w.ns[p].id, Write)
    requires w.ns[p].node.Dir? ==> Childless(w.ns, p)
    ensures Allowed(w, step) && Spares(step, gs)
    ensures var v := Apply(w, step);
            && WorldOK(v)
            && (!w.ns[p].node.File? ==> Cut(w.ns, v.ns, p))
            && (w.ns[p].node.File? ==>
                  && Edited(w.ns, v.ns, p) && v.ns[p].node.File? && v.ns[p].node.text.pointer.None?
                  && forall d :: Join(d, v.ns[p].node.text.bare) != name)
  {
    hide Join, WorldOK, Granted, Denies, Alone, Childless;
    var f, text := Elsewhere(w.ns, name);
    AloneGranted(w, gs, w.ns[p].id, Write);
    step := Rewriting(p, if w.ns[p].node.File? then File(text) else Link([f], false));
    StepKeepsWorld(w, step);
    if !w.ns[p].node.File? { TurnedCuts(w.ns, p, f); }
  }

  /** A name turned into a link that leads nowhere cuts what it was. */
  lemma TurnedCuts(ns: map<Path, Entry>, p: Path, f: string)
    requires p != [] && p in ns && [f] !in ns
    ensures Cut(ns, ns[p := ns[p].(node := Link([f], false))], p)
  {
    assert [f] != p;
  }

  lemma CutThrough(a: map<Path, Entry>, b: map<Path, Entry>, c: map<Path, Entry>, p: Path)
    requires p != [] && (forall x :: x in a && !(p <= x) ==> x in b && b[x] == a[x]) && Cut(b, c, p)
    ensures Cut(a, c, p)
  {
  }

  /** A name the mapping crosses that is not kept: a run moves the mapping. */
  lemma UnkeptMoves(w: World, gs: set<nat>, anchor: Path, p: Path) returns (steps: seq<Step>)
    requires WorldOK(w) && Maps(w.ns, anchor) && p in Links(w.ns, anchor) && !Kept(w, gs, p)
    ensures Legal(w, steps, gs) && !SameMapping(w.ns, After(w, steps).ns, anchor)
  {
    hide WorldOK, Allowed, Apply, Maps, Cut, SameMapping, Links, Walk, Follow, Join, Resolve;
    LinksInside(w, anchor);
    var shut := Shut(w, gs);
    var u := Apply(w, shut);
    if !Holds(w, gs, w.ns[p].id) {
      var move, f := MoveAway(u, gs, p);
      CutMoves(w, Apply(u, move), p, anchor);
      steps := [shut, move];
      TwoSteps(w, shut, move, gs);
    } else if w.ns[p].node.Dir? {
      assert !HeldChild(u, gs, p) by { UnheldAfter(w, u, gs, p); }
      var clear := Empty(u, gs, p);
      var v := After(u, clear);
      SameDenied(u, v, gs, w.ns[p].id);
      var turn := Rewrite(v, gs, p, []);
      CutThrough(w.ns, v.ns, Apply(v, turn).ns, p);
      CutMoves(w, Apply(v, turn), p, anchor);
      steps := [shut] + (clear + [turn]);
      OneMore(u, clear, turn, gs);
      assert steps[1..] == clear + [turn];
    } else {
      var name := Resolve(w.ns, anchor).name.value;
      var turn := Rewrite(u, gs, p, name);
      var v := Apply(u, turn);
      if w.ns[p].node.File? { EditMoves(w, v, p, anchor, v.ns[p].node.text); } else { CutMoves(w, v, p, anchor); }
      steps := [shut, turn];
      TwoSteps(w, shut, turn, gs);
    }
  }

  lemma UnheldAfter(w: World, u: World, gs: set<nat>, p: Path)
    requires u.ns == w.ns && (forall id, right :: Denies(u, gs, id, right) == Denies(w, gs, id, right))
    requires !HeldChild(w, gs, p)
    ensures !HeldChild(u, gs, p)
  {
  }

  lemma SameDenied(u: World, v: World, gs: set<nat>, id: nat)
    requires v.opens == u.opens
    ensures Alone(u, gs) ==> Alone(v, gs)
    ensures Denies(v, gs, id, Write) == Denies(u, gs, id, Write)
  {
  }

  lemma TwoSteps(w: World, a: Step, b: Step, gs: set<nat>)
    requires Allowed(w, a) && Spares(a, gs) && Allowed(Apply(w, a), b) && Spares(b, gs)
    ensures Legal(w, [a, b], gs) && After(w, [a, b]) == Apply(Apply(w, a), b)
  {
    assert [a, b][1..] == [b] && [b][1..] == [];
    var v := Apply(w, a);
    assert After(v, [b]) == After(Apply(v, b), []);
  }

  lemma {:induction false} OneMore(w: World, steps: seq<Step>, last: Step, gs: set<nat>)
    requires Legal(w, steps, gs) && Allowed(After(w, steps), last) && Spares(last, gs)
    ensures Legal(w, steps + [last], gs) && After(w, steps + [last]) == Apply(After(w, steps), last)
    decreases |steps|
  {
    if steps == [] {
      assert steps + [last] == [last] && [last][1..] == [];
    } else {
      OneMore(Apply(w, steps[0]), steps[1..], last, gs);
      assert (steps + [last])[1..] == steps[1..] + [last];
    }
  }

  /** No run can move the mapping exactly when every name it crosses is kept. */
  lemma StableIffKept(w: World, gs: set<nat>, anchor: Path)
    requires WorldOK(w) && Maps(w.ns, anchor)
    ensures (forall steps :: Legal(w, steps, gs) ==> SameMapping(w.ns, After(w, steps).ns, anchor))
            <==> (forall p :: p in Links(w.ns, anchor) ==> Kept(w, gs, p))
  {
    if forall p :: p in Links(w.ns, anchor) ==> Kept(w, gs, p) {
      forall steps | Legal(w, steps, gs) ensures SameMapping(w.ns, After(w, steps).ns, anchor) {
        KeptIsStable(w, steps, gs, anchor);
      }
    } else {
      var p :| p in Links(w.ns, anchor) && !Kept(w, gs, p);
      var steps := UnkeptMoves(w, gs, anchor, p);
    }
  }

  /** Where the private directory holds no `commondir`, no holds keep one from being
      made there, and it may name anything: such a mapping is never stable. */
  lemma CommondirAppears(w: World, gs: set<nat>, anchor: Path, text: Text) returns (step: Step)
    requires WorldOK(w) && Private(w.ns, anchor).end.Some?
    requires var private := Private(w.ns, anchor).end.value;
             && Follow(w.ns, private).end.Some? && IsDirectory(w.ns, Follow(w.ns, private).end.value)
             && NoFollow(w.ns, private + [COMMONDIR]).None?
    ensures !Resolve(w.ns, anchor).named && Legal(w, [step], gs)
    ensures var m := Resolve(After(w, [step]).ns, anchor);
            m.named && m.name == Some(Join(Private(w.ns, anchor).end.value, text.bare))
  {
    hide Walk, Follow, Private, WorldOK;
    var private := Private(w.ns, anchor).end.value;
    var at := Follow(w.ns, private).end.value + [COMMONDIR];
    step := Creating(at, File(text));
    var v := Apply(w, step);
    Creatable(w, gs, private, step);
    StepKeepsWorld(w, step);
    PrivateInside(w, anchor);
    RootIn(w, v);
    PrivateAgrees(w, v, Private(w.ns, anchor).crossed, anchor);
    Created(w, v, private, at);
    NothingThere(w, private);
  }

  lemma Creatable(w: World, gs: set<nat>, d: Path, step: Step)
    requires WorldOK(w) && Follow(w.ns, d).end.Some? && IsDirectory(w.ns, Follow(w.ns, d).end.value)
    requires NoFollow(w.ns, d + [COMMONDIR]).None?
    requires step.Creating? && step.name == Follow(w.ns, d).end.value + [COMMONDIR]
    ensures Allowed(w, step) && Legal(w, [step], gs) && After(w, [step]) == Apply(w, step)
    ensures step.name !in w.ns
  {
    hide Walk, Follow;
    assert Parent(step.name) == Follow(w.ns, d).end.value;
    LastOf(d);
    assert [step][1..] == [];
    var v := Apply(w, step);
    assert After(v, []) == v && After(w, [step]) == v;
  }

  lemma RootIn(w: World, v: World)
    requires WorldOK(w) && forall x :: x in w.ns ==> x in v.ns && v.ns[x] == w.ns[x]
    ensures [] in v.ns && v.ns[[]] == w.ns[[]]
  {
  }

  lemma LastOf(d: Path)
    ensures Parent(d + [COMMONDIR]) == d && (d + [COMMONDIR])[|d + [COMMONDIR]| - 1] == COMMONDIR
  {
  }

  /** The new file is what its name reaches. */
  lemma Created(w: World, v: World, d: Path, at: Path)
    requires WorldOK(w) && Follow(w.ns, d).end.Some? && at == Follow(w.ns, d).end.value + [COMMONDIR]
    requires IsDirectory(w.ns, Follow(w.ns, d).end.value) && at !in w.ns && at in v.ns && v.ns[at].node.File?
    requires forall x :: x in w.ns ==> x in v.ns && v.ns[x] == w.ns[x]
    ensures Follow(v.ns, d + [COMMONDIR]).end == Some(at)
  {
    var way := Follow(w.ns, d);
    FollowInside(w, d);
    CoveredAgrees(w.ns, v.ns, way.crossed, d);
    LastOf(d);
    FollowLast(v.ns, d + [COMMONDIR]);
    assert Walk(v.ns, way.end.value, [COMMONDIR], way.fuel).end == Some(at);
  }

  lemma NothingThere(w: World, d: Path)
    requires Follow(w.ns, d).end.Some? && IsDirectory(w.ns, Follow(w.ns, d).end.value)
    requires NoFollow(w.ns, d + [COMMONDIR]).None?
    ensures Follow(w.ns, d + [COMMONDIR]).end.None?
  {
    LastOf(d);
    FollowLast(w.ns, d + [COMMONDIR]);
  }
}
