// Where the common directory's recorded name leads once the chain is pinned. It is
// read before the pins and never again, so the lease stays with the held directory
// exactly when every name on the way there happens to be kept as well.
module Landings {
  import opened Options
  import opened Namespace
  import opened Fences
  import opened Mapping
  import opened Kernels
  import opened Cleanup
  import opened Guards
  import opened Relaxing
  import opened PinFacts
  import opened Bindings
  import opened Stability

  /** The name reaches another directory, one that passes for a git directory. */
  ghost predicate LandsElsewhere(ns: map<Path, Entry>, name: Path, id: nat) {
    var e := Follow(ns, name).end;
    && e.Some? && IsDirectory(ns, e.value) && ns[e.value].id != id
    && IsFile(ns, Follow(ns, name + ["HEAD"]).end) && IsFile(ns, Follow(ns, name + ["config"]).end)
  }

  // ------------------------------------------------------------ the first crossing

  /** `b` is as `a` except at and below `p`. */
  ghost predicate Beside(a: map<Path, Entry>, b: map<Path, Entry>, p: Path) {
    forall x :: x in a && !(p <= x) ==> x in b && b[x] == a[x]
  }

  /** What is left to look up, and the links left, when a lookup first comes to `p`. */
  datatype Rest = Rest(parts: seq<string>, fuel: nat)

  function Onward(a: map<Path, Entry>, p: Path, base: Path, rest: seq<string>, fuel: nat): Rest
    decreases fuel, |rest|
  {
    if rest == [] then Rest([], fuel)
    else
      var x := base + [rest[0]];
      if x == p || x !in a then Rest(rest, fuel)
      else
        match a[x].node
        case Dir => Onward(a, p, x, rest[1..], fuel)
        case File(_) => Rest(rest, fuel)
        case Link(target, _) => if fuel == 0 then Rest(rest, fuel) else Onward(a, p, [], target + rest[1..], fuel - 1)
  }

  /** Up to there nothing at or below `p` was looked at. */
  lemma {:induction false} OnwardSame(a: map<Path, Entry>, b: map<Path, Entry>, p: Path,
                                      base: Path, rest: seq<string>, fuel: nat)
    requires p != [] && Beside(a, b, p) && !(p <= base) && p in Walk(a, base, rest, fuel).crossed
    ensures var on := Onward(a, p, base, rest, fuel);
            && on.parts != [] && Parent(p) + [on.parts[0]] == p && on.fuel <= fuel
            && Walk(b, base, rest, fuel).end == Walk(b, Parent(p), on.parts, on.fuel).end
    decreases fuel, |rest|
  {
    var x := base + [rest[0]];
    assert Parent(x) == base;
    PrefixOfParent(p, x);
    if x != p {
      match a[x].node
      case Dir => OnwardSame(a, b, p, x, rest[1..], fuel);
      case File(_) =>
      case Link(target, _) => OnwardSame(a, b, p, [], target + rest[1..], fuel - 1);
    }
  }

  /** A file is only ever a lookup's last name. */
  lemma {:induction false} FileIsEnd(a: map<Path, Entry>, p: Path, base: Path, rest: seq<string>, fuel: nat)
    requires p in a && a[p].node.File? && p in Walk(a, base, rest, fuel).crossed && Walk(a, base, rest, fuel).end.Some?
    ensures Walk(a, base, rest, fuel).end == Some(p)
    decreases fuel, |rest|
  {
    var x := base + [rest[0]];
    match a[x].node
    case Dir => FileIsEnd(a, p, x, rest[1..], fuel);
    case File(_) =>
    case Link(target, _) => FileIsEnd(a, p, [], target + rest[1..], fuel - 1);
  }

  // ------------------------------------------------------------ the run that takes it elsewhere

  /** A new object under an existing directory. */
  lemma Make(w: World, p: Path, node: Node, gs: set<nat>)
    requires WorldOK(w) && p != [] && p !in w.ns && IsDirectory(w.ns, Parent(p))
    ensures Legal(w, [Creating(p, node)], gs)
    ensures var v := After(w, [Creating(p, node)]);
            WorldOK(v) && v == w.(ns := w.ns[p := Entry(w.next, node)], next := w.next + 1) && Childless(v.ns, p)
  {
    OneRun(w, Creating(p, node), gs);
    StepKeepsWorld(w, Creating(p, node));
    forall c | c in w.ns && c != [] ensures Parent(c) != p { assert Parent(c) in w.ns; }
    assert Parent(p) != p;
  }

  /** Everything there was is still there, as it was. */
  ghost predicate Extends(a: World, b: World) {
    a.next <= b.next && forall x :: x in a.ns ==> x in b.ns && b.ns[x] == a.ns[x]
  }

  /** `rest` below `d` has become an empty directory, a new one unless it is `d` itself. */
  ghost predicate Built(w: World, v: World, d: Path, rest: seq<string>) {
    && WorldOK(v) && Extends(w, v) && IsDirectory(v.ns, d + rest) && Childless(v.ns, d + rest)
    && (rest != [] ==> v.ns[d + rest].id >= w.next)
  }

  lemma BuiltNothing(w: World, d: Path)
    requires WorldOK(w) && IsDirectory(w.ns, d) && Childless(w.ns, d)
    ensures Built(w, w, d, [])
  {
    hide WorldOK, Childless;
    assert d + [] == d;
  }

  lemma BuiltMore(w: World, v: World, y: World, d: Path, rest: seq<string>)
    requires rest != [] && Extends(w, v) && d + [rest[0]] in v.ns && v.ns[d + [rest[0]]].id >= w.next
    requires Built(v, y, d + [rest[0]], rest[1..])
    ensures Built(w, y, d, rest)
  {
    hide WorldOK, Childless;
    var x := d + [rest[0]];
    assert d + rest == x + rest[1..];
    assert rest[1..] == [] ==> x + rest[1..] == x;
  }

  /** Below an empty directory new ones are made for what is left to look up. */
  lemma {:induction false} Build(w: World, d: Path, rest: seq<string>, gs: set<nat>) returns (steps: seq<Step>)
    requires WorldOK(w) && IsDirectory(w.ns, d) && Childless(w.ns, d)
    ensures Legal(w, steps, gs) && Built(w, After(w, steps), d, rest)
    decreases |rest|
  {
    hide WorldOK, Apply, Allowed, Legal, After, Childless, IsDirectory, Built, Extends;
    if rest == [] {
      steps := [];
      NoSteps(w, gs);
      BuiltNothing(w, d);
    } else {
      var x := d + [rest[0]];
      var make := [Creating(x, Dir)];
      assert Parent(x) == d;
      NothingBelow(w, d, x);
      Make(w, x, Dir, gs);
      var v := After(w, make);
      MadeExtends(w, v, x);
      var more := Build(v, x, rest[1..], gs);
      RunsJoin(w, make, more, gs);
      steps := make + more;
      BuiltMore(w, v, After(v, more), d, rest);
    }
  }

  lemma NothingBelow(w: World, d: Path, x: Path)
    requires Childless(w.ns, d) && x != [] && Parent(x) == d
    ensures x !in w.ns
  {
  }

  lemma MadeExtends(w: World, v: World, x: Path)
    requires x !in w.ns && v == w.(ns := w.ns[x := Entry(w.next, Dir)], next := w.next + 1)
    ensures Extends(w, v) && x in v.ns && IsDirectory(v.ns, x) && v.ns[x].id >= w.next
  {
  }

  lemma NoSteps(w: World, gs: set<nat>)
    ensures Legal(w, [], gs) && After(w, []) == w
  {
  }

  lemma DirectoryStep(ns: map<Path, Entry>, base: Path, rest: seq<string>, left: nat)
    requires rest != [] && IsDirectory(ns, base + [rest[0]])
    ensures var way, on := Walk(ns, base, rest, left), Walk(ns, base + [rest[0]], rest[1..], left);
            way.end == on.end && way.fuel == on.fuel
  {
  }

  lemma NothingLeft(ns: map<Path, Entry>, d: Path, fuel: nat)
    ensures Walk(ns, d, [], fuel) == Way(Some(d), {}, fuel)
  {
  }

  /** Plain directories all the way are looked up as they are written. */
  lemma {:induction false} WalkPlain(w: World, d: Path, rest: seq<string>, fuel: nat)
    requires WorldOK(w) && IsDirectory(w.ns, d + rest)
    ensures Walk(w.ns, d, rest, fuel).end == Some(d + rest) && Walk(w.ns, d, rest, fuel).fuel == fuel
    decreases |rest|
  {
    hide WorldOK, Walk, IsDirectory;
    if rest == [] {
      assert d + rest == d;
      NothingLeft(w.ns, d, fuel);
    } else {
      var x := d + [rest[0]];
      assert d + rest == x + rest[1..];
      AboveIsPlain(w, x, d + rest);
      DirectoryStep(w.ns, d, rest, fuel);
      WalkPlain(w, x, rest[1..], fuel);
    }
  }

  lemma AboveIsPlain(w: World, x: Path, p: Path)
    requires WorldOK(w) && IsDirectory(w.ns, p) && x <= p
    ensures IsDirectory(w.ns, x)
  {
    PrefixInside(w, x, p);
  }

  /** HEAD and config, in an empty directory. */
  lemma Furnish(w: World, d: Path, gs: set<nat>) returns (steps: seq<Step>)
    requires WorldOK(w) && IsDirectory(w.ns, d) && Childless(w.ns, d)
    ensures Legal(w, steps, gs)
    ensures var v := After(w, steps);
            && WorldOK(v) && Extends(w, v)
            && d + ["HEAD"] in v.ns && v.ns[d + ["HEAD"]].node.File?
            && d + ["config"] in v.ns && v.ns[d + ["config"]].node.File?
  {
    hide WorldOK, Apply, Allowed;
    var text := File(Text(None, Named(false, [])));
    var head, config := d + ["HEAD"], d + ["config"];
    assert Parent(head) == d && Parent(config) == d;
    assert head != config by { assert head[|d|] == "HEAD" && config[|d|] == "config" && "HEAD"[0] != "config"[0]; }
    Make(w, head, text, gs);
    var v := After(w, [Creating(head, text)]);
    Make(v, config, text, gs);
    RunsJoin(w, [Creating(head, text)], [Creating(config, text)], gs);
    steps := [Creating(head, text)] + [Creating(config, text)];
  }

  /** A lookup that comes to `p` goes on in the empty directory `d`. */
  ghost predicate Diverted(w: World, v: World, p: Path, d: Path) {
    && WorldOK(v) && Beside(w.ns, v.ns, p) && w.next <= v.next
    && p in w.ns && p in v.ns && IsDirectory(v.ns, d) && Childless(v.ns, d)
    && (if d == p then v.ns[p].id >= w.next || w.ns[p].node == Dir
        else v.ns[p].node == Link(d, true) && w.ns[p].node.Link? && v.ns[d].id >= w.next)
  }

  /** An object nobody holds is moved away and a directory made in its place. */
  lemma Replace(w: World, p: Path, gs: set<nat>) returns (steps: seq<Step>)
    requires WorldOK(w) && Alone(w, gs) && p != [] && p in w.ns && !Holds(w, gs, w.ns[p].id)
    ensures Legal(w, steps, gs) && Diverted(w, After(w, steps), p, p)
  {
    hide WorldOK, Apply, Allowed, Legal, After, Diverted, Childless, Spares, Alone, Holds;
    var move, f := MoveAway(w, gs, p);
    var v := Apply(w, move);
    OneRun(w, move, gs);
    InDirectory(w, p);
    assert !(p <= Parent(p));
    Make(v, p, Dir, gs);
    RunsJoin(w, [move], [Creating(p, Dir)], gs);
    steps := [move] + [Creating(p, Dir)];
    NextStays(w, move);
    Replaced(w, v, After(v, [Creating(p, Dir)]), p);
  }

  lemma Replaced(w: World, v: World, u: World, p: Path)
    requires p in w.ns && Cut(w.ns, v.ns, p) && w.next <= v.next
    requires WorldOK(u) && u == v.(ns := v.ns[p := Entry(v.next, Dir)], next := v.next + 1) && Childless(u.ns, p)
    ensures Diverted(w, u, p, p)
  {
    hide WorldOK, Childless;
  }

  lemma NextStays(w: World, step: Step)
    requires WorldOK(w) && Allowed(w, step)
    ensures w.next <= Apply(w, step).next
  {
    StepKeepsWorld(w, step);
  }

  lemma InDirectory(w: World, p: Path)
    requires WorldOK(w) && p != [] && p in w.ns
    ensures IsDirectory(w.ns, Parent(p)) && w.ns[p].id < w.next
  {
  }

  /** A link nobody keeps from being written is turned to a new directory. */
  lemma Retarget(w: World, p: Path, gs: set<nat>) returns (steps: seq<Step>, d: Path)
    requires WorldOK(w) && Alone(w, gs) && p != [] && p in w.ns && w.ns[p].node.Link? && !Denies(w, gs, w.ns[p].id, Write)
    ensures Legal(w, steps, gs) && d != p && Diverted(w, After(w, steps), p, d)
  {
    hide WorldOK, Apply, Allowed, Denies, Granted, Alone, Diverted, Legal, After, Childless, IsDirectory;
    var name := Fresh(w.ns, {});
    d := [name];
    assert Parent(d) == [];
    RootThere(w);
    Make(w, d, Dir, gs);
    var v := After(w, [Creating(d, Dir)]);
    AloneGranted(w, gs, w.ns[p].id, Write);
    NewRoot(w, v, p, d);
    StillGranted(w, v, w.ns[p].id);
    Turn(v, p, d, gs);
    Turned(w, v, After(v, [Rewriting(p, Link(d, true))]), p, d);
    RunsJoin(w, [Creating(d, Dir)], [Rewriting(p, Link(d, true))], gs);
    steps := [Creating(d, Dir)] + [Rewriting(p, Link(d, true))];
  }

  lemma NewRoot(w: World, v: World, p: Path, d: Path)
    requires p in w.ns && d !in w.ns && v == w.(ns := w.ns[d := Entry(w.next, Dir)], next := w.next + 1)
    ensures p in v.ns && v.ns[p] == w.ns[p] && d != p && IsDirectory(v.ns, d)
  {
  }

  lemma Turned(w: World, v: World, y: World, p: Path, d: Path)
    requires p != [] && p in w.ns && d !in w.ns && w.ns[p].node.Link?
    requires v == w.(ns := w.ns[d := Entry(w.next, Dir)], next := w.next + 1)
    requires WorldOK(y) && y == v.(ns := v.ns[p := Entry(w.ns[p].id, Link(d, true))]) && Childless(y.ns, d)
    ensures Diverted(w, y, p, d)
  {
    hide WorldOK, Childless;
  }

  lemma RootThere(w: World)
    requires WorldOK(w)
    ensures IsDirectory(w.ns, [])
  {
  }

  lemma StillGranted(w: World, v: World, id: nat)
    requires v.opens == w.opens && Granted(w, id, Write)
    ensures Granted(v, id, Write)
  {
  }

  lemma Turn(w: World, p: Path, d: Path, gs: set<nat>)
    requires WorldOK(w) && p != [] && p in w.ns && w.ns[p].node.Link? && Granted(w, w.ns[p].id, Write)
    requires d != p && IsDirectory(w.ns, d) && Childless(w.ns, d)
    ensures Legal(w, [Rewriting(p, Link(d, true))], gs)
    ensures var v := After(w, [Rewriting(p, Link(d, true))]);
            WorldOK(v) && v == w.(ns := w.ns[p := Entry(w.ns[p].id, Link(d, true))]) && Childless(v.ns, d)
  {
    OneRun(w, Rewriting(p, Link(d, true)), gs);
    StepKeepsWorld(w, Rewriting(p, Link(d, true)));
  }

  /** A name that is not kept, and is no file, can be made to lead to an empty directory. */
  lemma Divert(w: World, p: Path, gs: set<nat>) returns (steps: seq<Step>, d: Path)
    requires WorldOK(w) && p != [] && p in w.ns && !w.ns[p].node.File? && !Kept(w, gs, p)
    ensures Legal(w, steps, gs) && Diverted(w, After(w, steps), p, d)
  {
    hide WorldOK, Apply, Allowed;
    var shut := Shut(w, gs);
    var u := Apply(w, shut);
    OneRun(w, shut, gs);
    NextStays(w, shut);
    var more;
    if !Holds(u, gs, u.ns[p].id) {
      more := Replace(u, p, gs);
      d := p;
    } else if u.ns[p].node.Dir? {
      UnheldAfter(w, u, gs, p) by { assert !HeldChild(w, gs, p); }
      more := Empty(u, gs, p);
      NextAfter(u, more, gs);
      d := p;
    } else {
      more, d := Retarget(u, p, gs);
    }
    RunsJoin(w, [shut], more, gs);
    steps := [shut] + more;
  }

  lemma {:induction false} NextAfter(w: World, steps: seq<Step>, gs: set<nat>)
    requires WorldOK(w) && Legal(w, steps, gs)
    ensures w.next <= After(w, steps).next
    decreases |steps|
  {
    if steps != [] {
      StepKeepsWorld(w, steps[0]);
      NextAfter(Apply(w, steps[0]), steps[1..], gs);
    }
  }

  lemma FromRoot(w: World, d: Path, rest: seq<string>, left: nat)
    requires WorldOK(w) && IsDirectory(w.ns, d)
    ensures Walk(w.ns, [], d + rest, left).end == Walk(w.ns, d, rest, left).end
  {
    assert [] + d == d;
    WalkPlain(w, [], d, left);
    hide WorldOK;
    WalkAppend(w.ns, [], d, rest, left);
  }

  /** What a link to a plain directory leads to is looked up from there. */
  lemma ThroughLink(w: World, base: Path, d: Path, rest: seq<string>, left: nat)
    requires WorldOK(w) && IsDirectory(w.ns, d) && rest != [] && left > 0
    requires base + [rest[0]] in w.ns && w.ns[base + [rest[0]]].node == Link(d, true)
    ensures Walk(w.ns, base, rest, left).end == Walk(w.ns, d, rest[1..], left - 1).end
  {
    FromRoot(w, d, rest[1..], left - 1);
    hide WorldOK;
  }

  lemma FileIn(ns: map<Path, Entry>, n: Path, e: Path, part: string)
    requires Follow(ns, n).end == Some(e) && IsDirectory(ns, e) && e + [part] in ns && ns[e + [part]].node.File?
    ensures IsFile(ns, Follow(ns, n + [part]).end)
  {
    assert Parent(n + [part]) == n && (n + [part])[|n|] == part;
    FollowLast(ns, n + [part]);
    assert Walk(ns, e, [part], Follow(ns, n).fuel).end == Some(e + [part]);
  }

  /** Where a diverted lookup ends. */
  lemma DivertedEnd(w: World, v: World, y: World, p: Path, d: Path, n: Path)
    requires WorldOK(w) && WorldOK(y) && Diverted(w, v, p, d) && Extends(v, y) && p != []
    requires Follow(w.ns, n).end.Some? && p in Follow(w.ns, n).crossed
    requires var on := Onward(w.ns, p, [], n, MAX_LINKS); on.parts != [] && IsDirectory(y.ns, d + on.parts[1..])
    ensures Follow(y.ns, n).end == Some(d + Onward(w.ns, p, [], n, MAX_LINKS).parts[1..])
  {
    hide WorldOK;
    var on := Onward(w.ns, p, [], n, MAX_LINKS);
    assert !(p <= []);
    OnwardSame(w.ns, y.ns, p, [], n, MAX_LINKS);
    OnwardSame(w.ns, w.ns, p, [], n, MAX_LINKS);
    if d == p {
      DirectoryStep(y.ns, Parent(p), on.parts, on.fuel);
      WalkPlain(y, p, on.parts[1..], on.fuel);
    } else {
      LinksLeft(w.ns, Parent(p), on.parts, on.fuel);
      ThroughLink(y, Parent(p), d, on.parts, on.fuel);
      WalkPlain(y, d, on.parts[1..], on.fuel - 1);
    }
  }

  lemma LinksLeft(ns: map<Path, Entry>, base: Path, rest: seq<string>, left: nat)
    requires rest != [] && base + [rest[0]] in ns && ns[base + [rest[0]]].node.Link? && Walk(ns, base, rest, left).end.Some?
    ensures left > 0
  {
  }

  /** A directory that is a lookup's last name is its end. */
  lemma LastIsEnd(ns: map<Path, Entry>, p: Path, n: Path)
    requires IsDirectory(ns, p) && p != [] && p in Follow(ns, n).crossed && Follow(ns, n).end.Some? && Follow(ns, n).end != Some(p)
    ensures |Onward(ns, p, [], n, MAX_LINKS).parts| > 1
  {
    assert !(p <= []);
    OnwardSame(ns, ns, p, [], n, MAX_LINKS);
    var on := Onward(ns, p, [], n, MAX_LINKS);
    DirectoryStep(ns, Parent(p), on.parts, on.fuel);
  }

  /** A name on the way that is not kept, the way's end apart: a run that spares the
      holds makes the name reach another directory, with HEAD and config in it. */
  lemma UnkeptLands(w: World, gs: set<nat>, n: Path, p: Path, id: nat) returns (steps: seq<Step>)
    requires WorldOK(w) && Follow(w.ns, n).end.Some? && id < w.next
    requires p in Follow(w.ns, n).crossed && Follow(w.ns, n).end != Some(p) && !Kept(w, gs, p)
    ensures Legal(w, steps, gs) && LandsElsewhere(After(w, steps).ns, n, id)
  {
    hide WorldOK, Apply, Allowed, Kept, Follow, Walk, Onward, Diverted, Childless;
    CrossedThere(w, n, p);
    var on := Onward(w.ns, p, [], n, MAX_LINKS);
    assert on.parts != [] by { FirstPart(w.ns, p, n); }
    var tail := on.parts[1..];
    var turn, d := Divert(w, p, gs);
    var v := After(w, turn);
    DivertedEmpty(w, v, p, d);
    var make := Build(v, d, tail, gs);
    var x := After(v, make);
    var e := d + tail;
    assert x.ns[e].id != id by {
      if tail == [] {
        assert e == d;
        DivertedNew(w, v, p, d, n);
      }
    }
    var fill := Furnish(x, e, gs);
    var y := After(x, fill);
    DivertedEnd(w, v, y, p, d, n);
    FileIn(y.ns, n, e, "HEAD");
    FileIn(y.ns, n, e, "config");
    RunsJoin(v, make, fill, gs);
    RunsJoin(w, turn, make + fill, gs);
    steps := turn + (make + fill);
  }

  lemma DivertedEmpty(w: World, v: World, p: Path, d: Path)
    requires Diverted(w, v, p, d)
    ensures WorldOK(v) && IsDirectory(v.ns, d) && Childless(v.ns, d) && w.next <= v.next
  {
  }

  lemma DivertedNew(w: World, v: World, p: Path, d: Path, n: Path)
    requires Diverted(w, v, p, d) && p != [] && p in Follow(w.ns, n).crossed && Follow(w.ns, n).end.Some?
    requires Follow(w.ns, n).end != Some(p) && |Onward(w.ns, p, [], n, MAX_LINKS).parts| <= 1
    ensures d in v.ns && v.ns[d].id >= w.next
  {
    hide Follow, Onward, Walk;
    if w.ns[p].node == Dir { LastIsEnd(w.ns, p, n); }
  }

  lemma FirstPart(ns: map<Path, Entry>, p: Path, n: Path)
    requires p != [] && p in Follow(ns, n).crossed
    ensures Onward(ns, p, [], n, MAX_LINKS).parts != []
  {
    assert !(p <= []);
    OnwardSame(ns, ns, p, [], n, MAX_LINKS);
  }

  /** What a lookup crosses before its end is there, and is no file. */
  lemma CrossedThere(w: World, n: Path, p: Path)
    requires WorldOK(w) && p in Follow(w.ns, n).crossed && Follow(w.ns, n).end.Some? && Follow(w.ns, n).end != Some(p)
    ensures p != [] && p in w.ns && !w.ns[p].node.File?
  {
    WalkEndsInside(w, [], n, MAX_LINKS);
    if w.ns[p].node.File? { FileIsEnd(w.ns, p, [], n, MAX_LINKS); }
  }

  // ------------------------------------------------------------ exactly when it stays

  /** Nothing on the way to the name can be changed by the others. */
  ghost predicate WayKept(w: World, gs: set<nat>, name: Path) {
    forall p :: p in Follow(w.ns, name).crossed ==> Kept(w, gs, p)
  }

  lemma MoreKept(w: World, less: set<nat>, more: set<nat>, p: Path)
    requires less <= more && Kept(w, less, p)
    ensures Kept(w, more, p)
  {
  }

  /** What is kept all the way is reached as before. */
  lemma KeptReaches(w: World, gs: set<nat>, name: Path, id: nat, steps: seq<Step>)
    requires WorldOK(w) && WayKept(w, gs, name) && ReachesIdentity(w.ns, name, id) && Legal(w, steps, gs)
    ensures ReachesIdentity(After(w, steps).ns, name, id)
  {
    hide Walk;
    var c := Follow(w.ns, name).crossed;
    FollowInside(w, name);
    RunStands(w, steps, gs, c);
    CoveredAgrees(w.ns, After(w, steps).ns, c, name);
    EndInside(w, name);
    RootThere(w);
  }

  /** The directory the chain maps to is itself kept, or it is the drive root. */
  lemma BoundKeeps(s: State, b: Binding, g: Guard)
    requires StateOK(s) && Bound(s, b, g, true)
    ensures forall x :: x in s.w.ns && s.w.ns[x].id == b.commonId ==> x == [] || Kept(s.w, Grants(s), x)
  {
    hide MapsTo, Walk, Follow, PinsPlaced, Tight;
    ChainEnd(s.w, g.c, b) by { hide Fence; }
    forall x | x in g.c ensures Kept(s.w, Grants(s), x) {
      MoreKept(s.w, g.gs, Grants(s), x);
    }
  }

  /** Once the chain is pinned: no run of the others takes the recorded name away from
      the bound directory exactly when it leads there and its whole way is kept. If it
      leads there and does not stay, some run leads it to another directory that passes
      for a git directory; and if it is the directory's own name, it stays. */
  lemma StaysIffKept(s: State, b: Binding, g: Guard)
    requires StateOK(s) && Bound(s, b, g, true)
    ensures (forall steps :: Legal(s.w, steps, Grants(s)) ==> ReachesIdentity(After(s.w, steps).ns, b.common, b.commonId))
            <==> ReachesIdentity(s.w.ns, b.common, b.commonId) && WayKept(s.w, Grants(s), b.common)
    ensures ReachesIdentity(s.w.ns, b.common, b.commonId) && !WayKept(s.w, Grants(s), b.common)
            ==> exists steps :: Legal(s.w, steps, Grants(s)) && LandsElsewhere(After(s.w, steps).ns, b.common, b.commonId)
                                && MapsTo(After(s.w, steps).ns, g.c, b.anchor, b.commonId)
    ensures OwnName(s, b) ==> ReachesIdentity(s.w.ns, b.common, b.commonId) && WayKept(s.w, Grants(s), b.common)
  {
    hide StateOK, Bound, WorldOK, Walk, Follow, Kept, OwnName, Legal, MapsTo;
    StateWorlds(s, s);
    var gs := Grants(s);
    if ReachesIdentity(s.w.ns, b.common, b.commonId) {
      if WayKept(s.w, gs, b.common) {
        forall steps | Legal(s.w, steps, gs) ensures ReachesIdentity(After(s.w, steps).ns, b.common, b.commonId) {
          KeptReaches(s.w, gs, b.common, b.commonId, steps);
        }
      } else {
        var p :| p in Follow(s.w.ns, b.common).crossed && !Kept(s.w, gs, p);
        BoundKeeps(s, b, g);
        CrossedNamed(s.w, b.common, p);
        IdentityUsed(s.w, b.common, b.commonId);
        var steps := UnkeptLands(s.w, gs, b.common, p, b.commonId);
        LandedAway(After(s.w, steps).ns, b.common, b.commonId);
        StillMaps(s, b, g, steps);
      }
    } else {
      NoSteps(s.w, gs);
    }
    if OwnName(s, b) { OwnNameStays(s, b, g); }
  }

  /** The checkout maps to the bound directory through every run. */
  lemma StillMaps(s: State, b: Binding, g: Guard, steps: seq<Step>)
    requires StateOK(s) && Bound(s, b, g, true) && Legal(s.w, steps, Grants(s))
    ensures MapsTo(After(s.w, steps).ns, g.c, b.anchor, b.commonId)
  {
    hide MapsTo, Walk, Follow, PinsPlaced, Tight;
    forall x | x in g.c ensures Kept(s.w, Grants(s), x) {
      MoreKept(s.w, g.gs, Grants(s), x);
    }
    assert Fence(s.w, Grants(s), g.c);
    RunStands(s.w, steps, Grants(s), g.c);
    MapsAgrees(s.w, After(s.w, steps), g.c, b.anchor, b.commonId);
  }

  lemma CrossedNamed(w: World, n: Path, p: Path)
    requires WorldOK(w) && p in Follow(w.ns, n).crossed
    ensures p != [] && p in w.ns
  {
    WalkEndsInside(w, [], n, MAX_LINKS);
  }

  lemma IdentityUsed(w: World, n: Path, id: nat)
    requires WorldOK(w) && ReachesIdentity(w.ns, n, id)
    ensures id < w.next
  {
  }

  lemma LandedAway(ns: map<Path, Entry>, n: Path, id: nat)
    requires LandsElsewhere(ns, n, id)
    ensures !ReachesIdentity(ns, n, id)
  {
  }

  lemma OwnNameStays(s: State, b: Binding, g: Guard)
    requires StateOK(s) && Bound(s, b, g, true) && OwnName(s, b)
    ensures ReachesIdentity(s.w.ns, b.common, b.commonId) && WayKept(s.w, Grants(s), b.common)
  {
    hide MapsTo, Walk, Follow, PinsPlaced, Tight;
    OwnNameHomed(s, b, g);
    forall p | p in Follow(s.w.ns, b.common).crossed ensures Kept(s.w, Grants(s), p) {
      assert p in g.c;
      MoreKept(s.w, g.gs, Grants(s), p);
    }
  }
}
