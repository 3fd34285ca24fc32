// Looking a name up through links, and what a set of holds makes of it: a fence
// is a set of physical names, closed under parent, each held by an open that
// denies removal and kept from turning into something else. No allowed step of
// any other process changes a fenced name, so a lookup that crosses only fenced
// names always gives the same answer.
module Fences {
  import opened Options
  import opened Namespace

  /** The kernel's limit on links crossed by one lookup. */
  const MAX_LINKS: nat := 63

  /** The outcome of a lookup: the physical name of the object reached, the
      physical names crossed on the way, the links still allowed. */
  datatype Way = Way(end: Option<Path>, crossed: set<Path>, fuel: nat)

  function Walk(ns: map<Path, Entry>, base: Path, rest: seq<string>, fuel: nat): Way
    decreases fuel, |rest|
  {
    if rest == [] then Way(Some(base), {}, fuel)
    else
      var p := base + [rest[0]];
      if p !in ns then Way(None, {}, fuel)
      else
        match ns[p].node
        case Dir =>
          var way := Walk(ns, p, rest[1..], fuel);
          way.(crossed := way.crossed + {p})
        case File(_) => Way(if |rest| == 1 then Some(p) else None, {p}, fuel)
        case Link(target, _) =>
          if fuel == 0 then Way(None, {p}, 0)
          else
            var way := Walk(ns, [], target + rest[1..], fuel - 1);
            way.(crossed := way.crossed + {p})
  }

  /** The object a name reaches, crossing a final link too. */
  function Follow(ns: map<Path, Entry>, name: Path): Way {
    Walk(ns, [], name, MAX_LINKS)
  }

  predicate IsDirectory(ns: map<Path, Entry>, p: Path) {
    p in ns && ns[p].node == Dir
  }

  /** The object a name itself denotes: a final link is not crossed. */
  function NoFollow(ns: map<Path, Entry>, name: Path): Option<Path> {
    if name == [] then (if [] in ns then Some([]) else None)
    else
      match Follow(ns, Parent(name)).end
      case None => None
      case Some(d) =>
        var p := d + [name[|name| - 1]];
        if IsDirectory(ns, d) && p in ns then Some(p) else None
  }

  // ---------------------------------------------------------------- lookups

  lemma {:induction false} WalkEndsInside(w: World, base: Path, rest: seq<string>, fuel: nat)
    requires WorldOK(w) && base in w.ns
    ensures var way := Walk(w.ns, base, rest, fuel);
            && (forall p | p in way.crossed :: p != [] && p in w.ns)
            && (forall p | p in way.crossed :: Parent(p) == base || Parent(p) == [] || Parent(p) in way.crossed)
            && (way.end.Some? ==>
                  && way.end.value in w.ns
                  && (way.end.value == base || way.end.value == [] || way.end.value in way.crossed)
                  && (rest != [] ==> !w.ns[way.end.value].node.Link?))
            && way.fuel <= fuel
    decreases fuel, |rest|
  {
    if rest != [] {
      var p := base + [rest[0]];
      assert Parent(p) == base;
      if p in w.ns {
        match w.ns[p].node
        case Dir => WalkEndsInside(w, p, rest[1..], fuel);
        case File(_) =>
        case Link(target, _) =>
          if fuel > 0 {
            WalkEndsInside(w, [], target + rest[1..], fuel - 1);
            if target + rest[1..] == [] { assert Walk(w.ns, [], [], fuel - 1).end == Some([]); }
          }
      }
    }
  }

  /** A lookup to a directory and on from there is one lookup. */
  lemma {:induction false} WalkAppend(ns: map<Path, Entry>, base: Path, a: seq<string>, b: seq<string>, fuel: nat)
    requires Walk(ns, base, a, fuel).end.Some? && IsDirectory(ns, Walk(ns, base, a, fuel).end.value)
    ensures var first := Walk(ns, base, a, fuel);
            var then_ := Walk(ns, first.end.value, b, first.fuel);
            Walk(ns, base, a + b, fuel) == then_.(crossed := first.crossed + then_.crossed)
    decreases fuel, |a|
  {
    if a == [] {
      assert a + b == b;
    } else {
      var p := base + [a[0]];
      assert (a + b)[1..] == a[1..] + b;
      match ns[p].node
      case Dir => WalkAppend(ns, p, a[1..], b, fuel);
      case File(_) => assert false;
      case Link(target, _) =>
        assert target + (a[1..] + b) == (target + a[1..]) + b;
        WalkAppend(ns, [], target + a[1..], b, fuel - 1);
    }
  }

  /** More links allowed never changes a lookup that succeeds. */
  lemma {:induction false} WalkMoreFuel(ns: map<Path, Entry>, base: Path, rest: seq<string>, less: nat, more: nat)
    requires less <= more && Walk(ns, base, rest, less).end.Some?
    ensures var a, b := Walk(ns, base, rest, less), Walk(ns, base, rest, more);
            b.end == a.end && b.crossed == a.crossed
    decreases less, |rest|
  {
    if rest != [] {
      var p := base + [rest[0]];
      match ns[p].node
      case Dir => WalkMoreFuel(ns, p, rest[1..], less, more);
      case File(_) =>
      case Link(target, _) => WalkMoreFuel(ns, [], target + rest[1..], less - 1, more - 1);
    }
  }

  /** The names `c`, and the root, are the same in both. */
  ghost predicate Agree(a: map<Path, Entry>, b: map<Path, Entry>, c: set<Path>) {
    && (forall p :: p in c ==> p in a && p in b && a[p] == b[p])
    && ([] in a ==> [] in b && b[[]] == a[[]])
  }

  lemma AgreeTwice(a: map<Path, Entry>, b: map<Path, Entry>, c: map<Path, Entry>, names: set<Path>)
    requires Agree(a, b, names) && Agree(b, c, names)
    ensures Agree(a, c, names)
  {
  }

  lemma AgreeLess(a: map<Path, Entry>, b: map<Path, Entry>, less: set<Path>, more: set<Path>)
    requires less <= more && Agree(a, b, more)
    ensures Agree(a, b, less)
  {
  }

  /** A lookup depends only on the names it crosses. */
  lemma {:induction false} WalkAgrees(a: map<Path, Entry>, b: map<Path, Entry>, c: set<Path>,
                                      base: Path, rest: seq<string>, fuel: nat)
    requires Agree(a, b, c)
    requires Walk(a, base, rest, fuel).end.Some? && Walk(a, base, rest, fuel).crossed <= c
    ensures Walk(b, base, rest, fuel) == Walk(a, base, rest, fuel)
    decreases fuel, |rest|
  {
    if rest != [] {
      var p := base + [rest[0]];
      assert p in Walk(a, base, rest, fuel).crossed;
      match a[p].node
      case Dir => WalkAgrees(a, b, c, p, rest[1..], fuel);
      case File(_) =>
      case Link(target, _) => WalkAgrees(a, b, c, [], target + rest[1..], fuel - 1);
    }
  }

  // ---------------------------------------------------------------- fences

  /** Among the opens `gs`, one on the object denies `right` to all others. */
  ghost predicate Denies(w: World, gs: set<nat>, id: nat, right: Right) {
    exists g :: g in gs && g in w.opens && w.opens[g].id == id && right !in w.opens[g].share
  }

  /** The object's removal and renaming are denied. */
  ghost predicate Holds(w: World, gs: set<nat>, id: nat) {
    Denies(w, gs, id, Delete)
  }

  /** ... and writing it as well. */
  ghost predicate HoldsStrictly(w: World, gs: set<nat>, id: nat) {
    Holds(w, gs, id) && Denies(w, gs, id, Write)
  }

  ghost predicate HeldChild(w: World, gs: set<nat>, p: Path) {
    exists c :: c in w.ns && c != [] && Parent(c) == p && Holds(w, gs, w.ns[c].id)
  }

  /** The object at `p` can neither leave nor turn into something else. */
  ghost predicate Kept(w: World, gs: set<nat>, p: Path) {
    && p in w.ns
    && Holds(w, gs, w.ns[p].id)
    && (HoldsStrictly(w, gs, w.ns[p].id) || (w.ns[p].node == Dir && HeldChild(w, gs, p)))
  }

  ghost predicate Fence(w: World, gs: set<nat>, c: set<Path>) {
    forall p :: p in c ==> p != [] && (Parent(p) == [] || Parent(p) in c) && Kept(w, gs, p)
  }

  ghost predicate Spares(step: Step, gs: set<nat>) {
    step.Shutting? ==> step.grants !! gs
  }

  lemma HoldsAcross(w: World, step: Step, gs: set<nat>, id: nat)
    requires WorldOK(w) && Allowed(w, step) && Spares(step, gs)
    ensures Holds(w, gs, id) ==> Holds(Apply(w, step), gs, id) && !Granted(w, id, Delete)
    ensures HoldsStrictly(w, gs, id) ==> HoldsStrictly(Apply(w, step), gs, id) && !Granted(w, id, Write)
  {
    var w' := Apply(w, step);
    assert forall g :: g in gs && g in w.opens ==> g in w'.opens && w'.opens[g] == w.opens[g];
  }

  lemma {:induction false} FencedAbove(w: World, gs: set<nat>, c: set<Path>, p: Path, x: Path)
    requires Fence(w, gs, c) && p != [] && p <= x && x in c
    ensures p in c
    decreases |x|
  {
    PrefixOfParent(p, x);
    if p != x { FencedAbove(w, gs, c, p, Parent(x)); }
  }

  /** A held object whose parent is fenced, or is the root, stays at its name. */
  lemma HeldStays(w: World, step: Step, gs: set<nat>, c: set<Path>, x: Path)
    requires WorldOK(w) && Allowed(w, step) && Spares(step, gs) && Fence(w, gs, c)
    requires x != [] && x in w.ns && Holds(w, gs, w.ns[x].id)
    requires Parent(x) == [] || Parent(x) in c
    ensures x in Apply(w, step).ns && Apply(w, step).ns[x].id == w.ns[x].id
    ensures !step.Rewriting? ==> Apply(w, step).ns[x] == w.ns[x]
  {
    HoldsAcross(w, step, gs, w.ns[x].id);
    if step.Renaming? {
      var p, q := step.name, step.to;
      assert !(p <= x) by {
        PrefixOfParent(p, x);
        if p <= x && p != x {
          FencedAbove(w, gs, c, p, Parent(x));
          HoldsAcross(w, step, gs, w.ns[p].id);
        }
      }
      assert !(q <= x) by { if q <= x { PrefixInside(w, q, x); } }
      MovedAt(w.ns, p, q, x);
    }
  }

  lemma KeptAcross(w: World, step: Step, gs: set<nat>, c: set<Path>, p: Path)
    requires WorldOK(w) && Allowed(w, step) && Spares(step, gs) && Fence(w, gs, c) && p in c
    ensures p in Apply(w, step).ns && Apply(w, step).ns[p] == w.ns[p]
    ensures Kept(Apply(w, step), gs, p)
  {
    var w' := Apply(w, step);
    HeldStays(w, step, gs, c, p);
    HoldsAcross(w, step, gs, w.ns[p].id);
    if !HoldsStrictly(w, gs, w.ns[p].id) {
      var x :| x in w.ns && x != [] && Parent(x) == p && Holds(w, gs, w.ns[x].id);
      assert !Childless(w.ns, p);
      HeldStays(w, step, gs, c, x);
      HoldsAcross(w, step, gs, w.ns[x].id);
      assert x in w'.ns && Parent(x) == p;
    }
  }

  /** No allowed step that spares the holds changes a fenced name or breaks the fence. */
  lemma FenceStands(w: World, step: Step, gs: set<nat>, c: set<Path>)
    requires WorldOK(w) && Allowed(w, step) && Spares(step, gs) && Fence(w, gs, c)
    ensures Fence(Apply(w, step), gs, c) && Agree(w.ns, Apply(w, step).ns, c)
  {
    forall p | p in c
      ensures p in Apply(w, step).ns && Apply(w, step).ns[p] == w.ns[p] && Kept(Apply(w, step), gs, p)
    {
      KeptAcross(w, step, gs, c, p);
    }
    if step.Renaming? { MovedAt(w.ns, step.name, step.to, []); }
  }

  // ---------------------------------------------------------------- places

  /** The object stands, under this name, in the directory with this identity. */
  ghost predicate StandsAt(ns: map<Path, Entry>, p: Path, name: string, id: nat, dir: nat) {
    && p in ns && p != [] && p[|p| - 1] == name && ns[p].id == id
    && Parent(p) in ns && ns[Parent(p)].id == dir
  }

  ghost predicate Stands(ns: map<Path, Entry>, name: string, id: nat, dir: nat) {
    exists p :: StandsAt(ns, p, name, id, dir)
  }

  /** Where a name is after a renaming. */
  function Landed(a: Path, b: Path, x: Path): Path {
    if a <= x then b + x[|a|..] else x
  }

  lemma MovedName(w: World, a: Path, b: Path, x: Path)
    requires WorldOK(w) && Allowed(w, Renaming(a, b)) && x in w.ns
    ensures Landed(a, b, x) in Moved(w.ns, a, b) && Moved(w.ns, a, b)[Landed(a, b, x)] == w.ns[x]
  {
    MovedAt(w.ns, a, b, Landed(a, b, x));
    if a <= x {
      assert Landed(a, b, x)[|b|..] == x[|a|..] && a + x[|a|..] == x;
    } else if b <= x {
      PrefixInside(w, b, x);
    }
  }

  lemma RenamedStands(w: World, a: Path, b: Path, p: Path, name: string, id: nat, dir: nat)
    requires WorldOK(w) && Allowed(w, Renaming(a, b)) && StandsAt(w.ns, p, name, id, dir) && a != p
    ensures StandsAt(Moved(w.ns, a, b), Landed(a, b, p), name, id, dir)
  {
    hide WorldOK, Allowed, Moved;
    MovedName(w, a, b, p);
    MovedName(w, a, b, Parent(p));
    PrefixOfParent(a, p);
    if a <= p {
      assert b + Parent(p)[|a|..] == Parent(b + p[|a|..]);
    }
  }

  /** An object whose removal someone denies keeps its name in its directory, wherever
      the directory goes. */
  lemma StandsStill(w: World, step: Step, name: string, id: nat, dir: nat)
    requires WorldOK(w) && Allowed(w, step) && Stands(w.ns, name, id, dir) && !Granted(w, id, Delete)
    ensures Stands(Apply(w, step).ns, name, id, dir)
  {
    hide WorldOK, Moved;
    var p :| StandsAt(w.ns, p, name, id, dir);
    if step.Renaming? {
      assert step == Renaming(step.name, step.to);
      RenamedStands(w, step.name, step.to, p, name, id, dir);
      assert StandsAt(Apply(w, step).ns, Landed(step.name, step.to, p), name, id, dir);
    } else {
      assert !(step.Removing? && step.name == Parent(p));
      assert StandsAt(Apply(w, step).ns, p, name, id, dir);
    }
  }
}
