// The machine the lease runs on: a tree of names over identified objects, the
// opens every process has on those objects, and the steps any process may take.
// The share rule decides each step: an open, a removal, a renaming or a rewrite
// is allowed exactly when every live open of the object grants it.
module Namespace {
  import opened Options

  /** An absolute, normalized name: the components below the drive root. */
  type Path = seq<string>

  /** A name as a pointer file spells it, before it is joined to a directory. */
  datatype Named = Named(absolute: bool, parts: seq<string>)

  /** What a text file says: the name after `gitdir:` when it starts so, and the
      whole stripped text read as a name. */
  datatype Text = Text(pointer: Option<Named>, bare: Named)

  datatype Node = Dir | File(text: Text) | Link(target: Path, directory: bool)

  datatype Entry = Entry(id: nat, node: Node)

  datatype Right = Read | Write | Delete

  datatype Open = Open(id: nat, access: set<Right>, share: set<Right>)

  const SHARE_ALL: set<Right> := {Read, Write, Delete}

  /** `ns` maps physical names to objects, `opens` maps each kernel open to the
      object it is on; `next` is above every identity ever given out. */
  datatype World = World(ns: map<Path, Entry>, opens: map<nat, Open>, next: nat)

  function Parent(p: Path): Path
    requires p != []
  {
    p[..|p| - 1]
  }

  ghost predicate WorldOK(w: World) {
    && [] in w.ns && w.ns[[]].node == Dir
    && (forall p :: p in w.ns && p != [] ==> Parent(p) in w.ns && w.ns[Parent(p)].node == Dir)
    && (forall p, q :: p in w.ns && q in w.ns && w.ns[p].id == w.ns[q].id ==> p == q)
    && (forall p :: p in w.ns ==> w.ns[p].id < w.next)
    && (forall g :: g in w.opens ==> g < w.next)
  }

  // ---------------------------------------------------------------- steps

  datatype Step =
    | Opening(open: Open)
    | Shutting(grants: set<nat>)
    | Creating(name: Path, node: Node)
    | Removing(name: Path)
    | Renaming(name: Path, to: Path)
    | Rewriting(name: Path, node: Node)

  /** Two opens of one object may coexist iff each one's access lies in the
      other's share. */
  predicate Compatible(a: Open, b: Open) {
    a.access <= b.share && b.access <= a.share
  }

  /** Every live open of the object grants `right` to others. */
  predicate Granted(w: World, id: nat, right: Right) {
    forall g | g in w.opens :: w.opens[g].id == id ==> right in w.opens[g].share
  }

  predicate Childless(ns: map<Path, Entry>, p: Path) {
    forall c | c in ns :: c != [] ==> Parent(c) != p
  }

  predicate Allowed(w: World, step: Step) {
    match step
    case Opening(o) =>
      && (exists p | p in w.ns :: w.ns[p].id == o.id)
      && (forall g | g in w.opens :: w.opens[g].id == o.id ==> Compatible(w.opens[g], o))
    case Shutting(gs) => true
    case Creating(p, _) =>
      p != [] && p !in w.ns && Parent(p) in w.ns && w.ns[Parent(p)].node == Dir
    case Removing(p) =>
      p != [] && p in w.ns && Childless(w.ns, p) && Granted(w, w.ns[p].id, Delete)
    case Renaming(p, q) =>
      && p != [] && p in w.ns && Granted(w, w.ns[p].id, Delete)
      && q != [] && q !in w.ns && !(p <= q) && Parent(q) in w.ns && w.ns[Parent(q)].node == Dir
    case Rewriting(p, node) =>
      && p != [] && p in w.ns && Granted(w, w.ns[p].id, Write)
      && match w.ns[p].node {
           case File(_) => node.File?
           case Link(_, _) => !node.File?
           case Dir => node.Link? && Childless(w.ns, p)
         }
  }

  /** The tree at `p` moved, whole, to the absent name `q`. */
  function Moved(ns: map<Path, Entry>, p: Path, q: Path): map<Path, Entry> {
    var landed := set x | x in ns && p <= x :: q + x[|p|..];
    (map x | x in ns && !(p <= x) :: ns[x]) +
    (map y | y in landed && q <= y && p + y[|q|..] in ns :: ns[p + y[|q|..]])
  }

  function Apply(w: World, step: Step): World {
    match step
    case Opening(o) => w.(opens := w.opens[w.next := o], next := w.next + 1)
    case Shutting(gs) => w.(opens := w.opens - gs)
    case Creating(p, node) => w.(ns := w.ns[p := Entry(w.next, node)], next := w.next + 1)
    case Removing(p) => w.(ns := w.ns - {p})
    case Renaming(p, q) => w.(ns := Moved(w.ns, p, q))
    case Rewriting(p, node) =>
      if p in w.ns then w.(ns := w.ns[p := w.ns[p].(node := node)]) else w
  }

  lemma {:induction false} PrefixInside(w: World, p: Path, x: Path)
    requires WorldOK(w) && x in w.ns && p <= x
    ensures p in w.ns && (p != x ==> w.ns[p].node == Dir)
    decreases |x|
  {
    if p != x {
      assert Parent(x) in w.ns;
      PrefixInside(w, p, Parent(x));
    }
  }

  lemma MovedAt(ns: map<Path, Entry>, p: Path, q: Path, y: Path)
    ensures y in Moved(ns, p, q) <==> (y in ns && !(p <= y)) || (q <= y && p + y[|q|..] in ns)
    ensures q <= y && p + y[|q|..] in ns ==> Moved(ns, p, q)[y] == ns[p + y[|q|..]]
    ensures y in ns && !(p <= y) && !(q <= y) ==> Moved(ns, p, q)[y] == ns[y]
  {
    if q <= y && p + y[|q|..] in ns {
      var x := p + y[|q|..];
      assert p <= x && x[|p|..] == y[|q|..] && y == q + x[|p|..];
    }
  }

  /** Every allowed step leaves a well-formed tree. */
  lemma StepKeepsWorld(w: World, step: Step)
    requires WorldOK(w) && Allowed(w, step)
    ensures WorldOK(Apply(w, step))
    ensures w.next <= Apply(w, step).next
  {
    var w' := Apply(w, step);
    match step
    case Renaming(p, q) => RenamingKeepsWorld(w, p, q);
    case Removing(p) =>
      forall x | x in w'.ns && x != [] ensures Parent(x) in w'.ns {}
    case _ =>
  }

  /** Where the object at `y` after a renaming stood before it. */
  function Source(p: Path, q: Path, y: Path): Path {
    if q <= y then p + y[|q|..] else y
  }

  lemma MovedFrom(w: World, p: Path, q: Path, y: Path)
    requires WorldOK(w) && Allowed(w, Renaming(p, q)) && y in Moved(w.ns, p, q)
    ensures Source(p, q, y) in w.ns && Moved(w.ns, p, q)[y] == w.ns[Source(p, q, y)]
    ensures q <= y || !(p <= y)
  {
    MovedAt(w.ns, p, q, y);
    if q <= y && p + y[|q|..] !in w.ns {
      PrefixInside(w, q, y);
    }
  }

  lemma PrefixOfParent(q: Path, y: Path)
    requires y != []
    ensures q <= y <==> q == y || q <= Parent(y)
    ensures q <= Parent(y) ==> q + Parent(y)[|q|..] == Parent(y) && Parent(y)[|q|..] == Parent(y[|q|..])
  {
  }

  lemma SourceOfParent(p: Path, q: Path, y: Path)
    requires y != [] && y != q
    ensures Source(p, q, Parent(y)) == if q <= y then Parent(Source(p, q, y)) else Parent(y)
    ensures q <= y <==> q <= Parent(y)
    ensures q <= y ==> Source(p, q, y) != [] && Source(p, q, y) != p
  {
  }

  lemma RenamedParent(w: World, p: Path, q: Path, y: Path)
    requires WorldOK(w) && Allowed(w, Renaming(p, q)) && y in Moved(w.ns, p, q) && y != []
    ensures Parent(y) in Moved(w.ns, p, q) && Moved(w.ns, p, q)[Parent(y)].node == Dir
  {
    MovedFrom(w, p, q, y);
    MovedAt(w.ns, p, q, Parent(y));
    PrefixOfParent(p, y);
    if y == q {
      PrefixOfParent(p, q);
    } else {
      SourceOfParent(p, q, y);
    }
  }

  lemma RenamedUnique(w: World, p: Path, q: Path, y: Path, z: Path)
    requires WorldOK(w) && Allowed(w, Renaming(p, q))
    requires y in Moved(w.ns, p, q) && z in Moved(w.ns, p, q)
    requires Moved(w.ns, p, q)[y].id == Moved(w.ns, p, q)[z].id
    ensures y == z
  {
    MovedFrom(w, p, q, y);
    MovedFrom(w, p, q, z);
    assert Source(p, q, y) == Source(p, q, z);
    if q <= y && q <= z {
      assert y == q + Source(p, q, y)[|p|..] && z == q + Source(p, q, z)[|p|..];
    }
  }

  lemma RenamingKeepsWorld(w: World, p: Path, q: Path)
    requires WorldOK(w) && Allowed(w, Renaming(p, q))
    ensures WorldOK(Apply(w, Renaming(p, q)))
  {
    var ns' := Moved(w.ns, p, q);
    assert [] in ns' && ns'[[]].node == Dir by { MovedAt(w.ns, p, q, []); }
    forall y | y in ns' && y != [] ensures Parent(y) in ns' && ns'[Parent(y)].node == Dir {
      RenamedParent(w, p, q, y);
    }
    forall y, z | y in ns' && z in ns' && ns'[y].id == ns'[z].id ensures y == z {
      RenamedUnique(w, p, q, y, z);
    }
    forall y | y in ns' ensures ns'[y].id < w.next {
      MovedFrom(w, p, q, y);
    }
  }
}
