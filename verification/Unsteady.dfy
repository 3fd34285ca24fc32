// Between reading the common directory's name and pinning it, the name may pass to
// another directory: every check of the acquisition still holds, for the pointer
// file now names the first directory where it went, and the lease lands elsewhere.
// The run is followed to its end, with the pins and the lease open.
module UnsteadyNames {
  import opened Options
  import opened Namespace
  import opened Fences
  import opened Mapping
  import opened Strands
  import opened Kernels
  import opened Cleanup
  import opened Guards
  import opened PinFacts
  import opened Bindings
  import opened LeaseOpens
  import opened Stability

  const REPO: Path := ["r"]
  const PRIVATE: Path := ["r", ".git"]
  const FILE: Path := ["r", ".git", "commondir"]
  const COMMON: Path := ["c"]
  const HEAD: Path := ["c", "HEAD"]
  const CONFIG: Path := ["c", "config"]
  const MOVED: Path := ["old"]

  function Naming(name: string): Node {
    File(Text(None, Named(true, [name])))
  }

  /** The two opens are the share-all probes an acquisition has by then. */
  ghost function Before(): World {
    World(map[[] := Entry(0, Dir), REPO := Entry(1, Dir), PRIVATE := Entry(2, Dir), FILE := Entry(3, Naming("c")),
              COMMON := Entry(4, Dir)],
          map[5 := PROBE1, 6 := PROBE4], 7)
  }

  ghost function Away(): World {
    World(map[[] := Entry(0, Dir), REPO := Entry(1, Dir), PRIVATE := Entry(2, Dir), FILE := Entry(3, Naming("c")),
              MOVED := Entry(4, Dir)],
          Before().opens, 7)
  }

  /** The four steps that follow: a new directory under the old name, and the pointer
      file sent after the old one. */
  function Later(): seq<Step> {
    [Creating(COMMON, Dir), Creating(HEAD, Naming("x")), Creating(CONFIG, Naming("x")),
     Rewriting(FILE, Naming("old"))]
  }

  function Steps(): seq<Step> {
    [Renaming(COMMON, MOVED)] + Later()
  }

  /** Renaming an object with nothing below it moves that one entry. */
  lemma LeafMoved(ns: map<Path, Entry>, p: Path, q: Path)
    requires p in ns && (forall x :: x in ns && p <= x ==> x == p) && (forall x :: x in ns ==> !(q <= x))
    ensures Moved(ns, p, q) == (ns - {p})[q := ns[p]]
  {
    var after := (ns - {p})[q := ns[p]];
    forall y ensures y in Moved(ns, p, q) <==> y in after {
      MovedAt(ns, p, q, y);
      if q <= y { assert y == q + y[|q|..] && p <= p + y[|q|..]; }
      if y == q { assert p + y[|q|..] == p; }
    }
    forall y | y in after ensures Moved(ns, p, q)[y] == after[y] {
      MovedAt(ns, p, q, y);
      if y == q { assert p + y[|q|..] == p; }
    }
  }

  lemma NamesBefore()
    ensures forall x :: x in Before().ns && x != [] && x != COMMON ==> x[0] == "r"
    ensures COMMON in Before().ns && Before().ns[COMMON] == Entry(4, Dir) && Granted(Before(), 4, Delete)
    ensures [] in Before().ns && Before().ns[[]].node == Dir
  {
  }

  lemma Renamed()
    ensures Allowed(Before(), Renaming(COMMON, MOVED)) && Apply(Before(), Renaming(COMMON, MOVED)) == Away()
  {
    NamesBefore();
    assert Parent(MOVED) == [] && "c"[0] == 'c' && "old"[0] == 'o' && "r"[0] == 'r';
    assert Apply(Before(), Renaming(COMMON, MOVED)) == Away() by {
      assert (Before().ns - {COMMON})[MOVED := Entry(4, Dir)] == Away().ns;
      LeafMoved(Before().ns, COMMON, MOVED) by { hide Before; }
    }
    assert Allowed(Before(), Renaming(COMMON, MOVED)) by { hide Before; }
  }

  ghost function NameOf(id: nat): Path {
    if id == 0 then [] else if id == 1 then REPO else if id == 2 then PRIVATE else if id == 3 then FILE else COMMON
  }

  lemma OneNameEach()
    ensures forall p :: p in Before().ns ==> p == NameOf(Before().ns[p].id) && Before().ns[p].id < 7
  {
  }

  lemma ParentsThere()
    ensures forall p :: p in Before().ns && p != [] ==> Parent(p) in Before().ns && Before().ns[Parent(p)].node == Dir
    ensures [] in Before().ns && Before().ns[[]].node == Dir
  {
    assert Parent(REPO) == [] && Parent(PRIVATE) == REPO && Parent(FILE) == PRIVATE && Parent(COMMON) == [];
  }

  lemma BeforeOK()
    ensures WorldOK(Before()) && WorldOK(Away())
  {
    assert WorldOK(Before()) by {
      OneNameEach();
      ParentsThere();
      hide NameOf;
    }
    Renamed();
    StepKeepsWorld(Before(), Renaming(COMMON, MOVED));
  }

  /** What the later steps find and leave, in any world of this shape. */
  lemma LaterLegal(w: World, gs: set<nat>)
    requires WorldOK(w) && COMMON !in w.ns && HEAD !in w.ns && CONFIG !in w.ns
    requires FILE in w.ns && w.ns[FILE].node.File? && Granted(w, w.ns[FILE].id, Write) && w.ns[FILE].id < w.next
    ensures Legal(w, Later(), gs)
    ensures var v := After(w, Later());
            && WorldOK(v) && v.opens == w.opens && v.next == w.next + 3
            && v.ns == w.ns[COMMON := Entry(w.next, Dir)][HEAD := Entry(w.next + 1, Naming("x"))]
                           [CONFIG := Entry(w.next + 2, Naming("x"))][FILE := Entry(w.ns[FILE].id, Naming("old"))]
  {
    hide Naming, WorldOK, Apply, Allowed, Granted, Legal, After;
    var s := Later();
    FileApart();
    var c := MakeHome(w);
    SameGrants(w, c, w.ns[FILE].id);
    NamingIsFile("old");
    Rewrites(c, FILE, Naming("old"));
    FourSteps(w, s[0], s[1], s[2], s[3], gs);
  }

  /** The new directory, with what makes it look like a git directory. */
  lemma MakeHome(w: World) returns (c: World)
    requires WorldOK(w) && COMMON !in w.ns && HEAD !in w.ns && CONFIG !in w.ns
    ensures var s := Later();
            && Allowed(w, s[0]) && Allowed(Apply(w, s[0]), s[1]) && Allowed(Apply(Apply(w, s[0]), s[1]), s[2])
            && c == Apply(Apply(Apply(w, s[0]), s[1]), s[2])
    ensures WorldOK(c) && c.opens == w.opens && c.next == w.next + 3
    ensures c.ns == w.ns[COMMON := Entry(w.next, Dir)][HEAD := Entry(w.next + 1, Naming("x"))][CONFIG := Entry(w.next + 2, Naming("x"))]
  {
    hide Naming, WorldOK, Apply, Allowed;
    var s := Later();
    FileApart();
    RootIn(w);
    Make(w, COMMON, Dir);
    var a := Apply(w, s[0]);
    Make(a, HEAD, Naming("x"));
    var b := Apply(a, s[1]);
    Make(b, CONFIG, Naming("x"));
    c := Apply(b, s[2]);
  }

  lemma FourSteps(w: World, p: Step, q: Step, r: Step, t: Step, gs: set<nat>)
    requires !p.Shutting? && !q.Shutting? && !r.Shutting? && !t.Shutting?
    requires Allowed(w, p) && Allowed(Apply(w, p), q) && Allowed(Apply(Apply(w, p), q), r)
    requires Allowed(Apply(Apply(Apply(w, p), q), r), t)
    ensures Legal(w, [p, q, r, t], gs)
    ensures After(w, [p, q, r, t]) == Apply(Apply(Apply(Apply(w, p), q), r), t)
  {
    hide Allowed, Apply;
    OneRun(Apply(Apply(Apply(w, p), q), r), t, gs);
    Front(Apply(Apply(w, p), q), r, [t], gs);
    Front(Apply(w, p), q, [r, t], gs);
    Front(w, p, [q, r, t], gs);
    assert [p] + [q, r, t] == [p, q, r, t] && [q] + [r, t] == [q, r, t] && [r] + [t] == [r, t];
  }

  lemma FileApart()
    ensures FILE != COMMON && FILE != HEAD && FILE != CONFIG && HEAD != CONFIG && COMMON != HEAD && COMMON != CONFIG
    ensures Parent(COMMON) == [] && Parent(HEAD) == COMMON && Parent(CONFIG) == COMMON && HEAD != [] && CONFIG != []
  {
  }

  lemma RootIn(w: World)
    requires WorldOK(w)
    ensures [] in w.ns && w.ns[[]].node == Dir
  {
  }

  lemma Make(w: World, p: Path, node: Node)
    requires WorldOK(w) && p != [] && p !in w.ns && Parent(p) in w.ns && w.ns[Parent(p)].node == Dir
    ensures var v := Apply(w, Creating(p, node));
            && Allowed(w, Creating(p, node)) && WorldOK(v) && v == w.(ns := w.ns[p := Entry(w.next, node)], next := w.next + 1)
  {
    StepKeepsWorld(w, Creating(p, node));
  }

  lemma Rewrites(w: World, p: Path, node: Node)
    requires WorldOK(w) && p != [] && p in w.ns && w.ns[p].node.File? && node.File? && Granted(w, w.ns[p].id, Write)
    ensures var v := Apply(w, Rewriting(p, node));
            && Allowed(w, Rewriting(p, node)) && WorldOK(v) && v == w.(ns := w.ns[p := w.ns[p].(node := node)])
  {
    StepKeepsWorld(w, Rewriting(p, node));
  }

  lemma SameGrants(w: World, v: World, id: nat)
    requires v.opens == w.opens && Granted(w, id, Write)
    ensures Granted(v, id, Write)
  {
  }

  lemma NamingIsFile(name: string)
    ensures Naming(name).File?
  {
  }

  lemma Front(w: World, step: Step, rest: seq<Step>, gs: set<nat>)
    requires Allowed(w, step) && Spares(step, gs) && Legal(Apply(w, step), rest, gs)
    ensures Legal(w, [step] + rest, gs) && After(w, [step] + rest) == After(Apply(w, step), rest)
  {
  }

  /** A checkout of this shape maps to what its `commondir` file names. */
  lemma Reads(w: World, name: string)
    requires WorldOK(w) && PRIVATE in w.ns && w.ns[PRIVATE].node == Dir && FILE in w.ns && w.ns[FILE].node == Naming(name)
    requires name !in {"", ".", ".."} && [name] in w.ns && w.ns[[name]].node == Dir && REPO in w.ns && w.ns[REPO].node == Dir
    ensures Resolve(w.ns, REPO).name == Some([name]) && Resolve(w.ns, REPO).named
    ensures ReachesIdentity(w.ns, REPO, w.ns[REPO].id) && ReachesIdentity(w.ns, [name], w.ns[[name]].id)
  {
    hide Walk, Follow, NoFollow, WorldOK;
    PlainFollow(w, REPO);
    PlainFollow(w, PRIVATE);
    PlainFollow(w, [name]);
    assert REPO + [GIT] == PRIVATE && PRIVATE + [COMMONDIR] == FILE;
    PlainName(w, PRIVATE);
    PlainFile(w, FILE);
    assert [name][1..] == [] && Normal([], [name]) == Normal([] + [name], []) && [] + [name] == [name];
  }

  lemma AwayReady()
    ensures var w := Away();
            && COMMON !in w.ns && HEAD !in w.ns && CONFIG !in w.ns
            && FILE in w.ns && w.ns[FILE].node.File? && Granted(w, w.ns[FILE].id, Write) && w.ns[FILE].id < w.next
  {
  }

  // ------------------------------------------------------------ the acquisition goes on

  const PLACE: Path := ["c", LEASE]

  const EMPTY := File(Text(None, Named(false, [])))

  const PROBE1 := Open(1, {}, SHARE_ALL)
  const PROBE4 := Open(4, {}, SHARE_ALL)
  const LEASE_OPEN := Open(17, {Read, Write}, {Read})

  function Strict(id: nat): Open {
    Open(id, {Read}, {Read})
  }

  function Loose(id: nat): Open {
    Open(id, {Read}, {Read, Write})
  }

  /** The names the process goes by from here on, with the objects they denote. */
  ghost predicate Shape(ns: map<Path, Entry>) {
    && REPO in ns && ns[REPO] == Entry(1, Dir) && PRIVATE in ns && ns[PRIVATE] == Entry(2, Dir)
    && FILE in ns && ns[FILE] == Entry(3, Naming("old")) && MOVED in ns && ns[MOVED] == Entry(4, Dir)
    && COMMON in ns && ns[COMMON] == Entry(7, Dir)
  }

  /** The chain pinned. */
  function Pinning(): seq<Step> {
    [Opening(Strict(1)), Opening(Strict(2)), Opening(Strict(3)), Opening(Strict(4))]
  }

  /** The two parents among it loosened. */
  function Loosening(): seq<Step> {
    [Opening(Loose(1)), Shutting({10}), Opening(Loose(2)), Shutting({11})]
  }

  /** An open that goes with every open of its object. */
  lemma Takes(w: World, done: seq<Step>, at: World, p: Path, o: Open)
    requires Legal(w, done, {}) && At(w, done, at)
    requires p in at.ns && at.ns[p].id == o.id
    requires forall g :: g in at.opens && at.opens[g].id == o.id ==> Compatible(at.opens[g], o)
    ensures Legal(w, done + [Opening(o)], {})
    ensures At(w, done + [Opening(o)], at.(opens := at.opens[at.next := o], next := at.next + 1))
  {
    StepKeepsWorld(at, Opening(o));
    OneMore(w, done, Opening(o), {});
  }

  ghost predicate At(w: World, done: seq<Step>, at: World) {
    After(w, done) == at && WorldOK(at)
  }

  lemma LetsGo(w: World, done: seq<Step>, at: World, gs: set<nat>)
    requires Legal(w, done, {}) && At(w, done, at)
    ensures Legal(w, done + [Shutting(gs)], {}) && At(w, done + [Shutting(gs)], at.(opens := at.opens - gs))
  {
    StepKeepsWorld(at, Shutting(gs));
    OneMore(w, done, Shutting(gs), {});
  }

  lemma NothingYet(w: World)
    requires WorldOK(w)
    ensures Legal(w, [], {}) && At(w, [], w)
  {
  }

  lemma PinningRuns(w: World)
    requires WorldOK(w) && Shape(w.ns) && w.opens == map[5 := PROBE1, 6 := PROBE4] && w.next == 10
    ensures Legal(w, Pinning(), {})
    ensures At(w, Pinning(), World(w.ns, map[5 := PROBE1, 6 := PROBE4, 10 := Strict(1), 11 := Strict(2),
                                             12 := Strict(3), 13 := Strict(4)], 14))
  {
    hide WorldOK, After, Legal, At;
    NothingYet(w);
    var s := Pinning();
    var done, o := [], w.opens;
    Takes(w, done, World(w.ns, o, 10), REPO, Strict(1));
    done, o := done + [s[0]], o[10 := Strict(1)];
    Takes(w, done, World(w.ns, o, 11), PRIVATE, Strict(2));
    done, o := done + [s[1]], o[11 := Strict(2)];
    Takes(w, done, World(w.ns, o, 12), FILE, Strict(3));
    done, o := done + [s[2]], o[12 := Strict(3)];
    Takes(w, done, World(w.ns, o, 13), MOVED, Strict(4));
    assert done + [s[3]] == s;
  }

  lemma LooseningRuns(w: World)
    requires WorldOK(w) && Shape(w.ns) && w.next == 14
    requires w.opens == map[5 := PROBE1, 6 := PROBE4, 10 := Strict(1), 11 := Strict(2), 12 := Strict(3), 13 := Strict(4)]
    ensures Legal(w, Loosening(), {})
    ensures At(w, Loosening(), World(w.ns, map[5 := PROBE1, 6 := PROBE4, 12 := Strict(3), 13 := Strict(4),
                                               14 := Loose(1), 15 := Loose(2)], 16))
  {
    hide WorldOK, After, Legal, At;
    NothingYet(w);
    var s := Loosening();
    var done, o := [], w.opens;
    Takes(w, done, World(w.ns, o, 14), REPO, Loose(1));
    done, o := done + [s[0]], o[14 := Loose(1)];
    LetsGo(w, done, World(w.ns, o, 15), {10});
    done, o := done + [s[1]], o - {10};
    Takes(w, done, World(w.ns, o, 15), PRIVATE, Loose(2));
    done, o := done + [s[2]], o[15 := Loose(2)];
    LetsGo(w, done, World(w.ns, o, 16), {11});
    assert done + [s[3]] == s;
    assert o - {11} == map[5 := PROBE1, 6 := PROBE4, 12 := Strict(3), 13 := Strict(4), 14 := Loose(1), 15 := Loose(2)];
  }

  /** The common directory's name pinned, the repository's handle let go, the lease file
      made and opened. */
  function Leasing(): seq<Step> {
    [Opening(Strict(7)), Shutting({5}), Creating(PLACE, EMPTY), Opening(LEASE_OPEN)]
  }

  /** The name's pin loosened, the directory's handle let go. */
  function Settling(): seq<Step> {
    [Opening(Loose(7)), Shutting({16}), Shutting({6})]
  }

  function Taken(): map<nat, Open> {
    map[12 := Strict(3), 13 := Strict(4), 14 := Loose(1), 15 := Loose(2), 18 := LEASE_OPEN, 19 := Loose(7)]
  }

  lemma LeasingRuns(w: World)
    requires WorldOK(w) && Shape(w.ns) && PLACE !in w.ns && w.next == 16
    requires w.opens == map[5 := PROBE1, 6 := PROBE4, 12 := Strict(3), 13 := Strict(4), 14 := Loose(1), 15 := Loose(2)]
    ensures Legal(w, Leasing(), {})
    ensures At(w, Leasing(), World(w.ns[PLACE := Entry(17, EMPTY)],
                                   map[6 := PROBE4, 12 := Strict(3), 13 := Strict(4), 14 := Loose(1), 15 := Loose(2),
                                       16 := Strict(7), 18 := LEASE_OPEN], 19))
  {
    hide WorldOK, After, Legal, At;
    NothingYet(w);
    var s := Leasing();
    var done, o := [], w.opens;
    Takes(w, done, World(w.ns, o, 16), COMMON, Strict(7));
    done, o := done + [s[0]], o[16 := Strict(7)];
    LetsGo(w, done, World(w.ns, o, 17), {5});
    done, o := done + [s[1]], o - {5};
    Makes(w, done, World(w.ns, o, 17), PLACE, EMPTY) by { assert Parent(PLACE) == COMMON; }
    done := done + [s[2]];
    var ns := w.ns[PLACE := Entry(17, EMPTY)];
    Takes(w, done, World(ns, o, 18), PLACE, LEASE_OPEN);
    assert done + [s[3]] == s;
    assert o[18 := LEASE_OPEN] == map[6 := PROBE4, 12 := Strict(3), 13 := Strict(4), 14 := Loose(1), 15 := Loose(2),
                                      16 := Strict(7), 18 := LEASE_OPEN];
  }

  lemma SettlingRuns(w: World)
    requires WorldOK(w) && COMMON in w.ns && w.ns[COMMON] == Entry(7, Dir) && w.next == 19
    requires w.opens == map[6 := PROBE4, 12 := Strict(3), 13 := Strict(4), 14 := Loose(1), 15 := Loose(2),
                            16 := Strict(7), 18 := LEASE_OPEN]
    ensures Legal(w, Settling(), {}) && At(w, Settling(), World(w.ns, Taken(), 20))
  {
    hide WorldOK, After, Legal, At;
    NothingYet(w);
    var s := Settling();
    var done, o := [], w.opens;
    Takes(w, done, World(w.ns, o, 19), COMMON, Loose(7));
    done, o := done + [s[0]], o[19 := Loose(7)];
    LetsGo(w, done, World(w.ns, o, 20), {16});
    done, o := done + [s[1]], o - {16};
    LetsGo(w, done, World(w.ns, o, 20), {6});
    assert done + [s[2]] == s;
    assert o - {6} == Taken();
  }

  /** The process's own steps. */
  function Own(): seq<Step> {
    Pinning() + Loosening() + Leasing() + Settling()
  }

  lemma Makes(w: World, done: seq<Step>, at: World, p: Path, node: Node)
    requires Legal(w, done, {}) && At(w, done, at)
    requires p != [] && p !in at.ns && Parent(p) in at.ns && at.ns[Parent(p)].node == Dir
    ensures Legal(w, done + [Creating(p, node)], {})
    ensures At(w, done + [Creating(p, node)], at.(ns := at.ns[p := Entry(at.next, node)], next := at.next + 1))
  {
    StepKeepsWorld(at, Creating(p, node));
    OneMore(w, done, Creating(p, node), {});
  }

  // ------------------------------------------------------------ the world it ends in

  const BOUND := Binding(REPO, 1, COMMON, 4,
                         [Pin(REPO, REPOSITORY, 1), Pin(PRIVATE, ENTRY, 2), Pin(FILE, COMMONDIR_FILE, 3),
                          Pin(MOVED, COMMON_DIRECTORY, 4), Pin(COMMON, COMMON_DIRECTORY, 5)])

  ghost function Between(): World {
    World(Away().ns[COMMON := Entry(7, Dir)][HEAD := Entry(8, Naming("x"))][CONFIG := Entry(9, Naming("x"))]
          [FILE := Entry(3, Naming("old"))], map[5 := PROBE1, 6 := PROBE4], 10)
  }

  /** Before the two temporary handles were opened. */
  ghost function Start(): State {
    State(World(Before().ns, map[], 5), map[], [], [])
  }

  /** The pins behind the handles 1 to 5, the lease behind 6. */
  ghost function Final(): State {
    State(World(Between().ns[PLACE := Entry(17, EMPTY)], Taken(), 20),
          Slots(), [10, 11, 5, 16, 6], [])
  }

  function Slots(): map<int, Slot> {
    map[1 := Slot(14, true), 2 := Slot(15, true), 3 := Slot(12, true), 4 := Slot(13, true),
        5 := Slot(19, true), 6 := Slot(18, true)]
  }

  lemma BetweenShape()
    ensures Shape(Between().ns) && PLACE !in Between().ns && HEAD in Between().ns && CONFIG in Between().ns
    ensures Between().ns[HEAD].node.File? && Between().ns[CONFIG].node.File?
    ensures MOVED + [LEASE] !in Between().ns && MOVED + [LEASE] != PLACE
  {
    FileApart();
    var x := MOVED + [LEASE];
    assert |x| == 2 && x[0][0] == 'o' && "c"[0] == 'c' && "r"[0] == 'r';
    assert forall y :: y in Between().ns && |y| == 2 ==> y[0] == "c" || y[0] == "r";
  }

  lemma PlaceApart()
    ensures PLACE != COMMON
  {
  }

  /** Every step is allowed: the others' spare the temporary handles, the process's own
      are its opens and closes. */
  lemma WholeRun()
    ensures Legal(Before(), Steps(), Before().opens.Keys) && At(Before(), Steps(), Between())
    ensures Legal(Between(), Own(), {})
    ensures At(Between(), Own(), Final().w)
  {
    hide Moved, WorldOK, Legal, After;
    BeforeOK();
    Renamed();
    AwayReady();
    LaterLegal(Away(), Before().opens.Keys);
    Front(Before(), Renaming(COMMON, MOVED), Later(), Before().opens.Keys);
    BetweenShape();
    var w := Between();
    PinningRuns(w);
    var v := After(w, Pinning());
    LooseningRuns(v);
    RunsJoin(w, Pinning(), Loosening(), {});
    var u := After(v, Loosening());
    LeasingRuns(u);
    RunsJoin(w, Pinning() + Loosening(), Leasing(), {});
    PlaceApart();
    SettlingRuns(After(u, Leasing()));
    RunsJoin(w, Pinning() + Loosening() + Leasing(), Settling(), {});
  }

  /** What every check of the acquisition finds from then on: the repository is the
      object it was, git names the directory first identified, through a `commondir` file,
      and the name read first is a directory with HEAD and config in it. */
  ghost predicate ChecksPass(ns: map<Path, Entry>) {
    && ReachesIdentity(ns, REPO, BOUND.anchorId)
    && Resolve(ns, REPO).name == Some(MOVED) && Resolve(ns, REPO).named && ReachesIdentity(ns, MOVED, BOUND.commonId)
    && IsFile(ns, Follow(ns, HEAD).end) && IsFile(ns, Follow(ns, CONFIG).end)
  }

  lemma Passes(w: World)
    requires WorldOK(w) && Shape(w.ns) && HEAD in w.ns && w.ns[HEAD].node.File? && CONFIG in w.ns && w.ns[CONFIG].node.File?
    ensures ChecksPass(w.ns) && Follow(w.ns, MOVED).end == Some(MOVED)
    ensures NoFollow(w.ns, COMMON).Some? && NoFollow(w.ns, COMMON).value in w.ns
    ensures HeldAs(w.ns, COMMON) == Held(COMMON, COMMON, 7)
  {
    hide Resolve, Walk, Follow, NoFollow, WorldOK, ReachesIdentity, Shape, HeldAs;
    NamesMoved(w);
    OtherHeld(w);
    PlainFile(w, HEAD);
    PlainFile(w, CONFIG);
  }

  lemma NamesMoved(w: World)
    requires WorldOK(w) && Shape(w.ns)
    ensures ReachesIdentity(w.ns, REPO, 1) && ReachesIdentity(w.ns, MOVED, 4)
    ensures Resolve(w.ns, REPO).name == Some(MOVED) && Resolve(w.ns, REPO).named && Follow(w.ns, MOVED).end == Some(MOVED)
  {
    hide Resolve, Walk, Follow, WorldOK, ReachesIdentity;
    Reads(w, "old") by { FileApart(); }
    PlainFollow(w, MOVED);
  }

  /** What the name read first denotes by then. */
  lemma OtherHeld(w: World)
    requires WorldOK(w) && Shape(w.ns)
    ensures NoFollow(w.ns, COMMON) == Some(COMMON) && COMMON in w.ns && HeldAs(w.ns, COMMON) == Held(COMMON, COMMON, 7)
  {
    hide NoFollow, WorldOK;
    PlainName(w, COMMON);
  }

  lemma NeverSecured(s: State, file: nat)
    requires ChecksPass(s.w.ns) && Follow(s.w.ns, MOVED).end == Some(MOVED)
    requires MOVED + [LEASE] !in s.w.ns
    ensures forall g :: !Secured(s, g, BOUND, file)
  {
    hide Resolve, Follow;
  }

  lemma FinalOK(s: State)
    requires WorldOK(s.w) && s.w.opens == Taken() && s.w.next == 20
    requires s == State(s.w, Slots(), [10, 11, 5, 16, 6], [])
    ensures StateOK(s)
  {
    hide WorldOK, Slots, Taken;
    SlotsLive();
    assert forall g :: g in [10, 11, 5, 16, 6] ==> g < 20;
  }

  lemma SlotsLive()
    ensures forall h :: h in Slots() ==> h >= 0 && Slots()[h].grant in Taken()
    ensures forall h, k :: h in Slots() && k in Slots() && Slots()[h].grant == Slots()[k].grant ==> h == k
  {
  }

  lemma FinalPins(s: State)
    requires s.table == Slots()
    ensures Handles(BOUND.pins) == {1, 2, 3, 4, 5} && PinsApart(BOUND.pins) && AllInherit(s, BOUND.pins)
  {
    var pins := BOUND.pins;
    assert pins[0].handle == 1 && pins[1].handle == 2 && pins[2].handle == 3 && pins[3].handle == 4 && pins[4].handle == 5;
    forall h | h in {1, 2, 3, 4, 5} ensures h in Handles(pins) { assert pins[h - 1].handle == h; }
  }

  lemma FinalSettled(a: State, s: State)
    requires a == State(a.w, map[], [], []) && a.w.next == 5
    requires s == State(s.w, Slots(), [10, 11, 5, 16, 6], []) && s.w.next == 20
    ensures Settled(a, s, {1, 2, 3, 4, 5, 6})
  {
    SlotsOwned();
    hide Slots;
  }

  lemma SlotsOwned()
    ensures Slots().Keys == {1, 2, 3, 4, 5, 6}
    ensures forall h :: h in Slots() ==> Slots()[h].grant >= 5 && Slots()[h].grant !in [10, 11, 5, 16, 6]
  {
  }

  lemma FinalGrasped(a: State, s: State)
    requires a == State(a.w, map[], [], []) && a.w.next == 5
    requires s == State(s.w, Slots(), [10, 11, 5, 16, 6], []) && s.w.next == 20
    requires StateOK(s) && s.w.opens == Taken()
    ensures Grasped(a, s, Grasp(6, COMMON + [LEASE], BOUND), 17, {Read, Write})
  {
    hide StateOK, Settled, AllInherit, PinsApart, Handles;
    FinalPins(s);
    FinalSettled(a, s);
    assert {1, 2, 3, 4, 5} + {6} == {1, 2, 3, 4, 5, 6};
  }

  lemma FinalShape()
    ensures Shape(Final().w.ns) && HEAD in Final().w.ns && Final().w.ns[HEAD].node.File?
    ensures CONFIG in Final().w.ns && Final().w.ns[CONFIG].node.File? && MOVED + [LEASE] !in Final().w.ns
    ensures StandsAt(Final().w.ns, PLACE, LEASE, 17, 7)
    ensures forall i :: 0 <= i < |BOUND.pins| ==> BOUND.pins[i].path in Final().w.ns
  {
    hide Between;
    BetweenShape();
    FileApart();
    assert Parent(PLACE) == COMMON && PLACE[|PLACE| - 1] == LEASE;
    assert PLACE != HEAD && PLACE != CONFIG && PLACE != FILE by {
      assert LEASE[0] == 'm' && "HEAD"[0] == 'H' && "config"[0] == 'c' && |FILE| == 3;
    }
  }

  lemma OnPins(s: State)
    requires StateOK(s) && s.w.opens == Taken() && s.table == Slots() && Shape(s.w.ns)
    ensures forall i :: 0 <= i < |BOUND.pins| ==>
              && BOUND.pins[i].path in s.w.ns && BOUND.pins[i].handle in s.table
              && OpenOf(s, BOUND.pins[i].handle).id == s.w.ns[BOUND.pins[i].path].id
  {
    hide WorldOK;
  }

  /** The others' steps are allowed beside the temporary handles, and the acquisition's
      own opens and closes after them: it ends with its pins and its lease, as a success
      is promised, and every check passes at the end as when the chain was pinned. But
      what was opened under the name read first is another directory, no link or missing
      `commondir` file being to blame, and the lease is there: it is not secured. */
  lemma LeaseLandsElsewhere()
    ensures Legal(Before(), Steps(), Before().opens.Keys)
    ensures Resolve(Before().ns, REPO).name == Some(COMMON)
            && ReachesIdentity(Before().ns, REPO, BOUND.anchorId) && ReachesIdentity(Before().ns, COMMON, BOUND.commonId)
    ensures var w := After(Before(), Steps());
            && ChecksPass(w.ns) && NoFollow(w.ns, COMMON).Some? && NoFollow(w.ns, COMMON).value in w.ns
            && HeldAs(w.ns, COMMON) == Held(COMMON, COMMON, 7) && BOUND.commonId != 7
            && Legal(w, Own(), {})
            && Final().w == After(w, Own())
    ensures var s := Final();
            && Grasped(Start(), s, Grasp(6, COMMON + [LEASE], BOUND), 17, {Read, Write}) && ChecksPass(s.w.ns)
            && (forall i :: 0 <= i < |BOUND.pins| ==>
                  && BOUND.pins[i].path in s.w.ns && BOUND.pins[i].handle in s.table
                  && OpenOf(s, BOUND.pins[i].handle).id == s.w.ns[BOUND.pins[i].path].id)
            && HasCommondir(BOUND.pins) && (forall p :: p in s.w.ns ==> !s.w.ns[p].node.Link?)
            && StandsAt(s.w.ns, PLACE, LEASE, 17, 7)
            && forall g :: !Secured(s, g, BOUND, 17)
  {
    hide Resolve, ReachesIdentity, Moved, WorldOK, Legal, After, Grasped, Secured, StateOK, Slots, Taken, ChecksPass,
         Shape, NoFollow, Follow, Walk, StandsAt;
    BeforeOK();
    WholeRun();
    Reads(Before(), "c") by { FileApart(); }
    BetweenShape();
    BetweenOK();
    Passes(Between());
    FinalShape();
    var s := Final();
    Passes(s.w);
    FinalOK(s);
    FinalGrasped(Start(), s);
    OnPins(s);
    NeverSecured(s, 17);
    assert BOUND.pins[2].role == COMMONDIR_FILE;
    NoLinks();
  }

  lemma BetweenOK()
    ensures WorldOK(Between()) && WorldOK(Final().w)
  {
    hide Legal, After, WorldOK;
    WholeRun();
  }

  lemma NoLinks()
    ensures forall p :: p in Final().w.ns ==> !Final().w.ns[p].node.Link?
  {
  }
}
