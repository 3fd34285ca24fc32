// A link written through another link: the walk follows it to the final name, so it
// never meets the link in the middle, and the mapping can be moved under a holder.
// The checkout is a plain directory; its `.git` file points through the links.
module MiddleLinks {
  import opened Options
  import opened Namespace
  import opened Fences
  import opened Mapping
  import opened Guards
  import opened Stability
  import opened Chains

  const ANCHOR: Path := ["r"]
  const ENTRY: Path := ["r", ".git"]
  const PRIVATE: Path := ["l"]
  const MIDDLE: Path := ["m"]
  const STORE: Path := ["d"]
  const HOME: Path := ["d", "x"]
  const FILE: Path := ["d", "x", "commondir"]
  const HEAD: Path := ["d", "x", "HEAD"]
  const CONFIG: Path := ["d", "x", "config"]
  const NAMED: Path := ["l", "commondir"]

  /** The `.git` file names `l`, which leads to `x` below `m`, and `m` leads to `d`. */
  ghost function Names(): map<Path, Entry> {
    map[[] := Entry(0, Dir),
        MIDDLE := Entry(1, Link(STORE, true)),
        STORE := Entry(2, Dir),
        HOME := Entry(3, Dir),
        PRIVATE := Entry(4, Link(["m", "x"], true)),
        ANCHOR := Entry(5, Dir),
        ENTRY := Entry(6, File(Text(Some(Named(true, PRIVATE)), Named(true, ["gitdir: l"])))),
        FILE := Entry(7, File(Text(None, Named(false, ["."])))),
        HEAD := Entry(8, File(Text(None, Named(false, ["ref"])))),
        CONFIG := Entry(9, File(Text(None, Named(false, ["core"]))))]
  }

  /** Every object of the names the walk meets is pinned, reads alone shared. */
  ghost function Pins(): map<nat, Open> {
    map[10 := Open(2, {Read}, {Read}), 11 := Open(3, {Read}, {Read}), 12 := Open(4, {Read}, {Read}),
        13 := Open(5, {Read}, {Read}), 14 := Open(6, {Read}, {Read}), 15 := Open(7, {Read}, {Read})]
  }

  ghost function Example(): World {
    World(Names(), Pins(), 20)
  }

  /** What the walk meets, starting from the checkout. */
  ghost function MetNames(): set<Path> {
    {ANCHOR, ENTRY, PRIVATE, STORE, HOME, NAMED}
  }

  /** Through both links: what follows `l` is looked up below `d/x`. */
  lemma Lands(rest: seq<string>, fuel: nat)
    requires fuel >= 2
    ensures var way, on := Walk(Names(), [], PRIVATE + rest, fuel), Walk(Names(), HOME, rest, fuel - 2);
            way == on.(crossed := {PRIVATE, MIDDLE, STORE, HOME} + on.crossed)
  {
    hide Names;
    Nodes();
    var ns := Names();
    assert (["l"] + rest)[0] == "l" && (["l"] + rest)[1..] == rest;
    assert [] + ["l"] == PRIVATE && [] + ["m"] == MIDDLE && [] + ["d"] == STORE && STORE + ["x"] == HOME;
    var one := ["m", "x"] + rest;
    assert one[0] == "m" && one[1..] == ["x"] + rest;
    var two := ["d"] + (["x"] + rest);
    assert two[0] == "d" && two[1..] == ["x"] + rest && (["x"] + rest)[0] == "x" && (["x"] + rest)[1..] == rest;
    assert Walk(ns, [], ["l"] + rest, fuel).end == Walk(ns, [], one, fuel - 1).end;
    assert Walk(ns, [], one, fuel - 1).end == Walk(ns, [], two, fuel - 2).end;
    assert Walk(ns, [], two, fuel - 2).end == Walk(ns, STORE, ["x"] + rest, fuel - 2).end;
  }

  lemma Lookups()
    ensures Follow(Names(), PRIVATE) == Way(Some(HOME), {PRIVATE, MIDDLE, STORE, HOME}, 61)
    ensures Follow(Names(), NAMED).end == Some(FILE)
  {
    Lands([], 63);
    Lands(["commondir"], 63);
    assert HOME + ["commondir"] == FILE && ["commondir"][1..] == [];
    assert Walk(Names(), HOME, [], 61) == Way(Some(HOME), {}, 61);
    assert Walk(Names(), HOME, ["commondir"], 61).end == Some(FILE);
    assert PRIVATE + [] == PRIVATE && PRIVATE + ["commondir"] == NAMED;
  }

  ghost function NameOf(id: nat): Path {
    if id == 0 then [] else if id == 1 then MIDDLE else if id == 2 then STORE else if id == 3 then HOME
    else if id == 4 then PRIVATE else if id == 5 then ANCHOR else if id == 6 then ENTRY else if id == 7 then FILE
    else if id == 8 then HEAD else CONFIG
  }

  lemma OneNameEach()
    ensures forall p :: p in Names() ==> p == NameOf(Names()[p].id) && Names()[p].id < 20
  {
  }

  lemma ParentsThere()
    ensures forall p :: p in Names() && p != [] ==> Parent(p) in Names() && Names()[Parent(p)].node == Dir
  {
    assert Parent(MIDDLE) == [] && Parent(STORE) == [] && Parent(HOME) == STORE && Parent(PRIVATE) == [];
    assert Parent(ANCHOR) == [] && Parent(ENTRY) == ANCHOR && Parent(FILE) == HOME;
    assert Parent(HEAD) == HOME && Parent(CONFIG) == HOME;
  }

  lemma ExampleOK()
    ensures WorldOK(Example())
  {
    hide Names, NameOf, Pins;
    OneNameEach();
    ParentsThere();
    assert [] in Names() && Names()[[]].node == Dir by { RootThere(); }
    assert forall g :: g in Pins() ==> g < 20 by { PinsLow(); }
  }

  lemma PinsLow()
    ensures forall g :: g in Pins() ==> g < 20
  {
  }

  lemma RootThere()
    ensures [] in Names() && Names()[[]].node == Dir
  {
  }

  lemma Nodes()
    ensures ANCHOR in Names() && Names()[ANCHOR].node == Dir && STORE in Names() && Names()[STORE].node == Dir
    ensures HOME in Names() && Names()[HOME].node == Dir
    ensures PRIVATE in Names() && Names()[PRIVATE].node == Link(["m", "x"], true)
    ensures MIDDLE in Names() && Names()[MIDDLE].node == Link(STORE, true)
    ensures ENTRY in Names() && Names()[ENTRY].node == File(Text(Some(Named(true, PRIVATE)), Named(true, ["gitdir: l"])))
    ensures FILE in Names() && Names()[FILE].node == File(Text(None, Named(false, ["."])))
    ensures IsFile(Names(), Some(HEAD)) && IsFile(Names(), Some(CONFIG))
  {
  }

  /** The names that are physical denote themselves; the `commondir` file is named
      through the link. */
  lemma Denoted()
    ensures forall p :: p in {ANCHOR, ENTRY, PRIVATE, STORE, HOME} ==> NoFollow(Names(), p) == Some(p)
    ensures NoFollow(Names(), NAMED) == Some(FILE)
  {
    hide Walk, Follow, NoFollow, Names, WorldOK;
    ExampleOK();
    Nodes();
    forall p | p in {ANCHOR, ENTRY, PRIVATE, STORE, HOME} ensures NoFollow(Names(), p) == Some(p) {
      PlainName(Example(), p);
    }
    NamedThrough();
  }

  lemma NamedThrough()
    ensures NoFollow(Names(), NAMED) == Some(FILE)
  {
    hide Walk, Follow, Names;
    Nodes();
    Lookups();
    assert Parent(NAMED) == PRIVATE && HOME + ["commondir"] == FILE;
  }

  lemma EntryReached()
    ensures Follow(Names(), ENTRY).end == Some(ENTRY) && Follow(Names(), ANCHOR).end == Some(ANCHOR)
  {
    hide Names, Walk, Follow, WorldOK;
    ExampleOK();
    Nodes();
    PlainFollow(Example(), ANCHOR);
    PlainFile(Example(), ENTRY);
  }

  lemma Resolved()
    ensures Private(Names(), ANCHOR).end == Some(PRIVATE)
    ensures var m := Resolve(Names(), ANCHOR); m.named && m.name == Some(PRIVATE)
    ensures Maps(Names(), ANCHOR) && MIDDLE in Links(Names(), ANCHOR)
  {
    hide Walk, Follow, NoFollow, Names;
    Nodes();
    Lookups();
    Denoted();
    EntryReached();
    assert ANCHOR + [GIT] == ENTRY && PRIVATE + [COMMONDIR] == NAMED;
    assert ["l"][1..] == [] && Normal([], ["l"]) == Normal([] + ["l"], []) && [] + ["l"] == PRIVATE;
    assert Join(ANCHOR, Named(true, PRIVATE)) == PRIVATE;
    assert ["."][1..] == [] && Normal(PRIVATE, ["."]) == Normal(PRIVATE, []);
  }

  lemma MetObjects()
    ensures Objects(Names(), MetNames()) == {ANCHOR, ENTRY, PRIVATE, STORE, HOME, FILE}
  {
    hide NoFollow, Names;
    Denoted();
    var names := MetNames();
    assert ANCHOR in names && ENTRY in names && PRIVATE in names && STORE in names && HOME in names && NAMED in names;
  }

  ghost function PinOf(p: Path): nat {
    if p == STORE then 10 else if p == HOME then 11 else if p == PRIVATE then 12 else if p == ANCHOR then 13
    else if p == ENTRY then 14 else 15
  }

  lemma PinnedAll(p: Path)
    requires p in {ANCHOR, ENTRY, PRIVATE, STORE, HOME, FILE}
    ensures Kept(Example(), Pins().Keys, p)
  {
    var g := PinOf(p);
    assert g in Pins() && Pins()[g].id == Names()[p].id;
  }

  lemma PinsOnMet(g: nat)
    requires g in Pins()
    ensures exists p :: p in {ANCHOR, ENTRY, PRIVATE, STORE, HOME, FILE} && p in Names() && Names()[p].id == Pins()[g].id
  {
    var p := NameOf(Pins()[g].id);
    assert p in Names() && Names()[p].id == Pins()[g].id;
  }

  lemma MetClosed()
    ensures Closed(Names(), MetNames(), {})
  {
    hide Walk, Follow, NoFollow, Names;
    Nodes();
    Lookups();
    Denoted();
    assert Parent(ANCHOR) == [] && Parent(ENTRY) == ANCHOR && Parent(PRIVATE) == [] && Parent(STORE) == [];
    assert Parent(HOME) == STORE && Parent(NAMED) == PRIVATE;
  }

  lemma MetRoots()
    ensures Roots(Names(), ANCHOR, MetNames())
  {
    hide Walk, Follow, NoFollow, Names, Resolve, Private;
    Resolved();
    var entry := ANCHOR + [GIT];
    assert entry[..1] == ANCHOR && entry[..2] == ENTRY;
    forall i | 1 <= i <= |entry| ensures entry[..i] in MetNames() {
      if i == 1 { assert entry[..i] == ANCHOR; } else { assert i == 2; }
    }
    assert PRIVATE + [COMMONDIR] == NAMED;
  }

  /** The names met are closed and start where the resolution does, and all are
      pinned; but the link in the middle is none of them, and the mapping moves. */
  lemma MiddleLinkUnmet()
    ensures WorldOK(Example()) && Maps(Names(), ANCHOR) && IsDirectory(Names(), ANCHOR)
    ensures Follow(Names(), Resolve(Names(), ANCHOR).name.value).end == Some(HOME)
            && IsFile(Names(), Some(HEAD)) && IsFile(Names(), Some(CONFIG))
    ensures Closed(Names(), MetNames(), {}) && Roots(Names(), ANCHOR, MetNames())
    ensures forall p :: p in Objects(Names(), MetNames()) ==> Kept(Example(), Pins().Keys, p)
    ensures exists steps :: Legal(Example(), steps, Pins().Keys) && !SameMapping(Names(), After(Example(), steps).ns, ANCHOR)
  {
    hide Walk, Follow, NoFollow, Names, Resolve, Private, Objects, Pins, WorldOK, Kept, Legal, SameMapping, Links, Maps,
         Closed, Roots;
    ExampleOK();
    Nodes();
    Lookups();
    Resolved();
    MetClosed();
    MetRoots();
    MetObjects();
    forall p | p in Objects(Names(), MetNames()) ensures Kept(Example(), Pins().Keys, p) { PinnedAll(p); }
    forall g | g in Pins() ensures exists p :: p in Objects(Names(), MetNames()) && p in Names() && Names()[p].id == Pins()[g].id {
      PinsOnMet(g);
    }
    assert MIDDLE !in Objects(Names(), MetNames());
    StableIffMet(Example(), Pins().Keys, MetNames(), ANCHOR);
  }
}
