// The walk of the resolution chain over a namespace that stands still: it ends on
// every finite one, cyclic links included, and the names it meets are the least set
// closed under parent and under what a link reaches.
module Chains {
  import opened Options
  import opened Namespace
  import opened Fences
  import opened Mapping
  import opened Guards
  import opened Stability

  ghost predicate IsLink(ns: map<Path, Entry>, n: Path) {
    NoFollow(ns, n).Some? && NoFollow(ns, n).value in ns && ns[NoFollow(ns, n).value].node.Link?
  }

  /** The name is there; so is its parent among `names`, the root apart; and so is
      what it reaches, if it is a link. */
  ghost predicate Met(ns: map<Path, Entry>, names: set<Path>, busy: set<Path>, n: Path) {
    n != [] ==>
      && NoFollow(ns, n).Some? && NoFollow(ns, n).value in ns
      && (Parent(n) == [] || Parent(n) in names)
      && (n !in busy && IsLink(ns, n) ==> Follow(ns, n).end.Some? && Follow(ns, n).end.value in names)
  }

  /** Closed, the links in `busy` apart. */
  ghost predicate Closed(ns: map<Path, Entry>, names: set<Path>, busy: set<Path>) {
    forall n :: n in names ==> Met(ns, names, busy, n)
  }

  /** What a walk yields of a name: its components, or the root if it is the root. */
  function Prefixes(path: Path): set<Path> {
    if path == [] then {[]} else set i | 1 <= i <= |path| :: path[..i]
  }

  lemma LastPrefix(path: Path)
    ensures path in Prefixes(path)
  {
    if path != [] { assert path[..|path|] == path; }
  }

  lemma {:induction false} PrefixesClosed(ns: map<Path, Entry>, names: set<Path>, busy: set<Path>, path: Path)
    requires Closed(ns, names, busy) && path in names
    ensures Prefixes(path) <= names
    decreases |path|
  {
    if path != [] {
      assert Met(ns, names, busy, path);
      if Parent(path) != [] { PrefixesClosed(ns, names, busy, Parent(path)); }
      forall i | 1 <= i <= |path| ensures path[..i] in names {
        if i < |path| {
          assert Parent(path)[..i] == path[..i];
          assert path[..i] in Prefixes(Parent(path));
        } else {
          assert path[..i] == path;
        }
      }
    }
  }

  lemma {:induction false} PrefixesInside(w: World, path: Path)
    requires WorldOK(w) && path in w.ns
    ensures Prefixes(path) <= w.ns.Keys
  {
    if path != [] {
      forall i | 1 <= i <= |path| ensures path[..i] in w.ns { PrefixInside(w, path[..i], path); }
    }
  }

  /** What a walk may still meet. */
  ghost function Left(ns: map<Path, Entry>, path: Path, seen: set<Path>): nat {
    |ns.Keys + Prefixes(path) - seen|
  }

  lemma LessLeft(w: World, path: Path, before: set<Path>, seen: set<Path>, prefix: Path, target: Path)
    requires WorldOK(w) && target in w.ns && before <= seen && prefix in Prefixes(path) && prefix !in seen
    ensures Left(w.ns, target, seen + {prefix}) < Left(w.ns, path, before)
  {
    PrefixesInside(w, target);
    var less, more := w.ns.Keys + Prefixes(target) - (seen + {prefix}), w.ns.Keys + Prefixes(path) - before;
    assert less <= more - {prefix};
    Smaller(less, more, prefix);
  }

  /** The names a walk of `path` must end with, given those already seen. */
  ghost predicate Enough(ns: map<Path, Entry>, names: set<Path>, seen: set<Path>, path: Path) {
    Closed(ns, names, {}) && seen <= names && Prefixes(path) <= names
  }

  /** The walk over a namespace that stands still. Links in `busy` are being walked.
      It is refused only if nothing closed contains what it starts from. */
  method PathChain(w: World, path: Path, seen0: set<Path>, ghost busy: set<Path>) returns (r: Option<set<Path>>)
    requires WorldOK(w) && Closed(w.ns, seen0, busy)
    ensures r.Some? ==> Closed(w.ns, r.value, busy) && seen0 <= r.value && Prefixes(path) <= r.value
    ensures r.Some? ==> forall all :: Enough(w.ns, all, seen0, path) ==> r.value <= all
    ensures r.None? ==> forall all :: !Enough(w.ns, all, seen0, path)
    decreases Left(w.ns, path, seen0)
  {
    hide Walk, Follow, NoFollow, WorldOK;
    var seen := seen0;
    if path == [] {
      Grown(w.ns, seen, busy, []);
      assert forall all :: Enough(w.ns, all, seen0, path) ==> [] in all;
      seen := seen + {[]};
    }
    for i := 1 to |path| + 1
      invariant Closed(w.ns, seen, busy) && seen0 <= seen
      invariant (forall j :: 1 <= j < i ==> path[..j] in seen) && (path == [] ==> [] in seen)
      invariant forall all :: Enough(w.ns, all, seen0, path) ==> seen <= all
    {
      var prefix := path[..i];
      assert prefix in Prefixes(path);
      assert prefix != [] && Parent(prefix) == path[..i - 1];
      if prefix !in seen {
        var at := NoFollow(w.ns, prefix);
        if at.None? || at.value !in w.ns {
          Unmet(w.ns, seen0, path, prefix);
          return None;
        }
        ghost var before := seen;
        if w.ns[at.value].node.Link? {
          seen := seen + {prefix};
          var end := Follow(w.ns, prefix).end;
          if end.None? {
            Unmet(w.ns, seen0, path, prefix);
            return None;
          }
          ReachesInside(w, prefix);
          LessLeft(w, path, seen0, before, prefix, end.value);
          GrownBusy(w.ns, before, busy, prefix);
          var nested := PathChain(w, end.value, seen, busy + {prefix});
          EnoughNested(w.ns, seen0, path, seen, prefix);
          if nested.None? { return None; }
          seen := nested.value;
          Finished(w.ns, seen, busy, prefix);
        } else {
          seen := seen + {prefix};
          Grown(w.ns, before, busy, prefix);
        }
      }
    }
    return Some(seen);
  }

  lemma ReachesInside(w: World, n: Path)
    requires WorldOK(w) && Follow(w.ns, n).end.Some?
    ensures Follow(w.ns, n).end.value in w.ns
  {
    WalkEndsInside(w, [], n, MAX_LINKS);
  }

  /** A name no closed set contains. */
  lemma Unmet(ns: map<Path, Entry>, seen: set<Path>, path: Path, prefix: Path)
    requires prefix in Prefixes(path)
    requires forall names :: !Met(ns, names, {}, prefix)
    ensures forall all :: !Enough(ns, all, seen, path)
  {
  }

  lemma Grown(ns: map<Path, Entry>, seen: set<Path>, busy: set<Path>, n: Path)
    requires Closed(ns, seen, busy)
    requires n != [] ==> (Parent(n) == [] || Parent(n) in seen)
    requires n != [] ==> NoFollow(ns, n).Some? && NoFollow(ns, n).value in ns && !ns[NoFollow(ns, n).value].node.Link?
    ensures Closed(ns, seen + {n}, busy)
  {
  }

  lemma GrownBusy(ns: map<Path, Entry>, seen: set<Path>, busy: set<Path>, n: Path)
    requires Closed(ns, seen, busy) && n != [] && (Parent(n) == [] || Parent(n) in seen)
    requires NoFollow(ns, n).Some? && NoFollow(ns, n).value in ns
    ensures Closed(ns, seen + {n}, busy + {n})
  {
  }

  lemma Finished(ns: map<Path, Entry>, seen: set<Path>, busy: set<Path>, n: Path)
    requires Closed(ns, seen, busy + {n}) && n in seen && Follow(ns, n).end.Some?
    requires Prefixes(Follow(ns, n).end.value) <= seen
    ensures Closed(ns, seen, busy)
  {
    hide Walk, Follow, NoFollow;
    var end := Follow(ns, n).end.value;
    LastPrefix(end);
    forall m | m in seen ensures Met(ns, seen, busy, m) { assert Met(ns, seen, busy + {n}, m); }
  }

  /** What contains enough for the path contains enough for the target of its link. */
  lemma EnoughNested(ns: map<Path, Entry>, seen0: set<Path>, path: Path, seen: set<Path>, prefix: Path)
    requires prefix != [] && prefix in Prefixes(path) && IsLink(ns, prefix) && Follow(ns, prefix).end.Some?
    requires forall all :: Enough(ns, all, seen0, path) ==> seen - {prefix} <= all
    ensures forall all :: Enough(ns, all, seen0, path) ==> Enough(ns, all, seen, Follow(ns, prefix).end.value)
  {
    hide Walk, Follow, NoFollow;
    forall all | Enough(ns, all, seen0, path) ensures Enough(ns, all, seen, Follow(ns, prefix).end.value) {
      assert prefix in all;
      assert Met(ns, all, {}, prefix);
      PrefixesClosed(ns, all, {}, Follow(ns, prefix).end.value);
      assert seen - {prefix} <= all;
    }
  }

  /** The names a checkout's resolution starts from: its `.git` entry, what the entry
      points to, and the `commondir` file there with what it names. */
  ghost predicate Roots(ns: map<Path, Entry>, anchor: Path, names: set<Path>) {
    && Prefixes(anchor + [GIT]) <= names
    && Private(ns, anchor).end.Some?
    && var m, private := Resolve(ns, anchor), Private(ns, anchor).end.value;
       && private in names
       && (m.named ==> private + [COMMONDIR] in names && m.name.Some? && m.name.value in names)
  }

  lemma PrefixesOfEntry(path: Path, last: string)
    ensures path != [] ==> Prefixes(path) <= Prefixes(path + [last])
    ensures path + [last] in Prefixes(path + [last])
    ensures Parent(path + [last]) == path
  {
    forall i | 1 <= i <= |path| ensures path[..i] in Prefixes(path + [last]) {
      assert (path + [last])[..i] == path[..i];
    }
    assert (path + [last])[..|path| + 1] == path + [last];
  }

  /** The private directory: the entry itself, or what its pointer names, walked too. */
  method PrivateChain(w: World, anchor: Path) returns (r: Option<(Path, set<Path>)>)
    requires WorldOK(w)
    ensures r.Some? ==>
              var private, seen := r.value.0, r.value.1;
              && Closed(w.ns, seen, {}) && Prefixes(anchor + [GIT]) <= seen
              && Private(w.ns, anchor).end == Some(private) && private in seen
  {
    hide Walk, Follow, NoFollow, WorldOK, Join;
    PrefixesOfEntry(anchor, GIT);
    LastPrefix(anchor + [GIT]);
    var first := PathChain(w, anchor, {}, {});
    if first.None? { return None; }
    var entry := anchor + [GIT];
    var second := PathChain(w, entry, first.value, {});
    if second.None? { return None; }
    assert entry in second.value;
    assert Met(w.ns, second.value, {}, entry);
    var at := NoFollow(w.ns, entry).value;
    if DirectoryFlag(w.ns[at].node) { return Some((entry, second.value)); }
    var way := Follow(w.ns, entry);
    if !IsFile(w.ns, way.end) || w.ns[way.end.value].node.text.pointer.None? { return None; }
    var private := Join(anchor, w.ns[way.end.value].node.text.pointer.value);
    LastPrefix(private);
    var third := PathChain(w, private, second.value, {});
    if third.None? { return None; }
    return Some((private, third.value));
  }

  /** The whole walk, one set of names seen throughout. */
  method ResolutionChain(w: World, anchor: Path) returns (r: Option<set<Path>>)
    requires WorldOK(w)
    ensures r.Some? ==> Closed(w.ns, r.value, {}) && Roots(w.ns, anchor, r.value)
  {
    hide Walk, Follow, NoFollow, WorldOK, Join, Private;
    var private := PrivateChain(w, anchor);
    if private.None? { return None; }
    var file := private.value.0 + [COMMONDIR];
    var way := Follow(w.ns, file);
    if !IsFile(w.ns, way.end) { return Some(private.value.1); }
    var fourth := PathChain(w, file, private.value.1, {});
    if fourth.None? { return None; }
    LastPrefix(file);
    var common := Join(private.value.0, w.ns[way.end.value].node.text.bare);
    var fifth := PathChain(w, common, fourth.value, {});
    if fifth.None? { return None; }
    LastPrefix(common);
    return Some(fifth.value);
  }

  // ------------------------------------------------------------ what the names cover

  /** The objects the names denote, which is what their pins hold. */
  ghost function Objects(ns: map<Path, Entry>, names: set<Path>): set<Path> {
    set n | n in names && n != [] && NoFollow(ns, n).Some? :: NoFollow(ns, n).value
  }

  /** Every link among the names is written as the physical name of what it reaches. */
  ghost predicate Flat(ns: map<Path, Entry>, names: set<Path>) {
    forall n :: n in names && n != [] && IsLink(ns, n) ==>
      Follow(ns, n).end == Some(ns[NoFollow(ns, n).value].node.target)
  }

  lemma {:induction false} NameCovered(w: World, names: set<Path>, n: Path, fuel: nat)
    requires WorldOK(w) && Closed(w.ns, names, {}) && Flat(w.ns, names) && (n == [] || n in names)
    requires fuel <= MAX_LINKS && Walk(w.ns, [], n, fuel).end.Some?
    ensures Walk(w.ns, [], n, fuel).crossed <= Objects(w.ns, names)
    decreases fuel, |n|
  {
    hide Walk, Follow, NoFollow, WorldOK, Closed, Flat, Objects, IsDirectory;
    if n == [] {
      WalkNothing(w.ns, fuel);
    } else {
      NameMet(w.ns, names, n);
      var d, p := LastMet(w, n, fuel);
      NameCovered(w, names, Parent(n), fuel);
      if w.ns[p].node.Link? { NameCovered(w, names, w.ns[p].node.target, d.fuel - 1); }
    }
  }

  lemma WalkNothing(ns: map<Path, Entry>, fuel: nat)
    ensures Walk(ns, [], [], fuel).crossed == {}
  {
  }

  /** A lookup that succeeds is its parent's, the object at its last name, and, if that
      is a link, the lookup of its target. */
  lemma LastMet(w: World, n: Path, fuel: nat) returns (d: Way, p: Path)
    requires WorldOK(w) && n != [] && fuel <= MAX_LINKS && Walk(w.ns, [], n, fuel).end.Some?
    requires NoFollow(w.ns, n).Some?
    ensures d == Walk(w.ns, [], Parent(n), fuel) && d.end.Some? && d.fuel <= fuel
    ensures Some(p) == NoFollow(w.ns, n) && p in w.ns
    ensures match w.ns[p].node
            case Link(target, _) =>
              d.fuel > 0 && Walk(w.ns, [], target, d.fuel - 1).end.Some?
              && Walk(w.ns, [], n, fuel).crossed == d.crossed + Walk(w.ns, [], target, d.fuel - 1).crossed + {p}
            case _ => Walk(w.ns, [], n, fuel).crossed == d.crossed + {p}
  {
    hide Walk, Follow, NoFollow, WorldOK, IsDirectory;
    LastDirectory(w, n, fuel);
    d, p := Walk(w.ns, [], Parent(n), fuel), NoFollow(w.ns, n).value;
    LastStep(w.ns, d.end.value, n[|n| - 1], d.fuel);
  }

  lemma NameMet(ns: map<Path, Entry>, names: set<Path>, n: Path)
    requires Closed(ns, names, {}) && Flat(ns, names) && n in names && n != []
    ensures NoFollow(ns, n).Some? && NoFollow(ns, n).value in ns && NoFollow(ns, n).value in Objects(ns, names)
    ensures Parent(n) == [] || Parent(n) in names
    ensures var node := ns[NoFollow(ns, n).value].node; node.Link? ==> node.target == [] || node.target in names
  {
  }

  /** A lookup that succeeds reaches a directory before its last name. */
  lemma LastDirectory(w: World, n: Path, fuel: nat)
    requires WorldOK(w) && n != [] && fuel <= MAX_LINKS && Walk(w.ns, [], n, fuel).end.Some?
    ensures var d := Walk(w.ns, [], Parent(n), fuel);
            && d.end.Some? && d.fuel <= fuel && IsDirectory(w.ns, d.end.value)
            && (var last := Walk(w.ns, d.end.value, [n[|n| - 1]], d.fuel);
                Walk(w.ns, [], n, fuel) == last.(crossed := d.crossed + last.crossed))
            && (NoFollow(w.ns, n).Some? ==> NoFollow(w.ns, n).value == d.end.value + [n[|n| - 1]])
  {
    var last := [n[|n| - 1]];
    assert Parent(n) + last == n;
    PrefixWalks(w.ns, [], Parent(n), last, fuel);
    WalkAppend(w.ns, [], Parent(n), last, fuel);
    WalkMoreFuel(w.ns, [], Parent(n), fuel, MAX_LINKS);
    WalkEndsInside(w, [], Parent(n), fuel);
  }

  /** The last step of a lookup that succeeds. */
  lemma LastStep(ns: map<Path, Entry>, base: Path, x: string, fuel: nat)
    requires Walk(ns, base, [x], fuel).end.Some?
    ensures var p, way := base + [x], Walk(ns, base, [x], fuel);
            && p in ns
            && match ns[p].node
               case Link(target, _) =>
                 fuel > 0 && Walk(ns, [], target, fuel - 1).end.Some?
                 && way.crossed == Walk(ns, [], target, fuel - 1).crossed + {p}
               case _ => way.crossed == {p}
  {
    assert [x][1..] == [];
    var p := base + [x];
    if ns[p].node.Link? { assert ns[p].node.target + [x][1..] == ns[p].node.target; }
  }

  /** A lookup that succeeds passes through a directory at every name before its last. */
  lemma {:induction false} PrefixWalks(ns: map<Path, Entry>, base: Path, a: seq<string>, b: seq<string>, fuel: nat)
    requires b != [] && Walk(ns, base, a + b, fuel).end.Some? && IsDirectory(ns, base)
    requires IsDirectory(ns, [])
    ensures var way := Walk(ns, base, a, fuel); way.end.Some? && IsDirectory(ns, way.end.value)
    decreases fuel, |a|
  {
    if a != [] {
      assert (a + b)[0] == a[0] && (a + b)[1..] == a[1..] + b;
      var p := base + [a[0]];
      match ns[p].node
      case Dir => PrefixWalks(ns, p, a[1..], b, fuel);
      case File(_) =>
      case Link(target, _) =>
        assert target + (a[1..] + b) == (target + a[1..]) + b;
        PrefixWalks(ns, [], target + a[1..], b, fuel - 1);
    }
  }

  /** Flat links: the names met cover all the mapping crosses. */
  lemma FlatCovers(w: World, names: set<Path>, anchor: Path)
    requires WorldOK(w) && Maps(w.ns, anchor) && Closed(w.ns, names, {}) && Roots(w.ns, anchor, names)
    requires Flat(w.ns, names)
    ensures Links(w.ns, anchor) <= Objects(w.ns, names)
  {
    hide Walk, NoFollow, WorldOK, Join;
    var entry := anchor + [GIT];
    PrefixesOfEntry(anchor, GIT);
    LastPrefix(entry);
    if anchor != [] { LastPrefix(anchor); }
    assert Met(w.ns, names, {}, entry);
    var m, private := Resolve(w.ns, anchor), Private(w.ns, anchor).end.value;
    EntryAt(w, anchor);
    NameCovered(w, names, anchor, MAX_LINKS);
    if Follow(w.ns, entry).end.Some? { NameCovered(w, names, entry, MAX_LINKS); }
    NameCovered(w, names, private + [COMMONDIR], MAX_LINKS);
    NameCovered(w, names, m.name.value, MAX_LINKS);
  }

  /** Holds on just the objects of the names met, each kept: the mapping is stable
      exactly when they are all it crosses. */
  lemma StableIffMet(w: World, gs: set<nat>, names: set<Path>, anchor: Path)
    requires WorldOK(w) && Maps(w.ns, anchor)
    requires forall p :: p in Objects(w.ns, names) ==> Kept(w, gs, p)
    requires forall g :: g in gs && g in w.opens ==> exists p :: p in Objects(w.ns, names) && p in w.ns && w.ns[p].id == w.opens[g].id
    ensures (forall steps :: Legal(w, steps, gs) ==> SameMapping(w.ns, After(w, steps).ns, anchor))
            <==> Links(w.ns, anchor) <= Objects(w.ns, names)
  {
    hide Walk, Follow, NoFollow, Resolve, Private, Links, Objects, Maps, SameMapping, Legal;
    StableIffKept(w, gs, anchor);
    forall p | p in Links(w.ns, anchor) && Kept(w, gs, p) ensures p in Objects(w.ns, names) {
      var g :| g in gs && g in w.opens && w.opens[g].id == w.ns[p].id && Delete !in w.opens[g].share;
      var q :| q in Objects(w.ns, names) && q in w.ns && w.ns[q].id == w.opens[g].id;
      assert q == p;
    }
  }
}
