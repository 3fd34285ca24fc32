// What an adjusted pin list is worth: a parent's hold may share writes once a
// direct child of it is held, because a directory that keeps a child can neither
// be removed nor become a link.
module Relaxing {
  import opened Options
  import opened Namespace
  import opened Fences
  import opened Kernels
  import opened Cleanup
  import opened Guards

  ghost predicate DirAt(ns: map<Path, Entry>, n: Path) {
    NoFollow(ns, n).Some? && IsDirectory(ns, NoFollow(ns, n).value)
  }

  /** A pin of the guard shares writes only if it holds an ordinary directory a direct
      child of which is held. */
  ghost predicate Tight(s: State, g: Guard, pins: seq<Pin>) {
    forall i :: 0 <= i < |pins| && pins[i].handle in s.table && s.table[pins[i].handle].grant in g.gs
                && s.table[pins[i].handle].grant in s.w.opens && Write in s.w.opens[s.table[pins[i].handle].grant].share
      ==> DirAt(s.w.ns, pins[i].path) && HasChild(s.w, g, pins[i].path)
  }

  /** Every pin of the guard that may be loosened has a held direct child, and every one
      that is loose is one of an ordinary directory with such a child. */
  ghost predicate Childed(s: State, g: Guard, pins: seq<Pin>, parents: set<Path>) {
    && Tight(s, g, pins)
    && (forall i :: 0 <= i < |pins| && pins[i].path in parents && DirAt(s.w.ns, pins[i].path)
                    && pins[i].handle in s.table && s.table[pins[i].handle].grant in g.gs
          ==> HasChild(s.w, g, pins[i].path))
  }

  lemma ChildedTight(s: State, g: Guard, pins: seq<Pin>, parents: set<Path>)
    requires Childed(s, g, pins, parents)
    ensures Tight(s, g, pins)
  {
  }

  lemma TightChilded(s: State, g: Guard, pins: seq<Pin>)
    ensures Tight(s, g, pins) <==> Childed(s, g, pins, {})
  {
  }

  ghost predicate HasChild(w: World, g: Guard, n: Path) {
    exists m, z :: m != [] && Parent(m) == n && Placed(w, g, m, z)
  }

  /** The same names in the same roles, held on the same objects. */
  ghost predicate SameObjects(a: State, b: State, before: seq<Pin>, after: seq<Pin>) {
    && |after| == |before|
    && forall i :: 0 <= i < |before| ==>
         && after[i].path == before[i].path && after[i].role == before[i].role
         && before[i].handle in a.table && after[i].handle in b.table
         && a.table[before[i].handle].grant in a.w.opens && b.table[after[i].handle].grant in b.w.opens
         && b.w.opens[b.table[after[i].handle].grant].id == a.w.opens[a.table[before[i].handle].grant].id
  }

  /** A hold swapped for a looser one on the same directory, a child of which is
      held, leaves the fence standing. */
  lemma FenceSwapped(w: World, gs: set<nat>, c: set<Path>, x: nat, y: nat, p: Path, q: Path)
    requires WorldOK(w) && Fence(w, gs, c) && p in c && w.ns[p].node == Dir
    requires x in w.opens && y in w.opens && w.opens[x].id == w.ns[p].id && w.opens[y].id == w.ns[p].id
    requires Delete !in w.opens[y].share && x != y
    requires q in w.ns && q != [] && Parent(q) == p && Holds(w, gs, w.ns[q].id)
    ensures Fence(w, gs + {y} - {x}, c)
  {
    var gs' := gs + {y} - {x};
    forall id | Holds(w, gs, id) ensures Holds(w, gs', id) {
      var h :| h in gs && h in w.opens && w.opens[h].id == id && Delete !in w.opens[h].share;
      if h == x { assert y in gs'; } else { assert h in gs'; }
    }
    forall r | r in c ensures Kept(w, gs', r) {
      assert Kept(w, gs, r);
      if r != p && HoldsStrictly(w, gs, w.ns[r].id) {
        var h :| h in gs && h in w.opens && w.opens[h].id == w.ns[r].id && Write !in w.opens[h].share;
        assert h in gs';
      }
    }
  }

  /** Where the held child of a pinned ordinary directory stands. */
  lemma ChildBelow(w: World, g: Guard, n: Path, m: Path, x: nat, z: nat)
    requires WorldOK(w) && Placed(w, g, n, x) && Placed(w, g, m, z) && m != [] && Parent(m) == n
    requires w.ns[NoFollow(w.ns, n).value].node == Dir
    ensures var p, q := NoFollow(w.ns, n).value, NoFollow(w.ns, m).value;
            q != [] && Parent(q) == p && q in w.ns && z in w.opens && w.opens[z].id == w.ns[q].id
            && Delete !in w.opens[z].share && z in g.gs && p in g.c
  {
    HeldCovers(w, g.c, n);
    var p := NoFollow(w.ns, n).value;
    assert Follow(w.ns, n).end == Some(p);
    assert Parent(p + [m[|m| - 1]]) == p;
  }

  lemma GuardSwapped(w: World, g: Guard, n: Path, m: Path, x: nat, y: nat, z: nat)
    requires WorldOK(w) && Guarded(w, g) && Placed(w, g, n, x) && Placed(w, g, m, z) && m != [] && Parent(m) == n
    requires w.ns[NoFollow(w.ns, n).value].node == Dir
    requires x != y && y in w.opens && w.opens[y].id == w.opens[x].id && Delete !in w.opens[y].share
    ensures Guarded(w, g.(gs := g.gs + {y} - {x}))
  {
    ChildBelow(w, g, n, m, x, z);
    FenceSwapped(w, g.gs, g.c, x, y, NoFollow(w.ns, n).value, NoFollow(w.ns, m).value);
  }

  lemma PlacedSwapped(w: World, g: Guard, x: nat, y: nat)
    requires x in w.opens && x != y && y in w.opens && w.opens[y].id == w.opens[x].id && Delete !in w.opens[y].share
    ensures var g' := g.(gs := g.gs + {y} - {x});
            forall n, z :: Placed(w, g, n, z) ==> Placed(w, g', n, if z == x then y else z)
  {
  }

  lemma HasChildSwapped(w: World, g: Guard, x: nat, y: nat, n: Path)
    requires x in w.opens && x != y && y in w.opens && w.opens[y].id == w.opens[x].id && Delete !in w.opens[y].share
    requires HasChild(w, g, n)
    ensures HasChild(w, g.(gs := g.gs + {y} - {x}), n)
  {
    PlacedSwapped(w, g, x, y);
    var m, z :| m != [] && Parent(m) == n && Placed(w, g, m, z);
    assert Placed(w, g.(gs := g.gs + {y} - {x}), m, if z == x then y else z);
  }

  /** The state between opening the replacement and retiring the original. */
  lemma SwapGuard(s: State, g: Guard, pins: seq<Pin>, parents: set<Path>, index: nat, fresh_: Pin)
    requires StateOK(s) && Guarded(s.w, g) && OwnHolds(s, g) && PinsPlaced(s, g, pins) && Childed(s, g, pins, parents)
    requires index < |pins| && PinsApart(pins)
    requires forall i :: 0 <= i < |pins| ==> pins[i].handle in s.table && pins[i].handle != fresh_.handle
    requires fresh_.handle in s.table && fresh_.path == pins[index].path && pins[index].path in parents
    requires var x, y := s.table[pins[index].handle].grant, s.table[fresh_.handle].grant;
             && x in g.gs && y in s.w.opens && y !in s.tried
             && s.w.opens[y].id == s.w.opens[x].id && Delete !in s.w.opens[y].share
             && (forall p :: p in s.w.ns && s.w.ns[p].id == s.w.opens[x].id ==> s.w.ns[p].node == Dir)
    ensures var x, y := s.table[pins[index].handle].grant, s.table[fresh_.handle].grant;
            var g' := g.(gs := g.gs + {y} - {x});
            && Guarded(s.w, g') && OwnHolds(s, g') && PinsPlaced(s, g', pins[index := fresh_])
            && Childed(s, g', pins[index := fresh_], parents)
  {
    hide Fence, Walk, Follow, Guarded, Placed, HasChild;
    var n := pins[index].path;
    var x, y := s.table[pins[index].handle].grant, s.table[fresh_.handle].grant;
    var g' := g.(gs := g.gs + {y} - {x});
    var after := pins[index := fresh_];
    assert x != y;
    assert Placed(s.w, g, n, x);
    PlacedNode(s.w, g, n, x);
    var m, z := Child(s.w, g, n);
    GuardSwapped(s.w, g, n, m, x, y, z);
    PlacedSwapped(s.w, g, x, y);
    assert DirAt(s.w.ns, n);
    forall i | 0 <= i < |after| && s.table[after[i].handle].grant in g'.gs
      ensures Placed(s.w, g', after[i].path, s.table[after[i].handle].grant)
      ensures after[i].path in parents && DirAt(s.w.ns, after[i].path) ==> HasChild(s.w, g', after[i].path)
      ensures s.table[after[i].handle].grant in s.w.opens && Write in s.w.opens[s.table[after[i].handle].grant].share
              ==> DirAt(s.w.ns, after[i].path) && HasChild(s.w, g', after[i].path)
    {
      if i != index {
        assert s.table[after[i].handle].grant != y;
        if HasChild(s.w, g, after[i].path) { HasChildSwapped(s.w, g, x, y, after[i].path); }
      } else {
        HasChildSwapped(s.w, g, x, y, n);
      }
    }
  }

  lemma PlacedNode(w: World, g: Guard, n: Path, x: nat)
    requires Placed(w, g, n, x)
    ensures x in w.opens && NoFollow(w.ns, n).Some? && NoFollow(w.ns, n).value in w.ns
    ensures w.ns[NoFollow(w.ns, n).value].id == w.opens[x].id
  {
  }

  lemma Child(w: World, g: Guard, n: Path) returns (m: Path, z: nat)
    requires HasChild(w, g, n)
    ensures m != [] && Parent(m) == n && Placed(w, g, m, z)
  {
    m, z :| m != [] && Parent(m) == n && Placed(w, g, m, z);
  }

  lemma ChildedCarried(a: State, b: State, g: Guard, pins: seq<Pin>, parents: set<Path>)
    requires StateOK(a) && StateOK(b) && Carry(a, b) && Guarded(a.w, g)
    requires g.gs <= Grants(a) && (forall x :: x in g.gs ==> x !in b.tried)
    requires Childed(a, g, pins, parents) && PinsPlaced(a, g, pins)
    requires forall i :: 0 <= i < |pins| ==> pins[i].handle in a.table && pins[i].handle in b.table
                                             && b.table[pins[i].handle] == a.table[pins[i].handle]
    ensures Childed(b, g, pins, parents)
  {
    hide Fence, Walk, Follow, Guarded, Placed, Carry, StateOK;
    GuardCarried(a, b, g);
    forall i | 0 <= i < |pins| && b.table[pins[i].handle].grant in g.gs
      ensures pins[i].path in parents && DirAt(b.w.ns, pins[i].path) ==> HasChild(b.w, g, pins[i].path)
      ensures b.table[pins[i].handle].grant in b.w.opens && Write in b.w.opens[b.table[pins[i].handle].grant].share
              ==> DirAt(b.w.ns, pins[i].path) && HasChild(b.w, g, pins[i].path)
    {
      PlacedAgrees(a, b, g, pins[i].path, a.table[pins[i].handle].grant);
      OpenThrough(a, b, a.table[pins[i].handle].grant);
      if HasChild(a.w, g, pins[i].path) { HasChildCarried(a.w, b.w, g, pins[i].path); }
    }
  }

  lemma HasChildCarried(v: World, w: World, g: Guard, n: Path)
    requires HasChild(v, g, n) && forall m, z :: Placed(v, g, m, z) ==> Placed(w, g, m, z)
    ensures HasChild(w, g, n)
  {
  }

  lemma PlacedAgrees(a: State, b: State, g: Guard, n: Path, x: nat)
    requires StateOK(a) && StateOK(b) && Agree(a.w.ns, b.w.ns, g.c) && Placed(a.w, g, n, x)
    ensures DirAt(b.w.ns, n) <==> DirAt(a.w.ns, n)
  {
    HeldAgrees(a.w, b.w, g.c, n);
  }

  /** An untried open of this process is as it was. */
  lemma OpenThrough(a: State, b: State, x: nat)
    requires StateOK(a) && Carry(a, b) && x in Grants(a) && x !in b.tried
    ensures x in a.w.opens && x in b.w.opens && b.w.opens[x] == a.w.opens[x]
  {
    hide Lasting, Fence, Agree;
  }

  lemma SwapHandles(pins: seq<Pin>, index: nat, fresh_: Pin)
    requires index < |pins| && PinsApart(pins) && fresh_.handle !in Handles(pins)
    ensures Handles(pins[index := fresh_]) == Handles(pins) - {pins[index].handle} + {fresh_.handle}
    ensures PinsApart(pins[index := fresh_])
    ensures forall i :: 0 <= i < |pins| ==> pins[i].handle in Handles(pins)
  {
    var after := pins[index := fresh_];
    forall i | 0 <= i < |pins| ensures pins[i].handle in Handles(pins) {}
    forall h | h in Handles(pins) - {pins[index].handle} + {fresh_.handle} ensures h in Handles(after) {
      if h == fresh_.handle {
        assert after[index].handle == h;
      } else {
        var i :| 0 <= i < |pins| && pins[i].handle == h;
        assert after[i].handle == h;
      }
    }
  }
}
