// The kernel as one process meets it: its handle table over the shared world.
// Every call first lets the other processes take any number of allowed steps,
// and may then fail for no stated reason. Handle numbers are reused after a
// close; grants (the identities of opens) never are.
module Kernels {
  import opened Options
  import opened Namespace
  import opened Fences
  import opened Mapping
  import opened Strands

  datatype Slot = Slot(grant: nat, inherit: bool)

  /** `table` is this process's handles, `tried` the grants its closes were asked
      of, in order (-1 for a number that was nobody's), and `refused` the closes
      the kernel refused, in order. */
  datatype State = State(w: World, table: map<int, Slot>, tried: seq<int>, refused: seq<Strand>)

  ghost function Grants(s: State): set<nat> {
    set h | h in s.table :: s.table[h].grant
  }

  ghost predicate StateOK(s: State) {
    && WorldOK(s.w)
    && (forall h :: h in s.table ==> h >= 0 && s.table[h].grant in s.w.opens)
    && (forall h, k :: h in s.table && k in s.table && s.table[h].grant == s.table[k].grant ==> h == k)
    && (forall g :: g in s.tried ==> g < s.w.next)
  }

  // ------------------------------------------------------------ conservation

  /** A close refused since `a`: the handle is still live and was already tried. */
  ghost predicate Stuck(a: State, b: State, h: int) {
    exists i :: |a.refused| <= i < |b.refused| && b.refused[i].handle == h
  }

  /** From `a` to `b` the process gained exactly the handles `owned`, none of them
      tried yet, and those whose close was refused; nothing it had before changed;
      and every close went to a handle gained since, each at most once. */
  ghost predicate Settled(a: State, b: State, owned: set<int>) {
    && a.w.next <= b.w.next
    && (forall h :: h in a.table ==> h in b.table && b.table[h] == a.table[h])
    && (forall h :: h in b.table ==> h in a.table || h in owned || Stuck(a, b, h))
    && (forall h :: h in owned ==>
          && h in b.table && h !in a.table
          && b.table[h].grant >= a.w.next && b.table[h].grant !in b.tried)
    && a.refused <= b.refused
    && (forall h :: Stuck(a, b, h) ==> h in b.table && h !in a.table && h !in owned)
    && (forall i, j :: |a.refused| <= i < j < |b.refused| ==> b.refused[i].handle != b.refused[j].handle)
    && a.tried <= b.tried
    && (forall i :: |a.tried| <= i < |b.tried| ==> b.tried[i] >= a.w.next)
    && (forall i, j :: |a.tried| <= i < j < |b.tried| ==> b.tried[i] != b.tried[j])
  }

  /** The refused closes since `a`, in the order they were attempted. */
  function RefusedSince(a: State, b: State): seq<Strand>
    requires a.refused <= b.refused
  {
    b.refused[|a.refused|..]
  }

  /** A failure reports exactly the refused closes: all of them if it is a strand,
      and there were none if it is not. */
  ghost predicate Reports(a: State, b: State, f: Failure) {
    && a.refused <= b.refused
    && RefusedSince(a, b) == Nested(f)
    && (First(f) || Rooted(f))
  }

  /** ... and the failure is not that another holds the lease. */
  ghost predicate PlainlyReports(a: State, b: State, f: Failure) {
    Reports(a, b, f) && f != Contended
  }

  /** What a call adds to the handles its caller owns, whatever the caller's base. */
  ghost predicate Adds(b: State, c: State, gained: set<int>) {
    forall a, owned: set<int> {:trigger Settled(a, b, owned)} ::
      Settled(a, b, owned) ==> Settled(a, c, owned + gained)
  }

  ghost predicate AddsNothing(b: State, c: State) {
    forall a, owned: set<int> {:trigger Settled(a, b, owned)} ::
      Settled(a, b, owned) ==> Settled(a, c, owned)
  }

  /** `b` keeps every handle `a` has, but for `closed`. */
  ghost predicate KeepsTable(a: State, b: State, closed: set<int>) {
    forall h :: h in a.table && h !in closed ==> h in b.table && b.table[h] == a.table[h]
  }

  /** Only the grants behind `closed` were tried. */
  ghost predicate TriesOnly(a: State, b: State, closed: set<int>) {
    forall t :: t in b.tried && t !in a.tried ==> exists h :: h in closed && h in a.table && a.table[h].grant == t
  }

  /** What closing the handles `hs`, each once, takes from what a caller owns. */
  ghost predicate Closes(b: State, c: State, hs: set<int>) {
    forall a, owned: set<int> {:trigger Settled(a, b, owned)} ::
      Settled(a, b, owned) && hs <= owned ==> Settled(a, c, owned - hs)
  }

  /** A handle taken and given to a close inside one call is not its caller's. */
  lemma TakenAndClosed(a: State, b: State, c: State, h: int)
    requires h !in a.table && Adds(a, b, {h}) && Closes(b, c, {h})
    ensures AddsNothing(a, c)
  {
    forall base, owned: set<int> | Settled(base, a, owned) ensures Settled(base, c, owned) {
      assert Settled(base, b, owned + {h});
      assert (owned + {h}) - {h} == owned;
    }
  }

  // ------------------------------------------------------------ interference

  /** The object keeps every name it has in a directory. */
  ghost predicate Stays(a: map<Path, Entry>, b: map<Path, Entry>, id: nat) {
    forall name, dir :: Stands(a, name, id, dir) ==> Stands(b, name, id, dir)
  }

  /** An object this process holds against removal, the hold untried, stays in place. */
  ghost predicate Lasting(a: State, b: State) {
    forall g :: g in Grants(a) && g in a.w.opens && g !in b.tried && Delete !in a.w.opens[g].share
      ==> Stays(a.w.ns, b.w.ns, a.w.opens[g].id)
  }

  /** From `a` to `b` what this process holds with untried handles lasts: the opens,
      the objects held, and the fences made of them. */
  ghost predicate Carry(a: State, b: State) {
    && a.tried <= b.tried
    && (forall g :: g in Grants(a) && g in a.w.opens && g !in b.tried ==>
          g in Grants(b) && g in b.w.opens && b.w.opens[g] == a.w.opens[g])
    && Lasting(a, b)
    && forall gs, c {:trigger Fence(a.w, gs, c)} ::
      gs <= Grants(a) && (forall g :: g in gs ==> g !in b.tried) && Fence(a.w, gs, c)
      ==> gs <= Grants(b) && Fence(b.w, gs, c) && Agree(a.w.ns, b.w.ns, c)
  }

  lemma SettledSelf(a: State)
    requires StateOK(a)
    ensures Settled(a, a, {})
  {
  }

  /** Two boundaries in a row are one. */
  lemma SettledThen(a: State, b: State, c: State, owned: set<int>, gained: set<int>)
    requires StateOK(b) && Settled(a, b, owned) && Settled(b, c, gained)
    ensures Settled(a, c, owned + gained)
  {
    forall h ensures Stuck(a, c, h) <==> Stuck(a, b, h) || Stuck(b, c, h) {
      if Stuck(a, b, h) {
        var i :| |a.refused| <= i < |b.refused| && b.refused[i].handle == h;
        assert c.refused[i].handle == h;
      }
      if Stuck(b, c, h) {
        var i :| |b.refused| <= i < |c.refused| && c.refused[i].handle == h;
        assert c.refused[i].handle == h;
      }
      if Stuck(a, c, h) && !Stuck(b, c, h) {
        var i :| |a.refused| <= i < |c.refused| && c.refused[i].handle == h;
        assert b.refused[i].handle == h;
      }
    }
    forall i, j | |a.refused| <= i < j < |c.refused| ensures c.refused[i].handle != c.refused[j].handle {
      if i < |b.refused| {
        assert c.refused[i] == b.refused[i];
        assert Stuck(a, b, b.refused[i].handle);
        if j < |b.refused| {
          assert c.refused[j] == b.refused[j];
        } else {
          assert Stuck(b, c, c.refused[j].handle);
        }
      }
    }
    forall i, j | |a.tried| <= i < j < |c.tried| ensures c.tried[i] != c.tried[j] {
      if i < |b.tried| {
        assert c.tried[i] == b.tried[i] && b.tried[i] in b.tried;
        if j < |b.tried| {
          assert c.tried[j] == b.tried[j];
        }
      }
    }
  }

  lemma CarryNone(a: State)
    ensures Carry(a, a)
  {
  }

  lemma StaysOn(a: map<Path, Entry>, b: map<Path, Entry>, c: map<Path, Entry>, id: nat)
    requires Stays(a, b, id) && Stays(b, c, id)
    ensures Stays(a, c, id)
  {
  }

  lemma LastingOn(a: State, b: State, c: State)
    requires a.tried <= b.tried <= c.tried && Lasting(a, b) && Lasting(b, c)
    requires forall g :: g in Grants(a) && g in a.w.opens && g !in b.tried ==>
               g in Grants(b) && g in b.w.opens && b.w.opens[g] == a.w.opens[g]
    ensures Lasting(a, c)
  {
  }

  lemma LastingStep(a: State, step: Step, b: State)
    requires WorldOK(a.w) && Allowed(a.w, step) && b.w == Apply(a.w, step) && a.tried <= b.tried
    requires step.Shutting? ==> forall g :: g in step.grants && g in Grants(a) ==> g in b.tried
    ensures Lasting(a, b)
  {
    hide Stands, WorldOK, Apply, Allowed;
    forall g | g in Grants(a) && g in a.w.opens && g !in b.tried && Delete !in a.w.opens[g].share
      ensures Stays(a.w.ns, b.w.ns, a.w.opens[g].id)
    {
      assert !Granted(a.w, a.w.opens[g].id, Delete);
      forall name, dir | Stands(a.w.ns, name, a.w.opens[g].id, dir) ensures Stands(b.w.ns, name, a.w.opens[g].id, dir) {
        StandsStill(a.w, step, name, a.w.opens[g].id, dir);
      }
    }
  }

  lemma LastingSame(a: State, b: State)
    requires b.w.ns == a.w.ns
    ensures Lasting(a, b)
  {
  }

  lemma CarryOn(a: State, b: State, c: State)
    requires Carry(a, b) && Carry(b, c)
    ensures Carry(a, c)
  {
    hide Lasting, Fence, Agree;
    LastingOn(a, b, c);
    forall gs, fence | gs <= Grants(a) && (forall g :: g in gs ==> g !in c.tried) && Fence(a.w, gs, fence)
      ensures gs <= Grants(c) && Fence(c.w, gs, fence) && Agree(a.w.ns, c.w.ns, fence)
    {
      assert forall g :: g in gs ==> g !in b.tried;
      AgreeTwice(a.w.ns, b.w.ns, c.w.ns, fence);
    }
  }

  /** Other processes ran: the world may differ, this process's side does not. */
  ghost predicate Waits(a: State, b: State) {
    && b == a.(w := b.w) && a.w.next <= b.w.next
    && (forall h :: h in a.table && a.table[h].grant in a.w.opens ==>
          a.table[h].grant in b.w.opens && b.w.opens[a.table[h].grant] == a.w.opens[a.table[h].grant])
    && Carry(a, b)
  }

  lemma WaitingAdds(b: State, c: State)
    requires c == b.(w := c.w) && b.w.next <= c.w.next
    ensures AddsNothing(b, c)
  {
    forall a, owned: set<int> | Settled(a, b, owned) ensures Settled(a, c, owned) {
      assert forall h :: Stuck(a, c, h) <==> Stuck(a, b, h);
    }
  }

  lemma GainingAdds(b: State, c: State, h: int, slot: Slot)
    requires StateOK(b) && h !in b.table && slot.grant >= b.w.next
    requires c == b.(w := c.w, table := b.table[h := slot]) && b.w.next <= c.w.next
    ensures Adds(b, c, {h})
  {
    forall a, owned: set<int> | Settled(a, b, owned) ensures Settled(a, c, owned + {h}) {
      GainingSettles(a, b, c, owned, h, slot);
    }
  }

  lemma SameStuck(a: State, b: State, c: State)
    requires c.refused == b.refused
    ensures forall k :: Stuck(a, c, k) <==> Stuck(a, b, k)
  {
  }

  lemma GainingSettles(a: State, b: State, c: State, owned: set<int>, h: int, slot: Slot)
    requires StateOK(b) && h !in b.table && slot.grant >= b.w.next && Settled(a, b, owned)
    requires c == b.(w := c.w, table := b.table[h := slot]) && b.w.next <= c.w.next
    ensures Settled(a, c, owned + {h})
  {
    hide Stuck, WorldOK;
    SameStuck(a, b, c);
  }

  lemma MarkingAdds(b: State, c: State, h: int)
    requires h in b.table && c == b.(table := b.table[h := b.table[h].(inherit := true)])
    ensures forall a, owned: set<int> {:trigger Settled(a, b, owned)} ::
              h in owned && Settled(a, b, owned) ==> Settled(a, c, owned)
  {
    forall a, owned: set<int> | h in owned && Settled(a, b, owned) ensures Settled(a, c, owned) {
      assert forall k :: Stuck(a, c, k) <==> Stuck(a, b, k);
    }
  }

  lemma MarkingCarries(a: State, b: State)
    requires b == a.(table := b.table) && a.table.Keys == b.table.Keys
    requires forall h :: h in a.table ==> a.table[h].grant == b.table[h].grant
    ensures Carry(a, b)
  {
    LastingSame(a, b);
    forall g | g in Grants(a) ensures g in Grants(b) {
      var h :| h in a.table && a.table[h].grant == g;
      assert h in b.table && b.table[h].grant == g;
    }
  }

  lemma OpensAcross(w: World, step: Step, gs: set<nat>)
    requires WorldOK(w) && Allowed(w, step) && Spares(step, gs)
    ensures forall g :: g in gs && g in w.opens ==> g in Apply(w, step).opens && Apply(w, step).opens[g] == w.opens[g]
  {
  }

  lemma CarryStep(a: State, b: State, step: Step, c: State)
    requires StateOK(a) && StateOK(b) && Waits(a, b)
    requires Allowed(b.w, step) && Spares(step, Grants(a)) && c == b.(w := Apply(b.w, step))
    ensures StateOK(c) && Waits(a, c)
  {
    hide Fence, Agree, Apply, Allowed, WorldOK, Lasting;
    StepKeepsWorld(b.w, step);
    OpensAcross(b.w, step, Grants(a));
    assert Grants(b) == Grants(a) == Grants(c);
    LastingStep(b, step, c);
    LastingOn(a, b, c);
    forall h | h in a.table ensures a.table[h].grant in Grants(a) {}
    forall gs, fence | gs <= Grants(a) && (forall g :: g in gs ==> g !in c.tried) && Fence(a.w, gs, fence)
      ensures gs <= Grants(c) && Fence(c.w, gs, fence) && Agree(a.w.ns, c.w.ns, fence)
    {
      SparesLess(step, Grants(a), gs);
      FenceStands(b.w, step, gs, fence);
      AgreeTwice(a.w.ns, b.w.ns, c.w.ns, fence);
    }
  }

  lemma SparesLess(step: Step, more: set<nat>, less: set<nat>)
    requires less <= more && Spares(step, more)
    ensures Spares(step, less)
  {
  }

  lemma GainingFence(a: State, opening: Step, h: int, slot: Slot)
    requires StateOK(a) && opening.Opening? && Allowed(a.w, opening)
    requires h >= 0 && h !in a.table && slot.grant == a.w.next
    ensures var b := a.(w := Apply(a.w, opening), table := a.table[h := slot]);
            StateOK(b) && Carry(a, b)
  {
    var b := a.(w := Apply(a.w, opening), table := a.table[h := slot]);
    StepKeepsWorld(a.w, opening);
    LastingSame(a, b);
    assert Grants(a) <= Grants(b) by {
      forall k | k in a.table ensures a.table[k].grant in Grants(b) { assert b.table[k] == a.table[k]; }
    }
    forall gs, fence | gs <= Grants(a) && Fence(a.w, gs, fence)
      ensures Fence(b.w, gs, fence) && Agree(a.w.ns, b.w.ns, fence)
    {
      FenceStands(a.w, opening, gs, fence);
    }
  }

  /** The state after a close of our handle `h` that answers `error`. */
  function AfterClose(b: State, kind: Kind, number: int, h: int, error: int): State
    requires h in b.table
  {
    var tried := b.tried + [b.table[h].grant];
    if error == 0 then
      State(Apply(b.w, Shutting({b.table[h].grant})), b.table - {h}, tried, b.refused)
    else
      State(b.w, b.table, tried, b.refused + [Strand(kind, number, error, h)])
  }

  lemma ClosedSettles(a: State, b: State, owned: set<int>, kind: Kind, number: int, h: int)
    requires StateOK(b) && Settled(a, b, owned) && h in owned
    ensures Settled(a, AfterClose(b, kind, number, h, 0), owned - {h})
  {
    hide WorldOK, Apply;
    var c := AfterClose(b, kind, number, h, 0);
    ShutNext(b.w, {b.table[h].grant});
    assert forall k :: Stuck(a, c, k) <==> Stuck(a, b, k);
  }

  lemma ShutNext(w: World, grants: set<nat>)
    ensures Apply(w, Shutting(grants)).next == w.next
  {
  }

  lemma RefusedStuck(a: State, b: State, c: State, strand: Strand)
    requires a.refused <= b.refused && c.refused == b.refused + [strand]
    ensures forall k :: Stuck(a, c, k) <==> Stuck(a, b, k) || k == strand.handle
  {
    var n := |b.refused|;
    assert c.refused[n] == strand;
    forall k ensures Stuck(a, c, k) <==> Stuck(a, b, k) || k == strand.handle {
      if Stuck(a, b, k) {
        var i :| |a.refused| <= i < n && b.refused[i].handle == k;
        assert c.refused[i].handle == k;
      }
      if Stuck(a, c, k) && k != strand.handle {
        var i :| |a.refused| <= i < |c.refused| && c.refused[i].handle == k;
        assert b.refused[i].handle == k;
      }
    }
  }

  lemma RefusedSettles(a: State, b: State, owned: set<int>, kind: Kind, number: int, h: int, error: int)
    requires StateOK(b) && Settled(a, b, owned) && h in owned && error != 0
    ensures Settled(a, AfterClose(b, kind, number, h, error), owned - {h})
  {
    hide WorldOK, Apply, Stuck;
    var c := AfterClose(b, kind, number, h, error);
    RefusedStuck(a, b, c, Strand(kind, number, error, h));
    forall i | |a.refused| <= i < |b.refused| ensures Stuck(a, b, b.refused[i].handle) { StuckAt(a, b, i); }
  }

  lemma StuckAt(a: State, b: State, i: nat)
    requires |a.refused| <= i < |b.refused|
    ensures Stuck(a, b, b.refused[i].handle)
  {
  }

  lemma ClosingSettles(a: State, b: State, owned: set<int>, kind: Kind, number: int, h: int, error: int)
    requires StateOK(b) && Settled(a, b, owned) && h in owned
    ensures Settled(a, AfterClose(b, kind, number, h, error), owned - {h})
  {
    hide Settled, AfterClose;
    if error == 0 {
      ClosedSettles(a, b, owned, kind, number, h);
    } else {
      RefusedSettles(a, b, owned, kind, number, h, error);
    }
  }

  lemma ClosingCarries(b: State, kind: Kind, number: int, h: int, error: int)
    requires StateOK(b) && h in b.table
    ensures var c := AfterClose(b, kind, number, h, error);
            StateOK(c) && Carry(b, c) && Closes(b, c, {h})
  {
    var c := AfterClose(b, kind, number, h, error);
    StepKeepsWorld(b.w, Shutting({b.table[h].grant}));
    forall a, owned: set<int> | Settled(a, b, owned) && {h} <= owned ensures Settled(a, c, owned - {h}) {
      ClosingSettles(a, b, owned, kind, number, h, error);
    }
    var g := b.table[h].grant;
    assert g in c.tried;
    LastingSame(b, c);
    forall g' | g' in Grants(b) && g' != g ensures g' in Grants(c) && g' in c.w.opens {
      var k :| k in b.table && b.table[k].grant == g';
      assert k in c.table;
    }
    forall gs, fence | gs <= Grants(b) && (forall g' :: g' in gs ==> g' !in c.tried) && Fence(b.w, gs, fence)
      ensures gs <= Grants(c) && Fence(c.w, gs, fence) && Agree(b.w.ns, c.w.ns, fence)
    {
      FenceStands(b.w, Shutting({g}), gs, fence);
    }
  }

  // ------------------------------------------------------------ the calls

  /** Our slot `h` is a fresh open of the object at `p`. */
  ghost predicate OpenedAt(a: State, b: State, h: int, p: Path, access: set<Right>, share: set<Right>) {
    && h >= 0 && h !in a.table && h in b.table && !b.table[h].inherit
    && b.table == a.table[h := b.table[h]]
    && b.table[h].grant >= a.w.next
    && p in b.w.ns && b.table[h].grant in b.w.opens
    && b.w.opens[b.table[h].grant] == Open(b.w.ns[p].id, access, share)
    && b.tried == a.tried && b.refused == a.refused
  }

  /** The open behind one of our handles. */
  ghost function OpenOf(s: State, h: int): Open
    requires StateOK(s) && h in s.table
  {
    s.w.opens[s.table[h].grant]
  }

  /** Some live open of the object at `p` does not go with such an open. */
  ghost predicate Contends(w: World, p: Path, access: set<Right>, share: set<Right>) {
    p in w.ns && exists g :: g in w.opens && w.opens[g].id == w.ns[p].id
                             && !Compatible(w.opens[g], Open(w.ns[p].id, access, share))
  }

  /** Our open behind `h` goes with every other live open of its object. */
  ghost predicate Harmless(s: State, h: int) {
    h in s.table && s.table[h].grant in s.w.opens
    && forall g :: g in s.w.opens && g != s.table[h].grant && s.w.opens[g].id == s.w.opens[s.table[h].grant].id
         ==> Compatible(s.w.opens[g], s.w.opens[s.table[h].grant])
  }

  datatype Reply = Opened(handle: int) | Violation | Denied

  datatype Info = Info(id: nat, node: Node)

  /** What the kernel is asked about names, and what it answers: `Held` when an open of
      the named object itself succeeds, with the physical name and the identity of the
      object opened, `Looked` when an object is asked for by name,
      `Saw` when its attributes are answered, `Tested` for a mere existence test, and
      `Final` when a handle's own name is answered. */
  datatype Event =
    | Held(name: Path, at: Path, id: nat)
    | Looked(name: Path)
    | Saw(name: Path, node: Node)
    | Tested(name: Path)
    | Final(path: Path)

  predicate Asks(e: Event) {
    e.Looked? || e.Saw?
  }

  /** The answer of a successful open of the object the name itself denotes. */
  function HeldAs(ns: map<Path, Entry>, name: Path): Event
    requires NoFollow(ns, name).Some? && NoFollow(ns, name).value in ns
  {
    var p := NoFollow(ns, name).value;
    Held(name, p, ns[p].id)
  }

  class Kernel {
    var s: State
    var fds: map<int, int>
    var log: seq<Event>

    ghost predicate OK() reads this {
      StateOK(s)
    }

    constructor (w: World)
      requires WorldOK(w)
      ensures OK() && s == State(w, map[], [], []) && fds == map[] && log == []
    {
      s := State(w, map[], [], []);
      fds := map[];
      log := [];
    }

    /** Other processes take any number of steps; each is allowed by the share
        rule, and none closes an open of this process. */
    method Interfere()
      requires OK()
      modifies this`s
      ensures OK() && Waits(old(s), s) && AddsNothing(old(s), s)
    {
      var more: nat := *;
      var ours := set h | h in s.table :: s.table[h].grant;
      while more > 0
        invariant OK() && Waits(old(s), s)
      {
        var step: Step := *;
        if Allowed(s.w, step) && (step.Shutting? ==> step.grants !! ours) {
          CarryStep(old(s), s, step, s.(w := Apply(s.w, step)));
          s := s.(w := Apply(s.w, step));
        }
        more := more - 1;
      }
      WaitingAdds(old(s), s);
    }

    /** Other processes run; then an absent name may be made an empty file. */
    method Prepare(name: Path, create: bool)
      requires OK()
      modifies this`s
      ensures OK() && Waits(old(s), s) && AddsNothing(old(s), s)
    {
      Interfere();
      if create && name != [] && NoFollow(s.w.ns, name).None? {
        var d := Follow(s.w.ns, Parent(name)).end;
        if d.Some? {
          var making := Creating(d.value + [name[|name| - 1]], File(Text(None, Named(false, []))));
          if Allowed(s.w, making) {
            CarryStep(old(s), s, making, s.(w := Apply(s.w, making)));
            s := s.(w := Apply(s.w, making));
          }
        }
      }
      WaitingAdds(old(s), s);
    }

    /** A new open of the object at `p`, if the share rule allows it. */
    method Grant(p: Path, access: set<Right>, share: set<Right>) returns (r: Reply)
      requires OK() && p in s.w.ns
      modifies this`s
      ensures OK() && Carry(old(s), s) && s.w.ns == old(s).w.ns
      ensures r.Opened? ==> OpenedAt(old(s), s, r.handle, p, access, share) && Adds(old(s), s, {r.handle})
      ensures r.Opened? ==> Harmless(s, r.handle)
      ensures r.Violation? ==> Contends(s.w, p, access, share)
      ensures !r.Opened? ==> s == old(s)
    {
      var works: bool := *;
      var h: int := *;
      if !works || h < 0 || h in s.table {
        return Denied;
      }
      var opening := Opening(Open(s.w.ns[p].id, access, share));
      if !Allowed(s.w, opening) {
        return Violation;
      }
      var slot := Slot(s.w.next, false);
      StepKeepsWorld(s.w, opening);
      GainingFence(s, opening, h, slot);
      GainingAdds(s, s.(w := Apply(s.w, opening), table := s.table[h := slot]), h, slot);
      s := s.(w := Apply(s.w, opening), table := s.table[h := slot]);
      return Opened(h);
    }

    /** CreateFileW: the name is looked up in the world as it is now; `create`
        opens always, making an empty file of an absent name. */
    method CreateFile(name: Path, follow: bool, access: set<Right>, share: set<Right>, create: bool)
      returns (r: Reply)
      requires OK()
      modifies this`s, this`log
      ensures OK() && Carry(old(s), s)
      ensures r.Opened? ==>
                var p := if follow then Follow(s.w.ns, name).end else NoFollow(s.w.ns, name);
                && p.Some? && OpenedAt(old(s), s, r.handle, p.value, access, share)
                && Adds(old(s), s, {r.handle})
      ensures log == old(log) + (if follow then [Looked(name)] else if r.Opened? then [HeldAs(s.w.ns, name)] else [])
      ensures !r.Opened? ==> AddsNothing(old(s), s) && s.tried == old(s).tried && s.refused == old(s).refused
      ensures r.Opened? ==> Harmless(s, r.handle)
      ensures r.Violation? ==>
                var p := if follow then Follow(s.w.ns, name).end else NoFollow(s.w.ns, name);
                p.Some? && Contends(s.w, p.value, access, share)
    {
      hide Settled, Carry, StateOK, Walk, Follow, NoFollow;
      Prepare(name, create);
      ghost var mid := s;
      if follow { log := log + [Looked(name)]; }
      var at := if follow then Follow(s.w.ns, name).end else NoFollow(s.w.ns, name);
      if at.None? || at.value !in s.w.ns {
        return Denied;
      }
      r := Grant(at.value, access, share);
      CarryOn(old(s), mid, s);
      if !follow && r.Opened? { log := log + [HeldAs(s.w.ns, name)]; }
    }

    /** Path.unlink, its failures suppressed: what the name denotes is removed, if that is
        allowed by then; `tried` is the state it is tried in. */
    method Unlink(name: Path) returns (ghost tried: State)
      requires OK()
      modifies this`s
      ensures OK() && Waits(old(s), s) && AddsNothing(old(s), s)
      ensures StateOK(tried) && Waits(old(s), tried)
      ensures var at := NoFollow(tried.w.ns, name);
              s == if at.Some? && Allowed(tried.w, Removing(at.value))
                   then tried.(w := Apply(tried.w, Removing(at.value))) else tried
    {
      Interfere();
      tried := s;
      var at := NoFollow(s.w.ns, name);
      if at.Some? && Allowed(s.w, Removing(at.value)) {
        CarryStep(old(s), s, Removing(at.value), s.(w := Apply(s.w, Removing(at.value))));
        s := s.(w := Apply(s.w, Removing(at.value)));
      }
      WaitingAdds(old(s), s);
    }

    /** Path.exists: existence alone. */
    method TestPath(name: Path) returns (r: Result<bool>)
      requires OK()
      modifies this`s, this`log
      ensures log == old(log) + [Tested(name)]
      ensures OK() && Waits(old(s), s) && AddsNothing(old(s), s)
      ensures r.Ok? ==> r.value == Follow(s.w.ns, name).end.Some?
      ensures r.Fail? ==> r.failure == OsError
    {
      log := log + [Tested(name)];
      Interfere();
      var works: bool := *;
      if !works { return Fail(OsError); }
      return Ok(Follow(s.w.ns, name).end.Some?);
    }

    /** GetFileAttributesW: the object a name itself denotes. */
    method Attributes(name: Path) returns (r: Result<Node>)
      requires OK()
      modifies this`s, this`log
      ensures log == old(log) + [if r.Ok? then Saw(name, r.value) else Looked(name)]
      ensures OK() && Carry(old(s), s) && AddsNothing(old(s), s)
      ensures s.refused == old(s).refused && s.tried == old(s).tried
      ensures r.Ok? ==> NoFollow(s.w.ns, name).Some? && NoFollow(s.w.ns, name).value in s.w.ns
                        && s.w.ns[NoFollow(s.w.ns, name).value].node == r.value
      ensures r.Fail? ==> r.failure == Refused
    {
      Interfere();
      var works: bool := *;
      var at := NoFollow(s.w.ns, name);
      if !works || at.None? || at.value !in s.w.ns {
        log := log + [Looked(name)];
        return Fail(Refused);
      }
      log := log + [Saw(name, s.w.ns[at.value].node)];
      return Ok(s.w.ns[at.value].node);
    }

    /** GetFileInformationByHandle: identity and attributes of an open object. */
    method Inform(h: int) returns (r: Result<Info>)
      requires OK()
      modifies this`s
      ensures OK() && Waits(old(s), s) && AddsNothing(old(s), s)
      ensures r.Ok? ==> h in s.table && r.value.id == OpenOf(s, h).id
      ensures r.Ok? ==> forall p :: p in s.w.ns && s.w.ns[p].id == r.value.id ==> r.value.node == s.w.ns[p].node
      ensures r.Fail? ==> r.failure == Refused
    {
      Interfere();
      var works: bool := *;
      if !works || h !in s.table { return Fail(Refused); }
      var id := s.w.opens[s.table[h].grant].id;
      var node: Node := *;
      if exists p | p in s.w.ns :: s.w.ns[p].id == id {
        var p :| p in s.w.ns && s.w.ns[p].id == id;
        node := s.w.ns[p].node;
      }
      return Ok(Info(id, node));
    }

    /** GetFinalPathNameByHandleW: the physical name an open object has now. */
    method FinalPath(h: int) returns (r: Result<Path>)
      requires OK()
      modifies this`s, this`log
      ensures log == old(log) + (if r.Ok? then [Final(r.value)] else [])
      ensures OK() && Waits(old(s), s) && AddsNothing(old(s), s)
      ensures r.Ok? ==> h in s.table && r.value in s.w.ns && s.w.ns[r.value].id == OpenOf(s, h).id
      ensures r.Fail? ==> r.failure == Refused
    {
      Interfere();
      var works: bool := *;
      if works && h in s.table {
        var id := s.w.opens[s.table[h].grant].id;
        if exists p | p in s.w.ns :: s.w.ns[p].id == id {
          var p :| p in s.w.ns && s.w.ns[p].id == id;
          log := log + [Final(p)];
          return Ok(p);
        }
      }
      return Fail(Refused);
    }

    /** Reading a text file by name; decoding it may fail too. */
    method ReadText(name: Path) returns (r: Result<Text>)
      requires OK()
      modifies this`s, this`log
      ensures log == old(log) + [Looked(name)]
      ensures OK() && Carry(old(s), s) && AddsNothing(old(s), s)
      ensures s.refused == old(s).refused && s.tried == old(s).tried
      ensures r.Ok? ==> IsFile(s.w.ns, Follow(s.w.ns, name).end)
                        && s.w.ns[Follow(s.w.ns, name).end.value].node.text == r.value
      ensures r.Fail? ==> r.failure == OsError || r.failure == Fault
    {
      log := log + [Looked(name)];
      Interfere();
      var works: bool := *;
      var at := Follow(s.w.ns, name).end;
      if !IsFile(s.w.ns, at) { return Fail(OsError); }
      if !works { return Fail(Fault); }
      return Ok(s.w.ns[at.value].node.text);
    }

    /** Path.is_file. */
    method TestFile(name: Path) returns (r: Result<bool>)
      requires OK()
      modifies this`s, this`log
      ensures log == old(log) + [Tested(name)]
      ensures OK() && Carry(old(s), s) && AddsNothing(old(s), s)
      ensures s.refused == old(s).refused && s.tried == old(s).tried
      ensures r.Ok? ==> r.value == IsFile(s.w.ns, Follow(s.w.ns, name).end)
      ensures r.Fail? ==> r.failure == OsError
    {
      log := log + [Tested(name)];
      Interfere();
      var works: bool := *;
      if !works { return Fail(OsError); }
      return Ok(IsFile(s.w.ns, Follow(s.w.ns, name).end));
    }

    /** git names the common directory of the checkout at `start`. */
    method CommonDir(start: Path) returns (r: Result<Path>)
      requires OK()
      modifies this`s
      ensures OK() && Carry(old(s), s) && AddsNothing(old(s), s)
      ensures s.refused == old(s).refused && s.tried == old(s).tried
      ensures r.Ok? ==> Resolve(s.w.ns, start).name == Some(r.value)
      ensures r.Fail? ==> r.failure == Refused
    {
      Interfere();
      var works: bool := *;
      var name := Resolve(s.w.ns, start).name;
      if !works || name.None? { return Fail(Refused); }
      return Ok(name.value);
    }

    /** SetHandleInformation: children inherit the handle. */
    method MarkInherit(h: int) returns (works: bool)
      requires OK() && h in s.table
      modifies this`s
      ensures OK() && Carry(old(s), s)
      ensures s == old(s).(table := s.table)
      ensures works ==> s.table == old(s).table[h := old(s).table[h].(inherit := true)]
      ensures !works ==> s == old(s)
      ensures forall a, owned: set<int> {:trigger Settled(a, old(s), owned)} ::
                h in owned && Settled(a, old(s), owned) ==> Settled(a, s, owned)
    {
      works := *;
      if works {
        MarkingAdds(s, s.(table := s.table[h := s.table[h].(inherit := true)]), h);
        s := s.(table := s.table[h := s.table[h].(inherit := true)]);
        MarkingCarries(old(s), s);
      }
    }

    /** CloseHandle: 0, or the error of a refusal that leaves the handle live. A
        number that is nobody's is refused, and recorded as a stray close. */
    method CloseHandle(kind: Kind, h: int) returns (error: int)
      requires OK()
      modifies this`s
      ensures OK()
      ensures h in old(s).table ==> s == AfterClose(old(s), kind, h, h, error)
                                    && Carry(old(s), s) && Closes(old(s), s, {h})
      ensures h !in old(s).table ==>
                error != 0 && s == old(s).(tried := old(s).tried + [-1],
                                           refused := old(s).refused + [Strand(kind, h, error, h)])
    {
      error := *;
      if h in s.table {
        ClosingCarries(s, kind, h, h, error);
        s := AfterClose(s, kind, h, h, error);
      } else {
        if error == 0 { error := 6; }
        s := s.(tried := s.tried + [-1], refused := s.refused + [Strand(kind, h, error, h)]);
      }
    }

    /** open_osfhandle: a descriptor that owns the handle from now on. */
    method OpenDescriptor(h: int) returns (r: Result<int>)
      requires h in s.table
      modifies this`fds
      ensures r.Ok? ==> r.value >= 0 && r.value !in old(fds) && fds == old(fds)[r.value := h]
      ensures r.Fail? ==> r.failure == OsError && fds == old(fds)
    {
      var fd: int := *;
      if fd < 0 || fd in fds { return Fail(OsError); }
      fds := fds[fd := h];
      return Ok(fd);
    }

    /** os.close: the descriptor is gone either way; its handle may stay. */
    method CloseDescriptor(fd: int) returns (error: int)
      requires OK() && fd in fds && fds[fd] in s.table
      modifies this`s, this`fds
      ensures OK() && fds == old(fds) - {fd}
      ensures s == AfterClose(old(s), Descriptor, fd, old(fds)[fd], error)
      ensures Carry(old(s), s) && Closes(old(s), s, {old(fds)[fd]})
    {
      error := *;
      ClosingCarries(s, Descriptor, fd, fds[fd], error);
      s := AfterClose(s, Descriptor, fd, fds[fd], error);
      fds := fds - {fd};
    }
  }
}
