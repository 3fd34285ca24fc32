// Any number of processes on one machine: they take, inherit and let go of opens,
// die, and step through the namespace as the share rule allows. Over every run at
// most one lease is live in a directory, and it keeps its name there.
module Runs {
  import opened Options
  import opened Namespace
  import opened Fences
  import opened Mapping
  import opened Kernels
  import opened Guards
  import opened Bindings
  import opened LeaseOpens

  /** What an acquisition established: the checkout it entered by, the names its
      `holds` fence, and the directory the checkout maps to. */
  datatype Bond = Bond(anchor: Path, names: set<Path>, holds: set<nat>, dir: nat)

  /** `holders` says which processes have a handle to an open, `homes` the identity of
      the directory a lease was opened in, `bonds` which leases are bound. */
  datatype Machine = Machine(w: World, holders: map<nat, set<nat>>, homes: map<nat, nat>, bonds: map<nat, Bond>)

  datatype Event =
    | Act(pid: nat, step: Step)
    | Take(pid: nat, home: Path, access: set<Right>)
    | Bind(grant: nat, bond: Bond)
    | Inherit(parent: nat, child: nat, grants: set<nat>)
    | Close(pid: nat, grant: nat)
    | Die(pid: nat)

  const EMPTY := File(Text(None, Named(false, [])))

  /** OPEN_ALWAYS: an absent lease file is made first. */
  function Made(w: World, home: Path): (made: World)
    ensures home + [LEASE] in made.ns
  {
    var name := home + [LEASE];
    if name in w.ns then w else Apply(w, Creating(name, EMPTY))
  }

  function Opened(w: World, home: Path, access: set<Right>): Step {
    Opening(Open(Made(w, home).ns[home + [LEASE]].id, access, {Read}))
  }

  ghost predicate Possible(m: Machine, e: Event) {
    match e
    case Act(_, step) => !step.Shutting? && Allowed(m.w, step)
    case Take(_, home, access) =>
      Write in access && IsDirectory(m.w.ns, home) && Allowed(Made(m.w, home), Opened(m.w, home, access))
    case Bind(g, bond) =>
      && g in m.homes && g in m.w.opens && bond.holds <= m.w.opens.Keys && Fence(m.w, bond.holds, bond.names)
      && LeaseAt(m.w.ns, bond.names, bond.anchor, bond.dir, m.w.opens[g].id)
    case Inherit(parent, child, grants) =>
      forall g :: g in grants ==> g in m.holders && parent in m.holders[g]
    case Close(pid, g) => g in m.holders && pid in m.holders[g]
    case Die(_) => true
  }

  /** The opens only this process has, among those it lets go. */
  function Last(m: Machine, pid: nat, grants: set<nat>): set<nat> {
    set g | g in m.holders && g in grants && m.holders[g] <= {pid}
  }

  /** A process lets opens go: those nobody else has are shut. */
  function Drop(m: Machine, pid: nat, grants: set<nat>): Machine {
    var gone := Last(m, pid, grants);
    Machine(Apply(m.w, Shutting(gone)),
            map g | g in m.holders && g !in gone :: if g in grants then m.holders[g] - {pid} else m.holders[g],
            m.homes - gone,
            map g | g in m.bonds && g !in gone && m.bonds[g].holds !! gone :: m.bonds[g])
  }

  function Next(m: Machine, e: Event): Machine {
    match e
    case Act(pid, step) =>
      m.(w := Apply(m.w, step), holders := if step.Opening? then m.holders[m.w.next := {pid}] else m.holders)
    case Take(pid, home, access) =>
      var w := Made(m.w, home);
      m.(w := Apply(w, Opened(m.w, home, access)), holders := m.holders[w.next := {pid}],
         homes := m.homes[w.next := (if home in m.w.ns then m.w.ns[home].id else 0)])
    case Bind(g, bond) => m.(bonds := m.bonds[g := bond])
    case Inherit(parent, child, grants) =>
      m.(holders := map g | g in m.holders :: if g in grants then m.holders[g] + {child} else m.holders[g])
    case Close(pid, g) => Drop(m, pid, {g})
    case Die(pid) => Drop(m, pid, m.holders.Keys)
  }

  ghost predicate Run(m: Machine, events: seq<Event>)
    decreases |events|
  {
    events != [] ==> Possible(m, events[0]) && Run(Next(m, events[0]), events[1..])
  }

  ghost function End(m: Machine, events: seq<Event>): Machine
    requires Run(m, events)
    decreases |events|
  {
    if events == [] then m else End(Next(m, events[0]), events[1..])
  }

  // ------------------------------------------------------------ the invariant

  /** All live opens of an object grant one another. */
  ghost predicate Peaceful(w: World) {
    forall g, h :: g in w.opens && h in w.opens && g != h && w.opens[g].id == w.opens[h].id
      ==> Compatible(w.opens[g], w.opens[h])
  }

  /** The open is a lease on the file called so in the directory `dir`. */
  ghost predicate LeaseIn(w: World, g: nat, dir: nat) {
    && g in w.opens && Write in w.opens[g].access && w.opens[g].share == {Read}
    && Stands(w.ns, LEASE, w.opens[g].id, dir)
  }

  ghost predicate BondStands(w: World, g: nat, bond: Bond) {
    && g in w.opens && bond.holds <= w.opens.Keys && Fence(w, bond.holds, bond.names)
    && LeaseAt(w.ns, bond.names, bond.anchor, bond.dir, w.opens[g].id)
  }

  ghost predicate Sound(m: Machine) {
    && WorldOK(m.w) && Peaceful(m.w)
    && m.holders.Keys == m.w.opens.Keys && (forall g :: g in m.holders ==> m.holders[g] != {})
    && m.bonds.Keys <= m.homes.Keys <= m.w.opens.Keys
    && (forall g :: g in m.homes ==> LeaseIn(m.w, g, m.homes[g]))
    && (forall g :: g in m.bonds ==> BondStands(m.w, g, m.bonds[g]))
  }

  lemma PeacefulStays(w: World, step: Step)
    requires WorldOK(w) && Peaceful(w) && Allowed(w, step)
    ensures Peaceful(Apply(w, step))
  {
  }

  /** A lease that is not shut stays the file of that name in that directory. */
  lemma LeaseStays(w: World, step: Step, g: nat, dir: nat)
    requires WorldOK(w) && Allowed(w, step) && LeaseIn(w, g, dir) && (step.Shutting? ==> g !in step.grants)
    ensures LeaseIn(Apply(w, step), g, dir) && Apply(w, step).opens[g] == w.opens[g]
  {
    hide Stands;
    assert !Granted(w, w.opens[g].id, Delete);
    StandsStill(w, step, LEASE, w.opens[g].id, dir);
  }

  lemma BondStays(w: World, step: Step, g: nat, bond: Bond)
    requires WorldOK(w) && Allowed(w, step) && BondStands(w, g, bond)
    requires step.Shutting? ==> g !in step.grants && step.grants !! bond.holds
    ensures BondStands(Apply(w, step), g, bond)
  {
    var v := Apply(w, step);
    StepKeepsWorld(w, step);
    FenceStands(w, step, bond.holds, bond.names);
    LeaseAgrees(w, v, bond.names, bond.anchor, bond.dir, w.opens[g].id);
  }

  // ------------------------------------------------------------ every step keeps it

  lemma WorldStep(w: World, step: Step, homes: map<nat, nat>, bonds: map<nat, Bond>)
    requires WorldOK(w) && Peaceful(w) && Allowed(w, step)
    requires forall g :: g in homes ==> LeaseIn(w, g, homes[g])
    requires forall g :: g in bonds ==> BondStands(w, g, bonds[g])
    requires step.Shutting? ==> step.grants !! homes.Keys
    requires step.Shutting? ==> forall g :: g in bonds ==> g !in step.grants && step.grants !! bonds[g].holds
    ensures var v := Apply(w, step);
            && WorldOK(v) && Peaceful(v)
            && (forall g :: g in homes ==> LeaseIn(v, g, homes[g]))
            && (forall g :: g in bonds ==> BondStands(v, g, bonds[g]))
  {
    hide WorldOK, Peaceful, Allowed, LeaseIn, BondStands, Apply;
    StepKeepsWorld(w, step);
    PeacefulStays(w, step);
    forall g | g in homes ensures LeaseIn(Apply(w, step), g, homes[g]) { LeaseStays(w, step, g, homes[g]); }
    forall g | g in bonds ensures BondStands(Apply(w, step), g, bonds[g]) { BondStays(w, step, g, bonds[g]); }
  }

  lemma ActKeeps(m: Machine, pid: nat, step: Step)
    requires Sound(m) && Possible(m, Act(pid, step))
    ensures Sound(Next(m, Act(pid, step)))
  {
    hide WorldOK, Peaceful, Allowed, LeaseIn, BondStands;
    WorldStep(m.w, step, m.homes, m.bonds);
    Opens(m.w, step);
  }

  lemma Opens(w: World, step: Step)
    requires !step.Shutting?
    ensures Apply(w, step).opens.Keys == w.opens.Keys + if step.Opening? then {w.next} else {}
  {
  }

  lemma TakeKeeps(m: Machine, pid: nat, home: Path, access: set<Right>)
    requires Sound(m) && Possible(m, Take(pid, home, access))
    ensures Sound(Next(m, Take(pid, home, access)))
  {
    hide WorldOK, Peaceful, Allowed, LeaseIn, BondStands;
    var name := home + [LEASE];
    var w := Made(m.w, home);
    assert Parent(name) == home;
    MadeKeeps(m, home);
    var step := Opened(m.w, home, access);
    WorldStep(w, step, m.homes, m.bonds);
    Opens(w, step);
    Landing(m.w, home, access);
  }

  /** Making the absent lease file is a step like any other. */
  lemma MadeKeeps(m: Machine, home: Path)
    requires Sound(m) && IsDirectory(m.w.ns, home)
    ensures var w := Made(m.w, home);
            && WorldOK(w) && Peaceful(w) && w.opens == m.w.opens
            && (forall g :: g in m.homes ==> LeaseIn(w, g, m.homes[g]))
            && (forall g :: g in m.bonds ==> BondStands(w, g, m.bonds[g]))
            && home + [LEASE] in w.ns && home in w.ns && w.ns[home] == m.w.ns[home]
  {
    hide WorldOK, Peaceful, LeaseIn, BondStands;
    assert Parent(home + [LEASE]) == home;
    if home + [LEASE] !in m.w.ns { WorldStep(m.w, Creating(home + [LEASE], EMPTY), m.homes, m.bonds); }
  }

  lemma Landing(w: World, home: Path, access: set<Right>)
    requires IsDirectory(w.ns, home) && home + [LEASE] in Made(w, home).ns && Write in access
    requires home in Made(w, home).ns && Made(w, home).ns[home] == w.ns[home]
    ensures LeaseIn(Apply(Made(w, home), Opened(w, home, access)), Made(w, home).next, w.ns[home].id)
  {
    var v := Apply(Made(w, home), Opened(w, home, access));
    assert Parent(home + [LEASE]) == home;
    assert StandsAt(v.ns, home + [LEASE], LEASE, v.opens[Made(w, home).next].id, w.ns[home].id);
  }

  lemma DropKeeps(m: Machine, pid: nat, grants: set<nat>)
    requires Sound(m)
    ensures Sound(Drop(m, pid, grants))
  {
    hide WorldOK, Peaceful, LeaseIn, BondStands;
    var n, gone := Drop(m, pid, grants), Last(m, pid, grants);
    WorldStep(m.w, Shutting(gone), n.homes, n.bonds);
    assert n.w.opens.Keys == m.w.opens.Keys - gone;
    assert n.holders.Keys == m.holders.Keys - gone;
    forall g | g in n.holders ensures n.holders[g] != {} {
      assert g in grants ==> !(m.holders[g] <= {pid});
    }
    forall g | g in n.bonds ensures g in n.homes {}
  }

  lemma BindKeeps(m: Machine, g: nat, bond: Bond)
    requires Sound(m) && Possible(m, Bind(g, bond))
    ensures Sound(Next(m, Bind(g, bond)))
  {
    hide WorldOK, Peaceful, LeaseIn, Fence, LeaseAt;
  }

  lemma InheritKeeps(m: Machine, parent: nat, child: nat, grants: set<nat>)
    requires Sound(m)
    ensures Sound(Next(m, Inherit(parent, child, grants)))
  {
    hide WorldOK, Peaceful, LeaseIn, BondStands;
    assert Next(m, Inherit(parent, child, grants)).holders.Keys == m.holders.Keys;
  }

  lemma EventKeeps(m: Machine, e: Event)
    requires Sound(m) && Possible(m, e)
    ensures Sound(Next(m, e))
  {
    hide Sound, Drop, Apply;
    match e
    case Act(pid, step) => ActKeeps(m, pid, step);
    case Take(pid, home, access) => TakeKeeps(m, pid, home, access);
    case Bind(g, bond) => BindKeeps(m, g, bond);
    case Inherit(parent, child, grants) => InheritKeeps(m, parent, child, grants);
    case Close(pid, g) => DropKeeps(m, pid, {g});
    case Die(pid) => DropKeeps(m, pid, m.holders.Keys);
  }

  /** Every run keeps the machine sound. */
  lemma {:induction false} RunKeeps(m: Machine, events: seq<Event>)
    requires Sound(m) && Run(m, events)
    ensures Sound(End(m, events))
    decreases |events|
  {
    if events != [] {
      EventKeeps(m, events[0]);
      RunKeeps(Next(m, events[0]), events[1..]);
    }
  }

  // ------------------------------------------------------------ what it comes to

  lemma Place(m: Machine, g: nat) returns (p: Path)
    requires Sound(m) && g in m.homes
    ensures WorldOK(m.w) && Peaceful(m.w) && LeaseIn(m.w, g, m.homes[g])
    ensures StandsAt(m.w.ns, p, LEASE, m.w.opens[g].id, m.homes[g]) && p == Parent(p) + [LEASE]
  {
    hide WorldOK, Peaceful, BondStands;
    assert LeaseIn(m.w, g, m.homes[g]);
    p :| StandsAt(m.w.ns, p, LEASE, m.w.opens[g].id, m.homes[g]);
  }

  /** Two live leases are never on one file. */
  lemma Apart(w: World, g: nat, h: nat, d: nat, e: nat)
    requires Peaceful(w) && LeaseIn(w, g, d) && LeaseIn(w, h, e) && w.opens[g].id == w.opens[h].id
    ensures g == h
  {
  }

  /** One object has one name. */
  lemma OneName(w: World, p: Path, q: Path)
    requires WorldOK(w) && p in w.ns && q in w.ns && w.ns[p].id == w.ns[q].id
    ensures p == q
  {
  }

  /** At most one lease is live in a directory. */
  lemma OneLease(m: Machine, g: nat, h: nat)
    requires Sound(m) && g in m.homes && h in m.homes && m.homes[g] == m.homes[h]
    ensures g == h
  {
    hide Sound, WorldOK, Peaceful, LeaseIn;
    var p := Place(m, g);
    var q := Place(m, h);
    OneName(m.w, Parent(p), Parent(q));
    GrantsRead(m.w, g, m.homes[g]);
    GrantsRead(m.w, h, m.homes[h]);
    Apart(m.w, g, h, m.homes[g], m.homes[h]);
  }

  lemma GrantsRead(w: World, g: nat, dir: nat)
    requires LeaseIn(w, g, dir)
    ensures g in w.opens && !Granted(w, w.opens[g].id, Delete) && !Granted(w, w.opens[g].id, Write)
  {
  }

  /** While a lease lives, no other can be taken in its directory, whatever name the
      directory has by then, and nobody can remove or rename the lease file: a
      holder's close and unlink never takes the name from a newer holder. */
  lemma LeaseExcludes(m: Machine, g: nat, home: Path, pid: nat, access: set<Right>)
    requires Sound(m) && g in m.homes && IsDirectory(m.w.ns, home) && m.w.ns[home].id == m.homes[g]
    ensures g in m.w.opens && home + [LEASE] in m.w.ns && m.w.ns[home + [LEASE]].id == m.w.opens[g].id
    ensures !Possible(m, Take(pid, home, access))
    ensures !Allowed(m.w, Removing(home + [LEASE]))
    ensures forall to :: !Allowed(m.w, Renaming(home + [LEASE], to))
  {
    hide Sound, WorldOK, Peaceful;
    var p := Place(m, g);
    OneName(m.w, Parent(p), home);
    GrantsRead(m.w, g, m.homes[g]);
    if Write in access { Shared(m.w, g, access); }
  }

  lemma Shared(w: World, g: nat, access: set<Right>)
    requires g in w.opens && w.opens[g].share == {Read} && Write in access
    ensures !Allowed(w, Opening(Open(w.opens[g].id, access, {Read})))
  {
  }

  lemma GrantKept(m: Machine, e: Event, g: nat)
    requires Sound(m) && Possible(m, e) && g in m.homes && g in Next(m, e).w.opens
    ensures g in Next(m, e).homes && Next(m, e).homes[g] == m.homes[g]
    ensures Next(m, e).w.opens[g] == m.w.opens[g]
  {
    hide Fence, LeaseAt, BondStands, Peaceful, Stands, Moved;
    assert g in m.w.opens && g < m.w.next;
  }

  /** A grant is never given out again. */
  lemma GoneForGood(m: Machine, e: Event, g: nat)
    requires Possible(m, e) && g < m.w.next && g !in m.w.opens
    ensures g < Next(m, e).w.next && g !in Next(m, e).w.opens
  {
    hide Fence, LeaseAt, Allowed, Moved;
    match e
    case Take(pid, home, access) => assert m.w.next <= Made(m.w, home).next && Made(m.w, home).opens == m.w.opens;
    case Act(pid, step) => assert Apply(m.w, step).opens.Keys <= m.w.opens.Keys + {m.w.next};
    case _ =>
  }

  lemma {:induction false} StaysGone(m: Machine, events: seq<Event>, g: nat)
    requires Sound(m) && Run(m, events) && g < m.w.next && g !in m.w.opens
    ensures g !in End(m, events).w.opens
    decreases |events|
  {
    hide Sound;
    if events != [] {
      EventKeeps(m, events[0]);
      GoneForGood(m, events[0], g);
      StaysGone(Next(m, events[0]), events[1..], g);
    }
  }

  /** Over any run that leaves a lease live, its file is still the one called so in
      the directory it was taken in. */
  lemma {:induction false} NameStands(m: Machine, events: seq<Event>, g: nat)
    requires Sound(m) && Run(m, events) && g in m.homes && g in End(m, events).w.opens
    ensures var n := End(m, events);
            && g in m.w.opens && n.w.opens[g] == m.w.opens[g]
            && g in n.homes && n.homes[g] == m.homes[g] && LeaseIn(n.w, g, m.homes[g])
    decreases |events|
  {
    hide LeaseIn, WorldOK, Peaceful, BondStands;
    if events != [] {
      var n := Next(m, events[0]);
      EventKeeps(m, events[0]);
      if g !in n.w.opens {
        BelowNext(m, events[0], g);
        StaysGone(n, events[1..], g);
      }
      GrantKept(m, events[0], g);
      NameStands(n, events[1..], g);
    }
  }

  lemma BelowNext(m: Machine, e: Event, g: nat)
    requires Sound(m) && Possible(m, e) && g in m.w.opens
    ensures g < Next(m, e).w.next
  {
    hide Fence, LeaseAt, BondStands, Peaceful, LeaseIn, Moved;
  }

  /** Two bound leases entered by one checkout are one lease. */
  lemma OneBoundLease(m: Machine, g: nat, h: nat)
    requires Sound(m) && g in m.bonds && h in m.bonds && m.bonds[g].anchor == m.bonds[h].anchor
    ensures g == h
  {
    hide Fence, MapsTo;
    var a, b := m.bonds[g], m.bonds[h];
    assert BondStands(m.w, g, a) && BondStands(m.w, h, b);
    assert m.w.opens[g].id == m.w.opens[h].id;
    Apart(m.w, g, h, m.homes[g], m.homes[h]);
  }

  /** Where a bound lease's checkout leads. */
  lemma BoundHome(w: World, g: nat, bond: Bond, dir: nat) returns (home: Path)
    requires WorldOK(w) && BondStands(w, g, bond) && LeaseIn(w, g, dir)
    ensures Resolve(w.ns, bond.anchor).name.Some?
    ensures Follow(w.ns, Resolve(w.ns, bond.anchor).name.value).end == Some(home)
    ensures IsDirectory(w.ns, home) && w.ns[home].id == bond.dir == dir
  {
    hide Resolve, Walk, Follow, Fence;
    home := Follow(w.ns, Resolve(w.ns, bond.anchor).name.value).end.value;
    assert Parent(home + [LEASE]) == home;
    var p :| StandsAt(w.ns, p, LEASE, w.opens[g].id, dir);
    assert p == home + [LEASE];
  }

  /** While a bound lease lives, whoever enters by its checkout is led to the lease's own
      directory, and nobody can take another there, bound or not. */
  lemma BoundExcludes(m: Machine, g: nat, pid: nat, access: set<Right>)
    requires Sound(m) && g in m.bonds
    ensures Resolve(m.w.ns, m.bonds[g].anchor).name.Some?
    ensures var home := Follow(m.w.ns, Resolve(m.w.ns, m.bonds[g].anchor).name.value).end;
            && home.Some? && IsDirectory(m.w.ns, home.value) && m.w.ns[home.value].id == m.bonds[g].dir == m.homes[g]
            && !Possible(m, Take(pid, home.value, access))
  {
    hide Resolve, Walk, Follow, BondStands, LeaseIn, Possible;
    var home := BoundHome(m.w, g, m.bonds[g], m.homes[g]);
    LeaseExcludes(m, g, home, pid, access);
  }

  /** The process neither lets go of the open itself nor dies. */
  predicate Clings(e: Event, pid: nat, g: nat) {
    e != Die(pid) && e != Close(pid, g)
  }

  /** It has a handle to the open, and clings to it through these events. */
  ghost predicate Keeps(m: Machine, events: seq<Event>, pid: nat, g: nat) {
    g in m.holders && pid in m.holders[g] && forall e :: e in events ==> Clings(e, pid, g)
  }

  /** ... and to all that a bond is made of, which is not made anew. */
  ghost predicate KeepsBond(m: Machine, events: seq<Event>, pid: nat, g: nat) {
    && g in m.bonds && (forall x :: x in m.bonds[g].holds ==> Keeps(m, events, pid, x))
    && (forall e :: e in events ==> !(e.Bind? && e.grant == g))
  }

  lemma NotLast(m: Machine, pid: nat, grants: set<nat>, heir: nat, x: nat)
    requires x in m.holders && heir in m.holders[x] && (pid != heir || x !in grants)
    ensures x !in Last(m, pid, grants)
  {
  }

  /** What a process keeps hold of through one event. */
  lemma HeldThrough(m: Machine, e: Event, heir: nat, g: nat)
    requires Sound(m) && Possible(m, e) && g in m.holders && heir in m.holders[g] && Clings(e, heir, g)
    ensures g in Next(m, e).holders && heir in Next(m, e).holders[g]
    ensures g in m.homes ==> g in Next(m, e).homes && Next(m, e).homes[g] == m.homes[g]
  {
    hide WorldOK, Peaceful, LeaseIn, BondStands, Allowed, Fence, LeaseAt;
    FreshBelow(m, g);
  }

  lemma FreshBelow(m: Machine, g: nat)
    requires Sound(m) && g in m.holders
    ensures g < m.w.next
    ensures forall home :: g < Made(m.w, home).next
  {
    hide Peaceful, LeaseIn, BondStands;
  }

  lemma BondThrough(m: Machine, e: Event, heir: nat, g: nat)
    requires Sound(m) && Possible(m, e) && g in m.holders && heir in m.holders[g] && Clings(e, heir, g)
    requires KeepsBond(m, [e], heir, g)
    ensures g in Next(m, e).bonds && Next(m, e).bonds[g] == m.bonds[g]
  {
    hide Sound, Possible, Apply, Last;
    assert e in [e];
    match e
    case Close(pid, h) =>
      NotLast(m, pid, {h}, heir, g);
      forall x | x in m.bonds[g].holds ensures x !in Last(m, pid, {h}) { NotLast(m, pid, {h}, heir, x); }
    case Die(pid) =>
      NotLast(m, pid, m.holders.Keys, heir, g);
      forall x | x in m.bonds[g].holds ensures x !in Last(m, pid, m.holders.Keys) { NotLast(m, pid, m.holders.Keys, heir, x); }
    case _ =>
  }

  lemma KeepsNext(m: Machine, events: seq<Event>, heir: nat, g: nat)
    requires Sound(m) && events != [] && Possible(m, events[0]) && Keeps(m, events, heir, g)
    ensures Clings(events[0], heir, g) && Keeps(Next(m, events[0]), events[1..], heir, g)
  {
    hide Sound, Possible, Next;
    HeldThrough(m, events[0], heir, g);
  }

  lemma KeepsBondNext(m: Machine, events: seq<Event>, heir: nat, g: nat)
    requires Sound(m) && events != [] && Possible(m, events[0]) && Keeps(m, events, heir, g) && KeepsBond(m, events, heir, g)
    ensures var n := Next(m, events[0]);
            KeepsBond(n, events[1..], heir, g) && n.bonds[g] == m.bonds[g]
  {
    hide Sound, Possible, Next, Keeps;
    var e := events[0];
    assert forall x :: Keeps(m, events, heir, x) ==> Keeps(m, [e], heir, x) by { FewerEvents(m, events, heir); }
    KeepsFirst(m, events, heir, g);
    assert KeepsBond(m, [e], heir, g);
    BondThrough(m, e, heir, g);
    forall x | x in m.bonds[g].holds ensures Keeps(Next(m, e), events[1..], heir, x) {
      KeepsNext(m, events, heir, x);
    }
  }

  lemma FewerEvents(m: Machine, events: seq<Event>, heir: nat)
    requires events != []
    ensures forall x :: Keeps(m, events, heir, x) ==> Keeps(m, [events[0]], heir, x)
  {
  }

  lemma KeepsFirst(m: Machine, events: seq<Event>, heir: nat, g: nat)
    requires events != [] && Keeps(m, events, heir, g)
    ensures g in m.holders && heir in m.holders[g] && Clings(events[0], heir, g)
  {
  }

  /** While some process that inherited a lease lives and does not close it, the lease
      lives on in its directory whatever becomes of the others; and so does its bond if
      that process has inherited, and does not close, all its holds. */
  lemma {:induction false} HeirsHold(m: Machine, events: seq<Event>, heir: nat, g: nat)
    requires Sound(m) && Run(m, events) && g in m.homes && Keeps(m, events, heir, g)
    ensures var n := End(m, events);
            && g in n.homes && n.homes[g] == m.homes[g] && g in n.holders && heir in n.holders[g]
            && LeaseIn(n.w, g, m.homes[g])
            && (KeepsBond(m, events, heir, g) ==> g in n.bonds && n.bonds[g] == m.bonds[g] && BondStands(n.w, g, m.bonds[g]))
    decreases |events|
  {
    hide WorldOK, Peaceful, LeaseIn, BondStands, Possible, Next, Clings;
    if events != [] {
      EventKeeps(m, events[0]);
      HeldThrough(m, events[0], heir, g);
      KeepsNext(m, events, heir, g);
      if KeepsBond(m, events, heir, g) { KeepsBondNext(m, events, heir, g); }
      HeirsHold(Next(m, events[0]), events[1..], heir, g);
    }
  }

  /** A lease is live exactly while some process has a handle to it. */
  lemma {:induction false} LiveIffHeld(m: Machine, events: seq<Event>, g: nat)
    requires Sound(m) && Run(m, events)
    ensures var n := End(m, events);
            g in n.w.opens <==> g in n.holders && exists pid :: pid in n.holders[g]
  {
    RunKeeps(m, events);
  }

  /** What an acquisition secured is what a bond takes. */
  lemma SecuredBinds(s: State, g: Guard, b: Binding, file: nat)
    requires StateOK(s) && Secured(s, g, b, file)
    ensures g.gs <= s.w.opens.Keys && Fence(s.w, g.gs, g.c) && LeaseAt(s.w.ns, g.c, b.anchor, b.commonId, file)
  {
    forall x | x in g.gs ensures x in s.w.opens { assert x in Grants(s); }
  }

  /** A machine on which nothing is open yet is sound. */
  lemma Starts(w: World)
    requires WorldOK(w) && w.opens == map[]
    ensures Sound(Machine(w, map[], map[], map[]))
  {
  }

  /** A lease an acquisition took is a lease of the machine, sure or not. */
  lemma GraspedIsLease(a: State, s: State, o: Grasp, file: nat, access: set<Right>) returns (dir: nat)
    requires Grasped(a, s, o, file, access) && InPlace(s, file) && Write in access
    ensures LeaseIn(s.w, s.table[o.handle].grant, dir)
  {
    dir :| Stands(s.w.ns, LEASE, file, dir);
  }
}
