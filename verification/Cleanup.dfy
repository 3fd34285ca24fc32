// Letting go: every object a boundary acquired is closed exactly once, in order,
// whatever the kernel answers to the closes before it; and the temporary handles
// that are let go before their result is used.
module Cleanup {
  import opened Options
  import opened Namespace
  import opened Fences
  import opened Strands
  import opened Kernels

  /** One hold of a name on the resolution chain. */
  datatype Pin = Pin(path: Path, role: string, handle: int)

  datatype Item = Item(kind: Kind, handle: int)

  function PinItems(pins: seq<Pin>): (items: seq<Item>)
    ensures |items| == |pins|
    ensures forall i :: 0 <= i < |pins| ==> items[i] == Item(PinHandle, pins[i].handle)
  {
    seq(|pins|, i requires 0 <= i < |pins| => Item(PinHandle, pins[i].handle))
  }

  ghost function Numbers(items: seq<Item>): set<int> {
    set i | 0 <= i < |items| :: items[i].handle
  }

  ghost function Handles(pins: seq<Pin>): set<int> {
    set i | 0 <= i < |pins| :: pins[i].handle
  }

  ghost predicate Apart(items: seq<Item>) {
    forall i, j :: 0 <= i < j < |items| ==> items[i].handle != items[j].handle
  }

  ghost predicate PinsApart(pins: seq<Pin>) {
    forall i, j :: 0 <= i < j < |pins| ==> pins[i].handle != pins[j].handle
  }

  lemma PinNumbers(pins: seq<Pin>)
    ensures Numbers(PinItems(pins)) == Handles(pins)
    ensures PinsApart(pins) ==> Apart(PinItems(pins))
  {
  }

  lemma ClosesOneMore(a: State, b: State, c: State, hs: set<int>, h: int)
    requires Closes(a, b, hs) && Closes(b, c, {h}) && h !in hs
    ensures Closes(a, c, hs + {h})
  {
    ClosesTogether(a, b, c, hs, {h});
  }

  lemma ClosesTogether(a: State, b: State, c: State, hs: set<int>, ks: set<int>)
    requires Closes(a, b, hs) && Closes(b, c, ks) && hs !! ks
    ensures Closes(a, c, hs + ks)
  {
    forall base, owned: set<int> | Settled(base, a, owned) && hs + ks <= owned
      ensures Settled(base, c, owned - (hs + ks))
    {
      assert Settled(base, b, owned - hs);
      assert (owned - hs) - ks == owned - (hs + ks);
    }
  }

  lemma ClosesNone(a: State)
    ensures Closes(a, a, {})
  {
  }

  /** The grants behind the items, in their order. */
  ghost function Attempts(s: State, items: seq<Item>): (tries: seq<int>)
    ensures |tries| == |items|
  {
    seq(|items|, i requires 0 <= i < |items| =>
      if items[i].handle in s.table then s.table[items[i].handle].grant else -1)
  }

  /** Every item was asked to close, in order and once, and each refusal is named by
      its own kind and number. */
  ghost predicate Accounted(a: State, b: State, items: seq<Item>, refused: seq<Strand>) {
    && b.tried == a.tried + Attempts(a, items)
    && forall i :: 0 <= i < |refused| ==>
         refused[i].error != 0 && refused[i].number == refused[i].handle
         && Item(refused[i].kind, refused[i].handle) in items
  }

  lemma AttemptsExtended(a: State, b: State, items: seq<Item>, item: Item, closed: set<int>)
    requires KeepsTable(a, b, closed) && item.handle in a.table && item.handle !in closed
    ensures item.handle in b.table
    ensures Attempts(a, items + [item]) == Attempts(a, items) + [b.table[item.handle].grant]
  {
  }

  /** Close every item once, in order; the refused ones are named in that order. */
  method CloseAll(k: Kernel, items: seq<Item>) returns (refused: seq<Strand>)
    requires k.OK() && Apart(items) && Numbers(items) <= k.s.table.Keys
    modifies k`s
    ensures k.OK() && Carry(old(k.s), k.s) && Closes(old(k.s), k.s, Numbers(items))
    ensures old(k.s).refused <= k.s.refused && refused == RefusedSince(old(k.s), k.s)
    ensures KeepsTable(old(k.s), k.s, Numbers(items)) && TriesOnly(old(k.s), k.s, Numbers(items))
    ensures Accounted(old(k.s), k.s, items, refused) && (items == [] ==> k.s == old(k.s))
  {
    hide Carry, Closes, StateOK;
    refused := [];
    assert Attempts(k.s, items[..0]) == [];
    ClosesNone(k.s);
    CarryNone(k.s);
    assert Numbers(items[..0]) == {};
    for i := 0 to |items|
      invariant k.OK() && Carry(old(k.s), k.s) && Closes(old(k.s), k.s, Numbers(items[..i]))
      invariant k.s.refused == old(k.s).refused + refused
      invariant KeepsTable(old(k.s), k.s, Numbers(items[..i])) && TriesOnly(old(k.s), k.s, Numbers(items[..i]))
      invariant Accounted(old(k.s), k.s, items[..i], refused) && (i == 0 ==> k.s == old(k.s))
    {
      ghost var before := k.s;
      var h := items[i].handle;
      assert h in Numbers(items);
      assert h !in Numbers(items[..i]);
      assert Numbers(items[..i + 1]) == Numbers(items[..i]) + {h} by {
        assert items[..i + 1] == items[..i] + [items[i]];
        NumbersExtended(items[..i], items[i]);
      }
      assert items[..i + 1] == items[..i] + [items[i]];
      AttemptsExtended(old(k.s), before, items[..i], items[i], Numbers(items[..i]));
      var error := k.CloseHandle(items[i].kind, h);
      CarryOn(old(k.s), before, k.s);
      ClosesOneMore(old(k.s), before, k.s, Numbers(items[..i]), h);
      if error != 0 {
        refused := refused + [Strand(items[i].kind, h, error, h)];
      }
    }
    assert items[..|items|] == items;
  }

  lemma NumbersExtended(items: seq<Item>, item: Item)
    ensures Numbers(items + [item]) == Numbers(items) + {item.handle}
  {
    var more := items + [item];
    forall h | h in Numbers(items) + {item.handle} ensures h in Numbers(more) {
      if h == item.handle {
        assert more[|items|].handle == h;
      } else {
        var i :| 0 <= i < |items| && items[i].handle == h;
        assert more[i].handle == h;
      }
    }
  }

  lemma OneItem(item: Item)
    ensures Numbers([item]) == {item.handle} && Handles([]) == {} && Numbers([item]) + Handles([]) == {item.handle}
  {
    assert [] + [item] == [item];
    NumbersExtended([], item);
  }

  /** The boundary's cleanup: raw handles, then pins. */
  method Abandon(k: Kernel, handles: seq<Item>, pins: seq<Pin>) returns (refused: seq<Strand>)
    requires k.OK() && Apart(handles) && PinsApart(pins) && Numbers(handles) !! Handles(pins)
    requires Numbers(handles) + Handles(pins) <= k.s.table.Keys
    modifies k`s
    ensures k.OK() && Carry(old(k.s), k.s)
    ensures Closes(old(k.s), k.s, Numbers(handles) + Handles(pins))
    ensures KeepsTable(old(k.s), k.s, Numbers(handles) + Handles(pins))
    ensures TriesOnly(old(k.s), k.s, Numbers(handles) + Handles(pins))
    ensures old(k.s).refused <= k.s.refused && refused == RefusedSince(old(k.s), k.s)
    ensures Accounted(old(k.s), k.s, handles + PinItems(pins), refused)
    ensures handles == [] && pins == [] ==> k.s == old(k.s)
  {
    hide Carry, Closes, StateOK;
    PinNumbers(pins);
    var first := CloseAll(k, handles);
    ghost var mid := k.s;
    assert Attempts(old(k.s), handles + PinItems(pins)) == Attempts(old(k.s), handles) + Attempts(mid, PinItems(pins));
    var second := CloseAll(k, PinItems(pins));
    CarryOn(old(k.s), mid, k.s);
    ClosesTogether(old(k.s), mid, k.s, Numbers(handles), Handles(pins));
    refused := first + second;
  }

  // ------------------------------------------------------- temporary handles

  /** A share-all handle for attributes only: it conflicts with nothing. */
  method OpenDirectory(k: Kernel, path: Path) returns (r: Result<int>)
    requires k.OK()
    modifies k`s, k`log
    ensures k.OK() && Carry(old(k.s), k.s) && k.log == old(k.log) + [Looked(path)]
    ensures r.Ok? ==>
              && Follow(k.s.w.ns, path).end.Some?
              && OpenedAt(old(k.s), k.s, r.value, Follow(k.s.w.ns, path).end.value, {}, SHARE_ALL)
              && Adds(old(k.s), k.s, {r.value})
    ensures r.Fail? ==> r.failure == Refused && AddsNothing(old(k.s), k.s)
                        && k.s.refused == old(k.s).refused
  {
    var reply := k.CreateFile(path, true, {}, SHARE_ALL, false);
    if reply.Opened? { return Ok(reply.handle); }
    return Fail(Refused);
  }

  /** The outcome of a boundary around a temporary handle that was let go: the
      inner result, unless a refused close makes it a strand. */
  function LetGo<T>(got: Result<T>, refused: seq<Strand>): (r: Result<T>) {
    if got.Fail? then Fail(Reraise(got.failure, refused))
    else if refused != [] then Fail(Stranded(refused, None))
    else got
  }

  lemma LetGoReports<T>(a: State, b: State, c: State, got: Result<T>, refused: seq<Strand>)
    requires a.refused <= b.refused <= c.refused && refused == RefusedSince(b, c)
    requires got.Fail? ==> Reports(a, b, got.failure)
    requires got.Ok? ==> b.refused == a.refused
    ensures LetGo(got, refused).Fail? ==> Reports(a, c, LetGo(got, refused).failure)
    ensures LetGo(got, refused).Ok? ==> got.Ok? && c.refused == a.refused
  {
  }

  /** The identity of what a name reaches. `looked` is the state in which the name
      was looked up. */
  method DirectoryIdentity(k: Kernel, path: Path) returns (r: Result<nat>, ghost looked: State)
    requires k.OK()
    modifies k`s, k`log
    ensures k.OK() && Carry(old(k.s), k.s) && k.log == old(k.log) + [Looked(path)]
    ensures AddsNothing(old(k.s), k.s)
    ensures r.Fail? ==> PlainlyReports(old(k.s), k.s, r.failure)
    ensures r.Ok? ==> k.s.refused == old(k.s).refused
    ensures r.Ok? ==> StateOK(looked) && Carry(old(k.s), looked) && Carry(looked, k.s)
                      && ReachesIdentity(looked.w.ns, path, r.value)
  {
    hide StateOK, Settled, Fence, Agree, Walk, Follow;
    var probe := OpenDirectory(k, path);
    looked := k.s;
    if probe.Fail? { return Fail(probe.failure), looked; }
    var h := probe.value;
    assert OpenOf(k.s, h).id == k.s.w.ns[Follow(k.s.w.ns, path).end.value].id;
    var info := k.Inform(h);
    ghost var before := k.s;
    var got: Result<nat> := if info.Ok? then Ok(info.value.id) else Fail(Refused);
    OneItem(Item(DirectoryProbe, h));
    var refused := Abandon(k, [Item(DirectoryProbe, h)], []);
    CarryOn(looked, before, k.s);
    CarryOn(old(k.s), looked, k.s);
    TakenAndClosed(old(k.s), before, k.s, h);
    LetGoReports(old(k.s), before, k.s, got, refused);
    r := LetGo(got, refused);
  }

  /** A link's identity and the physical name of what it reaches, from one handle:
      `looked` when it was opened, `named` when its name was read. */
  method ProbeTarget(k: Kernel, path: Path) returns (r: Result<(nat, Path)>, ghost looked: State, ghost named: State)
    requires k.OK()
    modifies k`s, k`log
    ensures k.OK() && Carry(old(k.s), k.s)
    ensures k.log == old(k.log) + [Looked(path)]
            || (|k.log| == |old(k.log)| + 2 && k.log == old(k.log) + [Looked(path), k.log[|k.log| - 1]] && k.log[|k.log| - 1].Final?)
    ensures r.Ok? ==> k.log == old(k.log) + [Looked(path), Final(r.value.1)]
    ensures AddsNothing(old(k.s), k.s)
    ensures r.Fail? ==> PlainlyReports(old(k.s), k.s, r.failure)
    ensures r.Ok? ==> k.s.refused == old(k.s).refused
    ensures r.Ok? ==>
              && StateOK(looked) && Carry(old(k.s), looked) && ReachesIdentity(looked.w.ns, path, r.value.0)
              && StateOK(named) && Carry(looked, named) && Carry(named, k.s)
              && r.value.1 in named.w.ns && named.w.ns[r.value.1].id == r.value.0
  {
    hide StateOK, Settled, Fence, Agree, Walk, Follow, Carry;
    var probe := OpenDirectory(k, path);
    looked, named := k.s, k.s;
    if probe.Fail? { return Fail(probe.failure), looked, named; }
    var h := probe.value;
    assert OpenOf(k.s, h).id == k.s.w.ns[Follow(k.s.w.ns, path).end.value].id;
    var info := k.Inform(h);
    ghost var informed := k.s;
    var got: Result<(nat, Path)> := Fail(Refused);
    CarryOn(old(k.s), looked, informed);
    if info.Ok? {
      var name := k.FinalPath(h);
      CarryOn(looked, informed, k.s);
      CarryOn(old(k.s), informed, k.s);
      if name.Ok? { got := Ok((info.value.id, name.value)); }
    }
    named := k.s;
    OneItem(Item(DirectoryProbe, h));
    var refused := Abandon(k, [Item(DirectoryProbe, h)], []);
    CarryOn(old(k.s), named, k.s);
    TakenAndClosed(old(k.s), named, k.s, h);
    LetGoReports(old(k.s), named, k.s, got, refused);
    r := LetGo(got, refused);
  }

  ghost predicate ReachesIdentity(ns: map<Path, Entry>, name: Path, id: nat) {
    var way := Follow(ns, name);
    way.end.Some? && way.end.value in ns && ns[way.end.value].id == id
  }
}
