// How a checkout names its common git directory: through its `.git` entry, the
// pointer that entry may be, and the `commondir` file beside what it names.
module Mapping {
  import opened Options
  import opened Namespace
  import opened Fences

  const GIT := ".git"
  const COMMONDIR := "commondir"
  const LEASE := "machine-exclusive.lease"

  /** Components appended to a directory, `.` and `..` resolved in the text. */
  function Normal(base: Path, parts: seq<string>): Path
    decreases |parts|
  {
    if parts == [] then base
    else if parts[0] == ".." then Normal(if base == [] then [] else Parent(base), parts[1..])
    else if parts[0] == "." || parts[0] == "" then Normal(base, parts[1..])
    else Normal(base + [parts[0]], parts[1..])
  }

  /** A part that stands for itself. */
  predicate Plain(part: string) {
    part !in {"", ".", ".."}
  }

  lemma {:induction false} NormalJoins(base: Path, first: seq<string>, second: seq<string>)
    ensures Normal(base, first + second) == Normal(Normal(base, first), second)
    decreases |first|
  {
    if first == [] {
      assert first + second == second;
    } else {
      assert (first + second)[1..] == first[1..] + second;
      var next := if first[0] == ".." then (if base == [] then [] else Parent(base))
                  else if first[0] == "." || first[0] == "" then base else base + [first[0]];
      NormalJoins(next, first[1..], second);
    }
  }

  lemma {:induction false} NormalPlain(base: Path, parts: seq<string>)
    requires forall i :: 0 <= i < |parts| ==> Plain(parts[i])
    ensures Normal(base, parts) == base + parts
    decreases |parts|
  {
    if parts != [] {
      NormalPlain(base + [parts[0]], parts[1..]);
      assert (base + [parts[0]]) + parts[1..] == base + parts;
    }
  }

  /** What a name comes to: plain parts are appended, a part and the `..` after it drop
      out wherever they stand, and so does a part that names nothing, or a `..` at the
      drive root. */
  lemma NormalMeans(base: Path, parts: seq<string>, before: seq<string>, part: string, after: seq<string>)
    requires Plain(part)
    ensures (forall i :: 0 <= i < |parts| ==> Plain(parts[i])) ==> Normal(base, parts) == base + parts
    ensures Normal(base, before + [part, ".."] + after) == Normal(base, before + after)
    ensures Normal(base, before + ["."] + after) == Normal(base, before + [""] + after) == Normal(base, before + after)
    ensures Normal([], [".."] + after) == Normal([], after)
  {
    if forall i :: 0 <= i < |parts| ==> Plain(parts[i]) { NormalPlain(base, parts); }
    var at := Normal(base, before);
    NormalJoins(base, before, after);
    NormalJoins(base, before + [part, ".."], after);
    NormalJoins(base, before, [part, ".."]);
    NormalJoins(at, [part], [".."]);
    assert [part] + [".."] == [part, ".."];
    assert Normal(at, [part]) == at + [part] by { NormalPlain(at, [part]); }
    assert Parent(at + [part]) == at;
    assert Normal(at + [part], [".."]) == Normal(at, []);
    NormalJoins(base, before + ["."], after);
    NormalJoins(base, before, ["."]);
    NormalJoins(base, before + [""], after);
    NormalJoins(base, before, [""]);
    NormalJoins([], [".."], after);
  }

  function Join(base: Path, named: Named): Path {
    Normal(if named.absolute then [] else base, named.parts)
  }

  predicate IsFile(ns: map<Path, Entry>, p: Option<Path>) {
    p.Some? && p.value in ns && ns[p.value].node.File?
  }

  predicate DirectoryFlag(node: Node) {
    node.Dir? || (node.Link? && node.directory)
  }

  /** The private git directory of a checkout, as a name, with what was crossed. */
  function Private(ns: map<Path, Entry>, anchor: Path): Way {
    var entry := anchor + [GIT];
    var at := NoFollow(ns, entry);
    var way := Follow(ns, entry);
    if at.None? || at.value !in ns then Way(None, {}, 0)
    else if DirectoryFlag(ns[at.value].node) then Way(Some(entry), Follow(ns, anchor).crossed + {at.value}, 0)
    else if IsFile(ns, way.end) && ns[way.end.value].node.text.pointer.Some? then
      Way(Some(Join(anchor, ns[way.end.value].node.text.pointer.value)), Follow(ns, anchor).crossed + way.crossed + {at.value}, 0)
    else Way(None, {}, 0)
  }

  /** The common directory's name, and whether a `commondir` file names it. */
  datatype Mapped = Mapped(name: Option<Path>, named: bool, crossed: set<Path>)

  function Resolve(ns: map<Path, Entry>, anchor: Path): Mapped {
    var private := Private(ns, anchor);
    if private.end.None? then Mapped(None, false, {})
    else
      var file := private.end.value + [COMMONDIR];
      var way := Follow(ns, file);
      if IsFile(ns, way.end) then
        Mapped(Some(Join(private.end.value, ns[way.end.value].node.text.bare)), true,
               private.crossed + way.crossed)
      else Mapped(private.end, false, private.crossed)
  }
}
