// Where the recorded mentions of a message are written, and the message rendered with
// them marked: nothing of the text is lost, and nothing is marked that no record names.
module Mentions {
  import opened Options

  datatype Reference = Reference(subject: string, slug: string, name: string)

  datatype Mark = Mark(at: nat, length: nat, reference: Reference)

  datatype Piece = Plain(text: string) | Mention(text: string, reference: Reference)

  predicate Space(c: char) {
    c in {'\t', '\n', '\U{0B}', '\U{0C}', '\r', ' ', '\U{A0}', '\U{1680}', '\U{2000}', '\U{2001}', '\U{2002}',
          '\U{2003}', '\U{2004}', '\U{2005}', '\U{2006}', '\U{2007}', '\U{2008}', '\U{2009}', '\U{200A}', '\U{2028}',
          '\U{2029}', '\U{202F}', '\U{205F}', '\U{3000}', '\U{FEFF}'}
  }

  predicate SlugChar(c: char) {
    'a' <= c <= 'z' || '0' <= c <= '9' || c == '-'
  }

  function Written(reference: Reference): (w: string)
    ensures |w| == |reference.slug| + 1 && w[0] == '@' && w[1..] == reference.slug
  {
    "@" + reference.slug
  }

  predicate Occurs(text: string, w: string, at: nat) {
    at + |w| <= |text| && text[at..at + |w|] == w
  }

  /** White space before, and nothing after that could continue the slug. */
  predicate Bounded(text: string, w: string, at: nat)
    requires at + |w| <= |text|
  {
    && (at > 0 ==> Space(text[at - 1]))
    && (at + |w| < |text| ==> !SlugChar(text[at + |w|]))
  }

  predicate Overlaps(mark: Mark, at: nat, length: nat) {
    at < mark.at + mark.length && mark.at < at + length
  }

  predicate Free(taken: seq<Mark>, at: nat, length: nat) {
    forall i | 0 <= i < |taken| :: !Overlaps(taken[i], at, length)
  }

  /** A place the mention may be marked at, given the marks already made. */
  predicate Markable(text: string, w: string, taken: seq<Mark>, at: nat) {
    Occurs(text, w, at) && Bounded(text, w, at) && Free(taken, at, |w|)
  }

  /** The leftmost such place, if there is one. */
  predicate Leftmost(text: string, w: string, taken: seq<Mark>, place: Option<nat>) {
    match place
    case Some(at) => Markable(text, w, taken, at) && forall k | 0 <= k < at :: !Markable(text, w, taken, k)
    case None => forall k | 0 <= k <= |text| :: !Markable(text, w, taken, k)
  }

  /** The first occurrence at or after `from`. */
  method IndexOf(text: string, w: string, from: nat) returns (r: Option<nat>)
    requires w != []
    ensures r.Some? ==> from <= r.value && Occurs(text, w, r.value) && forall k :: from <= k < r.value ==> !Occurs(text, w, k)
    ensures r.None? ==> forall k :: from <= k ==> !Occurs(text, w, k)
  {
    var at := from;
    while at + |w| <= |text|
      invariant from <= at && forall k :: from <= k < at ==> !Occurs(text, w, k)
      decreases |text| - at
    {
      if text[at..at + |w|] == w { return Some(at); }
      at := at + 1;
    }
    return None;
  }

  /** The search of one reference: every occurrence in turn, until one may be marked. */
  method Search(text: string, w: string, taken: seq<Mark>) returns (place: Option<nat>)
    requires w != []
    ensures Leftmost(text, w, taken, place)
  {
    var from := 0;
    while true
      invariant 0 <= from <= |text| + 1
      invariant forall k :: 0 <= k < from ==> !Markable(text, w, taken, k)
      decreases |text| + 1 - from
    {
      var found := IndexOf(text, w, from);
      if found.None? { return None; }
      var at := found.value;
      var end := at + |w|;
      var before, after := at == 0 || Space(text[at - 1]), end == |text| || !SlugChar(text[end]);
      if before && after && Free(taken, at, |w|) { return Some(at); }
      from := at + 1;
    }
    return None;
  }

  // ------------------------------------------------------------ all references

  /** The marks of the first `n` references placed so. */
  function Placed(references: seq<Reference>, places: seq<Option<nat>>, n: nat): seq<Mark>
    requires n <= |references| == |places|
  {
    if n == 0 then []
    else
      Placed(references, places, n - 1) +
      match places[n - 1]
      case None => []
      case Some(at) => [Mark(at, |Written(references[n - 1])|, references[n - 1])]
  }

  /** Each reference in turn has the leftmost place its predecessors left. */
  predicate ChosenUpTo(text: string, references: seq<Reference>, places: seq<Option<nat>>, n: nat)
    requires n <= |references| == |places|
  {
    forall i | 0 <= i < n :: Leftmost(text, Written(references[i]), Placed(references, places, i), places[i])
  }

  predicate Chosen(text: string, references: seq<Reference>, places: seq<Option<nat>>)
    requires |references| == |places|
  {
    ChosenUpTo(text, references, places, |references|)
  }

  predicate Inside(text: string, marks: seq<Mark>) {
    forall i | 0 <= i < |marks| ::
      marks[i].length == |Written(marks[i].reference)| && Occurs(text, Written(marks[i].reference), marks[i].at)
  }

  predicate Disjoint(marks: seq<Mark>) {
    forall i, j | 0 <= i < j < |marks| :: !Overlaps(marks[i], marks[j].at, marks[j].length)
  }

  predicate Ordered(marks: seq<Mark>) {
    forall i, j | 0 <= i < j < |marks| :: marks[i].at + marks[i].length <= marks[j].at
  }

  lemma {:induction false} PlacedWell(text: string, references: seq<Reference>, places: seq<Option<nat>>, n: nat)
    requires n <= |references| == |places| && Chosen(text, references, places)
    ensures Inside(text, Placed(references, places, n)) && Disjoint(Placed(references, places, n))
  {
    hide Leftmost, Inside, Disjoint, Written, Placed, ChosenUpTo;
    LastPlaced(references, places, n);
    if n > 0 {
      PlacedWell(text, references, places, n - 1);
      ChosenAt(text, references, places, n - 1);
      var marks := Placed(references, places, n - 1);
      match places[n - 1]
      case None =>
      case Some(at) => MarkAdded(text, references[n - 1], marks, at);
    } else {
      NoMarks(text);
    }
  }

  lemma LastPlaced(references: seq<Reference>, places: seq<Option<nat>>, n: nat)
    requires n <= |references| == |places|
    ensures if n == 0 then Placed(references, places, n) == []
            else
              var marks := Placed(references, places, n - 1);
              Placed(references, places, n) ==
              match places[n - 1]
              case None => marks
              case Some(at) => marks + [Mark(at, |Written(references[n - 1])|, references[n - 1])]
  {
    hide Written;
  }

  lemma ChosenAt(text: string, references: seq<Reference>, places: seq<Option<nat>>, i: nat)
    requires |references| == |places| && i < |references| && Chosen(text, references, places)
    ensures Leftmost(text, Written(references[i]), Placed(references, places, i), places[i])
  {
    hide Leftmost, Placed, Written;
  }

  lemma NoMarks(text: string)
    ensures Inside(text, []) && Disjoint([]) && Ordered([])
  {
  }

  lemma MarkAdded(text: string, reference: Reference, marks: seq<Mark>, at: nat)
    requires Inside(text, marks) && Disjoint(marks)
    requires Leftmost(text, Written(reference), marks, Some(at))
    ensures var more := marks + [Mark(at, |Written(reference)|, reference)];
            Inside(text, more) && Disjoint(more)
  {
    hide Occurs, Bounded, Written;
    assert Markable(text, Written(reference), marks, at);
  }

  /** Only the first `n` places count. */
  lemma {:induction false} PlacedPrefix(references: seq<Reference>, a: seq<Option<nat>>, b: seq<Option<nat>>, n: nat)
    requires |a| == |b| == |references| && n <= |references| && forall i :: 0 <= i < n ==> a[i] == b[i]
    ensures Placed(references, a, n) == Placed(references, b, n)
  {
    if n > 0 { PlacedPrefix(references, a, b, n - 1); }
  }

  lemma ChosenNone(text: string, references: seq<Reference>, places: seq<Option<nat>>)
    requires |references| == |places|
    ensures ChosenUpTo(text, references, places, 0)
  {
  }

  lemma ChosenNext(text: string, references: seq<Reference>, places: seq<Option<nat>>, n: nat, place: Option<nat>)
    requires n < |references| == |places| && ChosenUpTo(text, references, places, n)
    requires Leftmost(text, Written(references[n]), Placed(references, places, n), place)
    ensures var after := places[n := place];
            && ChosenUpTo(text, references, after, n + 1)
            && Placed(references, after, n) == Placed(references, places, n)
  {
    hide Leftmost, Written, Placed;
    var after := places[n := place];
    forall i | 0 <= i <= n ensures Placed(references, after, i) == Placed(references, places, i) {
      PlacedPrefix(references, after, places, i);
    }
  }

  function Insert(marks: seq<Mark>, mark: Mark): seq<Mark> {
    if marks == [] || mark.at < marks[0].at then [mark] + marks else [marks[0]] + Insert(marks[1..], mark)
  }

  function SortedMarks(marks: seq<Mark>): seq<Mark> {
    if marks == [] then [] else Insert(SortedMarks(marks[..|marks| - 1]), marks[|marks| - 1])
  }

  lemma {:induction false} Inserted(marks: seq<Mark>, mark: Mark)
    ensures multiset(Insert(marks, mark)) == multiset(marks) + multiset{mark}
  {
    if marks != [] && mark.at >= marks[0].at {
      Inserted(marks[1..], mark);
      assert marks == [marks[0]] + marks[1..];
    }
  }

  /** Two marks of some length that do not overlap, the one that starts first first. */
  lemma Follows(a: Mark, b: Mark)
    requires !Overlaps(a, b.at, b.length) && a.length > 0 && b.length > 0 && a.at <= b.at
    ensures a.at + a.length <= b.at
  {
  }

  lemma RestOrdered(marks: seq<Mark>)
    requires Ordered(marks) && marks != []
    ensures Ordered(marks[1..]) && forall m :: m in marks[1..] ==> marks[0].at + marks[0].length <= m.at
  {
  }

  lemma FirstOrdered(first: Mark, rest: seq<Mark>)
    requires Ordered(rest) && forall m :: m in rest ==> first.at + first.length <= m.at
    ensures Ordered([first] + rest)
  {
  }

  lemma {:induction false} InsertOrdered(marks: seq<Mark>, mark: Mark)
    requires Ordered(marks) && mark.length > 0 && Free(marks, mark.at, mark.length)
    requires forall i :: 0 <= i < |marks| ==> marks[i].length > 0
    ensures Ordered(Insert(marks, mark))
  {
    hide Ordered, Overlaps;
    if marks == [] {
      FirstOrdered(mark, []) by { NoMarks(""); }
      assert [mark] + marks == [mark] + [];
    } else {
      var first, rest := marks[0], marks[1..];
      assert !Overlaps(first, mark.at, mark.length);
      RestOrdered(marks);
      assert marks == [first] + rest;
      if mark.at < first.at {
        OverlapsBoth(first, mark);
        Follows(mark, first);
        forall m | m in marks ensures mark.at + mark.length <= m.at { if m != first { assert m in rest; } }
        FirstOrdered(mark, marks);
      } else {
        Follows(first, mark);
        InsertOrdered(rest, mark);
        Inserted(rest, mark);
        forall m | m in Insert(rest, mark) ensures first.at + first.length <= m.at {
          assert m in multiset(Insert(rest, mark));
        }
        FirstOrdered(first, Insert(rest, mark));
      }
    }
  }

  lemma OverlapsBoth(a: Mark, b: Mark)
    ensures Overlaps(a, b.at, b.length) == Overlaps(b, a.at, a.length)
  {
  }

  lemma SameMembers(a: seq<Mark>, b: seq<Mark>)
    requires multiset(a) == multiset(b)
    ensures forall i :: 0 <= i < |a| ==> a[i] in b
  {
    forall i | 0 <= i < |a| ensures a[i] in b { assert a[i] in multiset(b); }
  }

  lemma FrontDisjoint(marks: seq<Mark>)
    requires Disjoint(marks) && marks != []
    ensures var front, last := marks[..|marks| - 1], marks[|marks| - 1];
            Disjoint(front) && forall m :: m in front ==> !Overlaps(m, last.at, last.length)
  {
  }

  lemma SortedNext(marks: seq<Mark>)
    requires marks != []
    ensures var front, last := marks[..|marks| - 1], marks[|marks| - 1];
            SortedMarks(marks) == Insert(SortedMarks(front), last) && multiset(marks) == multiset(front) + multiset{last}
  {
    hide Insert;
    assert marks == marks[..|marks| - 1] + [marks[|marks| - 1]];
  }

  predicate Lengthy(marks: seq<Mark>) {
    forall i | 0 <= i < |marks| :: marks[i].length > 0
  }

  /** Disjoint marks, sorted by where they start, follow one another. */
  lemma {:induction false} SortOrders(marks: seq<Mark>)
    requires Disjoint(marks) && Lengthy(marks)
    ensures multiset(SortedMarks(marks)) == multiset(marks) && Ordered(SortedMarks(marks))
  {
    if marks != [] {
      hide Insert, Ordered, Overlaps, SortedMarks, Disjoint;
      var front, last := marks[..|marks| - 1], marks[|marks| - 1];
      FrontDisjoint(marks);
      SortOrders(front);
      var sorted := SortedMarks(front);
      SameMembers(sorted, front);
      InsertOrdered(sorted, last);
      Inserted(sorted, last);
      SortedNext(marks);
    }
  }

  /** The marks of a message, in order of appearance; `places` says which reference is
      marked where. */
  method Locate(text: string, references: seq<Reference>) returns (marks: seq<Mark>, ghost places: seq<Option<nat>>)
    ensures |places| == |references| && Chosen(text, references, places)
    ensures multiset(marks) == multiset(Placed(references, places, |references|))
    ensures Ordered(marks) && Inside(text, marks)
  {
    hide Leftmost, Inside, Ordered, Disjoint, Written, SortedMarks, ChosenUpTo;
    var taken: seq<Mark> := [];
    places := seq(|references|, _ => None);
    ChosenNone(text, references, places);
    for i := 0 to |references|
      invariant |places| == |references| && ChosenUpTo(text, references, places, i)
      invariant taken == Placed(references, places, i)
    {
      var w := Written(references[i]);
      var place := Search(text, w, taken);
      ChosenNext(text, references, places, i, place);
      places := places[i := place];
      if place.Some? { taken := taken + [Mark(place.value, |w|, references[i])]; }
    }
    PlacedWell(text, references, places, |references|);
    Lengths(text, taken);
    SortOrders(taken);
    marks := SortedMarks(taken);
    InsideAny(text, taken, marks);
  }

  lemma Lengths(text: string, marks: seq<Mark>)
    requires Inside(text, marks)
    ensures forall i :: 0 <= i < |marks| ==> marks[i].length > 0
  {
  }

  lemma InsideAny(text: string, a: seq<Mark>, b: seq<Mark>)
    requires Inside(text, a) && multiset(a) == multiset(b)
    ensures Inside(text, b)
  {
    SameMembers(b, a);
  }

  // ------------------------------------------------------------ rendering

  function Spelled(pieces: seq<Piece>): string {
    if pieces == [] then "" else Spelled(pieces[..|pieces| - 1]) + pieces[|pieces| - 1].text
  }

  function Marked(pieces: seq<Piece>): seq<Piece> {
    if pieces == [] then []
    else
      var front, last := Marked(pieces[..|pieces| - 1]), pieces[|pieces| - 1];
      if last.Mention? then front + [last] else front
  }

  lemma PieceAdded(pieces: seq<Piece>, piece: Piece)
    ensures Spelled(pieces + [piece]) == Spelled(pieces) + piece.text
    ensures Marked(pieces + [piece]) == if piece.Mention? then Marked(pieces) + [piece] else Marked(pieces)
  {
    assert (pieces + [piece])[..|pieces|] == pieces;
  }

  function MentionAt(text: string, mark: Mark): Piece
    requires mark.at + mark.length <= |text|
  {
    Mention(text[mark.at..mark.at + mark.length], mark.reference)
  }

  lemma Joined(text: string, i: nat, j: nat)
    requires i <= j <= |text|
    ensures text[..i] + text[i..j] == text[..j]
  {
  }

  lemma MarkInside(text: string, marks: seq<Mark>, i: nat)
    requires Inside(text, marks) && i < |marks|
    ensures marks[i].at + marks[i].length <= |text|
    ensures MentionAt(text, marks[i]) == Mention(Written(marks[i].reference), marks[i].reference)
    ensures text[marks[i].at..marks[i].at + marks[i].length] == Written(marks[i].reference)
  {
  }

  /** The text cut at the marks. */
  method Cut(text: string, marks: seq<Mark>) returns (pieces: seq<Piece>)
    requires Ordered(marks) && Inside(text, marks)
    ensures Spelled(pieces) == text
    ensures |Marked(pieces)| == |marks|
    ensures forall i :: 0 <= i < |marks| ==> Marked(pieces)[i] == Mention(Written(marks[i].reference), marks[i].reference)
  {
    hide Inside, Spelled, Marked, Written;
    pieces := [];
    NoPieces();
    var cursor := 0;
    for index := 0 to |marks|
      invariant 0 <= cursor <= |text| && Spelled(pieces) == text[..cursor]
      invariant index < |marks| ==> cursor <= marks[index].at
      invariant index > 0 ==> cursor == marks[index - 1].at + marks[index - 1].length
      invariant |Marked(pieces)| == index
      invariant forall i :: 0 <= i < index ==> Marked(pieces)[i] == Mention(Written(marks[i].reference), marks[i].reference)
    {
      var mark := marks[index];
      MarkInside(text, marks, index);
      if mark.at > cursor {
        PieceAdded(pieces, Plain(text[cursor..mark.at]));
        Joined(text, cursor, mark.at);
        pieces := pieces + [Plain(text[cursor..mark.at])];
      }
      PieceAdded(pieces, MentionAt(text, mark));
      Joined(text, mark.at, mark.at + mark.length);
      pieces := pieces + [MentionAt(text, mark)];
      cursor := mark.at + mark.length;
    }
    Joined(text, cursor, |text|);
    assert text[..|text|] == text && text[cursor..|text|] == text[cursor..];
    if cursor < |text| {
      PieceAdded(pieces, Plain(text[cursor..]));
      pieces := pieces + [Plain(text[cursor..])];
    }
  }

  lemma NoPieces()
    ensures Spelled([]) == "" && Marked([]) == []
  {
  }

  /** The message as shown: all its text, with each recorded mention marked where its
      reference chose its place, spelling exactly its slug. */
  method MentionText(text: string, references: seq<Reference>)
    returns (pieces: seq<Piece>, ghost marks: seq<Mark>, ghost places: seq<Option<nat>>)
    ensures Spelled(pieces) == text
    ensures |places| == |references| && Chosen(text, references, places)
    ensures multiset(marks) == multiset(Placed(references, places, |references|)) && Ordered(marks)
    ensures |Marked(pieces)| == |marks|
    ensures forall i :: 0 <= i < |marks| ==>
              && marks[i].at + marks[i].length <= |text|
              && Marked(pieces)[i] == Mention(Written(marks[i].reference), marks[i].reference)
              && text[marks[i].at..marks[i].at + marks[i].length] == Written(marks[i].reference)
  {
    hide Placed, ChosenUpTo, Ordered, Inside, Spelled, Marked, Written, MentionAt;
    var found;
    found, places := Locate(text, references);
    marks := found;
    if found == [] {
      NoPieces();
      PieceAdded([], Plain(text));
      assert [] + [Plain(text)] == [Plain(text)] && "" + text == text;
      pieces := [Plain(text)];
    } else {
      pieces := Cut(text, found);
    }
    forall i | 0 <= i < |found|
      ensures found[i].at + found[i].length <= |text|
      ensures text[found[i].at..found[i].at + found[i].length] == Written(found[i].reference)
    {
      MarkInside(text, found, i);
    }
  }

  /** A reference has at most one mark, and has one exactly if its mention can be
      marked somewhere. */
  lemma {:induction false} OneMarkEach(references: seq<Reference>, places: seq<Option<nat>>, n: nat)
    requires n <= |references| == |places|
    ensures |Placed(references, places, n)| == |set i | 0 <= i < n && places[i].Some?|
  {
    if n > 0 {
      OneMarkEach(references, places, n - 1);
      var less, all := set i | 0 <= i < n - 1 && places[i].Some?, set i | 0 <= i < n && places[i].Some?;
      assert all == if places[n - 1].Some? then less + {n - 1} else less;
    }
  }
}
