// Text as the scripts trim it.
module Texts {

  predicate Blank(c: char) {
    c in {' ', '\t', '\n', '\r', '\U{0B}', '\U{0C}', '\U{1C}', '\U{1D}', '\U{1E}', '\U{1F}', '\U{85}', '\U{A0}',
          '\U{1680}', '\U{2000}', '\U{2001}', '\U{2002}', '\U{2003}', '\U{2004}', '\U{2005}', '\U{2006}', '\U{2007}',
          '\U{2008}', '\U{2009}', '\U{200A}', '\U{2028}', '\U{2029}', '\U{202F}', '\U{205F}', '\U{3000}'}
  }

  /** Outer whitespace removed. */
  function Strip(text: string): string
    decreases |text|
  {
    if text == [] then text
    else if Blank(text[0]) then Strip(text[1..])
    else if Blank(text[|text| - 1]) then Strip(text[..|text| - 1])
    else text
  }

  /** `text` is `part` between blanks. */
  ghost predicate Between(text: string, part: string, i: nat, j: nat) {
    i <= j <= |text| && part == text[i..j]
    && (forall k :: 0 <= k < i ==> Blank(text[k])) && (forall k :: j <= k < |text| ==> Blank(text[k]))
  }

  lemma BetweenFront(text: string, part: string, i: nat, j: nat)
    requires text != [] && Blank(text[0]) && Between(text[1..], part, i, j)
    ensures Between(text, part, i + 1, j + 1)
  {
  }

  lemma BetweenBack(text: string, part: string, i: nat, j: nat)
    requires text != [] && Blank(text[|text| - 1]) && Between(text[..|text| - 1], part, i, j)
    ensures Between(text, part, i, j)
  {
  }

  /** What is left has no blank at either end, and only blanks were taken. */
  lemma {:induction false} Stripped(text: string) returns (i: nat, j: nat)
    ensures Between(text, Strip(text), i, j)
    ensures Strip(text) == [] || (!Blank(Strip(text)[0]) && !Blank(Strip(text)[|Strip(text)| - 1]))
    decreases |text|
  {
    hide Blank;
    if text != [] && Blank(text[0]) {
      i, j := Stripped(text[1..]);
      BetweenFront(text, Strip(text), i, j);
      i, j := i + 1, j + 1;
    } else if text != [] && Blank(text[|text| - 1]) {
      i, j := Stripped(text[..|text| - 1]);
      BetweenBack(text, Strip(text), i, j);
    } else {
      i, j := 0, |text|;
      assert text == text[0..|text|];
    }
  }

  /** No blank at either end. */
  predicate Bare(text: string) {
    text == [] || (!Blank(text[0]) && !Blank(text[|text| - 1]))
  }

  /** Only one part without outer blanks stands between blanks. */
  lemma BetweenOnce(text: string, a: string, b: string, i: nat, j: nat, m: nat, n: nat)
    requires Between(text, a, i, j) && Between(text, b, m, n) && Bare(a) && Bare(b)
    ensures a == b
  {
    assert a != [] ==> a[0] == text[i] && a[|a| - 1] == text[j - 1];
    assert b != [] ==> b[0] == text[m] && b[|b| - 1] == text[n - 1];
  }

  /** What stripping leaves is the one part without outer blanks. */
  lemma StripIff(text: string, part: string)
    ensures Strip(text) == part <==> Bare(part) && exists i, j :: Between(text, part, i, j)
  {
    var i, j := Stripped(text);
    if Bare(part) && exists m, n :: Between(text, part, m, n) {
      var m, n :| Between(text, part, m, n);
      BetweenOnce(text, Strip(text), part, i, j, m, n);
    }
  }
}
