/** Character-level helpers: blanks, trimming and ASCII case folding. */
module Text {

  predicate IsSpace(c: char) {
    c == ' ' || c == '\t' || c == '\n' || c == '\r'
  }

  /** Drops the blanks at the front of `s`. */
  function TrimLeft(s: string): (r: string)
    ensures |r| <= |s|
  {
    if s != [] && IsSpace(s[0]) then TrimLeft(s[1..]) else s
  }

  /** Drops the blanks at the back of `s`. */
  function TrimRight(s: string): (r: string)
    ensures |r| <= |s|
  {
    if s != [] && IsSpace(s[|s| - 1]) then TrimRight(s[..|s| - 1]) else s
  }

  /** Trimming at the front drops exactly the leading blanks. */
  lemma {:induction false} TrimLeftDropsLeadingBlanks(s: string)
    ensures var r := TrimLeft(s);
      && r == s[|s| - |r|..]
      && (r == [] || !IsSpace(r[0]))
      && forall i :: 0 <= i < |s| - |r| ==> IsSpace(s[i])
    decreases |s|
  {
    if s != [] && IsSpace(s[0]) {
      TrimLeftDropsLeadingBlanks(s[1..]);
    }
  }

  /** Trimming at the back drops exactly the trailing blanks. */
  lemma {:induction false} TrimRightDropsTrailingBlanks(s: string)
    ensures var r := TrimRight(s);
      && r == s[..|r|]
      && (r == [] || !IsSpace(r[|r| - 1]))
      && forall i :: |r| <= i < |s| ==> IsSpace(s[i])
    decreases |s|
  {
    if s != [] && IsSpace(s[|s| - 1]) {
      TrimRightDropsTrailingBlanks(s[..|s| - 1]);
    }
  }

  function Trim(s: string): string {
    TrimRight(TrimLeft(s))
  }

  /** A string with no blank at either end is its own trimmed form. */
  lemma TrimRightOfTrimmed(s: string)
    requires s == [] || !IsSpace(s[|s| - 1])
    ensures TrimRight(s) == s
  {
  }

  /** A string with no blank at either end is its own trimmed form. */
  lemma TrimOfTrimmed(s: string)
    requires s == [] || (!IsSpace(s[0]) && !IsSpace(s[|s| - 1]))
    ensures Trim(s) == s
  {
  }

  function LowerChar(c: char): (r: char)
    ensures 'A' <= c <= 'Z' ==> r as int == c as int + 32
    ensures !('A' <= c <= 'Z') ==> r == c
  {
    if 'A' <= c <= 'Z' then (c as int + 32) as char else c
  }

  /** ASCII lower-casing, the case folding used for keywords and for authentication names. */
  function Lower(s: string): string {
    seq(|s|, i requires 0 <= i < |s| => LowerChar(s[i]))
  }

  /** `s` with every blank removed, keeping the order of the other characters. */
  function RemoveSpaces(s: string): (r: string)
    ensures |r| <= |s|
  {
    if s == [] then []
    else if IsSpace(s[0]) then RemoveSpaces(s[1..])
    else [s[0]] + RemoveSpaces(s[1..])
  }

  lemma {:induction false} RemoveSpacesAppend(a: string, b: string)
    ensures RemoveSpaces(a + b) == RemoveSpaces(a) + RemoveSpaces(b)
  {
    if a != [] {
      assert (a + b)[1..] == a[1..] + b;
      RemoveSpacesAppend(a[1..], b);
    } else {
      assert a + b == b;
    }
  }

  predicate Solid(w: string) {
    forall i :: 0 <= i < |w| ==> !IsSpace(w[i])
  }

  /** Words separated by single blanks. */
  function Spaced(ws: seq<string>): string {
    if |ws| == 0 then "" else if |ws| == 1 then ws[0] else ws[0] + " " + Spaced(ws[1..])
  }

  function Concat(ws: seq<string>): string {
    if ws == [] then "" else ws[0] + Concat(ws[1..])
  }

  /** Words separated by blanks run together once the blanks are removed. */
  lemma {:induction false} RemoveSpacesOfSpaced(ws: seq<string>)
    requires forall i :: 0 <= i < |ws| ==> Solid(ws[i])
    ensures RemoveSpaces(Spaced(ws)) == Concat(ws)
    decreases |ws|
  {
    if |ws| == 1 {
      RemoveSpacesOfSolid(ws[0]);
      assert Concat(ws[1..]) == "";
    } else if |ws| > 1 {
      var rest := ws[1..];
      RemoveSpacesOfSpaced(rest);
      RemoveSpacesOfSolid(ws[0]);
      RemoveSpacesAppend(ws[0] + " ", Spaced(rest));
      RemoveSpacesAppend(ws[0], " ");
      assert RemoveSpaces(" ") == [];
    }
  }

  /** Words without blanks run together keep all their characters. */
  lemma {:induction false} RemoveSpacesOfSolidWords(ws: seq<string>)
    requires forall i :: 0 <= i < |ws| ==> Solid(ws[i])
    ensures RemoveSpaces(Concat(ws)) == Concat(ws)
    decreases |ws|
  {
    if ws != [] {
      RemoveSpacesOfSolidWords(ws[1..]);
      RemoveSpacesOfSolid(ws[0]);
      RemoveSpacesAppend(ws[0], Concat(ws[1..]));
    }
  }

  lemma {:induction false} RemoveSpacesOfSolid(s: string)
    requires Solid(s)
    ensures RemoveSpaces(s) == s
  {
    if s != [] {
      RemoveSpacesOfSolid(s[1..]);
    }
  }
}
