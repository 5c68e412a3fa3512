/**
 * The grammar violations the tokenizer rejects, each stated for every input
 * of its shape, after any number of well-formed settings.
 */
module Rejections {
  import opened Wrappers
  import opened Text
  import opened Errors
  import opened Tokenizer
  import opened Encoding

  lemma {:induction false} ScanAppend(a: string, b: string, st: ScanState, m: Pairs)
    ensures Scan(a + b, st, m) == (match Run(a, st, m) case Failure(e) => Failure(e) case Success(p) => Scan(b, p.0, p.1))
  {
    RunAppend(a, b, st, m);
  }

  /** Well-formed settings and a `;` leave the scanner at a fresh keyword with those settings stored. */
  lemma ParsePrefix(ss: seq<Setting>, rest: string)
    requires |ss| > 0 && forall i :: 0 <= i < |ss| ==> WellFormed(ss[i])
    ensures Parse(Join(ss) + ";" + rest) == Scan(rest, Start, Apply(map[], ss))
  {
    var n := |ss|;
    var before := Apply(map[], ss[..n - 1]);
    RunJoin(ss);
    SettingEndCloses(ss[n - 1], before);
    RunAppend(Join(ss), ";", Start, map[]);
    RunCons(';', [], SettingEnd(ss[n - 1]), before);
    assert ";" == [';'] + [];
    ScanAppend(Join(ss) + ";", rest, Start, map[]);
  }

  /** A quoted value whose closing quote never comes, whatever it holds, doubled quotes included. */
  lemma UnterminatedQuote(w: string, q: char, v: string, m: Pairs)
    requires WellFormedKeyword(w) && IsQuote(q)
    ensures Scan(w + "=" + [q] + Escape(v, q), Start, m) == Failure(MalformedConnectionString)
  {
    var k := CanonicalKey(w);
    RunKeywordAndEquals(w, m);
    RunAppend(w + "=", [q], Start, m);
    RunCons(q, [], Value(k, Leading, []), m);
    assert [q] == [q] + [];
    RunEscaped(v, q, k, [], m);
    assert [] + v == v;
    ScanAppend(w + "=" + [q], Escape(v, q), Start, m);
  }

  /** A delimiter quote that is neither doubled nor followed by `;` or the end. */
  lemma UnescapedQuote(w: string, q: char, v: string, u: string, m: Pairs)
    requires WellFormedKeyword(w) && IsQuote(q)
    requires u != [] && u[0] != q && u[0] != ';'
    ensures Scan(w + "=" + [q] + Escape(v, q) + [q] + u, Start, m) == Failure(MalformedConnectionString)
  {
    var quoted := [q] + Escape(v, q) + [q];
    StrayAfterQuote(w, q, v, u[0], m);
    ScanAppend(w + "=" + quoted + [u[0]], u[1..], Start, m);
    assert w + "=" + quoted + [u[0]] + u[1..] == w + "=" + [q] + Escape(v, q) + [q] + u;
  }

  /** The scanner stops at a character other than the delimiter or `;` right after a closing quote. */
  lemma StrayAfterQuote(w: string, q: char, v: string, c: char, m: Pairs)
    requires WellFormedKeyword(w) && IsQuote(q) && c != q && c != ';'
    ensures Run(w + "=" + ([q] + Escape(v, q) + [q]) + [c], Start, m).Failure?
  {
    var k := CanonicalKey(w);
    var quoted := [q] + Escape(v, q) + [q];
    RunKeywordAndEquals(w, m);
    RunAppend(w + "=", quoted, Start, m);
    RunQuotedValue(v, q, k, m);
    RunAppend(w + "=" + quoted, [c], Start, m);
    RunCons(c, [], Value(k, Closed(q), v), m);
    assert [c] == [c] + [];
  }

  /** A `;`-segment with no `=` in it, whether more follows or not. */
  lemma SegmentWithoutEquals(w: string, t: string, m: Pairs)
    requires WellFormedKeyword(w)
    ensures Scan(w, Start, m) == Failure(MalformedConnectionString)
    ensures Scan(w + ";" + t, Start, m) == Failure(MalformedConnectionString)
  {
    RunKeyword(w, [], m);
    assert [] + w == w;
    RunAppend(w, ";", Start, m);
    RunCons(';', [], Keyword(w), m);
    assert ";" == [';'] + [];
    ScanAppend(w + ";", t, Start, m);
  }

  /** From the start of a value, blanks are skipped and the first other character opens a plain value. */
  lemma {:induction false} RunLeading(v: string, k: string, m: Pairs)
    requires ';' !in v && '\'' !in v && '"' !in v && TrimLeft(v) != []
    ensures Run(v, Value(k, Leading, []), m) == Success((Value(k, Unquoted, TrimLeft(v)), m))
    decreases |v|
  {
    assert v == [v[0]] + v[1..];
    assert v[0] in v;
    assert forall c :: c in v[1..] ==> c in v;
    RunCons(v[0], v[1..], Value(k, Leading, []), m);
    if IsSpace(v[0]) {
      RunLeading(v[1..], k, m);
    } else {
      assert [] + [v[0]] == [v[0]];
      RunUnquoted(v[1..], k, [v[0]], m);
    }
  }

  /**
   * A quote character inside a value that did not start with one: `v` holds
   * no quote and no `;` and something other than blanks, so the quote comes
   * in the middle of a plain value.
   */
  lemma QuoteInPlainValue(w: string, v: string, c: char, t: string, m: Pairs)
    requires WellFormedKeyword(w) && ';' !in v && '\'' !in v && '"' !in v && TrimLeft(v) != [] && IsQuote(c)
    ensures Scan(w + "=" + v + [c] + t, Start, m) == Failure(MalformedConnectionString)
  {
    var k := CanonicalKey(w);
    RunKeywordAndEquals(w, m);
    RunAppend(w + "=", v, Start, m);
    RunLeading(v, k, m);
    RunAppend(w + "=" + v, [c], Start, m);
    RunCons(c, [], Value(k, Unquoted, TrimLeft(v)), m);
    assert [c] == [c] + [];
    ScanAppend(w + "=" + v + [c], t, Start, m);
  }
}
