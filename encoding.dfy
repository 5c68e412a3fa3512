/**
 * Writing settings out as a connection string, and the proof that the
 * tokenizer reads back exactly what was written: plain values unchanged,
 * quoted values with the doubled delimiter collapsed, later settings
 * overriding earlier ones with the same canonical keyword.
 */
module Encoding {
  import opened Wrappers
  import opened Text
  import opened Errors
  import opened Tokenizer

  datatype Quoting = Plain | SingleQuoted | DoubleQuoted

  datatype Setting = Setting(keyword: string, value: string, quoting: Quoting)

  function QuoteOf(quoting: Quoting): char
    requires quoting != Plain
  {
    if quoting == SingleQuoted then '\'' else '"'
  }

  /** `v` with every occurrence of the delimiter `q` doubled. */
  function Escape(v: string, q: char): (r: string)
    ensures |r| >= |v|
    ensures q !in v ==> r == v
  {
    if v == [] then []
    else (if v[0] == q then [q, q] else [v[0]]) + Escape(v[1..], q)
  }

  function EncodeValue(v: string, quoting: Quoting): string {
    if quoting == Plain then v
    else [QuoteOf(quoting)] + Escape(v, QuoteOf(quoting)) + [QuoteOf(quoting)]
  }

  function EncodeSetting(s: Setting): string {
    s.keyword + "=" + EncodeValue(s.value, s.quoting)
  }

  /** The settings separated by `;`. */
  function Join(ss: seq<Setting>): string {
    if |ss| == 0 then ""
    else if |ss| == 1 then EncodeSetting(ss[0])
    else Join(ss[..|ss| - 1]) + ";" + EncodeSetting(ss[|ss| - 1])
  }

  /** What the settings mean: each stored under its canonical keyword, the last one winning. */
  function Apply(m: Pairs, ss: seq<Setting>): Pairs {
    if ss == [] then m
    else Apply(m, ss[..|ss| - 1])[CanonicalKey(ss[|ss| - 1].keyword) := ss[|ss| - 1].value]
  }

  lemma {:induction false} EscapeAppend(a: string, b: string, q: char)
    ensures Escape(a + b, q) == Escape(a, q) + Escape(b, q)
    decreases |a|
  {
    if a == [] {
      assert a + b == b;
    } else {
      assert (a + b)[1..] == a[1..] + b;
      EscapeAppend(a[1..], b, q);
    }
  }

  lemma JoinSnoc(init: seq<Setting>, last: Setting)
    requires init != []
    ensures Join(init + [last]) == Join(init) + ";" + EncodeSetting(last)
  {
    assert (init + [last])[..|init|] == init;
  }

  predicate WellFormedKeyword(w: string) {
    '=' !in w && ';' !in w && Trim(w) != []
  }

  /** A value that may be written without quotes. */
  predicate PlainValue(v: string) {
    ';' !in v && '\'' !in v && '"' !in v && (v == [] || (!IsSpace(v[0]) && !IsSpace(v[|v| - 1])))
  }

  predicate WellFormed(s: Setting) {
    WellFormedKeyword(s.keyword) && (s.quoting == Plain ==> PlainValue(s.value))
  }

  /** The scanner state right after a setting has been read, before the `;` or the end. */
  function SettingEnd(s: Setting): ScanState {
    var k := CanonicalKey(s.keyword);
    if s.quoting != Plain then Value(k, Closed(QuoteOf(s.quoting)), s.value)
    else if s.value == [] then Value(k, Leading, [])
    else Value(k, Unquoted, s.value)
  }

  // ---------------------------------------------------------------------------
  // Running the scanner over pieces.

  lemma {:induction false} RunAppend(a: string, b: string, st: ScanState, m: Pairs)
    ensures Run(a + b, st, m) == Then(Run(a, st, m), b)
    decreases |a|
  {
    if a == [] {
      assert a + b == b;
    } else {
      assert (a + b)[0] == a[0] && (a + b)[1..] == a[1..] + b;
      match Step(st, m, a[0])
      case Failure(_) =>
      case Success(next) => RunAppend(a[1..], b, next.0, next.1);
    }
  }

  lemma {:induction false} RunKeyword(w: string, raw: string, m: Pairs)
    requires '=' !in w && ';' !in w
    ensures Run(w, Keyword(raw), m) == Success((Keyword(raw + w), m))
    decreases |w|
  {
    if w == [] {
      assert raw + w == raw;
    } else {
      assert raw + w == (raw + [w[0]]) + w[1..];
      RunKeyword(w[1..], raw + [w[0]], m);
    }
  }

  lemma {:induction false} RunUnquoted(v: string, k: string, text: string, m: Pairs)
    requires ';' !in v && '\'' !in v && '"' !in v
    ensures Run(v, Value(k, Unquoted, text), m) == Success((Value(k, Unquoted, text + v), m))
    decreases |v|
  {
    if v == [] {
      assert text + v == text;
    } else {
      assert text + v == (text + [v[0]]) + v[1..];
      RunUnquoted(v[1..], k, text + [v[0]], m);
    }
  }

  /** One character, then the rest. */
  lemma RunCons(c: char, rest: string, st: ScanState, m: Pairs)
    ensures Run([c] + rest, st, m) == Then(Step(st, m, c), rest)
  {
    assert ([c] + rest)[0] == c && ([c] + rest)[1..] == rest;
  }

  /** Inside `q`-quotes, the escaped form of `v` decodes to `v`. */
  lemma {:induction false} RunEscaped(v: string, q: char, k: string, text: string, m: Pairs)
    ensures Run(Escape(v, q), Value(k, Quoted(q), text), m) == Success((Value(k, Quoted(q), text + v), m))
    decreases |v|
  {
    if v == [] {
      assert text + v == text;
    } else {
      var rest := Escape(v[1..], q);
      var st := Value(k, Quoted(q), text);
      if v[0] == q {
        assert Escape(v, q) == [q] + ([q] + rest);
        RunCons(q, [q] + rest, st, m);
        RunCons(q, rest, Value(k, Closed(q), text), m);
      } else {
        assert Escape(v, q) == [v[0]] + rest;
        RunCons(v[0], rest, st, m);
      }
      assert text + v == (text + [v[0]]) + v[1..];
      RunEscaped(v[1..], q, k, text + [v[0]], m);
    }
  }

  /** A keyword and its `=` open the value, the pairs read so far untouched. */
  lemma RunKeywordAndEquals(w: string, m: Pairs)
    requires WellFormedKeyword(w)
    ensures Run(w + "=", Start, m) == Success((Value(CanonicalKey(w), Leading, []), m))
  {
    RunAppend(w, "=", Start, m);
    RunKeyword(w, [], m);
    assert [] + w == w;
    EqualsOpensValue(w, m);
  }

  /** The `=` after a non-blank keyword opens its value. */
  lemma EqualsOpensValue(w: string, m: Pairs)
    requires Trim(w) != []
    ensures Run("=", Keyword(w), m) == Success((Value(CanonicalKey(w), Leading, []), m))
  {
    RunCons('=', [], Keyword(w), m);
    assert "=" == ['='] + [];
  }

  lemma RunQuotedValue(v: string, q: char, k: string, m: Pairs)
    requires IsQuote(q)
    ensures Run([q] + Escape(v, q) + [q], Value(k, Leading, []), m) == Success((Value(k, Closed(q), v), m))
  {
    assert [q] + Escape(v, q) + [q] == [q] + (Escape(v, q) + [q]);
    RunCons(q, Escape(v, q) + [q], Value(k, Leading, []), m);
    RunAppend(Escape(v, q), [q], Value(k, Quoted(q), []), m);
    RunEscaped(v, q, k, [], m);
    assert [] + v == v;
    RunCons(q, [], Value(k, Quoted(q), v), m);
    assert [q] + [] == [q];
  }

  lemma RunPlainValue(v: string, k: string, m: Pairs)
    requires PlainValue(v) && v != []
    ensures Run(v, Value(k, Leading, []), m) == Success((Value(k, Unquoted, v), m))
  {
    assert v == [v[0]] + v[1..];
    assert v[0] in v;
    RunCons(v[0], v[1..], Value(k, Leading, []), m);
    assert Step(Value(k, Leading, []), m, v[0]) == Success((Value(k, Unquoted, [v[0]]), m)) by {
      assert [] + [v[0]] == [v[0]];
    }
    assert forall c :: c in v[1..] ==> c in v;
    RunUnquoted(v[1..], k, [v[0]], m);
  }

  /** A well-formed setting leaves the scanner in SettingEnd, the pairs read so far untouched. */
  lemma RunSetting(s: Setting, m: Pairs)
    requires WellFormed(s)
    ensures Run(EncodeSetting(s), Start, m) == Success((SettingEnd(s), m))
  {
    var k := CanonicalKey(s.keyword);
    var ev := EncodeValue(s.value, s.quoting);
    RunAppend(s.keyword + "=", ev, Start, m);
    RunKeywordAndEquals(s.keyword, m);
    if s.quoting != Plain {
      RunQuotedValue(s.value, QuoteOf(s.quoting), k, m);
    } else if s.value != [] {
      RunPlainValue(s.value, k, m);
    }
  }

  /** What a finished setting stores, at a `;` or at the end of the string. */
  lemma SettingEndCloses(s: Setting, m: Pairs)
    requires WellFormed(s)
    ensures Step(SettingEnd(s), m, ';') == Success((Start, m[CanonicalKey(s.keyword) := s.value]))
    ensures Finish(SettingEnd(s), m) == Success(m[CanonicalKey(s.keyword) := s.value])
  {
    var k := CanonicalKey(s.keyword);
    if s.quoting != Plain {
      ValueCloses(k, Closed(QuoteOf(s.quoting)), s.value, m);
    } else if s.value == [] {
      ValueCloses(k, Leading, s.value, m);
    } else {
      TrimRightOfTrimmed(s.value);
      ValueCloses(k, Unquoted, s.value, m);
    }
  }

  /** A value that is not inside open quotes is stored, as read, at a `;` or at the end. */
  lemma ValueCloses(k: string, phase: Phase, text: string, m: Pairs)
    requires (phase.Closed? && IsQuote(phase.quote)) || (phase == Leading && text == []) || (phase == Unquoted && TrimRight(text) == text)
    ensures Step(Value(k, phase, text), m, ';') == Success((Start, m[k := text]))
    ensures Finish(Value(k, phase, text), m) == Success(m[k := text])
  {
  }

  /** Reading the joined settings leaves the last one open, all the earlier ones stored. */
  lemma {:induction false} RunJoin(ss: seq<Setting>)
    requires |ss| > 0
    requires forall i :: 0 <= i < |ss| ==> WellFormed(ss[i])
    ensures Run(Join(ss), Start, map[]) == Success((SettingEnd(ss[|ss| - 1]), Apply(map[], ss[..|ss| - 1])))
    decreases |ss|
  {
    var n := |ss|;
    if n == 1 {
      RunJoinOne(ss);
    } else {
      var init := ss[..n - 1];
      assert forall i :: 0 <= i < |init| ==> init[i] == ss[i];
      RunJoin(init);
      JoinLast(ss, init);
    }
  }

  /** The step of `RunJoin`: the string read so far is the settings but the last. */
  lemma JoinLast(ss: seq<Setting>, init: seq<Setting>)
    requires |ss| > 1 && init == ss[..|ss| - 1]
    requires WellFormed(ss[|ss| - 2]) && WellFormed(ss[|ss| - 1])
    requires Run(Join(init), Start, map[]) == Success((SettingEnd(init[|init| - 1]), Apply(map[], init[..|init| - 1])))
    ensures Run(Join(ss), Start, map[]) == Success((SettingEnd(ss[|ss| - 1]), Apply(map[], ss[..|ss| - 1])))
  {
    var last := ss[|ss| - 1];
    assert init[|init| - 1] == ss[|ss| - 2];
    assert init + [last] == ss;
    JoinStep(init, last);
  }

  lemma RunJoinOne(ss: seq<Setting>)
    requires |ss| == 1 && WellFormed(ss[0])
    ensures Run(Join(ss), Start, map[]) == Success((SettingEnd(ss[0]), Apply(map[], ss[..0])))
  {
    RunSetting(ss[0], map[]);
    assert |ss[..0]| == 0;
  }

  /** A `;` after the last setting stores it and returns to the start of a setting. */
  lemma CloseLast(init: seq<Setting>)
    requires |init| > 0 && WellFormed(init[|init| - 1])
    requires Run(Join(init), Start, map[]) == Success((SettingEnd(init[|init| - 1]), Apply(map[], init[..|init| - 1])))
    ensures Run(Join(init) + ";", Start, map[]) == Success((Start, Apply(map[], init)))
  {
    var prev := init[|init| - 1];
    var before := Apply(map[], init[..|init| - 1]);
    SemicolonCloses(prev, before);
    RunAppend(Join(init), ";", Start, map[]);
  }

  lemma SemicolonCloses(s: Setting, m: Pairs)
    requires WellFormed(s)
    ensures Run(";", SettingEnd(s), m) == Success((Start, m[CanonicalKey(s.keyword) := s.value]))
  {
    SettingEndCloses(s, m);
    RunCons(';', [], SettingEnd(s), m);
    assert ";" == [';'] + [];
  }

  /** One more setting after a `;`: the previous one is stored and the new one is open. */
  lemma JoinStep(init: seq<Setting>, last: Setting)
    requires |init| > 0 && WellFormed(init[|init| - 1]) && WellFormed(last)
    requires Run(Join(init), Start, map[]) == Success((SettingEnd(init[|init| - 1]), Apply(map[], init[..|init| - 1])))
    ensures Run(Join(init + [last]), Start, map[]) == Success((SettingEnd(last), Apply(map[], init)))
  {
    var j, e := Join(init), EncodeSetting(last);
    CloseLast(init);
    RunSetting(last, Apply(map[], init));
    RunAppend(j + ";", e, Start, map[]);
    JoinSnoc(init, last);
  }

  /** Round trip: the tokenizer reads back exactly the settings that were written. */
  lemma ParseJoin(ss: seq<Setting>)
    requires forall i :: 0 <= i < |ss| ==> WellFormed(ss[i])
    ensures Parse(Join(ss)) == Success(Apply(map[], ss))
    ensures Parse(Join(ss) + ";") == Success(Apply(map[], ss))
  {
    if ss == [] {
      assert Join(ss) + ";" == ";";
      assert ";"[1..] == [];
    } else {
      RunJoin(ss);
      ParseJoinEnd(ss);
      ParseJoinSemicolon(ss);
    }
  }

  /** The last setting is stored when the string ends right after it. */
  lemma ParseJoinEnd(ss: seq<Setting>)
    requires ss != [] && WellFormed(ss[|ss| - 1])
    requires Run(Join(ss), Start, map[]) == Success((SettingEnd(ss[|ss| - 1]), Apply(map[], ss[..|ss| - 1])))
    ensures Parse(Join(ss)) == Success(Apply(map[], ss))
  {
    SettingEndCloses(ss[|ss| - 1], Apply(map[], ss[..|ss| - 1]));
  }

  /** The last setting is stored by a trailing `;` too. */
  lemma ParseJoinSemicolon(ss: seq<Setting>)
    requires ss != [] && WellFormed(ss[|ss| - 1])
    requires Run(Join(ss), Start, map[]) == Success((SettingEnd(ss[|ss| - 1]), Apply(map[], ss[..|ss| - 1])))
    ensures Parse(Join(ss) + ";") == Success(Apply(map[], ss))
  {
    CloseLast(ss);
    assert Run([], Start, Apply(map[], ss)) == Success((Start, Apply(map[], ss)));
  }

}
