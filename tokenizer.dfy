/**
 * The connection-string tokenizer: a `;`-separated list of `keyword=value`
 * settings becomes a map from canonical keyword to value.
 *
 * A value is plain (trimmed, no quote and no `;` in it) or enclosed in `'` or
 * `"`. Inside quotes only the enclosing quote needs escaping, by doubling it;
 * the other quote, `=` and `;` stand for themselves. Every grammar violation
 * is the one MalformedConnectionString error.
 */
module Tokenizer {
  import opened Wrappers
  import opened Text
  import opened Errors

  type Pairs = map<string, string>

  predicate IsQuote(c: char) {
    c == '\'' || c == '"'
  }

  /** Keywords are compared after trimming and lower-casing; synonyms share one name. */
  function CanonicalKey(raw: string): string {
    var k := Lower(Trim(raw));
    if k == "user id" then "user"
    else if k == "initial catalog" then "database"
    else if k in {"data source", "address", "addr", "network address"} then "server"
    else if k == "pwd" then "password"
    else k
  }

  /** The synonyms the driver accepts for user, database, server and password. */
  lemma CanonicalKeySynonyms(raw: string)
    ensures Lower(Trim(raw)) in {"user id", "user"} ==> CanonicalKey(raw) == "user"
    ensures Lower(Trim(raw)) in {"initial catalog", "database"} ==> CanonicalKey(raw) == "database"
    ensures Lower(Trim(raw)) in {"server", "data source", "address", "addr", "network address"} ==> CanonicalKey(raw) == "server"
    ensures Lower(Trim(raw)) in {"password", "pwd"} ==> CanonicalKey(raw) == "password"
  {
  }

  // ---------------------------------------------------------------------------
  // The scanner, one character at a time.

  /** Where a value is: before its first character, in a plain value, inside quotes, or just after a quote. */
  datatype Phase = Leading | Unquoted | Quoted(quote: char) | Closed(quote: char)

  /** Reading a keyword (the raw text so far), or the value of canonical keyword `key` (its decoded text so far). */
  datatype ScanState = Keyword(raw: string) | Value(key: string, phase: Phase, text: string)

  const Start := Keyword([])

  /** The value a setting stores when it ends in `phase` with `text` read. */
  function Completed(phase: Phase, text: string): string {
    if phase == Unquoted then TrimRight(text) else text
  }

  function Step(st: ScanState, m: Pairs, c: char): Result<(ScanState, Pairs), ConfigError> {
    match st
    case Keyword(raw) =>
      if c == '=' then
        if Trim(raw) == [] then Failure(MalformedConnectionString)
        else Success((Value(CanonicalKey(raw), Leading, []), m))
      else if c == ';' then
        if Trim(raw) == [] then Success((Start, m)) else Failure(MalformedConnectionString)
      else Success((Keyword(raw + [c]), m))
    case Value(k, phase, text) =>
      match phase
      case Leading =>
        if c == ';' then Success((Start, m[k := text]))
        else if IsQuote(c) then Success((Value(k, Quoted(c), text), m))
        else if IsSpace(c) then Success((st, m))
        else Success((Value(k, Unquoted, text + [c]), m))
      case Unquoted =>
        if c == ';' then Success((Start, m[k := TrimRight(text)]))
        else if IsQuote(c) then Failure(MalformedConnectionString)
        else Success((Value(k, Unquoted, text + [c]), m))
      case Quoted(q) =>
        if c == q then Success((Value(k, Closed(q), text), m))
        else Success((Value(k, Quoted(q), text + [c]), m))
      case Closed(q) =>
        if c == q then Success((Value(k, Quoted(q), text + [q]), m))
        else if c == ';' then Success((Start, m[k := text]))
        else Failure(MalformedConnectionString)
  }

  /** End of input: a blank keyword is a trailing `;`, an open quote is an error. */
  function Finish(st: ScanState, m: Pairs): Result<Pairs, ConfigError> {
    match st
    case Keyword(raw) =>
      if Trim(raw) == [] then Success(m) else Failure(MalformedConnectionString)
    case Value(k, phase, text) =>
      if phase.Quoted? then Failure(MalformedConnectionString)
      else Success(m[k := Completed(phase, text)])
  }

  /** Runs the scanner over `s` without finishing; the only error it can report is the malformed-string one. */
  function Run(s: string, st: ScanState, m: Pairs): (r: Result<(ScanState, Pairs), ConfigError>)
    ensures r.Failure? ==> r.error == MalformedConnectionString
    decreases |s|
  {
    if s == [] then Success((st, m))
    else
      match Step(st, m, s[0])
      case Failure(e) => Failure(e)
      case Success(next) => Run(s[1..], next.0, next.1)
  }

  /** Continues a partial run `r` over `s`. */
  function Then(r: Result<(ScanState, Pairs), ConfigError>, s: string): Result<(ScanState, Pairs), ConfigError> {
    match r
    case Failure(e) => Failure(e)
    case Success(p) => Run(s, p.0, p.1)
  }

  function Scan(s: string, st: ScanState, m: Pairs): Result<Pairs, ConfigError> {
    match Run(s, st, m)
    case Failure(e) => Failure(e)
    case Success(p) => Finish(p.0, p.1)
  }

  /** The specification of the tokenizer. */
  function Parse(s: string): Result<Pairs, ConfigError> {
    Scan(s, Start, map[])
  }

  /** Every rejection is the single malformed-string error, never a field-specific one. */
  lemma ParseFailsOnlyAsMalformed(s: string)
    ensures Parse(s).Failure? ==> Parse(s).error == MalformedConnectionString
  {
  }

  // ---------------------------------------------------------------------------
  // The tokenizer as a loop with a quote state.

  function StateOf(inValue: bool, raw: string, key: string, phase: Phase, text: string): ScanState {
    if inValue then Value(key, phase, text) else Keyword(raw)
  }

  method Tokenize(s: string) returns (r: Result<Pairs, ConfigError>)
    ensures r == Parse(s)
  {
    var m: Pairs := map[];
    var inValue := false;
    var raw, key, text := "", "", "";
    var phase := Leading;
    var i := 0;
    while i < |s|
      invariant i <= |s|
      invariant Run(s, Start, map[]) == Run(s[i..], StateOf(inValue, raw, key, phase, text), m)
    {
      assert s[i..][0] == s[i] && s[i..][1..] == s[i + 1..];
      var ok;
      ok, inValue, raw, key, phase, text, m := Advance(inValue, raw, key, phase, text, m, s[i]);
      if !ok {
        return Failure(MalformedConnectionString);
      }
      i := i + 1;
    }
    assert s[i..] == [];
    if !inValue {
      r := if Trim(raw) == [] then Success(m) else Failure(MalformedConnectionString);
    } else if phase.Quoted? {
      r := Failure(MalformedConnectionString);
    } else {
      r := Success(m[key := Completed(phase, text)]);
    }
  }

  /** One character of the loop: updates the quote state in place, or reports a malformed string. */
  method Advance(inValue: bool, raw: string, key: string, phase: Phase, text: string, m: Pairs, c: char)
    returns (ok: bool, inValue': bool, raw': string, key': string, phase': Phase, text': string, m': Pairs)
    ensures Step(StateOf(inValue, raw, key, phase, text), m, c)
         == if ok then Success((StateOf(inValue', raw', key', phase', text'), m'))
            else Failure(MalformedConnectionString)
  {
    ok, inValue', raw', key', phase', text', m' := true, inValue, raw, key, phase, text, m;
    if !inValue {
      if c == '=' {
        if Trim(raw) == [] {
          ok := false;
        } else {
          inValue', key', phase', text' := true, CanonicalKey(raw), Leading, "";
        }
      } else if c == ';' {
        if Trim(raw) != [] {
          ok := false;
        }
        raw' := "";
      } else {
        raw' := raw + [c];
      }
    } else {
      match phase
      case Leading =>
        if c == ';' {
          m' := m[key := text];
          inValue', raw' := false, "";
        } else if IsQuote(c) {
          phase' := Quoted(c);
        } else if !IsSpace(c) {
          phase', text' := Unquoted, text + [c];
        }
      case Unquoted =>
        if c == ';' {
          m' := m[key := TrimRight(text)];
          inValue', raw' := false, "";
        } else if IsQuote(c) {
          ok := false;
        } else {
          text' := text + [c];
        }
      case Quoted(q) =>
        if c == q {
          phase' := Closed(q);
        } else {
          text' := text + [c];
        }
      case Closed(q) =>
        if c == q {
          phase', text' := Quoted(q), text + [q];
        } else if c == ';' {
          m' := m[key := text];
          inValue', raw' := false, "";
        } else {
          ok := false;
        }
    }
  }
}
