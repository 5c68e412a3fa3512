/**
 * Facts shared by the sample connection strings, stated for any values so
 * that each sample only has to supply its own literals: how a setting is
 * written, that it reads back, what a short list of settings stores, and
 * how each kind of stored map resolves.
 */
module Samples {
  import opened Wrappers
  import opened Text
  import opened Errors
  import opened Tokenizer
  import opened Encoding
  import opened Authentication
  import opened ConnectionConfig

  /** A keyword with no delimiter in it and no blank at either end. */
  lemma PlainKeyword(w: string)
    requires '=' !in w && ';' !in w
    requires w != [] && !IsSpace(w[0]) && !IsSpace(w[|w| - 1])
    ensures WellFormedKeyword(w) && Trim(w) == w
  {
    TrimOfTrimmed(w);
  }

  /** A character that may appear in a value written without quotes. */
  predicate Ordinary(c: char) {
    c != ';' && c != '\'' && c != '"'
  }

  lemma PlainValueOf(v: string)
    requires forall i | 0 <= i < |v| :: Ordinary(v[i])
    requires v == [] || (!IsSpace(v[0]) && !IsSpace(v[|v| - 1]))
    ensures PlainValue(v)
  {
    assert forall c | c in v :: Ordinary(c);
  }

  lemma PlainSetting(s: Setting)
    requires s.quoting == Plain && WellFormedKeyword(s.keyword) && PlainValue(s.value)
    ensures WellFormed(s)
  {
  }

  lemma QuotedSetting(s: Setting)
    requires s.quoting != Plain && WellFormedKeyword(s.keyword)
    ensures WellFormed(s)
  {
  }

  /** A quoted setting whose value holds no delimiter is written with the value unchanged. */
  lemma QuotedPiece(s: Setting, equals: string, quote: string)
    requires s.quoting != Plain && equals == s.keyword + "="
    requires quote == [QuoteOf(s.quoting)] && QuoteOf(s.quoting) !in s.value
    ensures EncodeSetting(s) == equals + quote + s.value + quote
  {
  }

  /** A quoted setting is its keyword, `=`, and its escaped value between two delimiters. */
  lemma QuotedText(s: Setting, equals: string, quote: string, escaped: string)
    requires s.quoting != Plain && equals == s.keyword + "="
    requires quote == [QuoteOf(s.quoting)] && escaped == Escape(s.value, QuoteOf(s.quoting))
    ensures EncodeSetting(s) == equals + quote + escaped + quote
  {
  }

  /** Escaping a value split at its last delimiter: only that delimiter is doubled. */
  lemma EscapeSnoc(a: string, b: string, q: char)
    requires q !in b
    ensures Escape(a + [q] + b, q) == Escape(a, q) + [q, q] + b
  {
    EscapeAppend(a + [q], b, q);
    EscapeAppend(a, [q], q);
    assert Escape([q], q) == [q, q] + Escape([], q);
  }

  // ---------------------------------------------------------------------------
  // Strings of two to five settings.

  lemma Join2(a: Setting, b: Setting, ta: string, tb: string)
    requires EncodeSetting(a) == ta && EncodeSetting(b) == tb
    ensures Join([a, b]) == ta + ";" + tb
  {
    JoinSnoc([a], b);
    assert [a] + [b] == [a, b];
  }

  lemma Join3(a: Setting, b: Setting, c: Setting, ta: string, tb: string, tc: string)
    requires EncodeSetting(a) == ta && EncodeSetting(b) == tb && EncodeSetting(c) == tc
    ensures Join([a, b, c]) == ta + ";" + tb + ";" + tc
  {
    Join2(a, b, ta, tb);
    JoinSnoc([a, b], c);
    assert [a, b] + [c] == [a, b, c];
  }

  lemma Join4(a: Setting, b: Setting, c: Setting, d: Setting, ta: string, tb: string, tc: string, td: string)
    requires EncodeSetting(a) == ta && EncodeSetting(b) == tb && EncodeSetting(c) == tc && EncodeSetting(d) == td
    ensures Join([a, b, c, d]) == ta + ";" + tb + ";" + tc + ";" + td
  {
    Join3(a, b, c, ta, tb, tc);
    JoinSnoc([a, b, c], d);
    assert [a, b, c] + [d] == [a, b, c, d];
  }

  lemma Join5(a: Setting, b: Setting, c: Setting, d: Setting, e: Setting, ta: string, tb: string, tc: string, td: string, te: string)
    requires EncodeSetting(a) == ta && EncodeSetting(b) == tb && EncodeSetting(c) == tc && EncodeSetting(d) == td
    requires EncodeSetting(e) == te
    ensures Join([a, b, c, d, e]) == ta + ";" + tb + ";" + tc + ";" + td + ";" + te
  {
    Join4(a, b, c, d, ta, tb, tc, td);
    JoinSnoc([a, b, c, d], e);
    assert [a, b, c, d] + [e] == [a, b, c, d, e];
  }

  predicate AllWellFormed(ss: seq<Setting>) {
    forall i :: 0 <= i < |ss| ==> WellFormed(ss[i])
  }

  lemma WellFormedSnoc(ss: seq<Setting>, s: Setting)
    requires AllWellFormed(ss) && WellFormed(s)
    ensures AllWellFormed(ss + [s])
  {
  }

  lemma WellFormed2(a: Setting, b: Setting)
    requires WellFormed(a) && WellFormed(b)
    ensures AllWellFormed([a, b])
  {
    WellFormedSnoc([a], b);
    assert [a] + [b] == [a, b];
  }

  lemma WellFormed3(a: Setting, b: Setting, c: Setting)
    requires WellFormed(a) && WellFormed(b) && WellFormed(c)
    ensures AllWellFormed([a, b, c])
  {
    WellFormed2(a, b);
    WellFormedSnoc([a, b], c);
    assert [a, b] + [c] == [a, b, c];
  }

  lemma WellFormed4(a: Setting, b: Setting, c: Setting, d: Setting)
    requires WellFormed(a) && WellFormed(b) && WellFormed(c) && WellFormed(d)
    ensures AllWellFormed([a, b, c, d])
  {
    WellFormed3(a, b, c);
    WellFormedSnoc([a, b, c], d);
    assert [a, b, c] + [d] == [a, b, c, d];
  }

  lemma WellFormed5(a: Setting, b: Setting, c: Setting, d: Setting, e: Setting)
    requires WellFormed(a) && WellFormed(b) && WellFormed(c) && WellFormed(d) && WellFormed(e)
    ensures AllWellFormed([a, b, c, d, e])
  {
    WellFormed4(a, b, c, d);
    WellFormedSnoc([a, b, c, d], e);
    assert [a, b, c, d] + [e] == [a, b, c, d, e];
  }

  function Store(m: Pairs, s: Setting): Pairs {
    m[CanonicalKey(s.keyword) := s.value]
  }

  /** The settings are those before the last, then the last one stored on top. */
  lemma LastStored(ss: seq<Setting>, before: Pairs)
    requires ss != [] && Apply(map[], ss[..|ss| - 1]) == before
    ensures Apply(map[], ss) == Store(before, ss[|ss| - 1])
  {
  }

  lemma ApplyOfOne(ss: seq<Setting>)
    requires |ss| == 1
    ensures Apply(map[], ss) == Store(map[], ss[0])
  {
    assert |ss[..0]| == 0;
    LastStored(ss, map[]);
  }

  lemma ApplyOfTwo(ss: seq<Setting>)
    requires |ss| == 2
    ensures Apply(map[], ss) == Store(Store(map[], ss[0]), ss[1])
  {
    ApplyOfOne(ss[..1]);
    assert ss[..1][0] == ss[0];
    LastStored(ss, Store(map[], ss[0]));
  }

  lemma ApplyOfThree(ss: seq<Setting>)
    requires |ss| == 3
    ensures Apply(map[], ss) == Store(Store(Store(map[], ss[0]), ss[1]), ss[2])
  {
    ApplyOfTwo(ss[..2]);
    assert ss[..2][0] == ss[0] && ss[..2][1] == ss[1];
    LastStored(ss, Store(Store(map[], ss[0]), ss[1]));
  }

  lemma ApplyOfFour(ss: seq<Setting>)
    requires |ss| == 4
    ensures Apply(map[], ss) == Store(Store(Store(Store(map[], ss[0]), ss[1]), ss[2]), ss[3])
  {
    ApplyOfThree(ss[..3]);
    assert ss[..3][0] == ss[0] && ss[..3][1] == ss[1] && ss[..3][2] == ss[2];
    LastStored(ss, Store(Store(Store(map[], ss[0]), ss[1]), ss[2]));
  }

  lemma ApplyOfFive(ss: seq<Setting>)
    requires |ss| == 5
    ensures Apply(map[], ss) == Store(Store(Store(Store(Store(map[], ss[0]), ss[1]), ss[2]), ss[3]), ss[4])
  {
    ApplyOfFour(ss[..4]);
    assert ss[..4][0] == ss[0] && ss[..4][1] == ss[1] && ss[..4][2] == ss[2] && ss[..4][3] == ss[3];
    LastStored(ss, Store(Store(Store(Store(map[], ss[0]), ss[1]), ss[2]), ss[3]));
  }

  lemma Apply3(a: Setting, b: Setting, c: Setting)
    ensures Apply(map[], [a, b, c]) == Store(Store(Store(map[], a), b), c)
  {
    ApplyOfThree([a, b, c]);
  }

  lemma Apply4(a: Setting, b: Setting, c: Setting, d: Setting)
    ensures Apply(map[], [a, b, c, d]) == Store(Store(Store(Store(map[], a), b), c), d)
  {
    ApplyOfFour([a, b, c, d]);
  }

  lemma Apply5(a: Setting, b: Setting, c: Setting, d: Setting, e: Setting)
    ensures Apply(map[], [a, b, c, d, e]) == Store(Store(Store(Store(Store(map[], a), b), c), d), e)
  {
    ApplyOfFive([a, b, c, d, e]);
  }

  // ---------------------------------------------------------------------------
  // What a string that reads back as each kind of settings builds.

  /** A stored `Authentication` value in either spelling of a type names that type. */
  lemma NamedType(m: Pairs, auth: string, t: AuthType)
    requires "authentication" in m && m["authentication"] == auth
    requires auth == Spelling(t) || auth == OneWord(t)
    ensures ResolveAuthType(AuthenticationValue(m)) == Success(t)
  {
    SpellingsResolve(t);
  }

  /** The settings of the sample that lists the user first are the same map. */
  lemma UserFirstOrder(server: string, user: string, password: string, database: string)
    ensures map["user" := user, "password" := password, "server" := server, "database" := database]
         == map["server" := server, "user" := user, "password" := password, "database" := database]
  {
  }

  lemma BuildSqlLogin(raw: string, server: string, user: string, password: string, database: string, clientId: string, tenantId: string)
    requires server != "" && user != "" && password != "" && database != ""
    requires Parse(raw) == Success(map["server" := server, "user" := user, "password" := password, "database" := database])
    ensures Build(raw, clientId, tenantId)
         == Success(Config(Some(server), database, Some(user), Some(password), None))
  {
    var m := map["server" := server, "user" := user, "password" := password, "database" := database];
    assert "authentication" !in m;
    SqlPasswordRules(m, clientId, tenantId);
  }

  lemma BuildNamedSqlLogin(raw: string, server: string, database: string, user: string, password: string, auth: string, clientId: string, tenantId: string)
    requires server != "" && user != "" && password != "" && database != ""
    requires auth == Spelling(SqlPassword) || auth == OneWord(SqlPassword)
    requires Parse(raw) == Success(map["server" := server, "database" := database, "user" := user, "password" := password, "authentication" := auth])
    ensures Build(raw, clientId, tenantId)
         == Success(Config(Some(server), database, Some(user), Some(password), None))
  {
    var m := map["server" := server, "database" := database, "user" := user, "password" := password, "authentication" := auth];
    NamedType(m, auth, SqlPassword);
    SqlPasswordRules(m, clientId, tenantId);
  }

  lemma BuildAadPassword(raw: string, server: string, database: string, auth: string, user: string, password: string, clientId: string, tenantId: string)
    requires server != "" && user != "" && password != "" && database != ""
    requires auth == Spelling(AadPassword) || auth == OneWord(AadPassword)
    requires Parse(raw) == Success(map["server" := server, "database" := database, "authentication" := auth, "user" := user, "password" := password])
    ensures Build(raw, clientId, tenantId)
         == Success(Config(Some(server), database, Some(user), Some(password),
              Some(AuthenticationBlock(AadPassword, map["userName" := user, "password" := password] + Optional("clientId", clientId) + Optional("tenantId", tenantId)))))
  {
    var m := map["server" := server, "database" := database, "authentication" := auth, "user" := user, "password" := password];
    NamedType(m, auth, AadPassword);
    assert Lookup(m, "server") == Some(server) && m["database"] == database && m["user"] == user && m["password"] == password;
    AadPasswordResolves(m, clientId, tenantId);
    BuildIsResolve(raw, m, clientId, tenantId);
  }

  lemma BuildIsResolve(raw: string, m: Pairs, clientId: string, tenantId: string)
    requires Parse(raw) == Success(m)
    ensures Build(raw, clientId, tenantId) == Resolve(m, clientId, tenantId)
  {
  }

  /** Azure AD password with user, password and database given: the whole configuration. */
  lemma AadPasswordResolves(m: Pairs, clientId: string, tenantId: string)
    requires Lookup(m, "database").Some? && Lookup(m, "user").Some? && Lookup(m, "password").Some?
    requires ResolveAuthType(AuthenticationValue(m)) == Success(AadPassword)
    ensures Resolve(m, clientId, tenantId)
         == Success(Config(Lookup(m, "server"), m["database"], Some(m["user"]), Some(m["password"]),
              Some(AuthenticationBlock(AadPassword, map["userName" := m["user"], "password" := m["password"]] + Optional("clientId", clientId) + Optional("tenantId", tenantId)))))
  {
  }

  lemma BuildServicePrincipal(raw: string, server: string, database: string, auth: string, user: string, password: string, clientId: string, tenantId: string)
    requires server != "" && user != "" && password != "" && database != ""
    requires auth == Spelling(AadServicePrincipalSecret) || auth == OneWord(AadServicePrincipalSecret)
    requires Parse(raw) == Success(map["server" := server, "database" := database, "authentication" := auth, "user" := user, "password" := password])
    ensures Build(raw, clientId, tenantId)
         == Success(Config(Some(server), database, Some(user), Some(password),
              Some(AuthenticationBlock(AadServicePrincipalSecret, map["clientId" := user, "clientSecret" := password]))))
  {
    var m := map["server" := server, "database" := database, "authentication" := auth, "user" := user, "password" := password];
    NamedType(m, auth, AadServicePrincipalSecret);
    assert Lookup(m, "server") == Some(server) && m["database"] == database && m["user"] == user && m["password"] == password;
    ServicePrincipalResolves(m, clientId, tenantId);
    BuildIsResolve(raw, m, clientId, tenantId);
  }

  /** Azure AD service principal with client id, secret and database given: the whole configuration. */
  lemma ServicePrincipalResolves(m: Pairs, clientId: string, tenantId: string)
    requires Lookup(m, "database").Some? && Lookup(m, "user").Some? && Lookup(m, "password").Some?
    requires ResolveAuthType(AuthenticationValue(m)) == Success(AadServicePrincipalSecret)
    ensures Resolve(m, clientId, tenantId)
         == Success(Config(Lookup(m, "server"), m["database"], Some(m["user"]), Some(m["password"]),
              Some(AuthenticationBlock(AadServicePrincipalSecret, map["clientId" := m["user"], "clientSecret" := m["password"]]))))
  {
  }

  lemma BuildAadDefault(raw: string, server: string, database: string, auth: string, clientId: string, tenantId: string)
    requires server != "" && database != ""
    requires auth == Spelling(AadDefault) || auth == OneWord(AadDefault)
    requires Parse(raw) == Success(map["server" := server, "database" := database, "authentication" := auth])
    ensures Build(raw, clientId, tenantId)
         == Success(Config(Some(server), database, None, None, Some(AuthenticationBlock(AadDefault, map[]))))
  {
    var m := map["server" := server, "database" := database, "authentication" := auth];
    NamedType(m, auth, AadDefault);
  }

  lemma BuildWithoutUser(raw: string, server: string, password: string, database: string, clientId: string, tenantId: string)
    requires database != ""
    requires Parse(raw) == Success(map["server" := server, "password" := password, "database" := database])
    ensures Build(raw, clientId, tenantId) == Failure(MissingUser)
  {
  }

  lemma BuildWithoutPassword(raw: string, server: string, user: string, database: string, clientId: string, tenantId: string)
    requires database != "" && user != ""
    requires Parse(raw) == Success(map["server" := server, "user" := user, "database" := database])
    ensures Build(raw, clientId, tenantId) == Failure(MissingPassword)
  {
  }

  lemma BuildWithoutDatabase(raw: string, server: string, user: string, password: string, clientId: string, tenantId: string)
    requires Parse(raw) == Success(map["server" := server, "user" := user, "password" := password])
    ensures Build(raw, clientId, tenantId) == Failure(MissingDatabase)
  {
  }

  lemma BuildUnsupported(raw: string, server: string, database: string, auth: string, password: string, clientId: string, tenantId: string)
    requires database != "" && auth != [] && !IsSpace(auth[0])
    requires LowerChar(auth[0]) != 's' && LowerChar(auth[0]) != 'a'
    requires Parse(raw) == Success(map["server" := server, "database" := database, "authentication" := auth, "password" := password])
    ensures Build(raw, clientId, tenantId)
         == Failure(UnsupportedAuthentication(auth))
  {
    UnsupportedByFirstLetter(auth);
  }

  lemma BuildNamedWithoutUser(raw: string, server: string, database: string, auth: string, password: string, t: AuthType, clientId: string, tenantId: string)
    requires database != "" && (auth == Spelling(t) || auth == OneWord(t)) && t != AadDefault
    requires Parse(raw) == Success(map["server" := server, "database" := database, "authentication" := auth, "password" := password])
    ensures Build(raw, clientId, tenantId)
         == Failure(if t == AadServicePrincipalSecret then MissingClientId else MissingUser)
  {
    NamedType(map["server" := server, "database" := database, "authentication" := auth, "password" := password], auth, t);
  }

  lemma BuildNamedWithoutPassword(raw: string, server: string, database: string, auth: string, user: string, t: AuthType, clientId: string, tenantId: string)
    requires database != "" && user != "" && (auth == Spelling(t) || auth == OneWord(t)) && t != AadDefault
    requires Parse(raw) == Success(map["server" := server, "database" := database, "authentication" := auth, "user" := user])
    ensures Build(raw, clientId, tenantId)
         == Failure(if t == AadServicePrincipalSecret then MissingClientSecret else MissingPassword)
  {
    NamedType(map["server" := server, "database" := database, "authentication" := auth, "user" := user], auth, t);
  }

  /** Both inputs supplied: the Active Directory password options hold all four entries. */
  lemma BothInputsInOptions(user: string, password: string, clientId: string, tenantId: string)
    requires clientId != "" && tenantId != ""
    ensures map["userName" := user, "password" := password] + Optional("clientId", clientId) + Optional("tenantId", tenantId)
         == map["userName" := user, "password" := password, "clientId" := clientId, "tenantId" := tenantId]
  {
  }

  /** A value whose first letter begins no type's name, blanks and case aside, names no type. */
  lemma UnsupportedByFirstLetter(v: string)
    requires v != [] && !IsSpace(v[0]) && LowerChar(v[0]) != 's' && LowerChar(v[0]) != 'a'
    ensures ResolveAuthType(Some(v)) == Failure(UnsupportedAuthentication(v))
  {
    assert v == [v[0]] + v[1..];
    RemoveSpacesAppend([v[0]], v[1..]);
    assert RemoveSpaces([v[0]]) == [v[0]] + RemoveSpaces([]);
    var f := Folded(v);
    assert f[0] == LowerChar(v[0]);
    assert Key(SqlPassword)[0] == 's';
    assert Key(AadPassword)[0] == 'a' && Key(AadServicePrincipalSecret)[0] == 'a' && Key(AadDefault)[0] == 'a';
  }
}
