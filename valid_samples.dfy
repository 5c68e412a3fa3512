/** Connection strings the builder accepts, each with the configuration it builds. */
module ValidSamples {
  import opened Wrappers
  import opened Errors
  import opened Tokenizer
  import opened Encoding
  import opened Authentication
  import opened ConnectionConfig
  import opened Samples
  import opened SampleSettings

  /** A double-quoted password holding `'`, `=` and `;`, kept as written. */
  const DoubleQuotedValue := ("Server=" + "test1.database.windows.net") + ";" + ("User Id=" + "user") + ";" + ("Password=" + "\"" + "ab'=abcdf''c;123" + "\"") + ";" + ("Initial catalog=" + "testdb")

  function DoubleQuotedValueSettings(): seq<Setting> {
    [ServerSetting(), UserSetting(), DoubleQuotedPassword(), CatalogSetting()]
  }

  lemma DoubleQuotedValueJoin()
    ensures Join(DoubleQuotedValueSettings()) == ("Server=" + "test1.database.windows.net") + ";" + ("User Id=" + "user") + ";" + ("Password=" + "\"" + "ab'=abcdf''c;123" + "\"") + ";" + ("Initial catalog=" + "testdb")
  {
    ServerSettingText(); UserSettingText(); DoubleQuotedPasswordText(); CatalogSettingText();
    Join4(ServerSetting(), UserSetting(), DoubleQuotedPassword(), CatalogSetting(),
      ("Server=" + "test1.database.windows.net"), ("User Id=" + "user"), ("Password=" + "\"" + "ab'=abcdf''c;123" + "\""), ("Initial catalog=" + "testdb"));
  }

  lemma DoubleQuotedValueReadsBack()
    ensures Parse(DoubleQuotedValue) == Success(Apply(map[], DoubleQuotedValueSettings()))
  {
    DoubleQuotedValueJoin();
    ServerSettingWellFormed(); UserSettingWellFormed(); DoubleQuotedPasswordWellFormed(); CatalogSettingWellFormed();
    WellFormed4(ServerSetting(), UserSetting(), DoubleQuotedPassword(), CatalogSetting());
    ParseJoin(DoubleQuotedValueSettings());
  }

  lemma DoubleQuotedValueStores()
    ensures Apply(map[], DoubleQuotedValueSettings()) == map["server" := "test1.database.windows.net", "user" := "user", "password" := "ab'=abcdf''c;123", "database" := "testdb"]
  {
    Apply4(ServerSetting(), UserSetting(), DoubleQuotedPassword(), CatalogSetting());
    ServerKey(); UserIdKey(); PasswordKey(); InitialCatalogKey();
  }

  lemma DoubleQuotedValueParse()
    ensures Parse(DoubleQuotedValue) == Success(map["server" := "test1.database.windows.net", "user" := "user", "password" := "ab'=abcdf''c;123", "database" := "testdb"])
  {
    DoubleQuotedValueReadsBack();
    DoubleQuotedValueStores();
  }

  lemma DoubleQuotedValueConfig(clientId: string, tenantId: string)
    ensures Build(DoubleQuotedValue, clientId, tenantId)
         == Success(Config(Some("test1.database.windows.net"), "testdb", Some("user"), Some("ab'=abcdf''c;123"), None))
  {
    DoubleQuotedValueParse();
    BuildSqlLogin(DoubleQuotedValue, "test1.database.windows.net", "user", "ab'=abcdf''c;123", "testdb", clientId, tenantId);
  }

  /** A single-quoted password holding `"`, `=` and `;`, kept as written. */
  const SingleQuotedValue := ("Server=" + "test1.database.windows.net") + ";" + ("User Id=" + "user") + ";" + ("Password=" + "'" + "abc;1\"\"2\"adf=33" + "'") + ";" + ("Initial catalog=" + "testdb")

  function SingleQuotedValueSettings(): seq<Setting> {
    [ServerSetting(), UserSetting(), SingleQuotedPassword(), CatalogSetting()]
  }

  lemma SingleQuotedValueJoin()
    ensures Join(SingleQuotedValueSettings()) == ("Server=" + "test1.database.windows.net") + ";" + ("User Id=" + "user") + ";" + ("Password=" + "'" + "abc;1\"\"2\"adf=33" + "'") + ";" + ("Initial catalog=" + "testdb")
  {
    ServerSettingText(); UserSettingText(); SingleQuotedPasswordText(); CatalogSettingText();
    Join4(ServerSetting(), UserSetting(), SingleQuotedPassword(), CatalogSetting(),
      ("Server=" + "test1.database.windows.net"), ("User Id=" + "user"), ("Password=" + "'" + "abc;1\"\"2\"adf=33" + "'"), ("Initial catalog=" + "testdb"));
  }

  lemma SingleQuotedValueReadsBack()
    ensures Parse(SingleQuotedValue) == Success(Apply(map[], SingleQuotedValueSettings()))
  {
    SingleQuotedValueJoin();
    ServerSettingWellFormed(); UserSettingWellFormed(); SingleQuotedPasswordWellFormed(); CatalogSettingWellFormed();
    WellFormed4(ServerSetting(), UserSetting(), SingleQuotedPassword(), CatalogSetting());
    ParseJoin(SingleQuotedValueSettings());
  }

  lemma SingleQuotedValueStores()
    ensures Apply(map[], SingleQuotedValueSettings()) == map["server" := "test1.database.windows.net", "user" := "user", "password" := "abc;1\"\"2\"adf=33", "database" := "testdb"]
  {
    Apply4(ServerSetting(), UserSetting(), SingleQuotedPassword(), CatalogSetting());
    ServerKey(); UserIdKey(); PasswordKey(); InitialCatalogKey();
  }

  lemma SingleQuotedValueParse()
    ensures Parse(SingleQuotedValue) == Success(map["server" := "test1.database.windows.net", "user" := "user", "password" := "abc;1\"\"2\"adf=33", "database" := "testdb"])
  {
    SingleQuotedValueReadsBack();
    SingleQuotedValueStores();
  }

  lemma SingleQuotedValueConfig(clientId: string, tenantId: string)
    ensures Build(SingleQuotedValue, clientId, tenantId)
         == Success(Config(Some("test1.database.windows.net"), "testdb", Some("user"), Some("abc;1\"\"2\"adf=33"), None))
  {
    SingleQuotedValueParse();
    BuildSqlLogin(SingleQuotedValue, "test1.database.windows.net", "user", "abc;1\"\"2\"adf=33", "testdb", clientId, tenantId);
  }

  /** A double-quoted password whose doubled `"` read back as one. */
  const EscapedDoubleQuotes := ("Server=" + "test1.database.windows.net") + ";" + ("User Id=" + "user") + ";" + ("Password=" + "\"" + ("abc;1" + "\"\"" + "2" + "\"\"" + "adf(012j^72''asj;')'=33") + "\"") + ";" + ("Initial catalog=" + "testdb")

  function EscapedDoubleQuotesSettings(): seq<Setting> {
    [ServerSetting(), UserSetting(), EscapedDoubleQuotePassword(), CatalogSetting()]
  }

  lemma EscapedDoubleQuotesJoin()
    ensures Join(EscapedDoubleQuotesSettings()) == ("Server=" + "test1.database.windows.net") + ";" + ("User Id=" + "user") + ";" + ("Password=" + "\"" + ("abc;1" + "\"\"" + "2" + "\"\"" + "adf(012j^72''asj;')'=33") + "\"") + ";" + ("Initial catalog=" + "testdb")
  {
    ServerSettingText(); UserSettingText(); EscapedDoubleQuotePasswordText(); CatalogSettingText();
    Join4(ServerSetting(), UserSetting(), EscapedDoubleQuotePassword(), CatalogSetting(),
      ("Server=" + "test1.database.windows.net"), ("User Id=" + "user"), ("Password=" + "\"" + ("abc;1" + "\"\"" + "2" + "\"\"" + "adf(012j^72''asj;')'=33") + "\""), ("Initial catalog=" + "testdb"));
  }

  lemma EscapedDoubleQuotesReadsBack()
    ensures Parse(EscapedDoubleQuotes) == Success(Apply(map[], EscapedDoubleQuotesSettings()))
  {
    EscapedDoubleQuotesJoin();
    ServerSettingWellFormed(); UserSettingWellFormed(); EscapedDoubleQuotePasswordWellFormed(); CatalogSettingWellFormed();
    WellFormed4(ServerSetting(), UserSetting(), EscapedDoubleQuotePassword(), CatalogSetting());
    ParseJoin(EscapedDoubleQuotesSettings());
  }

  lemma EscapedDoubleQuotesStores()
    ensures Apply(map[], EscapedDoubleQuotesSettings()) == map["server" := "test1.database.windows.net", "user" := "user", "password" := "abc;1" + "\"" + "2" + "\"" + "adf(012j^72''asj;')'=33", "database" := "testdb"]
  {
    Apply4(ServerSetting(), UserSetting(), EscapedDoubleQuotePassword(), CatalogSetting());
    ServerKey(); UserIdKey(); PasswordKey(); InitialCatalogKey();
  }

  lemma EscapedDoubleQuotesParse()
    ensures Parse(EscapedDoubleQuotes) == Success(map["server" := "test1.database.windows.net", "user" := "user", "password" := "abc;1" + "\"" + "2" + "\"" + "adf(012j^72''asj;')'=33", "database" := "testdb"])
  {
    EscapedDoubleQuotesReadsBack();
    EscapedDoubleQuotesStores();
  }

  lemma EscapedDoubleQuotesConfig(clientId: string, tenantId: string)
    ensures Build(EscapedDoubleQuotes, clientId, tenantId)
         == Success(Config(Some("test1.database.windows.net"), "testdb", Some("user"), Some("abc;1" + "\"" + "2" + "\"" + "adf(012j^72''asj;')'=33"), None))
  {
    EscapedDoubleQuotesParse();
    BuildSqlLogin(EscapedDoubleQuotes, "test1.database.windows.net", "user", "abc;1" + "\"" + "2" + "\"" + "adf(012j^72''asj;')'=33", "testdb", clientId, tenantId);
  }

  /** A single-quoted password whose doubled `'` read back as one. */
  const EscapedSingleQuotes := ("Server=" + "test1.database.windows.net") + ";" + ("User Id=" + "user") + ";" + ("Password=" + "'" + ("ab\"\"c;1" + "''" + "2" + "''" + "\"" + "''" + "adf(\"0\"\"12j^72" + "''" + "asj;" + "''" + ")" + "''" + "=33") + "'") + ";" + ("Initial catalog=" + "testdb")

  function EscapedSingleQuotesSettings(): seq<Setting> {
    [ServerSetting(), UserSetting(), EscapedSingleQuotePassword(), CatalogSetting()]
  }

  lemma EscapedSingleQuotesJoin()
    ensures Join(EscapedSingleQuotesSettings()) == ("Server=" + "test1.database.windows.net") + ";" + ("User Id=" + "user") + ";" + ("Password=" + "'" + ("ab\"\"c;1" + "''" + "2" + "''" + "\"" + "''" + "adf(\"0\"\"12j^72" + "''" + "asj;" + "''" + ")" + "''" + "=33") + "'") + ";" + ("Initial catalog=" + "testdb")
  {
    ServerSettingText(); UserSettingText(); EscapedSingleQuotePasswordText(); CatalogSettingText();
    Join4(ServerSetting(), UserSetting(), EscapedSingleQuotePassword(), CatalogSetting(),
      ("Server=" + "test1.database.windows.net"), ("User Id=" + "user"), ("Password=" + "'" + ("ab\"\"c;1" + "''" + "2" + "''" + "\"" + "''" + "adf(\"0\"\"12j^72" + "''" + "asj;" + "''" + ")" + "''" + "=33") + "'"), ("Initial catalog=" + "testdb"));
  }

  lemma EscapedSingleQuotesReadsBack()
    ensures Parse(EscapedSingleQuotes) == Success(Apply(map[], EscapedSingleQuotesSettings()))
  {
    EscapedSingleQuotesJoin();
    ServerSettingWellFormed(); UserSettingWellFormed(); EscapedSingleQuotePasswordWellFormed(); CatalogSettingWellFormed();
    WellFormed4(ServerSetting(), UserSetting(), EscapedSingleQuotePassword(), CatalogSetting());
    ParseJoin(EscapedSingleQuotesSettings());
  }

  lemma EscapedSingleQuotesStores()
    ensures Apply(map[], EscapedSingleQuotesSettings()) == map["server" := "test1.database.windows.net", "user" := "user", "password" := "ab\"\"c;1" + "'" + "2" + "'" + "\"" + "'" + "adf(\"0\"\"12j^72" + "'" + "asj;" + "'" + ")" + "'" + "=33", "database" := "testdb"]
  {
    Apply4(ServerSetting(), UserSetting(), EscapedSingleQuotePassword(), CatalogSetting());
    ServerKey(); UserIdKey(); PasswordKey(); InitialCatalogKey();
  }

  lemma EscapedSingleQuotesParse()
    ensures Parse(EscapedSingleQuotes) == Success(map["server" := "test1.database.windows.net", "user" := "user", "password" := "ab\"\"c;1" + "'" + "2" + "'" + "\"" + "'" + "adf(\"0\"\"12j^72" + "'" + "asj;" + "'" + ")" + "'" + "=33", "database" := "testdb"])
  {
    EscapedSingleQuotesReadsBack();
    EscapedSingleQuotesStores();
  }

  lemma EscapedSingleQuotesConfig(clientId: string, tenantId: string)
    ensures Build(EscapedSingleQuotes, clientId, tenantId)
         == Success(Config(Some("test1.database.windows.net"), "testdb", Some("user"), Some("ab\"\"c;1" + "'" + "2" + "'" + "\"" + "'" + "adf(\"0\"\"12j^72" + "'" + "asj;" + "'" + ")" + "'" + "=33"), None))
  {
    EscapedSingleQuotesParse();
    BuildSqlLogin(EscapedSingleQuotes, "test1.database.windows.net", "user", "ab\"\"c;1" + "'" + "2" + "'" + "\"" + "'" + "adf(\"0\"\"12j^72" + "'" + "asj;" + "'" + ")" + "'" + "=33", "testdb", clientId, tenantId);
  }

  /** A plain password. */
  const UnquotedValue := ("Server=" + "test1.database.windows.net") + ";" + ("User Id=" + "user") + ";" + ("Password=" + "placeholder") + ";" + ("Initial catalog=" + "testdb")

  function UnquotedValueSettings(): seq<Setting> {
    [ServerSetting(), UserSetting(), PlaceholderPassword(), CatalogSetting()]
  }

  lemma UnquotedValueJoin()
    ensures Join(UnquotedValueSettings()) == ("Server=" + "test1.database.windows.net") + ";" + ("User Id=" + "user") + ";" + ("Password=" + "placeholder") + ";" + ("Initial catalog=" + "testdb")
  {
    ServerSettingText(); UserSettingText(); PlaceholderPasswordText(); CatalogSettingText();
    Join4(ServerSetting(), UserSetting(), PlaceholderPassword(), CatalogSetting(),
      ("Server=" + "test1.database.windows.net"), ("User Id=" + "user"), ("Password=" + "placeholder"), ("Initial catalog=" + "testdb"));
  }

  lemma UnquotedValueReadsBack()
    ensures Parse(UnquotedValue) == Success(Apply(map[], UnquotedValueSettings()))
  {
    UnquotedValueJoin();
    ServerSettingWellFormed(); UserSettingWellFormed(); PlaceholderPasswordWellFormed(); CatalogSettingWellFormed();
    WellFormed4(ServerSetting(), UserSetting(), PlaceholderPassword(), CatalogSetting());
    ParseJoin(UnquotedValueSettings());
  }

  lemma UnquotedValueStores()
    ensures Apply(map[], UnquotedValueSettings()) == map["server" := "test1.database.windows.net", "user" := "user", "password" := "placeholder", "database" := "testdb"]
  {
    Apply4(ServerSetting(), UserSetting(), PlaceholderPassword(), CatalogSetting());
    ServerKey(); UserIdKey(); PasswordKey(); InitialCatalogKey();
  }

  lemma UnquotedValueParse()
    ensures Parse(UnquotedValue) == Success(map["server" := "test1.database.windows.net", "user" := "user", "password" := "placeholder", "database" := "testdb"])
  {
    UnquotedValueReadsBack();
    UnquotedValueStores();
  }

  lemma UnquotedValueConfig(clientId: string, tenantId: string)
    ensures Build(UnquotedValue, clientId, tenantId)
         == Success(Config(Some("test1.database.windows.net"), "testdb", Some("user"), Some("placeholder"), None))
  {
    UnquotedValueParse();
    BuildSqlLogin(UnquotedValue, "test1.database.windows.net", "user", "placeholder", "testdb", clientId, tenantId);
  }

  /** SQL password authentication named with a blank. */
  const SqlPasswordSpelled := ("Server=" + "test1.database.windows.net") + ";" + ("Database=" + "testdb") + ";" + ("User Id=" + "user") + ";" + ("Password=" + "placeholder") + ";" + ("Authentication=" + "SQL Password")

  function SqlPasswordSpelledSettings(): seq<Setting> {
    [ServerSetting(), DatabaseSetting(), UserSetting(), PlaceholderPassword(), SqlPasswordAuthentication()]
  }

  lemma SqlPasswordSpelledJoin()
    ensures Join(SqlPasswordSpelledSettings()) == ("Server=" + "test1.database.windows.net") + ";" + ("Database=" + "testdb") + ";" + ("User Id=" + "user") + ";" + ("Password=" + "placeholder") + ";" + ("Authentication=" + "SQL Password")
  {
    ServerSettingText(); DatabaseSettingText(); UserSettingText(); PlaceholderPasswordText(); SqlPasswordAuthenticationText();
    Join5(ServerSetting(), DatabaseSetting(), UserSetting(), PlaceholderPassword(), SqlPasswordAuthentication(),
      ("Server=" + "test1.database.windows.net"), ("Database=" + "testdb"), ("User Id=" + "user"), ("Password=" + "placeholder"), ("Authentication=" + "SQL Password"));
  }

  lemma SqlPasswordSpelledReadsBack()
    ensures Parse(SqlPasswordSpelled) == Success(Apply(map[], SqlPasswordSpelledSettings()))
  {
    SqlPasswordSpelledJoin();
    ServerSettingWellFormed(); DatabaseSettingWellFormed(); UserSettingWellFormed(); PlaceholderPasswordWellFormed(); SqlPasswordAuthenticationWellFormed();
    WellFormed5(ServerSetting(), DatabaseSetting(), UserSetting(), PlaceholderPassword(), SqlPasswordAuthentication());
    ParseJoin(SqlPasswordSpelledSettings());
  }

  lemma SqlPasswordSpelledStores()
    ensures Apply(map[], SqlPasswordSpelledSettings()) == map["server" := "test1.database.windows.net", "database" := "testdb", "user" := "user", "password" := "placeholder", "authentication" := "SQL Password"]
  {
    Apply5(ServerSetting(), DatabaseSetting(), UserSetting(), PlaceholderPassword(), SqlPasswordAuthentication());
    ServerKey(); DatabaseKey(); UserIdKey(); PasswordKey(); AuthenticationKey();
  }

  lemma SqlPasswordSpelledParse()
    ensures Parse(SqlPasswordSpelled) == Success(map["server" := "test1.database.windows.net", "database" := "testdb", "user" := "user", "password" := "placeholder", "authentication" := "SQL Password"])
  {
    SqlPasswordSpelledReadsBack();
    SqlPasswordSpelledStores();
  }

  lemma SqlPasswordSpelledConfig(clientId: string, tenantId: string)
    ensures Build(SqlPasswordSpelled, clientId, tenantId)
         == Success(Config(Some("test1.database.windows.net"), "testdb", Some("user"), Some("placeholder"), None))
  {
    SqlPasswordSpelledParse();
    BuildNamedSqlLogin(SqlPasswordSpelled, "test1.database.windows.net", "testdb", "user", "placeholder", "SQL Password", clientId, tenantId);
  }

  /** SQL password authentication named as one word. */
  const SqlPasswordOneWord := ("Server=" + "test1.database.windows.net") + ";" + ("Database=" + "testdb") + ";" + ("User Id=" + "user") + ";" + ("Password=" + "placeholder") + ";" + ("Authentication=" + "SQLPassword")

  function SqlPasswordOneWordSettings(): seq<Setting> {
    [ServerSetting(), DatabaseSetting(), UserSetting(), PlaceholderPassword(), SqlPasswordOneWordAuthentication()]
  }

  lemma SqlPasswordOneWordJoin()
    ensures Join(SqlPasswordOneWordSettings()) == ("Server=" + "test1.database.windows.net") + ";" + ("Database=" + "testdb") + ";" + ("User Id=" + "user") + ";" + ("Password=" + "placeholder") + ";" + ("Authentication=" + "SQLPassword")
  {
    ServerSettingText(); DatabaseSettingText(); UserSettingText(); PlaceholderPasswordText(); SqlPasswordOneWordAuthenticationText();
    Join5(ServerSetting(), DatabaseSetting(), UserSetting(), PlaceholderPassword(), SqlPasswordOneWordAuthentication(),
      ("Server=" + "test1.database.windows.net"), ("Database=" + "testdb"), ("User Id=" + "user"), ("Password=" + "placeholder"), ("Authentication=" + "SQLPassword"));
  }

  lemma SqlPasswordOneWordReadsBack()
    ensures Parse(SqlPasswordOneWord) == Success(Apply(map[], SqlPasswordOneWordSettings()))
  {
    SqlPasswordOneWordJoin();
    ServerSettingWellFormed(); DatabaseSettingWellFormed(); UserSettingWellFormed(); PlaceholderPasswordWellFormed(); SqlPasswordOneWordAuthenticationWellFormed();
    WellFormed5(ServerSetting(), DatabaseSetting(), UserSetting(), PlaceholderPassword(), SqlPasswordOneWordAuthentication());
    ParseJoin(SqlPasswordOneWordSettings());
  }

  lemma SqlPasswordOneWordStores()
    ensures Apply(map[], SqlPasswordOneWordSettings()) == map["server" := "test1.database.windows.net", "database" := "testdb", "user" := "user", "password" := "placeholder", "authentication" := "SQLPassword"]
  {
    Apply5(ServerSetting(), DatabaseSetting(), UserSetting(), PlaceholderPassword(), SqlPasswordOneWordAuthentication());
    ServerKey(); DatabaseKey(); UserIdKey(); PasswordKey(); AuthenticationKey();
  }

  lemma SqlPasswordOneWordParse()
    ensures Parse(SqlPasswordOneWord) == Success(map["server" := "test1.database.windows.net", "database" := "testdb", "user" := "user", "password" := "placeholder", "authentication" := "SQLPassword"])
  {
    SqlPasswordOneWordReadsBack();
    SqlPasswordOneWordStores();
  }

  lemma SqlPasswordOneWordConfig(clientId: string, tenantId: string)
    ensures Build(SqlPasswordOneWord, clientId, tenantId)
         == Success(Config(Some("test1.database.windows.net"), "testdb", Some("user"), Some("placeholder"), None))
  {
    SqlPasswordOneWordParse();
    BuildNamedSqlLogin(SqlPasswordOneWord, "test1.database.windows.net", "testdb", "user", "placeholder", "SQLPassword", clientId, tenantId);
  }

  /** SQL password authentication named in quotes. */
  const SqlPasswordQuoted := ("Server=" + "test1.database.windows.net") + ";" + ("Database=" + "testdb") + ";" + ("User Id=" + "user") + ";" + ("Password=" + "placeholder") + ";" + ("Authentication=" + "'" + "SQL Password" + "'")

  function SqlPasswordQuotedSettings(): seq<Setting> {
    [ServerSetting(), DatabaseSetting(), UserSetting(), PlaceholderPassword(), QuotedSqlPasswordAuthentication()]
  }

  lemma SqlPasswordQuotedJoin()
    ensures Join(SqlPasswordQuotedSettings()) == ("Server=" + "test1.database.windows.net") + ";" + ("Database=" + "testdb") + ";" + ("User Id=" + "user") + ";" + ("Password=" + "placeholder") + ";" + ("Authentication=" + "'" + "SQL Password" + "'")
  {
    ServerSettingText(); DatabaseSettingText(); UserSettingText(); PlaceholderPasswordText(); QuotedSqlPasswordAuthenticationText();
    Join5(ServerSetting(), DatabaseSetting(), UserSetting(), PlaceholderPassword(), QuotedSqlPasswordAuthentication(),
      ("Server=" + "test1.database.windows.net"), ("Database=" + "testdb"), ("User Id=" + "user"), ("Password=" + "placeholder"), ("Authentication=" + "'" + "SQL Password" + "'"));
  }

  lemma SqlPasswordQuotedReadsBack()
    ensures Parse(SqlPasswordQuoted) == Success(Apply(map[], SqlPasswordQuotedSettings()))
  {
    SqlPasswordQuotedJoin();
    ServerSettingWellFormed(); DatabaseSettingWellFormed(); UserSettingWellFormed(); PlaceholderPasswordWellFormed(); QuotedSqlPasswordAuthenticationWellFormed();
    WellFormed5(ServerSetting(), DatabaseSetting(), UserSetting(), PlaceholderPassword(), QuotedSqlPasswordAuthentication());
    ParseJoin(SqlPasswordQuotedSettings());
  }

  lemma SqlPasswordQuotedStores()
    ensures Apply(map[], SqlPasswordQuotedSettings()) == map["server" := "test1.database.windows.net", "database" := "testdb", "user" := "user", "password" := "placeholder", "authentication" := "SQL Password"]
  {
    Apply5(ServerSetting(), DatabaseSetting(), UserSetting(), PlaceholderPassword(), QuotedSqlPasswordAuthentication());
    ServerKey(); DatabaseKey(); UserIdKey(); PasswordKey(); AuthenticationKey();
  }

  lemma SqlPasswordQuotedParse()
    ensures Parse(SqlPasswordQuoted) == Success(map["server" := "test1.database.windows.net", "database" := "testdb", "user" := "user", "password" := "placeholder", "authentication" := "SQL Password"])
  {
    SqlPasswordQuotedReadsBack();
    SqlPasswordQuotedStores();
  }

  lemma SqlPasswordQuotedConfig(clientId: string, tenantId: string)
    ensures Build(SqlPasswordQuoted, clientId, tenantId)
         == Success(Config(Some("test1.database.windows.net"), "testdb", Some("user"), Some("placeholder"), None))
  {
    SqlPasswordQuotedParse();
    BuildNamedSqlLogin(SqlPasswordQuoted, "test1.database.windows.net", "testdb", "user", "placeholder", "SQL Password", clientId, tenantId);
  }

  /** The settings in another order, with the catalog keyword capitalised. */
  const UserFirst := ("User Id=" + "user") + ";" + ("Password=" + "1234") + ";" + ("Server=" + "test1.database.windows.net") + ";" + ("Initial Catalog=" + "testDB")

  function UserFirstSettings(): seq<Setting> {
    [UserSetting(), NumericPassword(), ServerSetting(), CapitalCatalogSetting()]
  }

  lemma UserFirstJoin()
    ensures Join(UserFirstSettings()) == ("User Id=" + "user") + ";" + ("Password=" + "1234") + ";" + ("Server=" + "test1.database.windows.net") + ";" + ("Initial Catalog=" + "testDB")
  {
    UserSettingText(); NumericPasswordText(); ServerSettingText(); CapitalCatalogSettingText();
    Join4(UserSetting(), NumericPassword(), ServerSetting(), CapitalCatalogSetting(),
      ("User Id=" + "user"), ("Password=" + "1234"), ("Server=" + "test1.database.windows.net"), ("Initial Catalog=" + "testDB"));
  }

  lemma UserFirstReadsBack()
    ensures Parse(UserFirst) == Success(Apply(map[], UserFirstSettings()))
  {
    UserFirstJoin();
    UserSettingWellFormed(); NumericPasswordWellFormed(); ServerSettingWellFormed(); CapitalCatalogSettingWellFormed();
    WellFormed4(UserSetting(), NumericPassword(), ServerSetting(), CapitalCatalogSetting());
    ParseJoin(UserFirstSettings());
  }

  lemma UserFirstStores()
    ensures Apply(map[], UserFirstSettings()) == map["user" := "user", "password" := "1234", "server" := "test1.database.windows.net", "database" := "testDB"]
  {
    Apply4(UserSetting(), NumericPassword(), ServerSetting(), CapitalCatalogSetting());
    UserIdKey(); PasswordKey(); ServerKey(); InitialCatalogCapitalKey();
  }

  lemma UserFirstParse()
    ensures Parse(UserFirst) == Success(map["server" := "test1.database.windows.net", "user" := "user", "password" := "1234", "database" := "testDB"])
  {
    UserFirstReadsBack();
    UserFirstStores();
    UserFirstOrder("test1.database.windows.net", "user", "1234", "testDB");
  }

  lemma UserFirstConfig(clientId: string, tenantId: string)
    ensures Build(UserFirst, clientId, tenantId)
         == Success(Config(Some("test1.database.windows.net"), "testDB", Some("user"), Some("1234"), None))
  {
    UserFirstParse();
    BuildSqlLogin(UserFirst, "test1.database.windows.net", "user", "1234", "testDB", clientId, tenantId);
  }


}
