/** Connection strings the builder rejects, each with the error it reports. */
module RejectedSamples {
  import opened Wrappers
  import opened Errors
  import opened Tokenizer
  import opened Encoding
  import opened Authentication
  import opened ConnectionConfig
  import opened Samples
  import opened SampleSettings
  import opened Rejections

  /** No user. */
  const WithoutUser := ("Server=" + "test1.database.windows.net") + ";" + ("Password=" + "password") + ";" + ("Initial catalog=" + "testdb")

  function WithoutUserSettings(): seq<Setting> {
    [ServerSetting(), PasswordPassword(), CatalogSetting()]
  }

  lemma WithoutUserJoin()
    ensures Join(WithoutUserSettings()) == ("Server=" + "test1.database.windows.net") + ";" + ("Password=" + "password") + ";" + ("Initial catalog=" + "testdb")
  {
    ServerSettingText(); PasswordPasswordText(); CatalogSettingText();
    Join3(ServerSetting(), PasswordPassword(), CatalogSetting(),
      ("Server=" + "test1.database.windows.net"), ("Password=" + "password"), ("Initial catalog=" + "testdb"));
  }

  lemma WithoutUserReadsBack()
    ensures Parse(WithoutUser) == Success(Apply(map[], WithoutUserSettings()))
  {
    WithoutUserJoin();
    ServerSettingWellFormed(); PasswordPasswordWellFormed(); CatalogSettingWellFormed();
    WellFormed3(ServerSetting(), PasswordPassword(), CatalogSetting());
    ParseJoin(WithoutUserSettings());
  }

  lemma WithoutUserStores()
    ensures Apply(map[], WithoutUserSettings()) == map["server" := "test1.database.windows.net", "password" := "password", "database" := "testdb"]
  {
    Apply3(ServerSetting(), PasswordPassword(), CatalogSetting());
    ServerKey(); PasswordKey(); InitialCatalogKey();
  }

  lemma WithoutUserParse()
    ensures Parse(WithoutUser) == Success(map["server" := "test1.database.windows.net", "password" := "password", "database" := "testdb"])
  {
    WithoutUserReadsBack();
    WithoutUserStores();
  }

  lemma WithoutUserRejected(clientId: string, tenantId: string)
    ensures Build(WithoutUser, clientId, tenantId)
         == Failure(MissingUser)
  {
    WithoutUserParse();
    BuildWithoutUser(WithoutUser, "test1.database.windows.net", "password", "testdb", clientId, tenantId);
  }

  /** No password. */
  const WithoutPassword := ("Server=" + "test1.database.windows.net") + ";" + ("User Id=" + "user") + ";" + ("Initial catalog=" + "testdb")

  function WithoutPasswordSettings(): seq<Setting> {
    [ServerSetting(), UserSetting(), CatalogSetting()]
  }

  lemma WithoutPasswordJoin()
    ensures Join(WithoutPasswordSettings()) == ("Server=" + "test1.database.windows.net") + ";" + ("User Id=" + "user") + ";" + ("Initial catalog=" + "testdb")
  {
    ServerSettingText(); UserSettingText(); CatalogSettingText();
    Join3(ServerSetting(), UserSetting(), CatalogSetting(),
      ("Server=" + "test1.database.windows.net"), ("User Id=" + "user"), ("Initial catalog=" + "testdb"));
  }

  lemma WithoutPasswordReadsBack()
    ensures Parse(WithoutPassword) == Success(Apply(map[], WithoutPasswordSettings()))
  {
    WithoutPasswordJoin();
    ServerSettingWellFormed(); UserSettingWellFormed(); CatalogSettingWellFormed();
    WellFormed3(ServerSetting(), UserSetting(), CatalogSetting());
    ParseJoin(WithoutPasswordSettings());
  }

  lemma WithoutPasswordStores()
    ensures Apply(map[], WithoutPasswordSettings()) == map["server" := "test1.database.windows.net", "user" := "user", "database" := "testdb"]
  {
    Apply3(ServerSetting(), UserSetting(), CatalogSetting());
    ServerKey(); UserIdKey(); InitialCatalogKey();
  }

  lemma WithoutPasswordParse()
    ensures Parse(WithoutPassword) == Success(map["server" := "test1.database.windows.net", "user" := "user", "database" := "testdb"])
  {
    WithoutPasswordReadsBack();
    WithoutPasswordStores();
  }

  lemma WithoutPasswordRejected(clientId: string, tenantId: string)
    ensures Build(WithoutPassword, clientId, tenantId)
         == Failure(MissingPassword)
  {
    WithoutPasswordParse();
    BuildWithoutPassword(WithoutPassword, "test1.database.windows.net", "user", "testdb", clientId, tenantId);
  }

  /** No database, and a trailing `;`. */
  const WithoutCatalog := ("Server=" + "test1.database.windows.net") + ";" + ("User Id=" + "user") + ";" + ("Password=" + "password") + ";"

  function WithoutCatalogSettings(): seq<Setting> {
    [ServerSetting(), UserSetting(), PasswordPassword()]
  }

  lemma WithoutCatalogJoin()
    ensures Join(WithoutCatalogSettings()) == ("Server=" + "test1.database.windows.net") + ";" + ("User Id=" + "user") + ";" + ("Password=" + "password")
  {
    ServerSettingText(); UserSettingText(); PasswordPasswordText();
    Join3(ServerSetting(), UserSetting(), PasswordPassword(),
      ("Server=" + "test1.database.windows.net"), ("User Id=" + "user"), ("Password=" + "password"));
  }

  lemma WithoutCatalogReadsBack()
    ensures Parse(WithoutCatalog) == Success(Apply(map[], WithoutCatalogSettings()))
  {
    WithoutCatalogJoin();
    ServerSettingWellFormed(); UserSettingWellFormed(); PasswordPasswordWellFormed();
    WellFormed3(ServerSetting(), UserSetting(), PasswordPassword());
    ParseJoin(WithoutCatalogSettings());
  }

  lemma WithoutCatalogStores()
    ensures Apply(map[], WithoutCatalogSettings()) == map["server" := "test1.database.windows.net", "user" := "user", "password" := "password"]
  {
    Apply3(ServerSetting(), UserSetting(), PasswordPassword());
    ServerKey(); UserIdKey(); PasswordKey();
  }

  lemma WithoutCatalogParse()
    ensures Parse(WithoutCatalog) == Success(map["server" := "test1.database.windows.net", "user" := "user", "password" := "password"])
  {
    WithoutCatalogReadsBack();
    WithoutCatalogStores();
  }

  lemma WithoutCatalogRejected(clientId: string, tenantId: string)
    ensures Build(WithoutCatalog, clientId, tenantId)
         == Failure(MissingDatabase)
  {
    WithoutCatalogParse();
    BuildWithoutDatabase(WithoutCatalog, "test1.database.windows.net", "user", "password", clientId, tenantId);
  }

  /** An authentication type that does not exist; there is no user either. */
  const FakeType := ("Server=" + "test1.database.windows.net") + ";" + ("Database=" + "testdb") + ";" + ("Authentication=" + "Fake Auth Type") + ";" + ("Password=" + "password") + ";"

  function FakeTypeSettings(): seq<Setting> {
    [ServerSetting(), DatabaseSetting(), FakeAuthentication(), PasswordPassword()]
  }

  lemma FakeTypeJoin()
    ensures Join(FakeTypeSettings()) == ("Server=" + "test1.database.windows.net") + ";" + ("Database=" + "testdb") + ";" + ("Authentication=" + "Fake Auth Type") + ";" + ("Password=" + "password")
  {
    ServerSettingText(); DatabaseSettingText(); FakeAuthenticationText(); PasswordPasswordText();
    Join4(ServerSetting(), DatabaseSetting(), FakeAuthentication(), PasswordPassword(),
      ("Server=" + "test1.database.windows.net"), ("Database=" + "testdb"), ("Authentication=" + "Fake Auth Type"), ("Password=" + "password"));
  }

  lemma FakeTypeReadsBack()
    ensures Parse(FakeType) == Success(Apply(map[], FakeTypeSettings()))
  {
    FakeTypeJoin();
    ServerSettingWellFormed(); DatabaseSettingWellFormed(); FakeAuthenticationWellFormed(); PasswordPasswordWellFormed();
    WellFormed4(ServerSetting(), DatabaseSetting(), FakeAuthentication(), PasswordPassword());
    ParseJoin(FakeTypeSettings());
  }

  lemma FakeTypeStores()
    ensures Apply(map[], FakeTypeSettings()) == map["server" := "test1.database.windows.net", "database" := "testdb", "authentication" := "Fake Auth Type", "password" := "password"]
  {
    Apply4(ServerSetting(), DatabaseSetting(), FakeAuthentication(), PasswordPassword());
    ServerKey(); DatabaseKey(); AuthenticationKey(); PasswordKey();
  }

  lemma FakeTypeParse()
    ensures Parse(FakeType) == Success(map["server" := "test1.database.windows.net", "database" := "testdb", "authentication" := "Fake Auth Type", "password" := "password"])
  {
    FakeTypeReadsBack();
    FakeTypeStores();
  }

  lemma FakeTypeRejected(clientId: string, tenantId: string)
    ensures Build(FakeType, clientId, tenantId)
         == Failure(UnsupportedAuthentication("Fake Auth Type"))
  {
    FakeTypeParse();
    BuildUnsupported(FakeType, "test1.database.windows.net", "testdb", "Fake Auth Type", "password", clientId, tenantId);
  }

  /** Active Directory password authentication without a user. */
  const AadPasswordWithoutUser := ("Server=" + "test1.database.windows.net") + ";" + ("Database=" + "testdb") + ";" + ("Authentication=" + "'" + "Active Directory Password" + "'") + ";" + ("Password=" + "password") + ";"

  function AadPasswordWithoutUserSettings(): seq<Setting> {
    [ServerSetting(), DatabaseSetting(), SingleQuotedAadPasswordAuthentication(), PasswordPassword()]
  }

  lemma AadPasswordWithoutUserJoin()
    ensures Join(AadPasswordWithoutUserSettings()) == ("Server=" + "test1.database.windows.net") + ";" + ("Database=" + "testdb") + ";" + ("Authentication=" + "'" + "Active Directory Password" + "'") + ";" + ("Password=" + "password")
  {
    ServerSettingText(); DatabaseSettingText(); SingleQuotedAadPasswordAuthenticationText(); PasswordPasswordText();
    Join4(ServerSetting(), DatabaseSetting(), SingleQuotedAadPasswordAuthentication(), PasswordPassword(),
      ("Server=" + "test1.database.windows.net"), ("Database=" + "testdb"), ("Authentication=" + "'" + "Active Directory Password" + "'"), ("Password=" + "password"));
  }

  lemma AadPasswordWithoutUserReadsBack()
    ensures Parse(AadPasswordWithoutUser) == Success(Apply(map[], AadPasswordWithoutUserSettings()))
  {
    AadPasswordWithoutUserJoin();
    ServerSettingWellFormed(); DatabaseSettingWellFormed(); SingleQuotedAadPasswordAuthenticationWellFormed(); PasswordPasswordWellFormed();
    WellFormed4(ServerSetting(), DatabaseSetting(), SingleQuotedAadPasswordAuthentication(), PasswordPassword());
    ParseJoin(AadPasswordWithoutUserSettings());
  }

  lemma AadPasswordWithoutUserStores()
    ensures Apply(map[], AadPasswordWithoutUserSettings()) == map["server" := "test1.database.windows.net", "database" := "testdb", "authentication" := "Active Directory Password", "password" := "password"]
  {
    Apply4(ServerSetting(), DatabaseSetting(), SingleQuotedAadPasswordAuthentication(), PasswordPassword());
    ServerKey(); DatabaseKey(); AuthenticationKey(); PasswordKey();
  }

  lemma AadPasswordWithoutUserParse()
    ensures Parse(AadPasswordWithoutUser) == Success(map["server" := "test1.database.windows.net", "database" := "testdb", "authentication" := "Active Directory Password", "password" := "password"])
  {
    AadPasswordWithoutUserReadsBack();
    AadPasswordWithoutUserStores();
  }

  lemma AadPasswordWithoutUserRejected(clientId: string, tenantId: string)
    ensures Build(AadPasswordWithoutUser, clientId, tenantId)
         == Failure(MissingUser)
  {
    AadPasswordWithoutUserParse();
    BuildNamedWithoutUser(AadPasswordWithoutUser, "test1.database.windows.net", "testdb", "Active Directory Password", "password", AadPassword, clientId, tenantId);
  }

  /** Active Directory password authentication without a password. */
  const AadPasswordWithoutPassword := ("Server=" + "test1.database.windows.net") + ";" + ("Database=" + "testdb") + ";" + ("Authentication=" + "'" + "Active Directory Password" + "'") + ";" + ("User Id=" + "user") + ";"

  function AadPasswordWithoutPasswordSettings(): seq<Setting> {
    [ServerSetting(), DatabaseSetting(), SingleQuotedAadPasswordAuthentication(), UserSetting()]
  }

  lemma AadPasswordWithoutPasswordJoin()
    ensures Join(AadPasswordWithoutPasswordSettings()) == ("Server=" + "test1.database.windows.net") + ";" + ("Database=" + "testdb") + ";" + ("Authentication=" + "'" + "Active Directory Password" + "'") + ";" + ("User Id=" + "user")
  {
    ServerSettingText(); DatabaseSettingText(); SingleQuotedAadPasswordAuthenticationText(); UserSettingText();
    Join4(ServerSetting(), DatabaseSetting(), SingleQuotedAadPasswordAuthentication(), UserSetting(),
      ("Server=" + "test1.database.windows.net"), ("Database=" + "testdb"), ("Authentication=" + "'" + "Active Directory Password" + "'"), ("User Id=" + "user"));
  }

  lemma AadPasswordWithoutPasswordReadsBack()
    ensures Parse(AadPasswordWithoutPassword) == Success(Apply(map[], AadPasswordWithoutPasswordSettings()))
  {
    AadPasswordWithoutPasswordJoin();
    ServerSettingWellFormed(); DatabaseSettingWellFormed(); SingleQuotedAadPasswordAuthenticationWellFormed(); UserSettingWellFormed();
    WellFormed4(ServerSetting(), DatabaseSetting(), SingleQuotedAadPasswordAuthentication(), UserSetting());
    ParseJoin(AadPasswordWithoutPasswordSettings());
  }

  lemma AadPasswordWithoutPasswordStores()
    ensures Apply(map[], AadPasswordWithoutPasswordSettings()) == map["server" := "test1.database.windows.net", "database" := "testdb", "authentication" := "Active Directory Password", "user" := "user"]
  {
    Apply4(ServerSetting(), DatabaseSetting(), SingleQuotedAadPasswordAuthentication(), UserSetting());
    ServerKey(); DatabaseKey(); AuthenticationKey(); UserIdKey();
  }

  lemma AadPasswordWithoutPasswordParse()
    ensures Parse(AadPasswordWithoutPassword) == Success(map["server" := "test1.database.windows.net", "database" := "testdb", "authentication" := "Active Directory Password", "user" := "user"])
  {
    AadPasswordWithoutPasswordReadsBack();
    AadPasswordWithoutPasswordStores();
  }

  lemma AadPasswordWithoutPasswordRejected(clientId: string, tenantId: string)
    ensures Build(AadPasswordWithoutPassword, clientId, tenantId)
         == Failure(MissingPassword)
  {
    AadPasswordWithoutPasswordParse();
    BuildNamedWithoutPassword(AadPasswordWithoutPassword, "test1.database.windows.net", "testdb", "Active Directory Password", "user", AadPassword, clientId, tenantId);
  }

  /** SQL password authentication without a user. */
  const SqlPasswordWithoutUser := ("Server=" + "test1.database.windows.net") + ";" + ("Database=" + "testdb") + ";" + ("Authentication=" + "'" + "SQL Password" + "'") + ";" + ("Password=" + "password") + ";"

  function SqlPasswordWithoutUserSettings(): seq<Setting> {
    [ServerSetting(), DatabaseSetting(), QuotedSqlPasswordAuthentication(), PasswordPassword()]
  }

  lemma SqlPasswordWithoutUserJoin()
    ensures Join(SqlPasswordWithoutUserSettings()) == ("Server=" + "test1.database.windows.net") + ";" + ("Database=" + "testdb") + ";" + ("Authentication=" + "'" + "SQL Password" + "'") + ";" + ("Password=" + "password")
  {
    ServerSettingText(); DatabaseSettingText(); QuotedSqlPasswordAuthenticationText(); PasswordPasswordText();
    Join4(ServerSetting(), DatabaseSetting(), QuotedSqlPasswordAuthentication(), PasswordPassword(),
      ("Server=" + "test1.database.windows.net"), ("Database=" + "testdb"), ("Authentication=" + "'" + "SQL Password" + "'"), ("Password=" + "password"));
  }

  lemma SqlPasswordWithoutUserReadsBack()
    ensures Parse(SqlPasswordWithoutUser) == Success(Apply(map[], SqlPasswordWithoutUserSettings()))
  {
    SqlPasswordWithoutUserJoin();
    ServerSettingWellFormed(); DatabaseSettingWellFormed(); QuotedSqlPasswordAuthenticationWellFormed(); PasswordPasswordWellFormed();
    WellFormed4(ServerSetting(), DatabaseSetting(), QuotedSqlPasswordAuthentication(), PasswordPassword());
    ParseJoin(SqlPasswordWithoutUserSettings());
  }

  lemma SqlPasswordWithoutUserStores()
    ensures Apply(map[], SqlPasswordWithoutUserSettings()) == map["server" := "test1.database.windows.net", "database" := "testdb", "authentication" := "SQL Password", "password" := "password"]
  {
    Apply4(ServerSetting(), DatabaseSetting(), QuotedSqlPasswordAuthentication(), PasswordPassword());
    ServerKey(); DatabaseKey(); AuthenticationKey(); PasswordKey();
  }

  lemma SqlPasswordWithoutUserParse()
    ensures Parse(SqlPasswordWithoutUser) == Success(map["server" := "test1.database.windows.net", "database" := "testdb", "authentication" := "SQL Password", "password" := "password"])
  {
    SqlPasswordWithoutUserReadsBack();
    SqlPasswordWithoutUserStores();
  }

  lemma SqlPasswordWithoutUserRejected(clientId: string, tenantId: string)
    ensures Build(SqlPasswordWithoutUser, clientId, tenantId)
         == Failure(MissingUser)
  {
    SqlPasswordWithoutUserParse();
    BuildNamedWithoutUser(SqlPasswordWithoutUser, "test1.database.windows.net", "testdb", "SQL Password", "password", SqlPassword, clientId, tenantId);
  }

  /** SQL password authentication without a password. */
  const SqlPasswordWithoutPassword := ("Server=" + "test1.database.windows.net") + ";" + ("Database=" + "testdb") + ";" + ("Authentication=" + "'" + "SQL Password" + "'") + ";" + ("User Id=" + "user") + ";"

  function SqlPasswordWithoutPasswordSettings(): seq<Setting> {
    [ServerSetting(), DatabaseSetting(), QuotedSqlPasswordAuthentication(), UserSetting()]
  }

  lemma SqlPasswordWithoutPasswordJoin()
    ensures Join(SqlPasswordWithoutPasswordSettings()) == ("Server=" + "test1.database.windows.net") + ";" + ("Database=" + "testdb") + ";" + ("Authentication=" + "'" + "SQL Password" + "'") + ";" + ("User Id=" + "user")
  {
    ServerSettingText(); DatabaseSettingText(); QuotedSqlPasswordAuthenticationText(); UserSettingText();
    Join4(ServerSetting(), DatabaseSetting(), QuotedSqlPasswordAuthentication(), UserSetting(),
      ("Server=" + "test1.database.windows.net"), ("Database=" + "testdb"), ("Authentication=" + "'" + "SQL Password" + "'"), ("User Id=" + "user"));
  }

  lemma SqlPasswordWithoutPasswordReadsBack()
    ensures Parse(SqlPasswordWithoutPassword) == Success(Apply(map[], SqlPasswordWithoutPasswordSettings()))
  {
    SqlPasswordWithoutPasswordJoin();
    ServerSettingWellFormed(); DatabaseSettingWellFormed(); QuotedSqlPasswordAuthenticationWellFormed(); UserSettingWellFormed();
    WellFormed4(ServerSetting(), DatabaseSetting(), QuotedSqlPasswordAuthentication(), UserSetting());
    ParseJoin(SqlPasswordWithoutPasswordSettings());
  }

  lemma SqlPasswordWithoutPasswordStores()
    ensures Apply(map[], SqlPasswordWithoutPasswordSettings()) == map["server" := "test1.database.windows.net", "database" := "testdb", "authentication" := "SQL Password", "user" := "user"]
  {
    Apply4(ServerSetting(), DatabaseSetting(), QuotedSqlPasswordAuthentication(), UserSetting());
    ServerKey(); DatabaseKey(); AuthenticationKey(); UserIdKey();
  }

  lemma SqlPasswordWithoutPasswordParse()
    ensures Parse(SqlPasswordWithoutPassword) == Success(map["server" := "test1.database.windows.net", "database" := "testdb", "authentication" := "SQL Password", "user" := "user"])
  {
    SqlPasswordWithoutPasswordReadsBack();
    SqlPasswordWithoutPasswordStores();
  }

  lemma SqlPasswordWithoutPasswordRejected(clientId: string, tenantId: string)
    ensures Build(SqlPasswordWithoutPassword, clientId, tenantId)
         == Failure(MissingPassword)
  {
    SqlPasswordWithoutPasswordParse();
    BuildNamedWithoutPassword(SqlPasswordWithoutPassword, "test1.database.windows.net", "testdb", "SQL Password", "user", SqlPassword, clientId, tenantId);
  }

  /** Service principal authentication without a client id in the user field. */
  const ServicePrincipalWithoutClientId := ("Server=" + "test1.database.windows.net") + ";" + ("Database=" + "testdb") + ";" + ("Authentication=" + "'" + "ActiveDirectoryServicePrincipal" + "'") + ";" + ("Password=" + "placeholder") + ";"

  function ServicePrincipalWithoutClientIdSettings(): seq<Setting> {
    [ServerSetting(), DatabaseSetting(), ServicePrincipalOneWordAuthentication(), PlaceholderPassword()]
  }

  lemma ServicePrincipalWithoutClientIdJoin()
    ensures Join(ServicePrincipalWithoutClientIdSettings()) == ("Server=" + "test1.database.windows.net") + ";" + ("Database=" + "testdb") + ";" + ("Authentication=" + "'" + "ActiveDirectoryServicePrincipal" + "'") + ";" + ("Password=" + "placeholder")
  {
    ServerSettingText(); DatabaseSettingText(); ServicePrincipalOneWordAuthenticationText(); PlaceholderPasswordText();
    Join4(ServerSetting(), DatabaseSetting(), ServicePrincipalOneWordAuthentication(), PlaceholderPassword(),
      ("Server=" + "test1.database.windows.net"), ("Database=" + "testdb"), ("Authentication=" + "'" + "ActiveDirectoryServicePrincipal" + "'"), ("Password=" + "placeholder"));
  }

  lemma ServicePrincipalWithoutClientIdReadsBack()
    ensures Parse(ServicePrincipalWithoutClientId) == Success(Apply(map[], ServicePrincipalWithoutClientIdSettings()))
  {
    ServicePrincipalWithoutClientIdJoin();
    ServerSettingWellFormed(); DatabaseSettingWellFormed(); ServicePrincipalOneWordAuthenticationWellFormed(); PlaceholderPasswordWellFormed();
    WellFormed4(ServerSetting(), DatabaseSetting(), ServicePrincipalOneWordAuthentication(), PlaceholderPassword());
    ParseJoin(ServicePrincipalWithoutClientIdSettings());
  }

  lemma ServicePrincipalWithoutClientIdStores()
    ensures Apply(map[], ServicePrincipalWithoutClientIdSettings()) == map["server" := "test1.database.windows.net", "database" := "testdb", "authentication" := "ActiveDirectoryServicePrincipal", "password" := "placeholder"]
  {
    Apply4(ServerSetting(), DatabaseSetting(), ServicePrincipalOneWordAuthentication(), PlaceholderPassword());
    ServerKey(); DatabaseKey(); AuthenticationKey(); PasswordKey();
  }

  lemma ServicePrincipalWithoutClientIdParse()
    ensures Parse(ServicePrincipalWithoutClientId) == Success(map["server" := "test1.database.windows.net", "database" := "testdb", "authentication" := "ActiveDirectoryServicePrincipal", "password" := "placeholder"])
  {
    ServicePrincipalWithoutClientIdReadsBack();
    ServicePrincipalWithoutClientIdStores();
  }

  lemma ServicePrincipalWithoutClientIdRejected(clientId: string, tenantId: string)
    ensures Build(ServicePrincipalWithoutClientId, clientId, tenantId)
         == Failure(MissingClientId)
  {
    ServicePrincipalWithoutClientIdParse();
    BuildNamedWithoutUser(ServicePrincipalWithoutClientId, "test1.database.windows.net", "testdb", "ActiveDirectoryServicePrincipal", "placeholder", AadServicePrincipalSecret, clientId, tenantId);
  }

  /** Service principal authentication without a client secret in the password field. */
  const ServicePrincipalWithoutSecret := ("Server=" + "test1.database.windows.net") + ";" + ("Database=" + "testdb") + ";" + ("Authentication=" + "'" + "ActiveDirectoryServicePrincipal" + "'") + ";" + ("User Id=" + "clientId") + ";"

  function ServicePrincipalWithoutSecretSettings(): seq<Setting> {
    [ServerSetting(), DatabaseSetting(), ServicePrincipalOneWordAuthentication(), ClientIdUserSetting()]
  }

  lemma ServicePrincipalWithoutSecretJoin()
    ensures Join(ServicePrincipalWithoutSecretSettings()) == ("Server=" + "test1.database.windows.net") + ";" + ("Database=" + "testdb") + ";" + ("Authentication=" + "'" + "ActiveDirectoryServicePrincipal" + "'") + ";" + ("User Id=" + "clientId")
  {
    ServerSettingText(); DatabaseSettingText(); ServicePrincipalOneWordAuthenticationText(); ClientIdUserSettingText();
    Join4(ServerSetting(), DatabaseSetting(), ServicePrincipalOneWordAuthentication(), ClientIdUserSetting(),
      ("Server=" + "test1.database.windows.net"), ("Database=" + "testdb"), ("Authentication=" + "'" + "ActiveDirectoryServicePrincipal" + "'"), ("User Id=" + "clientId"));
  }

  lemma ServicePrincipalWithoutSecretReadsBack()
    ensures Parse(ServicePrincipalWithoutSecret) == Success(Apply(map[], ServicePrincipalWithoutSecretSettings()))
  {
    ServicePrincipalWithoutSecretJoin();
    ServerSettingWellFormed(); DatabaseSettingWellFormed(); ServicePrincipalOneWordAuthenticationWellFormed(); ClientIdUserSettingWellFormed();
    WellFormed4(ServerSetting(), DatabaseSetting(), ServicePrincipalOneWordAuthentication(), ClientIdUserSetting());
    ParseJoin(ServicePrincipalWithoutSecretSettings());
  }

  lemma ServicePrincipalWithoutSecretStores()
    ensures Apply(map[], ServicePrincipalWithoutSecretSettings()) == map["server" := "test1.database.windows.net", "database" := "testdb", "authentication" := "ActiveDirectoryServicePrincipal", "user" := "clientId"]
  {
    Apply4(ServerSetting(), DatabaseSetting(), ServicePrincipalOneWordAuthentication(), ClientIdUserSetting());
    ServerKey(); DatabaseKey(); AuthenticationKey(); UserIdKey();
  }

  lemma ServicePrincipalWithoutSecretParse()
    ensures Parse(ServicePrincipalWithoutSecret) == Success(map["server" := "test1.database.windows.net", "database" := "testdb", "authentication" := "ActiveDirectoryServicePrincipal", "user" := "clientId"])
  {
    ServicePrincipalWithoutSecretReadsBack();
    ServicePrincipalWithoutSecretStores();
  }

  lemma ServicePrincipalWithoutSecretRejected(clientId: string, tenantId: string)
    ensures Build(ServicePrincipalWithoutSecret, clientId, tenantId)
         == Failure(MissingClientSecret)
  {
    ServicePrincipalWithoutSecretParse();
    BuildNamedWithoutPassword(ServicePrincipalWithoutSecret, "test1.database.windows.net", "testdb", "ActiveDirectoryServicePrincipal", "clientId", AadServicePrincipalSecret, clientId, tenantId);
  }

  // ---------------------------------------------------------------------------
  // Malformed strings: each is the server and user settings, then a password
  // setting that breaks the grammar.

  /** The server and user settings every malformed sample starts with. */
  lemma ServerAndUser(rest: string)
    ensures Parse(("Server=" + "test1.database.windows.net") + ";" + ("User Id=" + "user") + ";" + rest)
         == Scan(rest, Start, Apply(map[], [ServerSetting(), UserSetting()]))
  {
    ServerSettingText(); UserSettingText();
    Join2(ServerSetting(), UserSetting(), "Server=" + "test1.database.windows.net", "User Id=" + "user");
    ServerSettingWellFormed(); UserSettingWellFormed();
    WellFormed2(ServerSetting(), UserSetting());
    ParsePrefix([ServerSetting(), UserSetting()], rest);
  }

  /** A malformed string is reported as such before any setting is validated. */
  lemma MalformedBuild(raw: string, clientId: string, tenantId: string)
    requires Parse(raw) == Failure(MalformedConnectionString)
    ensures Build(raw, clientId, tenantId) == Failure(MalformedConnectionString)
  {
  }

  /** A double-quoted password whose closing quote never comes. */
  const UnterminatedDoubleQuote := ("Server=" + "test1.database.windows.net") + ";" + ("User Id=" + "user") + ";"
    + ("Password=" + "\"" + "ab'=abcdf''c;123;Initial catalog=testdb")

  lemma UnterminatedDoubleQuoteTail()
    ensures '"' !in "ab'=abcdf''c;123;Initial catalog=testdb"
  {
  }

  lemma UnterminatedDoubleQuoteRejected(clientId: string, tenantId: string)
    ensures Parse(UnterminatedDoubleQuote) == Failure(MalformedConnectionString)
    ensures Build(UnterminatedDoubleQuote, clientId, tenantId) == Failure(MalformedConnectionString)
  {
    var t := "ab'=abcdf''c;123;Initial catalog=testdb";
    ServerAndUser("Password=" + "\"" + t);
    PasswordKeyword(); PasswordEquals(); UnterminatedDoubleQuoteTail();
    UnterminatedQuote("Password", '"', t, Apply(map[], [ServerSetting(), UserSetting()]));
    MalformedBuild(UnterminatedDoubleQuote, clientId, tenantId);
  }

  /** A single-quoted password whose closing quote never comes. */
  const UnterminatedSingleQuote := ("Server=" + "test1.database.windows.net") + ";" + ("User Id=" + "user") + ";"
    + ("Password=" + "'" + "abc;1\"\"2\"adf=33;Initial catalog=testdb")

  lemma UnterminatedSingleQuoteTail()
    ensures '\'' !in "abc;1\"\"2\"adf=33;Initial catalog=testdb"
  {
  }

  lemma UnterminatedSingleQuoteRejected(clientId: string, tenantId: string)
    ensures Parse(UnterminatedSingleQuote) == Failure(MalformedConnectionString)
    ensures Build(UnterminatedSingleQuote, clientId, tenantId) == Failure(MalformedConnectionString)
  {
    var t := "abc;1\"\"2\"adf=33;Initial catalog=testdb";
    ServerAndUser("Password=" + "'" + t);
    PasswordKeyword(); PasswordEquals(); UnterminatedSingleQuoteTail();
    UnterminatedQuote("Password", '\'', t, Apply(map[], [ServerSetting(), UserSetting()]));
    MalformedBuild(UnterminatedSingleQuote, clientId, tenantId);
  }

  /** `UnescapedQuote` with the keyword, `=` and the delimiter written as separate pieces. */
  lemma UnescapedQuoteWritten(w: string, equals: string, quote: string, q: char, v: string, escaped: string, head: string, tail: string, m: Pairs)
    requires WellFormedKeyword(w) && IsQuote(q) && equals == w + "=" && quote == [q] && escaped == Escape(v, q)
    requires head != [] && head[0] != q && head[0] != ';'
    ensures Scan(equals + quote + escaped + quote + head + tail, Start, m) == Failure(MalformedConnectionString)
  {
    UnescapedQuote(w, q, v, head + tail, m);
    assert equals + quote + escaped + quote + head + tail == w + "=" + [q] + Escape(v, q) + [q] + (head + tail);
  }

  /** A double-quoted password with one `"` left undoubled in the middle. */
  const UndoubledDoubleQuote := ("Server=" + "test1.database.windows.net") + ";" + ("User Id=" + "user") + ";"
    + ("Password=" + "\"" + ("abc;1" + "\"\"" + "2") + "\"" + "adf" + "(012j^72''asj;')'=33\";Initial catalog=testdb")

  lemma UndoubledDoubleQuoteEscaped()
    ensures Escape("abc;1" + "\"" + "2", '"') == "abc;1" + "\"\"" + "2"
  {
    EscapedDoubleQuotePasswordPart0();
    EscapedDoubleQuotePasswordPart1();
    EscapeSnoc("abc;1", "2", '"');
    assert "abc;1" + "\"" + "2" == "abc;1" + ['"'] + "2";
  }

  lemma UndoubledDoubleQuoteSetting(m: Pairs)
    ensures Scan("Password=" + "\"" + ("abc;1" + "\"\"" + "2") + "\"" + "adf" + "(012j^72''asj;')'=33\";Initial catalog=testdb", Start, m)
         == Failure(MalformedConnectionString)
  {
    PasswordKeyword(); PasswordEquals(); UndoubledDoubleQuoteEscaped();
    UnescapedQuoteWritten("Password", "Password=", "\"", '"', "abc;1" + "\"" + "2", "abc;1" + "\"\"" + "2", "adf", "(012j^72''asj;')'=33\";Initial catalog=testdb", m);
  }

  lemma UndoubledDoubleQuoteRejected(clientId: string, tenantId: string)
    ensures Parse(UndoubledDoubleQuote) == Failure(MalformedConnectionString)
    ensures Build(UndoubledDoubleQuote, clientId, tenantId) == Failure(MalformedConnectionString)
  {
    ServerAndUser("Password=" + "\"" + ("abc;1" + "\"\"" + "2") + "\"" + "adf" + "(012j^72''asj;')'=33\";Initial catalog=testdb");
    UndoubledDoubleQuoteSetting(Apply(map[], [ServerSetting(), UserSetting()]));
    MalformedBuild(UndoubledDoubleQuote, clientId, tenantId);
  }

  /** A single-quoted password with one `'` left undoubled in the middle. */
  const UndoubledSingleQuote := ("Server=" + "test1.database.windows.net") + ";" + ("User Id=" + "user") + ";"
    + ("Password=" + "'" + "ab\"\"c;1" + "'" + "2" + "''\"''adf(\"0\"\"12j^72''asj;'')''=33';Initial catalog=testdb")

  lemma UndoubledSingleQuoteEscaped()
    ensures Escape("ab\"\"c;1", '\'') == "ab\"\"c;1"
  {
    EscapedSingleQuotePasswordPart0();
  }

  lemma UndoubledSingleQuoteSetting(m: Pairs)
    ensures Scan("Password=" + "'" + "ab\"\"c;1" + "'" + "2" + "''\"''adf(\"0\"\"12j^72''asj;'')''=33';Initial catalog=testdb", Start, m)
         == Failure(MalformedConnectionString)
  {
    PasswordKeyword(); PasswordEquals(); UndoubledSingleQuoteEscaped();
    UnescapedQuoteWritten("Password", "Password=", "'", '\'', "ab\"\"c;1", "ab\"\"c;1", "2", "''\"''adf(\"0\"\"12j^72''asj;'')''=33';Initial catalog=testdb", m);
  }

  lemma UndoubledSingleQuoteRejected(clientId: string, tenantId: string)
    ensures Parse(UndoubledSingleQuote) == Failure(MalformedConnectionString)
    ensures Build(UndoubledSingleQuote, clientId, tenantId) == Failure(MalformedConnectionString)
  {
    ServerAndUser("Password=" + "'" + "ab\"\"c;1" + "'" + "2" + "''\"''adf(\"0\"\"12j^72''asj;'')''=33';Initial catalog=testdb");
    UndoubledSingleQuoteSetting(Apply(map[], [ServerSetting(), UserSetting()]));
    MalformedBuild(UndoubledSingleQuote, clientId, tenantId);
  }

  /** An unquoted password with a `;` in it: the text after the `;` is a segment without `=`. */
  const UnquotedSemicolon := ("Server=" + "test1.database.windows.net") + ";" + ("User Id=" + "user") + ";"
    + ("Password=" + "NotANormal123@") + ";" + ("#$password" + ";" + "Initial catalog=testdb")

  lemma StrayKeyword()
    ensures WellFormedKeyword("#$password")
  {
    assert '=' !in "#$password" && ';' !in "#$password";
    PlainKeyword("#$password");
  }

  lemma UnquotedSemicolonRejected(clientId: string, tenantId: string)
    ensures Parse(UnquotedSemicolon) == Failure(MalformedConnectionString)
    ensures Build(UnquotedSemicolon, clientId, tenantId) == Failure(MalformedConnectionString)
  {
    var ss := [ServerSetting(), UserSetting(), SignedPassword()];
    ServerSettingText(); UserSettingText(); SignedPasswordText();
    Join3(ServerSetting(), UserSetting(), SignedPassword(),
      "Server=" + "test1.database.windows.net", "User Id=" + "user", "Password=" + "NotANormal123@");
    ServerSettingWellFormed(); UserSettingWellFormed(); SignedPasswordWellFormed();
    WellFormed3(ServerSetting(), UserSetting(), SignedPassword());
    ParsePrefix(ss, "#$password" + ";" + "Initial catalog=testdb");
    StrayKeyword();
    SegmentWithoutEquals("#$password", "Initial catalog=testdb", Apply(map[], ss));
    MalformedBuild(UnquotedSemicolon, clientId, tenantId);
  }

}
