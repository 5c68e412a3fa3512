/** Connection strings naming an Azure Active Directory authentication type, each with the authentication block it yields. */
module AuthenticationSamples {
  import opened Wrappers
  import opened Errors
  import opened Tokenizer
  import opened Encoding
  import opened Authentication
  import opened ConnectionConfig
  import opened Samples
  import opened SampleSettings

  /** Active Directory password, named in double quotes. */
  const AadPasswordDoubleQuoted := ("Server=" + "test1.database.windows.net") + ";" + ("Database=" + "testdb") + ";" + ("Authentication=" + "\"" + "Active Directory Password" + "\"") + ";" + ("User Id=" + "user") + ";" + ("Password=" + "\"" + "placeholder" + "\"") + ";"

  function AadPasswordDoubleQuotedSettings(): seq<Setting> {
    [ServerSetting(), DatabaseSetting(), DoubleQuotedAadPasswordAuthentication(), UserSetting(), QuotedPlaceholderPassword()]
  }

  lemma AadPasswordDoubleQuotedJoin()
    ensures Join(AadPasswordDoubleQuotedSettings()) == ("Server=" + "test1.database.windows.net") + ";" + ("Database=" + "testdb") + ";" + ("Authentication=" + "\"" + "Active Directory Password" + "\"") + ";" + ("User Id=" + "user") + ";" + ("Password=" + "\"" + "placeholder" + "\"")
  {
    ServerSettingText(); DatabaseSettingText(); DoubleQuotedAadPasswordAuthenticationText(); UserSettingText(); QuotedPlaceholderPasswordText();
    Join5(ServerSetting(), DatabaseSetting(), DoubleQuotedAadPasswordAuthentication(), UserSetting(), QuotedPlaceholderPassword(),
      ("Server=" + "test1.database.windows.net"), ("Database=" + "testdb"), ("Authentication=" + "\"" + "Active Directory Password" + "\""), ("User Id=" + "user"), ("Password=" + "\"" + "placeholder" + "\""));
  }

  lemma AadPasswordDoubleQuotedReadsBack()
    ensures Parse(AadPasswordDoubleQuoted) == Success(Apply(map[], AadPasswordDoubleQuotedSettings()))
  {
    AadPasswordDoubleQuotedJoin();
    ServerSettingWellFormed(); DatabaseSettingWellFormed(); DoubleQuotedAadPasswordAuthenticationWellFormed(); UserSettingWellFormed(); QuotedPlaceholderPasswordWellFormed();
    WellFormed5(ServerSetting(), DatabaseSetting(), DoubleQuotedAadPasswordAuthentication(), UserSetting(), QuotedPlaceholderPassword());
    ParseJoin(AadPasswordDoubleQuotedSettings());
  }

  lemma AadPasswordDoubleQuotedStores()
    ensures Apply(map[], AadPasswordDoubleQuotedSettings()) == map["server" := "test1.database.windows.net", "database" := "testdb", "authentication" := "Active Directory Password", "user" := "user", "password" := "placeholder"]
  {
    Apply5(ServerSetting(), DatabaseSetting(), DoubleQuotedAadPasswordAuthentication(), UserSetting(), QuotedPlaceholderPassword());
    ServerKey(); DatabaseKey(); AuthenticationKey(); UserIdKey(); PasswordKey();
  }

  lemma AadPasswordDoubleQuotedParse()
    ensures Parse(AadPasswordDoubleQuoted) == Success(map["server" := "test1.database.windows.net", "database" := "testdb", "authentication" := "Active Directory Password", "user" := "user", "password" := "placeholder"])
  {
    AadPasswordDoubleQuotedReadsBack();
    AadPasswordDoubleQuotedStores();
  }

  lemma AadPasswordDoubleQuotedConfig(clientId: string, tenantId: string)
    ensures Build(AadPasswordDoubleQuoted, clientId, tenantId)
         == Success(Config(Some("test1.database.windows.net"), "testdb", Some("user"), Some("placeholder"),
              Some(AuthenticationBlock(AadPassword, map["userName" := "user", "password" := "placeholder"] + Optional("clientId", clientId) + Optional("tenantId", tenantId)))))
    ensures TypeName(Build(AadPasswordDoubleQuoted, clientId, tenantId).value.authentication.value.kind) == "azure-active-directory-password"
  {
    AadPasswordDoubleQuotedParse();
    BuildAadPassword(AadPasswordDoubleQuoted, "test1.database.windows.net", "testdb", "Active Directory Password", "user", "placeholder", clientId, tenantId);
  }

  /** Active Directory password, named without quotes. */
  const AadPasswordUnquoted := ("Server=" + "test1.database.windows.net") + ";" + ("Database=" + "testdb") + ";" + ("Authentication=" + "Active Directory Password") + ";" + ("User Id=" + "user") + ";" + ("Password=" + "\"" + "placeholder" + "\"") + ";"

  function AadPasswordUnquotedSettings(): seq<Setting> {
    [ServerSetting(), DatabaseSetting(), AadPasswordAuthentication(), UserSetting(), QuotedPlaceholderPassword()]
  }

  lemma AadPasswordUnquotedJoin()
    ensures Join(AadPasswordUnquotedSettings()) == ("Server=" + "test1.database.windows.net") + ";" + ("Database=" + "testdb") + ";" + ("Authentication=" + "Active Directory Password") + ";" + ("User Id=" + "user") + ";" + ("Password=" + "\"" + "placeholder" + "\"")
  {
    ServerSettingText(); DatabaseSettingText(); AadPasswordAuthenticationText(); UserSettingText(); QuotedPlaceholderPasswordText();
    Join5(ServerSetting(), DatabaseSetting(), AadPasswordAuthentication(), UserSetting(), QuotedPlaceholderPassword(),
      ("Server=" + "test1.database.windows.net"), ("Database=" + "testdb"), ("Authentication=" + "Active Directory Password"), ("User Id=" + "user"), ("Password=" + "\"" + "placeholder" + "\""));
  }

  lemma AadPasswordUnquotedReadsBack()
    ensures Parse(AadPasswordUnquoted) == Success(Apply(map[], AadPasswordUnquotedSettings()))
  {
    AadPasswordUnquotedJoin();
    ServerSettingWellFormed(); DatabaseSettingWellFormed(); AadPasswordAuthenticationWellFormed(); UserSettingWellFormed(); QuotedPlaceholderPasswordWellFormed();
    WellFormed5(ServerSetting(), DatabaseSetting(), AadPasswordAuthentication(), UserSetting(), QuotedPlaceholderPassword());
    ParseJoin(AadPasswordUnquotedSettings());
  }

  lemma AadPasswordUnquotedStores()
    ensures Apply(map[], AadPasswordUnquotedSettings()) == map["server" := "test1.database.windows.net", "database" := "testdb", "authentication" := "Active Directory Password", "user" := "user", "password" := "placeholder"]
  {
    Apply5(ServerSetting(), DatabaseSetting(), AadPasswordAuthentication(), UserSetting(), QuotedPlaceholderPassword());
    ServerKey(); DatabaseKey(); AuthenticationKey(); UserIdKey(); PasswordKey();
  }

  lemma AadPasswordUnquotedParse()
    ensures Parse(AadPasswordUnquoted) == Success(map["server" := "test1.database.windows.net", "database" := "testdb", "authentication" := "Active Directory Password", "user" := "user", "password" := "placeholder"])
  {
    AadPasswordUnquotedReadsBack();
    AadPasswordUnquotedStores();
  }

  lemma AadPasswordUnquotedConfig(clientId: string, tenantId: string)
    ensures Build(AadPasswordUnquoted, clientId, tenantId)
         == Success(Config(Some("test1.database.windows.net"), "testdb", Some("user"), Some("placeholder"),
              Some(AuthenticationBlock(AadPassword, map["userName" := "user", "password" := "placeholder"] + Optional("clientId", clientId) + Optional("tenantId", tenantId)))))
    ensures TypeName(Build(AadPasswordUnquoted, clientId, tenantId).value.authentication.value.kind) == "azure-active-directory-password"
  {
    AadPasswordUnquotedParse();
    BuildAadPassword(AadPasswordUnquoted, "test1.database.windows.net", "testdb", "Active Directory Password", "user", "placeholder", clientId, tenantId);
  }

  /** Active Directory password, named as one word. */
  const AadPasswordOneWord := ("Server=" + "test1.database.windows.net") + ";" + ("Database=" + "testdb") + ";" + ("Authentication=" + "'" + "ActiveDirectoryPassword" + "'") + ";" + ("User Id=" + "user") + ";" + ("Password=" + "\"" + "placeholder" + "\"") + ";"

  function AadPasswordOneWordSettings(): seq<Setting> {
    [ServerSetting(), DatabaseSetting(), AadPasswordOneWordAuthentication(), UserSetting(), QuotedPlaceholderPassword()]
  }

  lemma AadPasswordOneWordJoin()
    ensures Join(AadPasswordOneWordSettings()) == ("Server=" + "test1.database.windows.net") + ";" + ("Database=" + "testdb") + ";" + ("Authentication=" + "'" + "ActiveDirectoryPassword" + "'") + ";" + ("User Id=" + "user") + ";" + ("Password=" + "\"" + "placeholder" + "\"")
  {
    ServerSettingText(); DatabaseSettingText(); AadPasswordOneWordAuthenticationText(); UserSettingText(); QuotedPlaceholderPasswordText();
    Join5(ServerSetting(), DatabaseSetting(), AadPasswordOneWordAuthentication(), UserSetting(), QuotedPlaceholderPassword(),
      ("Server=" + "test1.database.windows.net"), ("Database=" + "testdb"), ("Authentication=" + "'" + "ActiveDirectoryPassword" + "'"), ("User Id=" + "user"), ("Password=" + "\"" + "placeholder" + "\""));
  }

  lemma AadPasswordOneWordReadsBack()
    ensures Parse(AadPasswordOneWord) == Success(Apply(map[], AadPasswordOneWordSettings()))
  {
    AadPasswordOneWordJoin();
    ServerSettingWellFormed(); DatabaseSettingWellFormed(); AadPasswordOneWordAuthenticationWellFormed(); UserSettingWellFormed(); QuotedPlaceholderPasswordWellFormed();
    WellFormed5(ServerSetting(), DatabaseSetting(), AadPasswordOneWordAuthentication(), UserSetting(), QuotedPlaceholderPassword());
    ParseJoin(AadPasswordOneWordSettings());
  }

  lemma AadPasswordOneWordStores()
    ensures Apply(map[], AadPasswordOneWordSettings()) == map["server" := "test1.database.windows.net", "database" := "testdb", "authentication" := "ActiveDirectoryPassword", "user" := "user", "password" := "placeholder"]
  {
    Apply5(ServerSetting(), DatabaseSetting(), AadPasswordOneWordAuthentication(), UserSetting(), QuotedPlaceholderPassword());
    ServerKey(); DatabaseKey(); AuthenticationKey(); UserIdKey(); PasswordKey();
  }

  lemma AadPasswordOneWordParse()
    ensures Parse(AadPasswordOneWord) == Success(map["server" := "test1.database.windows.net", "database" := "testdb", "authentication" := "ActiveDirectoryPassword", "user" := "user", "password" := "placeholder"])
  {
    AadPasswordOneWordReadsBack();
    AadPasswordOneWordStores();
  }

  lemma AadPasswordOneWordConfig(clientId: string, tenantId: string)
    ensures Build(AadPasswordOneWord, clientId, tenantId)
         == Success(Config(Some("test1.database.windows.net"), "testdb", Some("user"), Some("placeholder"),
              Some(AuthenticationBlock(AadPassword, map["userName" := "user", "password" := "placeholder"] + Optional("clientId", clientId) + Optional("tenantId", tenantId)))))
    ensures TypeName(Build(AadPasswordOneWord, clientId, tenantId).value.authentication.value.kind) == "azure-active-directory-password"
  {
    AadPasswordOneWordParse();
    BuildAadPassword(AadPasswordOneWord, "test1.database.windows.net", "testdb", "ActiveDirectoryPassword", "user", "placeholder", clientId, tenantId);
  }

  /** Service principal, named in double quotes. */
  const ServicePrincipalDoubleQuoted := ("Server=" + "test1.database.windows.net") + ";" + ("Database=" + "testdb") + ";" + ("Authentication=" + "\"" + "Active Directory Service Principal" + "\"") + ";" + ("User Id=" + "user") + ";" + ("Password=" + "\"" + "placeholder" + "\"") + ";"

  function ServicePrincipalDoubleQuotedSettings(): seq<Setting> {
    [ServerSetting(), DatabaseSetting(), QuotedServicePrincipalAuthentication(), UserSetting(), QuotedPlaceholderPassword()]
  }

  lemma ServicePrincipalDoubleQuotedJoin()
    ensures Join(ServicePrincipalDoubleQuotedSettings()) == ("Server=" + "test1.database.windows.net") + ";" + ("Database=" + "testdb") + ";" + ("Authentication=" + "\"" + "Active Directory Service Principal" + "\"") + ";" + ("User Id=" + "user") + ";" + ("Password=" + "\"" + "placeholder" + "\"")
  {
    ServerSettingText(); DatabaseSettingText(); QuotedServicePrincipalAuthenticationText(); UserSettingText(); QuotedPlaceholderPasswordText();
    Join5(ServerSetting(), DatabaseSetting(), QuotedServicePrincipalAuthentication(), UserSetting(), QuotedPlaceholderPassword(),
      ("Server=" + "test1.database.windows.net"), ("Database=" + "testdb"), ("Authentication=" + "\"" + "Active Directory Service Principal" + "\""), ("User Id=" + "user"), ("Password=" + "\"" + "placeholder" + "\""));
  }

  lemma ServicePrincipalDoubleQuotedReadsBack()
    ensures Parse(ServicePrincipalDoubleQuoted) == Success(Apply(map[], ServicePrincipalDoubleQuotedSettings()))
  {
    ServicePrincipalDoubleQuotedJoin();
    ServerSettingWellFormed(); DatabaseSettingWellFormed(); QuotedServicePrincipalAuthenticationWellFormed(); UserSettingWellFormed(); QuotedPlaceholderPasswordWellFormed();
    WellFormed5(ServerSetting(), DatabaseSetting(), QuotedServicePrincipalAuthentication(), UserSetting(), QuotedPlaceholderPassword());
    ParseJoin(ServicePrincipalDoubleQuotedSettings());
  }

  lemma ServicePrincipalDoubleQuotedStores()
    ensures Apply(map[], ServicePrincipalDoubleQuotedSettings()) == map["server" := "test1.database.windows.net", "database" := "testdb", "authentication" := "Active Directory Service Principal", "user" := "user", "password" := "placeholder"]
  {
    Apply5(ServerSetting(), DatabaseSetting(), QuotedServicePrincipalAuthentication(), UserSetting(), QuotedPlaceholderPassword());
    ServerKey(); DatabaseKey(); AuthenticationKey(); UserIdKey(); PasswordKey();
  }

  lemma ServicePrincipalDoubleQuotedParse()
    ensures Parse(ServicePrincipalDoubleQuoted) == Success(map["server" := "test1.database.windows.net", "database" := "testdb", "authentication" := "Active Directory Service Principal", "user" := "user", "password" := "placeholder"])
  {
    ServicePrincipalDoubleQuotedReadsBack();
    ServicePrincipalDoubleQuotedStores();
  }

  lemma ServicePrincipalDoubleQuotedConfig(clientId: string, tenantId: string)
    ensures Build(ServicePrincipalDoubleQuoted, clientId, tenantId)
         == Success(Config(Some("test1.database.windows.net"), "testdb", Some("user"), Some("placeholder"),
              Some(AuthenticationBlock(AadServicePrincipalSecret, map["clientId" := "user", "clientSecret" := "placeholder"]))))
    ensures TypeName(Build(ServicePrincipalDoubleQuoted, clientId, tenantId).value.authentication.value.kind) == "azure-active-directory-service-principal-secret"
  {
    ServicePrincipalDoubleQuotedParse();
    BuildServicePrincipal(ServicePrincipalDoubleQuoted, "test1.database.windows.net", "testdb", "Active Directory Service Principal", "user", "placeholder", clientId, tenantId);
  }

  /** Service principal, named without quotes. */
  const ServicePrincipalUnquoted := ("Server=" + "test1.database.windows.net") + ";" + ("Database=" + "testdb") + ";" + ("Authentication=" + "Active Directory Service Principal") + ";" + ("User Id=" + "user") + ";" + ("Password=" + "\"" + "placeholder" + "\"") + ";"

  function ServicePrincipalUnquotedSettings(): seq<Setting> {
    [ServerSetting(), DatabaseSetting(), ServicePrincipalAuthentication(), UserSetting(), QuotedPlaceholderPassword()]
  }

  lemma ServicePrincipalUnquotedJoin()
    ensures Join(ServicePrincipalUnquotedSettings()) == ("Server=" + "test1.database.windows.net") + ";" + ("Database=" + "testdb") + ";" + ("Authentication=" + "Active Directory Service Principal") + ";" + ("User Id=" + "user") + ";" + ("Password=" + "\"" + "placeholder" + "\"")
  {
    ServerSettingText(); DatabaseSettingText(); ServicePrincipalAuthenticationText(); UserSettingText(); QuotedPlaceholderPasswordText();
    Join5(ServerSetting(), DatabaseSetting(), ServicePrincipalAuthentication(), UserSetting(), QuotedPlaceholderPassword(),
      ("Server=" + "test1.database.windows.net"), ("Database=" + "testdb"), ("Authentication=" + "Active Directory Service Principal"), ("User Id=" + "user"), ("Password=" + "\"" + "placeholder" + "\""));
  }

  lemma ServicePrincipalUnquotedReadsBack()
    ensures Parse(ServicePrincipalUnquoted) == Success(Apply(map[], ServicePrincipalUnquotedSettings()))
  {
    ServicePrincipalUnquotedJoin();
    ServerSettingWellFormed(); DatabaseSettingWellFormed(); ServicePrincipalAuthenticationWellFormed(); UserSettingWellFormed(); QuotedPlaceholderPasswordWellFormed();
    WellFormed5(ServerSetting(), DatabaseSetting(), ServicePrincipalAuthentication(), UserSetting(), QuotedPlaceholderPassword());
    ParseJoin(ServicePrincipalUnquotedSettings());
  }

  lemma ServicePrincipalUnquotedStores()
    ensures Apply(map[], ServicePrincipalUnquotedSettings()) == map["server" := "test1.database.windows.net", "database" := "testdb", "authentication" := "Active Directory Service Principal", "user" := "user", "password" := "placeholder"]
  {
    Apply5(ServerSetting(), DatabaseSetting(), ServicePrincipalAuthentication(), UserSetting(), QuotedPlaceholderPassword());
    ServerKey(); DatabaseKey(); AuthenticationKey(); UserIdKey(); PasswordKey();
  }

  lemma ServicePrincipalUnquotedParse()
    ensures Parse(ServicePrincipalUnquoted) == Success(map["server" := "test1.database.windows.net", "database" := "testdb", "authentication" := "Active Directory Service Principal", "user" := "user", "password" := "placeholder"])
  {
    ServicePrincipalUnquotedReadsBack();
    ServicePrincipalUnquotedStores();
  }

  lemma ServicePrincipalUnquotedConfig(clientId: string, tenantId: string)
    ensures Build(ServicePrincipalUnquoted, clientId, tenantId)
         == Success(Config(Some("test1.database.windows.net"), "testdb", Some("user"), Some("placeholder"),
              Some(AuthenticationBlock(AadServicePrincipalSecret, map["clientId" := "user", "clientSecret" := "placeholder"]))))
    ensures TypeName(Build(ServicePrincipalUnquoted, clientId, tenantId).value.authentication.value.kind) == "azure-active-directory-service-principal-secret"
  {
    ServicePrincipalUnquotedParse();
    BuildServicePrincipal(ServicePrincipalUnquoted, "test1.database.windows.net", "testdb", "Active Directory Service Principal", "user", "placeholder", clientId, tenantId);
  }

  /** Service principal, named as one word. */
  const ServicePrincipalOneWord := ("Server=" + "test1.database.windows.net") + ";" + ("Database=" + "testdb") + ";" + ("Authentication=" + "'" + "ActiveDirectoryServicePrincipal" + "'") + ";" + ("User Id=" + "user") + ";" + ("Password=" + "\"" + "placeholder" + "\"") + ";"

  function ServicePrincipalOneWordSettings(): seq<Setting> {
    [ServerSetting(), DatabaseSetting(), ServicePrincipalOneWordAuthentication(), UserSetting(), QuotedPlaceholderPassword()]
  }

  lemma ServicePrincipalOneWordJoin()
    ensures Join(ServicePrincipalOneWordSettings()) == ("Server=" + "test1.database.windows.net") + ";" + ("Database=" + "testdb") + ";" + ("Authentication=" + "'" + "ActiveDirectoryServicePrincipal" + "'") + ";" + ("User Id=" + "user") + ";" + ("Password=" + "\"" + "placeholder" + "\"")
  {
    ServerSettingText(); DatabaseSettingText(); ServicePrincipalOneWordAuthenticationText(); UserSettingText(); QuotedPlaceholderPasswordText();
    Join5(ServerSetting(), DatabaseSetting(), ServicePrincipalOneWordAuthentication(), UserSetting(), QuotedPlaceholderPassword(),
      ("Server=" + "test1.database.windows.net"), ("Database=" + "testdb"), ("Authentication=" + "'" + "ActiveDirectoryServicePrincipal" + "'"), ("User Id=" + "user"), ("Password=" + "\"" + "placeholder" + "\""));
  }

  lemma ServicePrincipalOneWordReadsBack()
    ensures Parse(ServicePrincipalOneWord) == Success(Apply(map[], ServicePrincipalOneWordSettings()))
  {
    ServicePrincipalOneWordJoin();
    ServerSettingWellFormed(); DatabaseSettingWellFormed(); ServicePrincipalOneWordAuthenticationWellFormed(); UserSettingWellFormed(); QuotedPlaceholderPasswordWellFormed();
    WellFormed5(ServerSetting(), DatabaseSetting(), ServicePrincipalOneWordAuthentication(), UserSetting(), QuotedPlaceholderPassword());
    ParseJoin(ServicePrincipalOneWordSettings());
  }

  lemma ServicePrincipalOneWordStores()
    ensures Apply(map[], ServicePrincipalOneWordSettings()) == map["server" := "test1.database.windows.net", "database" := "testdb", "authentication" := "ActiveDirectoryServicePrincipal", "user" := "user", "password" := "placeholder"]
  {
    Apply5(ServerSetting(), DatabaseSetting(), ServicePrincipalOneWordAuthentication(), UserSetting(), QuotedPlaceholderPassword());
    ServerKey(); DatabaseKey(); AuthenticationKey(); UserIdKey(); PasswordKey();
  }

  lemma ServicePrincipalOneWordParse()
    ensures Parse(ServicePrincipalOneWord) == Success(map["server" := "test1.database.windows.net", "database" := "testdb", "authentication" := "ActiveDirectoryServicePrincipal", "user" := "user", "password" := "placeholder"])
  {
    ServicePrincipalOneWordReadsBack();
    ServicePrincipalOneWordStores();
  }

  lemma ServicePrincipalOneWordConfig(clientId: string, tenantId: string)
    ensures Build(ServicePrincipalOneWord, clientId, tenantId)
         == Success(Config(Some("test1.database.windows.net"), "testdb", Some("user"), Some("placeholder"),
              Some(AuthenticationBlock(AadServicePrincipalSecret, map["clientId" := "user", "clientSecret" := "placeholder"]))))
    ensures TypeName(Build(ServicePrincipalOneWord, clientId, tenantId).value.authentication.value.kind) == "azure-active-directory-service-principal-secret"
  {
    ServicePrincipalOneWordParse();
    BuildServicePrincipal(ServicePrincipalOneWord, "test1.database.windows.net", "testdb", "ActiveDirectoryServicePrincipal", "user", "placeholder", clientId, tenantId);
  }

  /** The service principal's client id, read from `User Id`, is marked secret after its client secret. */
  lemma PrincipalIdMasked()
    ensures Build(ServicePrincipalDoubleQuoted, "", "").Success?
    ensures Secrets(Build(ServicePrincipalDoubleQuoted, "", "").value, "", "") == ["placeholder", "user"]
  {
    ServicePrincipalDoubleQuotedConfig("", "");
  }

  /** Active Directory default, named in double quotes. */
  const AadDefaultDoubleQuoted := ("Server=" + "test1.database.windows.net") + ";" + ("Database=" + "testdb") + ";" + ("Authentication=" + "\"" + "Active Directory Default" + "\"")

  function AadDefaultDoubleQuotedSettings(): seq<Setting> {
    [ServerSetting(), DatabaseSetting(), QuotedAadDefaultAuthentication()]
  }

  lemma AadDefaultDoubleQuotedJoin()
    ensures Join(AadDefaultDoubleQuotedSettings()) == ("Server=" + "test1.database.windows.net") + ";" + ("Database=" + "testdb") + ";" + ("Authentication=" + "\"" + "Active Directory Default" + "\"")
  {
    ServerSettingText(); DatabaseSettingText(); QuotedAadDefaultAuthenticationText();
    Join3(ServerSetting(), DatabaseSetting(), QuotedAadDefaultAuthentication(),
      ("Server=" + "test1.database.windows.net"), ("Database=" + "testdb"), ("Authentication=" + "\"" + "Active Directory Default" + "\""));
  }

  lemma AadDefaultDoubleQuotedReadsBack()
    ensures Parse(AadDefaultDoubleQuoted) == Success(Apply(map[], AadDefaultDoubleQuotedSettings()))
  {
    AadDefaultDoubleQuotedJoin();
    ServerSettingWellFormed(); DatabaseSettingWellFormed(); QuotedAadDefaultAuthenticationWellFormed();
    WellFormed3(ServerSetting(), DatabaseSetting(), QuotedAadDefaultAuthentication());
    ParseJoin(AadDefaultDoubleQuotedSettings());
  }

  lemma AadDefaultDoubleQuotedStores()
    ensures Apply(map[], AadDefaultDoubleQuotedSettings()) == map["server" := "test1.database.windows.net", "database" := "testdb", "authentication" := "Active Directory Default"]
  {
    Apply3(ServerSetting(), DatabaseSetting(), QuotedAadDefaultAuthentication());
    ServerKey(); DatabaseKey(); AuthenticationKey();
  }

  lemma AadDefaultDoubleQuotedParse()
    ensures Parse(AadDefaultDoubleQuoted) == Success(map["server" := "test1.database.windows.net", "database" := "testdb", "authentication" := "Active Directory Default"])
  {
    AadDefaultDoubleQuotedReadsBack();
    AadDefaultDoubleQuotedStores();
  }

  lemma AadDefaultDoubleQuotedConfig(clientId: string, tenantId: string)
    ensures Build(AadDefaultDoubleQuoted, clientId, tenantId)
         == Success(Config(Some("test1.database.windows.net"), "testdb", None, None, Some(AuthenticationBlock(AadDefault, map[]))))
    ensures TypeName(Build(AadDefaultDoubleQuoted, clientId, tenantId).value.authentication.value.kind) == "azure-active-directory-default"
  {
    AadDefaultDoubleQuotedParse();
    BuildAadDefault(AadDefaultDoubleQuoted, "test1.database.windows.net", "testdb", "Active Directory Default", clientId, tenantId);
  }

  /** Active Directory default, named without quotes. */
  const AadDefaultUnquoted := ("Server=" + "test1.database.windows.net") + ";" + ("Database=" + "testdb") + ";" + ("Authentication=" + "Active Directory Default")

  function AadDefaultUnquotedSettings(): seq<Setting> {
    [ServerSetting(), DatabaseSetting(), AadDefaultAuthentication()]
  }

  lemma AadDefaultUnquotedJoin()
    ensures Join(AadDefaultUnquotedSettings()) == ("Server=" + "test1.database.windows.net") + ";" + ("Database=" + "testdb") + ";" + ("Authentication=" + "Active Directory Default")
  {
    ServerSettingText(); DatabaseSettingText(); AadDefaultAuthenticationText();
    Join3(ServerSetting(), DatabaseSetting(), AadDefaultAuthentication(),
      ("Server=" + "test1.database.windows.net"), ("Database=" + "testdb"), ("Authentication=" + "Active Directory Default"));
  }

  lemma AadDefaultUnquotedReadsBack()
    ensures Parse(AadDefaultUnquoted) == Success(Apply(map[], AadDefaultUnquotedSettings()))
  {
    AadDefaultUnquotedJoin();
    ServerSettingWellFormed(); DatabaseSettingWellFormed(); AadDefaultAuthenticationWellFormed();
    WellFormed3(ServerSetting(), DatabaseSetting(), AadDefaultAuthentication());
    ParseJoin(AadDefaultUnquotedSettings());
  }

  lemma AadDefaultUnquotedStores()
    ensures Apply(map[], AadDefaultUnquotedSettings()) == map["server" := "test1.database.windows.net", "database" := "testdb", "authentication" := "Active Directory Default"]
  {
    Apply3(ServerSetting(), DatabaseSetting(), AadDefaultAuthentication());
    ServerKey(); DatabaseKey(); AuthenticationKey();
  }

  lemma AadDefaultUnquotedParse()
    ensures Parse(AadDefaultUnquoted) == Success(map["server" := "test1.database.windows.net", "database" := "testdb", "authentication" := "Active Directory Default"])
  {
    AadDefaultUnquotedReadsBack();
    AadDefaultUnquotedStores();
  }

  lemma AadDefaultUnquotedConfig(clientId: string, tenantId: string)
    ensures Build(AadDefaultUnquoted, clientId, tenantId)
         == Success(Config(Some("test1.database.windows.net"), "testdb", None, None, Some(AuthenticationBlock(AadDefault, map[]))))
    ensures TypeName(Build(AadDefaultUnquoted, clientId, tenantId).value.authentication.value.kind) == "azure-active-directory-default"
  {
    AadDefaultUnquotedParse();
    BuildAadDefault(AadDefaultUnquoted, "test1.database.windows.net", "testdb", "Active Directory Default", clientId, tenantId);
  }

  /** Active Directory default, named as one word. */
  const AadDefaultOneWord := ("Server=" + "test1.database.windows.net") + ";" + ("Database=" + "testdb") + ";" + ("Authentication=" + "'" + "ActiveDirectoryDefault" + "'")

  function AadDefaultOneWordSettings(): seq<Setting> {
    [ServerSetting(), DatabaseSetting(), AadDefaultOneWordAuthentication()]
  }

  lemma AadDefaultOneWordJoin()
    ensures Join(AadDefaultOneWordSettings()) == ("Server=" + "test1.database.windows.net") + ";" + ("Database=" + "testdb") + ";" + ("Authentication=" + "'" + "ActiveDirectoryDefault" + "'")
  {
    ServerSettingText(); DatabaseSettingText(); AadDefaultOneWordAuthenticationText();
    Join3(ServerSetting(), DatabaseSetting(), AadDefaultOneWordAuthentication(),
      ("Server=" + "test1.database.windows.net"), ("Database=" + "testdb"), ("Authentication=" + "'" + "ActiveDirectoryDefault" + "'"));
  }

  lemma AadDefaultOneWordReadsBack()
    ensures Parse(AadDefaultOneWord) == Success(Apply(map[], AadDefaultOneWordSettings()))
  {
    AadDefaultOneWordJoin();
    ServerSettingWellFormed(); DatabaseSettingWellFormed(); AadDefaultOneWordAuthenticationWellFormed();
    WellFormed3(ServerSetting(), DatabaseSetting(), AadDefaultOneWordAuthentication());
    ParseJoin(AadDefaultOneWordSettings());
  }

  lemma AadDefaultOneWordStores()
    ensures Apply(map[], AadDefaultOneWordSettings()) == map["server" := "test1.database.windows.net", "database" := "testdb", "authentication" := "ActiveDirectoryDefault"]
  {
    Apply3(ServerSetting(), DatabaseSetting(), AadDefaultOneWordAuthentication());
    ServerKey(); DatabaseKey(); AuthenticationKey();
  }

  lemma AadDefaultOneWordParse()
    ensures Parse(AadDefaultOneWord) == Success(map["server" := "test1.database.windows.net", "database" := "testdb", "authentication" := "ActiveDirectoryDefault"])
  {
    AadDefaultOneWordReadsBack();
    AadDefaultOneWordStores();
  }

  lemma AadDefaultOneWordConfig(clientId: string, tenantId: string)
    ensures Build(AadDefaultOneWord, clientId, tenantId)
         == Success(Config(Some("test1.database.windows.net"), "testdb", None, None, Some(AuthenticationBlock(AadDefault, map[]))))
    ensures TypeName(Build(AadDefaultOneWord, clientId, tenantId).value.authentication.value.kind) == "azure-active-directory-default"
  {
    AadDefaultOneWordParse();
    BuildAadDefault(AadDefaultOneWord, "test1.database.windows.net", "testdb", "ActiveDirectoryDefault", clientId, tenantId);
  }


}
