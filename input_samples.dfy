/** The builder together with the action inputs: reading the client and tenant id, and masking secrets. */
module InputSamples {
  import opened Wrappers
  import opened Errors
  import opened Tokenizer
  import opened Encoding
  import opened Authentication
  import opened ConnectionConfig
  import opened Samples
  import opened SampleSettings
  import opened ActionsCore

  /** The string the masking scenarios construct from. */
  const PlaceholderLogin := ("User Id=" + "user") + ";" + ("Password=" + "placeholder") + ";" + ("Server=" + "test1.database.windows.net") + ";" + ("Initial Catalog=" + "testDB")

  function PlaceholderLoginSettings(): seq<Setting> {
    [UserSetting(), PlaceholderPassword(), ServerSetting(), CapitalCatalogSetting()]
  }

  lemma PlaceholderLoginJoin()
    ensures Join(PlaceholderLoginSettings()) == ("User Id=" + "user") + ";" + ("Password=" + "placeholder") + ";" + ("Server=" + "test1.database.windows.net") + ";" + ("Initial Catalog=" + "testDB")
  {
    UserSettingText(); PlaceholderPasswordText(); ServerSettingText(); CapitalCatalogSettingText();
    Join4(UserSetting(), PlaceholderPassword(), ServerSetting(), CapitalCatalogSetting(),
      ("User Id=" + "user"), ("Password=" + "placeholder"), ("Server=" + "test1.database.windows.net"), ("Initial Catalog=" + "testDB"));
  }

  lemma PlaceholderLoginReadsBack()
    ensures Parse(PlaceholderLogin) == Success(Apply(map[], PlaceholderLoginSettings()))
  {
    PlaceholderLoginJoin();
    UserSettingWellFormed(); PlaceholderPasswordWellFormed(); ServerSettingWellFormed(); CapitalCatalogSettingWellFormed();
    WellFormed4(UserSetting(), PlaceholderPassword(), ServerSetting(), CapitalCatalogSetting());
    ParseJoin(PlaceholderLoginSettings());
  }

  lemma PlaceholderLoginStores()
    ensures Apply(map[], PlaceholderLoginSettings()) == map["user" := "user", "password" := "placeholder", "server" := "test1.database.windows.net", "database" := "testDB"]
  {
    Apply4(UserSetting(), PlaceholderPassword(), ServerSetting(), CapitalCatalogSetting());
    UserIdKey(); PasswordKey(); ServerKey(); InitialCatalogCapitalKey();
  }

  lemma PlaceholderLoginParse()
    ensures Parse(PlaceholderLogin) == Success(map["server" := "test1.database.windows.net", "user" := "user", "password" := "placeholder", "database" := "testDB"])
  {
    PlaceholderLoginReadsBack();
    PlaceholderLoginStores();
    UserFirstOrder("test1.database.windows.net", "user", "placeholder", "testDB");
  }

  lemma PlaceholderLoginConfig(clientId: string, tenantId: string)
    ensures Build(PlaceholderLogin, clientId, tenantId)
         == Success(Config(Some("test1.database.windows.net"), "testDB", Some("user"), Some("placeholder"), None))
  {
    PlaceholderLoginParse();
    BuildSqlLogin(PlaceholderLogin, "test1.database.windows.net", "user", "placeholder", "testDB", clientId, tenantId);
  }

  /** Active Directory password with the client and tenant id supplied as inputs. */
  const AadPasswordWithInputs := ("Server=" + "test1.database.windows.net") + ";" + ("Database=" + "testdb") + ";" + ("Authentication=" + "\"" + "Active Directory Password" + "\"") + ";" + ("User Id=" + "user") + ";" + ("Password=" + "\"" + "abcd" + "\"")

  function AadPasswordWithInputsSettings(): seq<Setting> {
    [ServerSetting(), DatabaseSetting(), DoubleQuotedAadPasswordAuthentication(), UserSetting(), AbcdPassword()]
  }

  lemma AadPasswordWithInputsJoin()
    ensures Join(AadPasswordWithInputsSettings()) == ("Server=" + "test1.database.windows.net") + ";" + ("Database=" + "testdb") + ";" + ("Authentication=" + "\"" + "Active Directory Password" + "\"") + ";" + ("User Id=" + "user") + ";" + ("Password=" + "\"" + "abcd" + "\"")
  {
    ServerSettingText(); DatabaseSettingText(); DoubleQuotedAadPasswordAuthenticationText(); UserSettingText(); AbcdPasswordText();
    Join5(ServerSetting(), DatabaseSetting(), DoubleQuotedAadPasswordAuthentication(), UserSetting(), AbcdPassword(),
      ("Server=" + "test1.database.windows.net"), ("Database=" + "testdb"), ("Authentication=" + "\"" + "Active Directory Password" + "\""), ("User Id=" + "user"), ("Password=" + "\"" + "abcd" + "\""));
  }

  lemma AadPasswordWithInputsReadsBack()
    ensures Parse(AadPasswordWithInputs) == Success(Apply(map[], AadPasswordWithInputsSettings()))
  {
    AadPasswordWithInputsJoin();
    ServerSettingWellFormed(); DatabaseSettingWellFormed(); DoubleQuotedAadPasswordAuthenticationWellFormed(); UserSettingWellFormed(); AbcdPasswordWellFormed();
    WellFormed5(ServerSetting(), DatabaseSetting(), DoubleQuotedAadPasswordAuthentication(), UserSetting(), AbcdPassword());
    ParseJoin(AadPasswordWithInputsSettings());
  }

  lemma AadPasswordWithInputsStores()
    ensures Apply(map[], AadPasswordWithInputsSettings()) == map["server" := "test1.database.windows.net", "database" := "testdb", "authentication" := "Active Directory Password", "user" := "user", "password" := "abcd"]
  {
    Apply5(ServerSetting(), DatabaseSetting(), DoubleQuotedAadPasswordAuthentication(), UserSetting(), AbcdPassword());
    ServerKey(); DatabaseKey(); AuthenticationKey(); UserIdKey(); PasswordKey();
  }

  lemma AadPasswordWithInputsParse()
    ensures Parse(AadPasswordWithInputs) == Success(map["server" := "test1.database.windows.net", "database" := "testdb", "authentication" := "Active Directory Password", "user" := "user", "password" := "abcd"])
  {
    AadPasswordWithInputsReadsBack();
    AadPasswordWithInputsStores();
  }

  lemma AadPasswordWithInputsConfig(clientId: string, tenantId: string)
    ensures Build(AadPasswordWithInputs, clientId, tenantId)
         == Success(Config(Some("test1.database.windows.net"), "testdb", Some("user"), Some("abcd"),
              Some(AuthenticationBlock(AadPassword, map["userName" := "user", "password" := "abcd"] + Optional("clientId", clientId) + Optional("tenantId", tenantId)))))
    ensures TypeName(Build(AadPasswordWithInputs, clientId, tenantId).value.authentication.value.kind) == "azure-active-directory-password"
  {
    AadPasswordWithInputsParse();
    BuildAadPassword(AadPasswordWithInputs, "test1.database.windows.net", "testdb", "Active Directory Password", "user", "abcd", clientId, tenantId);
  }

  // ---------------------------------------------------------------------------
  // Masking: what is marked secret for the sample login, by inputs supplied.

  const ServerConfig := Config(Some("test1.database.windows.net"), "testDB", Some("user"), Some("placeholder"), None)

  /** With no inputs only the password is marked. */
  lemma PasswordMasked()
    ensures Build(PlaceholderLogin, "", "") == Success(ServerConfig)
    ensures Secrets(ServerConfig, "", "") == ["placeholder"]
  {
    PlaceholderLoginConfig("", "");
  }

  /** A client id input is marked after the password. */
  lemma ClientIdMasked()
    ensures Build(PlaceholderLogin, "testClientId", "") == Success(ServerConfig)
    ensures Secrets(ServerConfig, "testClientId", "") == ["placeholder", "testClientId"]
  {
    PlaceholderLoginConfig("testClientId", "");
  }

  /** A tenant id input is marked after the password. */
  lemma TenantIdMasked()
    ensures Build(PlaceholderLogin, "", "testTenantId") == Success(ServerConfig)
    ensures Secrets(ServerConfig, "", "testTenantId") == ["placeholder", "testTenantId"]
  {
    PlaceholderLoginConfig("", "testTenantId");
  }

  /** An input equal to the password is not marked a second time. */
  lemma RepeatedSecretMaskedOnce()
    ensures Build(PlaceholderLogin, "placeholder", "placeholder") == Success(ServerConfig)
    ensures Secrets(ServerConfig, "placeholder", "placeholder") == ["placeholder"]
  {
    PlaceholderLoginConfig("placeholder", "placeholder");
  }

  /** Construction with only the client id supplied: both inputs are read, and the client id is masked. */
  method ConstructWithClientId(inputs: ActionInputs, masker: SecretMasker) returns (config: Config)
    requires inputs.values == map["client-id" := "testClientId"]
    modifies inputs, masker
    ensures config == ServerConfig
    ensures inputs.Requested == old(inputs.Requested) + ["client-id", "tenant-id"]
    ensures masker.Masked == old(masker.Masked) + ["placeholder", "testClientId"]
  {
    assert inputs.Get("client-id") == "testClientId" && inputs.Get("tenant-id") == "";
    ClientIdMasked();
    var r := NewSqlConnectionConfig(PlaceholderLogin, inputs, masker);
    config := r.value.Config;
  }

  /** Construction with only the tenant id supplied: both inputs are read, and the tenant id is masked. */
  method ConstructWithTenantId(inputs: ActionInputs, masker: SecretMasker) returns (config: Config)
    requires inputs.values == map["tenant-id" := "testTenantId"]
    modifies inputs, masker
    ensures config == ServerConfig
    ensures inputs.Requested == old(inputs.Requested) + ["client-id", "tenant-id"]
    ensures masker.Masked == old(masker.Masked) + ["placeholder", "testTenantId"]
  {
    assert inputs.Get("client-id") == "" && inputs.Get("tenant-id") == "testTenantId";
    TenantIdMasked();
    var r := NewSqlConnectionConfig(PlaceholderLogin, inputs, masker);
    config := r.value.Config;
  }

  // ---------------------------------------------------------------------------
  // Active Directory password with both inputs supplied.

  const ClientId := "00000000-0000-0000-0000-000000000000"
  const TenantId := "11111111-1111-1111-1111-111111111111"

  /** Both inputs join the user name and password in the options. */
  lemma InputsInOptions()
    ensures Build(AadPasswordWithInputs, ClientId, TenantId)
         == Success(Config(Some("test1.database.windows.net"), "testdb", Some("user"), Some("abcd"),
              Some(AuthenticationBlock(AadPassword, map["userName" := "user", "password" := "abcd", "clientId" := ClientId, "tenantId" := TenantId]))))
  {
    AadPasswordWithInputsConfig(ClientId, TenantId);
    BothInputsInOptions("user", "abcd", ClientId, TenantId);
  }

  /** Construction with both inputs supplied reads each input exactly once and masks the password and both ids. */
  method ConstructWithBothInputs(inputs: ActionInputs, masker: SecretMasker) returns (config: Config)
    requires inputs.values == map["client-id" := ClientId, "tenant-id" := TenantId]
    modifies inputs, masker
    ensures config.server == Some("test1.database.windows.net") && config.database == "testdb"
    ensures config.authentication
         == Some(AuthenticationBlock(AadPassword, map["userName" := "user", "password" := "abcd", "clientId" := ClientId, "tenantId" := TenantId]))
    ensures inputs.Requested == old(inputs.Requested) + ["client-id", "tenant-id"]
    ensures masker.Masked == old(masker.Masked) + ["abcd", ClientId, TenantId]
  {
    assert inputs.Get("client-id") == ClientId && inputs.Get("tenant-id") == TenantId;
    InputsInOptions();
    var r := NewSqlConnectionConfig(AadPasswordWithInputs, inputs, masker);
    config := r.value.Config;
  }

}
