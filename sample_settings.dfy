/**
 * The settings the sample connection strings are made of, each with the text
 * it is written as and the fact that the tokenizer reads it back.
 */
module SampleSettings {
  import opened Text
  import opened Tokenizer
  import opened Encoding
  import opened Samples

  // ---------------------------------------------------------------------------
  // Keywords.

  lemma ServerKeyword()
    ensures WellFormedKeyword("Server")
  {
    assert '=' !in "Server" && ';' !in "Server";
    PlainKeyword("Server");
  }

  lemma ServerEquals()
    ensures "Server=" == "Server" + "="
  {
  }

  lemma ServerKey()
    ensures CanonicalKey("Server") == "server"
  {
    TrimOfTrimmed("Server");
  }

  lemma UserIdKeyword()
    ensures WellFormedKeyword("User Id")
  {
    assert '=' !in "User Id" && ';' !in "User Id";
    PlainKeyword("User Id");
  }

  lemma UserIdEquals()
    ensures "User Id=" == "User Id" + "="
  {
  }

  lemma UserIdKey()
    ensures CanonicalKey("User Id") == "user"
  {
    TrimOfTrimmed("User Id");
  }

  lemma PasswordKeyword()
    ensures WellFormedKeyword("Password")
  {
    assert '=' !in "Password" && ';' !in "Password";
    PlainKeyword("Password");
  }

  lemma PasswordEquals()
    ensures "Password=" == "Password" + "="
  {
  }

  lemma PasswordKey()
    ensures CanonicalKey("Password") == "password"
  {
    TrimOfTrimmed("Password");
  }

  lemma InitialCatalogKeyword()
    ensures WellFormedKeyword("Initial catalog")
  {
    assert '=' !in "Initial catalog" && ';' !in "Initial catalog";
    PlainKeyword("Initial catalog");
  }

  lemma InitialCatalogEquals()
    ensures "Initial catalog=" == "Initial catalog" + "="
  {
  }

  lemma InitialCatalogKey()
    ensures CanonicalKey("Initial catalog") == "database"
  {
    TrimOfTrimmed("Initial catalog");
  }

  lemma InitialCatalogCapitalKeyword()
    ensures WellFormedKeyword("Initial Catalog")
  {
    assert '=' !in "Initial Catalog" && ';' !in "Initial Catalog";
    PlainKeyword("Initial Catalog");
  }

  lemma InitialCatalogCapitalEquals()
    ensures "Initial Catalog=" == "Initial Catalog" + "="
  {
  }

  lemma InitialCatalogCapitalKey()
    ensures CanonicalKey("Initial Catalog") == "database"
  {
    TrimOfTrimmed("Initial Catalog");
  }

  lemma DatabaseKeyword()
    ensures WellFormedKeyword("Database")
  {
    assert '=' !in "Database" && ';' !in "Database";
    PlainKeyword("Database");
  }

  lemma DatabaseEquals()
    ensures "Database=" == "Database" + "="
  {
  }

  lemma DatabaseKey()
    ensures CanonicalKey("Database") == "database"
  {
    TrimOfTrimmed("Database");
  }

  lemma AuthenticationKeyword()
    ensures WellFormedKeyword("Authentication")
  {
    assert '=' !in "Authentication" && ';' !in "Authentication";
    PlainKeyword("Authentication");
  }

  lemma AuthenticationEquals()
    ensures "Authentication=" == "Authentication" + "="
  {
  }

  lemma AuthenticationKey()
    ensures CanonicalKey("Authentication") == "authentication"
  {
    TrimOfTrimmed("Authentication");
  }

  // ---------------------------------------------------------------------------
  // Settings.

  function ServerSetting(): Setting {
    Setting("Server", "test1.database.windows.net", Plain)
  }

  lemma ServerSettingText()
    ensures EncodeSetting(ServerSetting()) == "Server=" + "test1.database.windows.net"
  {
    ServerEquals();
  }

  lemma ServerSettingValue()
    ensures PlainValue("test1.database.windows.net")
  {
    assert forall i | 0 <= i < |"test1.database.windows.net"| :: Ordinary("test1.database.windows.net"[i]);
    PlainValueOf("test1.database.windows.net");
  }

  lemma ServerSettingWellFormed()
    ensures WellFormed(ServerSetting())
  {
    ServerKeyword();
    ServerSettingValue();
    PlainSetting(ServerSetting());
  }

  function UserSetting(): Setting {
    Setting("User Id", "user", Plain)
  }

  lemma UserSettingText()
    ensures EncodeSetting(UserSetting()) == "User Id=" + "user"
  {
    UserIdEquals();
  }

  lemma UserSettingValue()
    ensures PlainValue("user")
  {
    assert forall i | 0 <= i < |"user"| :: Ordinary("user"[i]);
    PlainValueOf("user");
  }

  lemma UserSettingWellFormed()
    ensures WellFormed(UserSetting())
  {
    UserIdKeyword();
    UserSettingValue();
    PlainSetting(UserSetting());
  }

  function ClientIdUserSetting(): Setting {
    Setting("User Id", "clientId", Plain)
  }

  lemma ClientIdUserSettingText()
    ensures EncodeSetting(ClientIdUserSetting()) == "User Id=" + "clientId"
  {
    UserIdEquals();
  }

  lemma ClientIdUserSettingValue()
    ensures PlainValue("clientId")
  {
    assert forall i | 0 <= i < |"clientId"| :: Ordinary("clientId"[i]);
    PlainValueOf("clientId");
  }

  lemma ClientIdUserSettingWellFormed()
    ensures WellFormed(ClientIdUserSetting())
  {
    UserIdKeyword();
    ClientIdUserSettingValue();
    PlainSetting(ClientIdUserSetting());
  }

  function CatalogSetting(): Setting {
    Setting("Initial catalog", "testdb", Plain)
  }

  lemma CatalogSettingText()
    ensures EncodeSetting(CatalogSetting()) == "Initial catalog=" + "testdb"
  {
    InitialCatalogEquals();
  }

  lemma CatalogSettingValue()
    ensures PlainValue("testdb")
  {
    assert forall i | 0 <= i < |"testdb"| :: Ordinary("testdb"[i]);
    PlainValueOf("testdb");
  }

  lemma CatalogSettingWellFormed()
    ensures WellFormed(CatalogSetting())
  {
    InitialCatalogKeyword();
    CatalogSettingValue();
    PlainSetting(CatalogSetting());
  }

  function CapitalCatalogSetting(): Setting {
    Setting("Initial Catalog", "testDB", Plain)
  }

  lemma CapitalCatalogSettingText()
    ensures EncodeSetting(CapitalCatalogSetting()) == "Initial Catalog=" + "testDB"
  {
    InitialCatalogCapitalEquals();
  }

  lemma CapitalCatalogSettingValue()
    ensures PlainValue("testDB")
  {
    assert forall i | 0 <= i < |"testDB"| :: Ordinary("testDB"[i]);
    PlainValueOf("testDB");
  }

  lemma CapitalCatalogSettingWellFormed()
    ensures WellFormed(CapitalCatalogSetting())
  {
    InitialCatalogCapitalKeyword();
    CapitalCatalogSettingValue();
    PlainSetting(CapitalCatalogSetting());
  }

  function DatabaseSetting(): Setting {
    Setting("Database", "testdb", Plain)
  }

  lemma DatabaseSettingText()
    ensures EncodeSetting(DatabaseSetting()) == "Database=" + "testdb"
  {
    DatabaseEquals();
  }

  lemma DatabaseSettingValue()
    ensures PlainValue("testdb")
  {
    assert forall i | 0 <= i < |"testdb"| :: Ordinary("testdb"[i]);
    PlainValueOf("testdb");
  }

  lemma DatabaseSettingWellFormed()
    ensures WellFormed(DatabaseSetting())
  {
    DatabaseKeyword();
    DatabaseSettingValue();
    PlainSetting(DatabaseSetting());
  }

  function PlaceholderPassword(): Setting {
    Setting("Password", "placeholder", Plain)
  }

  lemma PlaceholderPasswordText()
    ensures EncodeSetting(PlaceholderPassword()) == "Password=" + "placeholder"
  {
    PasswordEquals();
  }

  lemma PlaceholderPasswordValue()
    ensures PlainValue("placeholder")
  {
    assert forall i | 0 <= i < |"placeholder"| :: Ordinary("placeholder"[i]);
    PlainValueOf("placeholder");
  }

  lemma PlaceholderPasswordWellFormed()
    ensures WellFormed(PlaceholderPassword())
  {
    PasswordKeyword();
    PlaceholderPasswordValue();
    PlainSetting(PlaceholderPassword());
  }

  function QuotedPlaceholderPassword(): Setting {
    Setting("Password", "placeholder", DoubleQuoted)
  }

  lemma QuotedPlaceholderPasswordUnquoted()
    ensures '"' !in "placeholder"
  {
  }

  lemma QuotedPlaceholderPasswordText()
    ensures EncodeSetting(QuotedPlaceholderPassword()) == "Password=" + "\"" + "placeholder" + "\""
  {
    PasswordEquals();
    QuotedPlaceholderPasswordUnquoted();
    QuotedPiece(QuotedPlaceholderPassword(), "Password=", "\"");
  }

  lemma QuotedPlaceholderPasswordWellFormed()
    ensures WellFormed(QuotedPlaceholderPassword())
  {
    PasswordKeyword();
    QuotedSetting(QuotedPlaceholderPassword());
  }

  function PasswordPassword(): Setting {
    Setting("Password", "password", Plain)
  }

  lemma PasswordPasswordText()
    ensures EncodeSetting(PasswordPassword()) == "Password=" + "password"
  {
    PasswordEquals();
  }

  lemma PasswordPasswordValue()
    ensures PlainValue("password")
  {
    assert forall i | 0 <= i < |"password"| :: Ordinary("password"[i]);
    PlainValueOf("password");
  }

  lemma PasswordPasswordWellFormed()
    ensures WellFormed(PasswordPassword())
  {
    PasswordKeyword();
    PasswordPasswordValue();
    PlainSetting(PasswordPassword());
  }

  function NumericPassword(): Setting {
    Setting("Password", "1234", Plain)
  }

  lemma NumericPasswordText()
    ensures EncodeSetting(NumericPassword()) == "Password=" + "1234"
  {
    PasswordEquals();
  }

  lemma NumericPasswordValue()
    ensures PlainValue("1234")
  {
    assert forall i | 0 <= i < |"1234"| :: Ordinary("1234"[i]);
    PlainValueOf("1234");
  }

  lemma NumericPasswordWellFormed()
    ensures WellFormed(NumericPassword())
  {
    PasswordKeyword();
    NumericPasswordValue();
    PlainSetting(NumericPassword());
  }

  function AbcdPassword(): Setting {
    Setting("Password", "abcd", DoubleQuoted)
  }

  lemma AbcdPasswordUnquoted()
    ensures '"' !in "abcd"
  {
  }

  lemma AbcdPasswordText()
    ensures EncodeSetting(AbcdPassword()) == "Password=" + "\"" + "abcd" + "\""
  {
    PasswordEquals();
    AbcdPasswordUnquoted();
    QuotedPiece(AbcdPassword(), "Password=", "\"");
  }

  lemma AbcdPasswordWellFormed()
    ensures WellFormed(AbcdPassword())
  {
    PasswordKeyword();
    QuotedSetting(AbcdPassword());
  }

  function SignedPassword(): Setting {
    Setting("Password", "NotANormal123@", Plain)
  }

  lemma SignedPasswordText()
    ensures EncodeSetting(SignedPassword()) == "Password=" + "NotANormal123@"
  {
    PasswordEquals();
  }

  lemma SignedPasswordValue()
    ensures PlainValue("NotANormal123@")
  {
    assert forall i | 0 <= i < |"NotANormal123@"| :: Ordinary("NotANormal123@"[i]);
    PlainValueOf("NotANormal123@");
  }

  lemma SignedPasswordWellFormed()
    ensures WellFormed(SignedPassword())
  {
    PasswordKeyword();
    SignedPasswordValue();
    PlainSetting(SignedPassword());
  }

  function DoubleQuotedPassword(): Setting {
    Setting("Password", "ab'=abcdf''c;123", DoubleQuoted)
  }

  lemma DoubleQuotedPasswordUnquoted()
    ensures '"' !in "ab'=abcdf''c;123"
  {
  }

  lemma DoubleQuotedPasswordText()
    ensures EncodeSetting(DoubleQuotedPassword()) == "Password=" + "\"" + "ab'=abcdf''c;123" + "\""
  {
    PasswordEquals();
    DoubleQuotedPasswordUnquoted();
    QuotedPiece(DoubleQuotedPassword(), "Password=", "\"");
  }

  lemma DoubleQuotedPasswordWellFormed()
    ensures WellFormed(DoubleQuotedPassword())
  {
    PasswordKeyword();
    QuotedSetting(DoubleQuotedPassword());
  }

  function SingleQuotedPassword(): Setting {
    Setting("Password", "abc;1\"\"2\"adf=33", SingleQuoted)
  }

  lemma SingleQuotedPasswordUnquoted()
    ensures '\'' !in "abc;1\"\"2\"adf=33"
  {
  }

  lemma SingleQuotedPasswordText()
    ensures EncodeSetting(SingleQuotedPassword()) == "Password=" + "'" + "abc;1\"\"2\"adf=33" + "'"
  {
    PasswordEquals();
    SingleQuotedPasswordUnquoted();
    QuotedPiece(SingleQuotedPassword(), "Password=", "'");
  }

  lemma SingleQuotedPasswordWellFormed()
    ensures WellFormed(SingleQuotedPassword())
  {
    PasswordKeyword();
    QuotedSetting(SingleQuotedPassword());
  }

  function EscapedDoubleQuotePassword(): Setting {
    Setting("Password", "abc;1" + "\"" + "2" + "\"" + "adf(012j^72''asj;')'=33", DoubleQuoted)
  }

  lemma EscapedDoubleQuotePasswordPart0()
    ensures '"' !in "abc;1"
  {
  }

  lemma EscapedDoubleQuotePasswordPart1()
    ensures '"' !in "2"
  {
  }

  lemma EscapedDoubleQuotePasswordPart2()
    ensures '"' !in "adf(012j^72''asj;')'=33"
  {
  }

  lemma EscapedDoubleQuotePasswordEscaped()
    ensures Escape("abc;1" + "\"" + "2" + "\"" + "adf(012j^72''asj;')'=33", '"') == "abc;1" + "\"\"" + "2" + "\"\"" + "adf(012j^72''asj;')'=33"
  {

    EscapedDoubleQuotePasswordPart0();

    EscapedDoubleQuotePasswordPart1();

    EscapeSnoc("abc;1", "2", '"');

    assert "abc;1" + "\"" + "2" == "abc;1" + ['"'] + "2";

    EscapedDoubleQuotePasswordPart2();

    EscapeSnoc("abc;1" + "\"" + "2", "adf(012j^72''asj;')'=33", '"');

    assert "abc;1" + "\"" + "2" + "\"" + "adf(012j^72''asj;')'=33" == "abc;1" + "\"" + "2" + ['"'] + "adf(012j^72''asj;')'=33";

  }

  lemma EscapedDoubleQuotePasswordText()
    ensures EncodeSetting(EscapedDoubleQuotePassword()) == "Password=" + "\"" + ("abc;1" + "\"\"" + "2" + "\"\"" + "adf(012j^72''asj;')'=33") + "\""
  {
    EscapedDoubleQuotePasswordEscaped();
    PasswordEquals();
    QuotedText(EscapedDoubleQuotePassword(), "Password=", "\"", ("abc;1" + "\"\"" + "2" + "\"\"" + "adf(012j^72''asj;')'=33"));
  }

  lemma EscapedDoubleQuotePasswordWellFormed()
    ensures WellFormed(EscapedDoubleQuotePassword())
  {
    PasswordKeyword();
    QuotedSetting(EscapedDoubleQuotePassword());
  }

  function EscapedSingleQuotePassword(): Setting {
    Setting("Password", "ab\"\"c;1" + "'" + "2" + "'" + "\"" + "'" + "adf(\"0\"\"12j^72" + "'" + "asj;" + "'" + ")" + "'" + "=33", SingleQuoted)
  }

  lemma EscapedSingleQuotePasswordPart0()
    ensures '\'' !in "ab\"\"c;1"
  {
  }

  lemma EscapedSingleQuotePasswordPart1()
    ensures '\'' !in "2"
  {
  }

  lemma EscapedSingleQuotePasswordPart2()
    ensures '\'' !in "\""
  {
  }

  lemma EscapedSingleQuotePasswordPart3()
    ensures '\'' !in "adf(\"0\"\"12j^72"
  {
  }

  lemma EscapedSingleQuotePasswordPart4()
    ensures '\'' !in "asj;"
  {
  }

  lemma EscapedSingleQuotePasswordPart5()
    ensures '\'' !in ")"
  {
  }

  lemma EscapedSingleQuotePasswordPart6()
    ensures '\'' !in "=33"
  {
  }

  lemma EscapedSingleQuotePasswordEscaped()
    ensures Escape("ab\"\"c;1" + "'" + "2" + "'" + "\"" + "'" + "adf(\"0\"\"12j^72" + "'" + "asj;" + "'" + ")" + "'" + "=33", '\'') == "ab\"\"c;1" + "''" + "2" + "''" + "\"" + "''" + "adf(\"0\"\"12j^72" + "''" + "asj;" + "''" + ")" + "''" + "=33"
  {

    EscapedSingleQuotePasswordPart0();

    EscapedSingleQuotePasswordPart1();

    EscapeSnoc("ab\"\"c;1", "2", '\'');

    assert "ab\"\"c;1" + "'" + "2" == "ab\"\"c;1" + ['\''] + "2";

    EscapedSingleQuotePasswordPart2();

    EscapeSnoc("ab\"\"c;1" + "'" + "2", "\"", '\'');

    assert "ab\"\"c;1" + "'" + "2" + "'" + "\"" == "ab\"\"c;1" + "'" + "2" + ['\''] + "\"";

    EscapedSingleQuotePasswordPart3();

    EscapeSnoc("ab\"\"c;1" + "'" + "2" + "'" + "\"", "adf(\"0\"\"12j^72", '\'');

    assert "ab\"\"c;1" + "'" + "2" + "'" + "\"" + "'" + "adf(\"0\"\"12j^72" == "ab\"\"c;1" + "'" + "2" + "'" + "\"" + ['\''] + "adf(\"0\"\"12j^72";

    EscapedSingleQuotePasswordPart4();

    EscapeSnoc("ab\"\"c;1" + "'" + "2" + "'" + "\"" + "'" + "adf(\"0\"\"12j^72", "asj;", '\'');

    assert "ab\"\"c;1" + "'" + "2" + "'" + "\"" + "'" + "adf(\"0\"\"12j^72" + "'" + "asj;" == "ab\"\"c;1" + "'" + "2" + "'" + "\"" + "'" + "adf(\"0\"\"12j^72" + ['\''] + "asj;";

    EscapedSingleQuotePasswordPart5();

    EscapeSnoc("ab\"\"c;1" + "'" + "2" + "'" + "\"" + "'" + "adf(\"0\"\"12j^72" + "'" + "asj;", ")", '\'');

    assert "ab\"\"c;1" + "'" + "2" + "'" + "\"" + "'" + "adf(\"0\"\"12j^72" + "'" + "asj;" + "'" + ")" == "ab\"\"c;1" + "'" + "2" + "'" + "\"" + "'" + "adf(\"0\"\"12j^72" + "'" + "asj;" + ['\''] + ")";

    EscapedSingleQuotePasswordPart6();

    EscapeSnoc("ab\"\"c;1" + "'" + "2" + "'" + "\"" + "'" + "adf(\"0\"\"12j^72" + "'" + "asj;" + "'" + ")", "=33", '\'');

    assert "ab\"\"c;1" + "'" + "2" + "'" + "\"" + "'" + "adf(\"0\"\"12j^72" + "'" + "asj;" + "'" + ")" + "'" + "=33" == "ab\"\"c;1" + "'" + "2" + "'" + "\"" + "'" + "adf(\"0\"\"12j^72" + "'" + "asj;" + "'" + ")" + ['\''] + "=33";

  }

  lemma EscapedSingleQuotePasswordText()
    ensures EncodeSetting(EscapedSingleQuotePassword()) == "Password=" + "'" + ("ab\"\"c;1" + "''" + "2" + "''" + "\"" + "''" + "adf(\"0\"\"12j^72" + "''" + "asj;" + "''" + ")" + "''" + "=33") + "'"
  {
    EscapedSingleQuotePasswordEscaped();
    PasswordEquals();
    QuotedText(EscapedSingleQuotePassword(), "Password=", "'", ("ab\"\"c;1" + "''" + "2" + "''" + "\"" + "''" + "adf(\"0\"\"12j^72" + "''" + "asj;" + "''" + ")" + "''" + "=33"));
  }

  lemma EscapedSingleQuotePasswordWellFormed()
    ensures WellFormed(EscapedSingleQuotePassword())
  {
    PasswordKeyword();
    QuotedSetting(EscapedSingleQuotePassword());
  }

  function SqlPasswordAuthentication(): Setting {
    Setting("Authentication", "SQL Password", Plain)
  }

  lemma SqlPasswordAuthenticationText()
    ensures EncodeSetting(SqlPasswordAuthentication()) == "Authentication=" + "SQL Password"
  {
    AuthenticationEquals();
  }

  lemma SqlPasswordAuthenticationValue()
    ensures PlainValue("SQL Password")
  {
    assert forall i | 0 <= i < |"SQL Password"| :: Ordinary("SQL Password"[i]);
    PlainValueOf("SQL Password");
  }

  lemma SqlPasswordAuthenticationWellFormed()
    ensures WellFormed(SqlPasswordAuthentication())
  {
    AuthenticationKeyword();
    SqlPasswordAuthenticationValue();
    PlainSetting(SqlPasswordAuthentication());
  }

  function SqlPasswordOneWordAuthentication(): Setting {
    Setting("Authentication", "SQLPassword", Plain)
  }

  lemma SqlPasswordOneWordAuthenticationText()
    ensures EncodeSetting(SqlPasswordOneWordAuthentication()) == "Authentication=" + "SQLPassword"
  {
    AuthenticationEquals();
  }

  lemma SqlPasswordOneWordAuthenticationValue()
    ensures PlainValue("SQLPassword")
  {
    assert forall i | 0 <= i < |"SQLPassword"| :: Ordinary("SQLPassword"[i]);
    PlainValueOf("SQLPassword");
  }

  lemma SqlPasswordOneWordAuthenticationWellFormed()
    ensures WellFormed(SqlPasswordOneWordAuthentication())
  {
    AuthenticationKeyword();
    SqlPasswordOneWordAuthenticationValue();
    PlainSetting(SqlPasswordOneWordAuthentication());
  }

  function QuotedSqlPasswordAuthentication(): Setting {
    Setting("Authentication", "SQL Password", SingleQuoted)
  }

  lemma QuotedSqlPasswordAuthenticationUnquoted()
    ensures '\'' !in "SQL Password"
  {
  }

  lemma QuotedSqlPasswordAuthenticationText()
    ensures EncodeSetting(QuotedSqlPasswordAuthentication()) == "Authentication=" + "'" + "SQL Password" + "'"
  {
    AuthenticationEquals();
    QuotedSqlPasswordAuthenticationUnquoted();
    QuotedPiece(QuotedSqlPasswordAuthentication(), "Authentication=", "'");
  }

  lemma QuotedSqlPasswordAuthenticationWellFormed()
    ensures WellFormed(QuotedSqlPasswordAuthentication())
  {
    AuthenticationKeyword();
    QuotedSetting(QuotedSqlPasswordAuthentication());
  }

  function FakeAuthentication(): Setting {
    Setting("Authentication", "Fake Auth Type", Plain)
  }

  lemma FakeAuthenticationText()
    ensures EncodeSetting(FakeAuthentication()) == "Authentication=" + "Fake Auth Type"
  {
    AuthenticationEquals();
  }

  lemma FakeAuthenticationValue()
    ensures PlainValue("Fake Auth Type")
  {
    assert forall i | 0 <= i < |"Fake Auth Type"| :: Ordinary("Fake Auth Type"[i]);
    PlainValueOf("Fake Auth Type");
  }

  lemma FakeAuthenticationWellFormed()
    ensures WellFormed(FakeAuthentication())
  {
    AuthenticationKeyword();
    FakeAuthenticationValue();
    PlainSetting(FakeAuthentication());
  }

  function AadPasswordAuthentication(): Setting {
    Setting("Authentication", "Active Directory Password", Plain)
  }

  lemma AadPasswordAuthenticationText()
    ensures EncodeSetting(AadPasswordAuthentication()) == "Authentication=" + "Active Directory Password"
  {
    AuthenticationEquals();
  }

  lemma AadPasswordAuthenticationValue()
    ensures PlainValue("Active Directory Password")
  {
    assert forall i | 0 <= i < |"Active Directory Password"| :: Ordinary("Active Directory Password"[i]);
    PlainValueOf("Active Directory Password");
  }

  lemma AadPasswordAuthenticationWellFormed()
    ensures WellFormed(AadPasswordAuthentication())
  {
    AuthenticationKeyword();
    AadPasswordAuthenticationValue();
    PlainSetting(AadPasswordAuthentication());
  }

  function DoubleQuotedAadPasswordAuthentication(): Setting {
    Setting("Authentication", "Active Directory Password", DoubleQuoted)
  }

  lemma DoubleQuotedAadPasswordAuthenticationUnquoted()
    ensures '"' !in "Active Directory Password"
  {
  }

  lemma DoubleQuotedAadPasswordAuthenticationText()
    ensures EncodeSetting(DoubleQuotedAadPasswordAuthentication()) == "Authentication=" + "\"" + "Active Directory Password" + "\""
  {
    AuthenticationEquals();
    DoubleQuotedAadPasswordAuthenticationUnquoted();
    QuotedPiece(DoubleQuotedAadPasswordAuthentication(), "Authentication=", "\"");
  }

  lemma DoubleQuotedAadPasswordAuthenticationWellFormed()
    ensures WellFormed(DoubleQuotedAadPasswordAuthentication())
  {
    AuthenticationKeyword();
    QuotedSetting(DoubleQuotedAadPasswordAuthentication());
  }

  function SingleQuotedAadPasswordAuthentication(): Setting {
    Setting("Authentication", "Active Directory Password", SingleQuoted)
  }

  lemma SingleQuotedAadPasswordAuthenticationUnquoted()
    ensures '\'' !in "Active Directory Password"
  {
  }

  lemma SingleQuotedAadPasswordAuthenticationText()
    ensures EncodeSetting(SingleQuotedAadPasswordAuthentication()) == "Authentication=" + "'" + "Active Directory Password" + "'"
  {
    AuthenticationEquals();
    SingleQuotedAadPasswordAuthenticationUnquoted();
    QuotedPiece(SingleQuotedAadPasswordAuthentication(), "Authentication=", "'");
  }

  lemma SingleQuotedAadPasswordAuthenticationWellFormed()
    ensures WellFormed(SingleQuotedAadPasswordAuthentication())
  {
    AuthenticationKeyword();
    QuotedSetting(SingleQuotedAadPasswordAuthentication());
  }

  function AadPasswordOneWordAuthentication(): Setting {
    Setting("Authentication", "ActiveDirectoryPassword", SingleQuoted)
  }

  lemma AadPasswordOneWordAuthenticationUnquoted()
    ensures '\'' !in "ActiveDirectoryPassword"
  {
  }

  lemma AadPasswordOneWordAuthenticationText()
    ensures EncodeSetting(AadPasswordOneWordAuthentication()) == "Authentication=" + "'" + "ActiveDirectoryPassword" + "'"
  {
    AuthenticationEquals();
    AadPasswordOneWordAuthenticationUnquoted();
    QuotedPiece(AadPasswordOneWordAuthentication(), "Authentication=", "'");
  }

  lemma AadPasswordOneWordAuthenticationWellFormed()
    ensures WellFormed(AadPasswordOneWordAuthentication())
  {
    AuthenticationKeyword();
    QuotedSetting(AadPasswordOneWordAuthentication());
  }

  function ServicePrincipalAuthentication(): Setting {
    Setting("Authentication", "Active Directory Service Principal", Plain)
  }

  lemma ServicePrincipalAuthenticationText()
    ensures EncodeSetting(ServicePrincipalAuthentication()) == "Authentication=" + "Active Directory Service Principal"
  {
    AuthenticationEquals();
  }

  lemma ServicePrincipalAuthenticationValue()
    ensures PlainValue("Active Directory Service Principal")
  {
    assert forall i | 0 <= i < |"Active Directory Service Principal"| :: Ordinary("Active Directory Service Principal"[i]);
    PlainValueOf("Active Directory Service Principal");
  }

  lemma ServicePrincipalAuthenticationWellFormed()
    ensures WellFormed(ServicePrincipalAuthentication())
  {
    AuthenticationKeyword();
    ServicePrincipalAuthenticationValue();
    PlainSetting(ServicePrincipalAuthentication());
  }

  function QuotedServicePrincipalAuthentication(): Setting {
    Setting("Authentication", "Active Directory Service Principal", DoubleQuoted)
  }

  lemma QuotedServicePrincipalAuthenticationUnquoted()
    ensures '"' !in "Active Directory Service Principal"
  {
  }

  lemma QuotedServicePrincipalAuthenticationText()
    ensures EncodeSetting(QuotedServicePrincipalAuthentication()) == "Authentication=" + "\"" + "Active Directory Service Principal" + "\""
  {
    AuthenticationEquals();
    QuotedServicePrincipalAuthenticationUnquoted();
    QuotedPiece(QuotedServicePrincipalAuthentication(), "Authentication=", "\"");
  }

  lemma QuotedServicePrincipalAuthenticationWellFormed()
    ensures WellFormed(QuotedServicePrincipalAuthentication())
  {
    AuthenticationKeyword();
    QuotedSetting(QuotedServicePrincipalAuthentication());
  }

  function ServicePrincipalOneWordAuthentication(): Setting {
    Setting("Authentication", "ActiveDirectoryServicePrincipal", SingleQuoted)
  }

  lemma ServicePrincipalOneWordAuthenticationUnquoted()
    ensures '\'' !in "ActiveDirectoryServicePrincipal"
  {
  }

  lemma ServicePrincipalOneWordAuthenticationText()
    ensures EncodeSetting(ServicePrincipalOneWordAuthentication()) == "Authentication=" + "'" + "ActiveDirectoryServicePrincipal" + "'"
  {
    AuthenticationEquals();
    ServicePrincipalOneWordAuthenticationUnquoted();
    QuotedPiece(ServicePrincipalOneWordAuthentication(), "Authentication=", "'");
  }

  lemma ServicePrincipalOneWordAuthenticationWellFormed()
    ensures WellFormed(ServicePrincipalOneWordAuthentication())
  {
    AuthenticationKeyword();
    QuotedSetting(ServicePrincipalOneWordAuthentication());
  }

  function AadDefaultAuthentication(): Setting {
    Setting("Authentication", "Active Directory Default", Plain)
  }

  lemma AadDefaultAuthenticationText()
    ensures EncodeSetting(AadDefaultAuthentication()) == "Authentication=" + "Active Directory Default"
  {
    AuthenticationEquals();
  }

  lemma AadDefaultAuthenticationValue()
    ensures PlainValue("Active Directory Default")
  {
    assert forall i | 0 <= i < |"Active Directory Default"| :: Ordinary("Active Directory Default"[i]);
    PlainValueOf("Active Directory Default");
  }

  lemma AadDefaultAuthenticationWellFormed()
    ensures WellFormed(AadDefaultAuthentication())
  {
    AuthenticationKeyword();
    AadDefaultAuthenticationValue();
    PlainSetting(AadDefaultAuthentication());
  }

  function QuotedAadDefaultAuthentication(): Setting {
    Setting("Authentication", "Active Directory Default", DoubleQuoted)
  }

  lemma QuotedAadDefaultAuthenticationUnquoted()
    ensures '"' !in "Active Directory Default"
  {
  }

  lemma QuotedAadDefaultAuthenticationText()
    ensures EncodeSetting(QuotedAadDefaultAuthentication()) == "Authentication=" + "\"" + "Active Directory Default" + "\""
  {
    AuthenticationEquals();
    QuotedAadDefaultAuthenticationUnquoted();
    QuotedPiece(QuotedAadDefaultAuthentication(), "Authentication=", "\"");
  }

  lemma QuotedAadDefaultAuthenticationWellFormed()
    ensures WellFormed(QuotedAadDefaultAuthentication())
  {
    AuthenticationKeyword();
    QuotedSetting(QuotedAadDefaultAuthentication());
  }

  function AadDefaultOneWordAuthentication(): Setting {
    Setting("Authentication", "ActiveDirectoryDefault", SingleQuoted)
  }

  lemma AadDefaultOneWordAuthenticationUnquoted()
    ensures '\'' !in "ActiveDirectoryDefault"
  {
  }

  lemma AadDefaultOneWordAuthenticationText()
    ensures EncodeSetting(AadDefaultOneWordAuthentication()) == "Authentication=" + "'" + "ActiveDirectoryDefault" + "'"
  {
    AuthenticationEquals();
    AadDefaultOneWordAuthenticationUnquoted();
    QuotedPiece(AadDefaultOneWordAuthentication(), "Authentication=", "'");
  }

  lemma AadDefaultOneWordAuthenticationWellFormed()
    ensures WellFormed(AadDefaultOneWordAuthentication())
  {
    AuthenticationKeyword();
    QuotedSetting(AadDefaultOneWordAuthentication());
  }

}
