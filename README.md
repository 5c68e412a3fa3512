# SqlConnectionConfig — a verified model

This is a Dafny model of the connection-string handling in the `sql-action`
GitHub Action. `SqlConnectionConfig` takes the connection string from the
workflow and does four things:

- It tokenizes the string into `keyword=value` settings, with its own
  quoting and escaping rules.
- It works out which authentication type the string names.
- It checks that the settings this type needs are present, in a fixed order.
- It builds the configuration object handed to the SQL driver.

On the way it reads the optional `client-id` and `tenant-id` inputs of the
action. It marks the password, a service principal's client id and each
non-empty input as secret, each distinct value once, so the runner masks them
in the log.

The model has these parts:

- `Tokenizer` is the character-level scanner. `Parse` is its specification as
  a function; `Tokenize` is the loop, proved equal to `Parse`.
  - A value is either plain (trimmed, with no quote and no `;`) or enclosed in
    `'` or `"`.
  - Inside quotes, only the enclosing quote is escaped, by doubling it. The
    other quote, `;` and `=` stand for themselves.
  - Every violation of this grammar is the one `MalformedConnectionString`
    error.
  - Keywords are trimmed and lower-cased. Synonyms share one name: `User Id`
    and `User`; `Initial Catalog` and `Database`; `Password` and `Pwd`; and the
    server aliases.
- `Encoding` writes settings out as a connection string. It proves the round
  trip: the tokenizer reads back exactly the settings written (`ParseJoin`).
- `Rejections` proves which shapes of string are malformed.
- `Authentication` maps an `Authentication` value to one of four types: SQL
  password, Azure AD password, Azure AD service principal and Azure AD
  default. Values are compared without blanks and without regard to case.
- `ConnectionConfig` holds validation (`Check`), assembly (`Assemble`) and the
  whole construction (`Build`). It also holds the class `SqlConnectionConfig`,
  which keeps `ConnectionString` verbatim next to `Config`.
- `ActionsCore` stands for the runner's two services: reading an input and
  marking a secret. Each keeps a ghost history of the calls.
- `ValidSamples`, `RejectedSamples`, `AuthenticationSamples` and
  `InputSamples` state every connection string of the test suite as a lemma
  about `Build`.
  - Each sample string is written as the concatenation of its settings. The
    characters are the same as in the test.
  - `SampleSettings` and `Samples` hold the facts these lemmas share.

Behaviour the model fixes where the tests leave a choice:

- Inside a double-quoted value, `''` stays two single quotes. The test at
  `__tests__/SqlConnectionConfig.test.ts:14` expects `ab'=abcdf''c;123`.
  Prose descriptions of the format that suggest collapsing `''` everywhere
  are not followed.
- A setting with an empty value counts as absent.
- Blank `;`-segments are skipped. A trailing `;` is allowed.
- Nothing may follow a closing quote except `;` or the end of the string.
- When a keyword repeats, the last value wins.
- Validation order:
  1. the string must be well formed;
  2. the database must be present;
  3. the authentication type must be supported;
  4. the user (client id for a service principal) must be present;
  5. the password (client secret) must be present.

  The test at line 45 pins step 3 before step 4.
- SQL password, given explicitly or by default, sends no `authentication`
  block: user and password stay at the top level. An explicit
  `Authentication=SQL Password` could also have been read as sending a block
  of its own; see `Assemble` under "## Left out".
  - Azure AD password sends `userName` and `password`, plus `clientId` and
    `tenantId` when the inputs are non-empty.
  - A service principal sends `clientId` and `clientSecret`.
  - Azure AD default sends no options.
- The inputs are read exactly twice, `client-id` and then `tenant-id`, and only
  once the string has been validated.
  - The secrets are marked in order: the password, then the client id a
    service principal takes from `User Id`, then the `client-id` input, then
    the `tenant-id` input.
  - An empty value is never marked, and each distinct value is marked once.
- Where a test uses `toMatch` (a substring or pattern match), the model proves
  equality, which is stronger.

## Model

| member | source | states |
|---|---|---|
| Tokenizer.Tokenize | __tests__/SqlConnectionConfig.test.ts:14-18 | the tokenizing loop over the characters, with its quote state, returns exactly `Parse(s)`: the same pairs, or the malformed error at the same inputs |
| Tokenizer.Advance | __tests__/SqlConnectionConfig.test.ts:14-17 | one character of the loop updates the quote state exactly as the scanner step does, or reports the string malformed |
| Tokenizer.CanonicalKeySynonyms | __tests__/SqlConnectionConfig.test.ts:61 | keywords are compared trimmed and lower-cased; `User Id`/`User`, `Initial Catalog`/`Database`, `Password`/`Pwd` and the server aliases map to one name each |
| Tokenizer.ParseFailsOnlyAsMalformed | __tests__/SqlConnectionConfig.test.ts:37-41 | the tokenizer rejects only with the malformed-connection-string error |
| Errors.UnsupportedMessageInjective | __tests__/SqlConnectionConfig.test.ts:45 | the unsupported-type message embeds the literal value exactly: different literals give different messages |
| Encoding.ParseJoin | __tests__/SqlConnectionConfig.test.ts:14-18 | round trip: settings written out (plain, or quoted with the delimiter doubled), with or without a trailing `;`, are read back as exactly those settings, each under its canonical keyword, the last one winning |
| Encoding.RunEscaped | __tests__/SqlConnectionConfig.test.ts:16-17 | inside `q`-quotes, the text with every `q` doubled decodes to the text itself, whatever else it holds |
| Encoding.RunSetting | __tests__/SqlConnectionConfig.test.ts:14-18 | one written setting is read to its end without touching the pairs read before it |
| Encoding.EscapeAppend | __tests__/SqlConnectionConfig.test.ts:16-17 | doubling the delimiter distributes over concatenation |
| Rejections.UnterminatedQuote | __tests__/SqlConnectionConfig.test.ts:37-38 | a value that opens a quote and never closes it is malformed, whatever it holds, doubled delimiters included |
| Rejections.UnescapedQuote | __tests__/SqlConnectionConfig.test.ts:39-40 | a quote that is neither doubled nor followed by `;` or the end is malformed |
| Rejections.SegmentWithoutEquals | __tests__/SqlConnectionConfig.test.ts:41 | a non-blank `;`-segment without `=` is malformed, whether or not more follows |
| Rejections.QuoteInPlainValue | __tests__/SqlConnectionConfig.test.ts:37-41 | a quote after any non-blank unquoted text of a value, with or without blanks before or within that text, is malformed |
| Rejections.ParsePrefix | __tests__/SqlConnectionConfig.test.ts:37-41 | well-formed settings and a `;` leave the scanner at a fresh keyword with those settings stored, so a rejection later in the string is the string's rejection |
| Authentication.ResolveAuthType | __tests__/SqlConnectionConfig.test.ts:45 | a rejection is always the unsupported-type error carrying the value exactly as written |
| Authentication.ResolveExactlyNamed | __tests__/SqlConnectionConfig.test.ts:45 | a value is accepted if and only if it is absent, blank or folds to one of the four type keys, and then it names the type of that key; every other value is rejected with the value as written |
| Authentication.TypeNamesDistinct | __tests__/SqlConnectionConfig.test.ts:118 | the driver type names of the four types are pairwise different, so the driver can tell them apart |
| Authentication.ResolveIgnoresBlanksAndCase | __tests__/SqlConnectionConfig.test.ts:19-20 | values that differ only in blanks and letter case name the same type, or are both rejected |
| Authentication.SpellingsResolve | __tests__/SqlConnectionConfig.test.ts:100-108 | each type's documented spelling with blanks, and the same spelling as one word, both resolve to that type |
| Authentication.WordsResolve | __tests__/SqlConnectionConfig.test.ts:100-108 | words whose run-together lower-case form is a type's key name that type, whether spaced or written as one word |
| ConnectionConfig.MissingDatabaseFirst | __tests__/SqlConnectionConfig.test.ts:44 | a missing or empty database is reported before anything else |
| ConnectionConfig.UnsupportedBeforeCredentials | __tests__/SqlConnectionConfig.test.ts:45 | an unsupported type is reported, with its literal, ahead of a missing user or password |
| ConnectionConfig.ValidationIgnoresInputs | __tests__/SqlConnectionConfig.test.ts:139-160 | whether and why a string is rejected never depends on the two inputs; only the authentication options do |
| ConnectionConfig.SqlPasswordRules | __tests__/SqlConnectionConfig.test.ts:19-21 | SQL password needs a user, then a password, each with its own error; user and password stay at the top level and no authentication block is sent |
| ConnectionConfig.AadPasswordRules | __tests__/SqlConnectionConfig.test.ts:121-125 | Azure AD password needs a user, then a password; the options carry them as `userName` and `password`, and carry `clientId`/`tenantId` exactly when that input is non-empty |
| ConnectionConfig.ServicePrincipalRules | __tests__/SqlConnectionConfig.test.ts:126-130 | a service principal needs the client id in the user field, then the client secret in the password field, each with its own error; the options are exactly `clientId` and `clientSecret` |
| ConnectionConfig.AadDefaultRules | __tests__/SqlConnectionConfig.test.ts:131-134 | Azure AD default needs no user or password and sends an empty options map |
| ConnectionConfig.ResolveIsValid | __tests__/SqlConnectionConfig.test.ts:111-135 | every configuration handed out has a database, the credentials its type needs, and options consistent with the top-level user and password |
| ConnectionConfig.SecretsCoverCredentials | __tests__/SqlConnectionConfig.test.ts:65-95 | the password is marked first; a service principal's client id and every non-empty input are marked; the tenant id is last unless it repeats an earlier value |
| ConnectionConfig.SecretsDistinct | __tests__/SqlConnectionConfig.test.ts:65-95 | no value is marked twice, no empty value is marked, and every value marked is the password, the principal's client id or one of the inputs |
| ConnectionConfig.MarkSecrets | __tests__/SqlConnectionConfig.test.ts:65-95 | the masker's history grows by exactly the secrets, in order, each once |
| ConnectionConfig.MarkOnce | __tests__/SqlConnectionConfig.test.ts:65-95 | marks a value only when it is non-empty and not yet marked, and keeps the history equal to the values marked so far |
| ConnectionConfig.SqlConnectionConfig.constructor | __tests__/SqlConnectionConfig.test.ts:25-31 | keeps the connection string verbatim, builds the configuration from it, reads `client-id` then `tenant-id`, and marks exactly the secrets |
| ConnectionConfig.NewSqlConnectionConfig | __tests__/SqlConnectionConfig.test.ts:54-56 | fails exactly when the string is malformed or invalid, with that error, and then reads no input and marks no secret; otherwise it returns an object as the constructor promises |
| ActionsCore.ActionInputs.GetInput | __tests__/SqlConnectionConfig.test.ts:73-78 | returns the input the workflow supplied, or empty, and records that it was read |
| ActionsCore.SecretMasker.SetSecret | __tests__/SqlConnectionConfig.test.ts:66 | records the value as secret |
| ValidSamples.DoubleQuotedValueConfig | __tests__/SqlConnectionConfig.test.ts:14 | a double-quoted password keeps `'`, `=`, `;` and `''` as written; server, user and database are as given |
| ValidSamples.SingleQuotedValueConfig | __tests__/SqlConnectionConfig.test.ts:15 | a single-quoted password keeps `"`, `""`, `;` and `=` as written |
| ValidSamples.EscapedDoubleQuotesConfig | __tests__/SqlConnectionConfig.test.ts:16 | `""` inside double quotes decodes to one `"` |
| ValidSamples.EscapedSingleQuotesConfig | __tests__/SqlConnectionConfig.test.ts:17 | `''` inside single quotes decodes to one `'` |
| ValidSamples.UnquotedValueConfig | __tests__/SqlConnectionConfig.test.ts:18 | an unquoted value is stored unchanged |
| ValidSamples.SqlPasswordSpelledConfig | __tests__/SqlConnectionConfig.test.ts:19 | `Authentication=SQL Password` gives the SQL login configuration |
| ValidSamples.SqlPasswordOneWordConfig | __tests__/SqlConnectionConfig.test.ts:20 | `Authentication=SQLPassword` gives the same configuration |
| ValidSamples.SqlPasswordQuotedConfig | __tests__/SqlConnectionConfig.test.ts:21 | `Authentication='SQL Password'` gives the same configuration |
| ValidSamples.UserFirstConfig | __tests__/SqlConnectionConfig.test.ts:61 | user first and `Initial Catalog` last build the SQL login with user `user`, password `1234` and database `testDB`; no authentication block |
| RejectedSamples.UnterminatedDoubleQuoteRejected | __tests__/SqlConnectionConfig.test.ts:37 | a double quote that never closes is malformed |
| RejectedSamples.UnterminatedSingleQuoteRejected | __tests__/SqlConnectionConfig.test.ts:38 | a single quote that never closes is malformed |
| RejectedSamples.UndoubledDoubleQuoteRejected | __tests__/SqlConnectionConfig.test.ts:39 | an undoubled `"` inside double quotes is malformed |
| RejectedSamples.UndoubledSingleQuoteRejected | __tests__/SqlConnectionConfig.test.ts:40 | an undoubled `'` inside single quotes is malformed |
| RejectedSamples.UnquotedSemicolonRejected | __tests__/SqlConnectionConfig.test.ts:41 | a `;` inside an unquoted value leaves a segment without `=`, which is malformed |
| RejectedSamples.WithoutUserRejected | __tests__/SqlConnectionConfig.test.ts:42 | no user: the missing-user error |
| RejectedSamples.WithoutPasswordRejected | __tests__/SqlConnectionConfig.test.ts:43 | no password: the missing-password error |
| RejectedSamples.WithoutCatalogRejected | __tests__/SqlConnectionConfig.test.ts:44 | no database: the missing-database error |
| RejectedSamples.FakeTypeRejected | __tests__/SqlConnectionConfig.test.ts:45 | `Fake Auth Type` is rejected as unsupported, carrying that literal, although the user is missing too |
| RejectedSamples.AadPasswordWithoutUserRejected | __tests__/SqlConnectionConfig.test.ts:46 | Azure AD password without a user: the missing-user error |
| RejectedSamples.AadPasswordWithoutPasswordRejected | __tests__/SqlConnectionConfig.test.ts:47 | Azure AD password without a password: the missing-password error |
| RejectedSamples.SqlPasswordWithoutUserRejected | __tests__/SqlConnectionConfig.test.ts:48 | explicit SQL password without a user: the missing-user error |
| RejectedSamples.SqlPasswordWithoutPasswordRejected | __tests__/SqlConnectionConfig.test.ts:49 | explicit SQL password without a password: the missing-password error |
| RejectedSamples.ServicePrincipalWithoutClientIdRejected | __tests__/SqlConnectionConfig.test.ts:50 | a service principal without a user: the missing-client-id error |
| RejectedSamples.ServicePrincipalWithoutSecretRejected | __tests__/SqlConnectionConfig.test.ts:51 | a service principal without a password: the missing-client-secret error |
| AuthenticationSamples.AadPasswordDoubleQuotedConfig | __tests__/SqlConnectionConfig.test.ts:100 | `"Active Directory Password"` gives the Azure AD password block with `userName` and `password`, plus the non-empty inputs; the block's driver type name is `azure-active-directory-password` |
| AuthenticationSamples.AadPasswordUnquotedConfig | __tests__/SqlConnectionConfig.test.ts:101 | the unquoted spelling gives the same block; the block's driver type name is `azure-active-directory-password` |
| AuthenticationSamples.AadPasswordOneWordConfig | __tests__/SqlConnectionConfig.test.ts:102 | the one-word spelling gives the same block; the block's driver type name is `azure-active-directory-password` |
| AuthenticationSamples.ServicePrincipalDoubleQuotedConfig | __tests__/SqlConnectionConfig.test.ts:103 | `"Active Directory Service Principal"` gives the service-principal block with `clientId` from the user and `clientSecret` from the password; the block's driver type name is `azure-active-directory-service-principal-secret` |
| AuthenticationSamples.ServicePrincipalUnquotedConfig | __tests__/SqlConnectionConfig.test.ts:104 | the unquoted spelling gives the same block; the block's driver type name is `azure-active-directory-service-principal-secret` |
| AuthenticationSamples.ServicePrincipalOneWordConfig | __tests__/SqlConnectionConfig.test.ts:105 | the one-word spelling gives the same block; the block's driver type name is `azure-active-directory-service-principal-secret` |
| AuthenticationSamples.PrincipalIdMasked | __tests__/SqlConnectionConfig.test.ts:103 | for the service-principal string, the client secret and then the client id taken from `User Id` are marked secret |
| AuthenticationSamples.AadDefaultDoubleQuotedConfig | __tests__/SqlConnectionConfig.test.ts:106 | `"Active Directory Default"` gives the Azure AD default block with no options, and no user or password; the block's driver type name is `azure-active-directory-default` |
| AuthenticationSamples.AadDefaultUnquotedConfig | __tests__/SqlConnectionConfig.test.ts:107 | the unquoted spelling gives the same configuration; the block's driver type name is `azure-active-directory-default` |
| AuthenticationSamples.AadDefaultOneWordConfig | __tests__/SqlConnectionConfig.test.ts:108 | the one-word spelling gives the same configuration; the block's driver type name is `azure-active-directory-default` |
| InputSamples.PlaceholderLoginConfig | __tests__/SqlConnectionConfig.test.ts:67 | the login string builds the SQL login configuration |
| InputSamples.PasswordMasked | __tests__/SqlConnectionConfig.test.ts:65-69 | with no inputs, exactly the password is marked secret |
| InputSamples.ClientIdMasked | __tests__/SqlConnectionConfig.test.ts:71-82 | with a client id, the password and then the client id are marked |
| InputSamples.TenantIdMasked | __tests__/SqlConnectionConfig.test.ts:84-95 | with a tenant id, the password and then the tenant id are marked |
| InputSamples.RepeatedSecretMaskedOnce | __tests__/SqlConnectionConfig.test.ts:65-82 | an input equal to the password is not marked a second time |
| InputSamples.ConstructWithClientId | __tests__/SqlConnectionConfig.test.ts:71-82 | construction reads both inputs and marks the password and the client id |
| InputSamples.ConstructWithTenantId | __tests__/SqlConnectionConfig.test.ts:84-95 | construction reads both inputs and marks the password and the tenant id |
| InputSamples.AadPasswordWithInputsConfig | __tests__/SqlConnectionConfig.test.ts:150-158 | the Azure AD password string with quoted password `abcd` builds its configuration, whose driver type name is `azure-active-directory-password` |
| InputSamples.InputsInOptions | __tests__/SqlConnectionConfig.test.ts:150-160 | with both inputs set, the options are exactly `userName`, `password`, `clientId` and `tenantId` |
| InputSamples.ConstructWithBothInputs | __tests__/SqlConnectionConfig.test.ts:139-160 | construction reads the inputs exactly twice, copies both ids into the options, and marks the password and both ids |

## Left out

- Parsing by the `mssql` package's connection-string parser is not part of this model. The tokenizer here is this model's own, with its meaning fixed by the test vectors. The test at `__tests__/SqlConnectionConfig.test.ts:59-63` only checks that the parser is called, and that call is not modelled.
- Reading inputs and marking secrets in the runner are modelled as two small classes whose effects are ghost histories. Logging, the environment and the process itself are left out.
- The test framework, its mocks and the call counting of its spies are left out. The counts appear as the ghost `Requested` history, which grows by exactly two names per construction.
- Opening a database connection, and the rest of the action that uses the configuration, are left out.
- The error is returned as a value, not thrown. The message text of each error is given by `Errors.Message`.
- Assemble: an explicit `Authentication=SQL Password` is treated like an absent `Authentication` keyword, so no authentication block is sent and the driver type name `default` (`Authentication.TypeName`) is never used. A reading in which an explicitly named SQL password sends a block of its own is not modelled; the tests at `__tests__/SqlConnectionConfig.test.ts:19-21` check only the top-level user and password.
- Lower, LowerChar, IsSpace and Folded: case folding covers the ASCII letters only, and the blanks are only space, tab, line feed and carriage return. JavaScript's `toLowerCase`, `trim` and `\s` also fold non-ASCII letters (such as full-width `Ｓ`) and treat other Unicode spaces (such as the no-break space) as blank, so such keywords and authentication values are read differently here.
- The server aliases other than `Server` (`Data Source`, `Address`, `Addr`, `Network Address`) and `Pwd` are accepted as synonyms, but no test vector exercises them.
