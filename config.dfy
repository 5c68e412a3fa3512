/**
 * The configuration object: validation of the tokenized settings in a fixed
 * order, assembly of the driver configuration, and the constructor that
 * reads the two optional action inputs and marks every secret it finds.
 */
module ConnectionConfig {
  import opened Wrappers
  import opened Errors
  import opened Tokenizer
  import opened Authentication
  import opened ActionsCore

  datatype AuthenticationBlock = AuthenticationBlock(kind: AuthType, options: map<string, string>)

  datatype Config = Config(
    server: Option<string>,
    database: string,
    user: Option<string>,
    password: Option<string>,
    authentication: Option<AuthenticationBlock>)

  /** A setting counts as given only with a non-empty value. */
  function Lookup(m: Pairs, key: string): (r: Option<string>)
    ensures r.Some? <==> key in m && m[key] != ""
    ensures r.Some? ==> r.value == m[key]
  {
    if key in m && m[key] != "" then Some(m[key]) else None
  }

  function AuthenticationValue(m: Pairs): Option<string> {
    if "authentication" in m then Some(m["authentication"]) else None
  }

  /**
   * Validation, first violation wins: the database, then the authentication
   * type, then the user and the password that type needs.
   */
  function Check(m: Pairs): Result<AuthType, ConfigError> {
    if Lookup(m, "database").None? then Failure(MissingDatabase)
    else
      match ResolveAuthType(AuthenticationValue(m))
      case Failure(e) => Failure(e)
      case Success(t) =>
        if t == AadDefault then Success(t)
        else if Lookup(m, "user").None? then
          Failure(if t == AadServicePrincipalSecret then MissingClientId else MissingUser)
        else if Lookup(m, "password").None? then
          Failure(if t == AadServicePrincipalSecret then MissingClientSecret else MissingPassword)
        else Success(t)
  }

  /** A single option, left out when its value is empty. */
  function Optional(name: string, value: string): map<string, string> {
    if value == "" then map[] else map[name := value]
  }

  /** The options each type hands to the driver. */
  function Options(t: AuthType, user: string, password: string, clientId: string, tenantId: string): map<string, string> {
    match t
    case SqlPassword => map[]
    case AadPassword => map["userName" := user, "password" := password] + Optional("clientId", clientId) + Optional("tenantId", tenantId)
    case AadServicePrincipalSecret => map["clientId" := user, "clientSecret" := password]
    case AadDefault => map[]
  }

  function Assemble(m: Pairs, t: AuthType, clientId: string, tenantId: string): Config
    requires Check(m) == Success(t)
  {
    var user, password := Lookup(m, "user"), Lookup(m, "password");
    var block :=
      if t == SqlPassword then None
      else Some(AuthenticationBlock(t, Options(t, user.GetOr(""), password.GetOr(""), clientId, tenantId)));
    Config(Lookup(m, "server"), Lookup(m, "database").value, user, password, block)
  }

  function Resolve(m: Pairs, clientId: string, tenantId: string): Result<Config, ConfigError> {
    match Check(m)
    case Failure(e) => Failure(e)
    case Success(t) => Success(Assemble(m, t, clientId, tenantId))
  }

  /** The whole construction, from the raw string and the two action inputs. */
  function Build(raw: string, clientId: string, tenantId: string): Result<Config, ConfigError> {
    match Parse(raw)
    case Failure(e) => Failure(e)
    case Success(m) => Resolve(m, clientId, tenantId)
  }

  /** A string that tokenizes and validates builds the configuration `Assemble` puts together. */
  lemma BuildOfChecked(raw: string, m: Pairs, t: AuthType, clientId: string, tenantId: string)
    requires Parse(raw) == Success(m) && Check(m) == Success(t)
    ensures Build(raw, clientId, tenantId) == Success(Assemble(m, t, clientId, tenantId))
  {
  }

  /** The client id a service principal resolves to, taken from its user; empty for the other types. */
  function PrincipalId(c: Config): string {
    if c.authentication.Some? && c.authentication.value.kind == AadServicePrincipalSecret && c.user.Some?
    then c.user.value else ""
  }

  /** The secrets marked so far, with `v` added unless it is empty or already marked. */
  function WithSecret(marked: seq<string>, v: string): seq<string> {
    if v == "" || v in marked then marked else marked + [v]
  }

  /**
   * The values marked secret, each distinct value once, in order: the
   * password, the client id a service principal resolves to, the client id
   * input and the tenant id input.
   */
  function Secrets(c: Config, clientId: string, tenantId: string): seq<string> {
    WithSecret(WithSecret(WithSecret(WithSecret([], c.password.GetOr("")), PrincipalId(c)), clientId), tenantId)
  }

  // ---------------------------------------------------------------------------
  // What validation promises.

  /** A missing or empty database is reported before anything else is looked at. */
  lemma MissingDatabaseFirst(m: Pairs, clientId: string, tenantId: string)
    requires !("database" in m && m["database"] != "")
    ensures Resolve(m, clientId, tenantId) == Failure(MissingDatabase)
  {
  }

  /** An unrecognised type is reported with its literal value, ahead of a missing user or password. */
  lemma UnsupportedBeforeCredentials(m: Pairs, clientId: string, tenantId: string)
    requires "database" in m && m["database"] != ""
    requires "authentication" in m && ResolveAuthType(Some(m["authentication"])).Failure?
    ensures Resolve(m, clientId, tenantId) == Failure(UnsupportedAuthentication(m["authentication"]))
  {
  }

  /** Validation never depends on the two action inputs; only the assembled options do. */
  lemma ValidationIgnoresInputs(m: Pairs, a: string, b: string, c: string, d: string)
    ensures Resolve(m, a, b).Failure? == Resolve(m, c, d).Failure?
    ensures Resolve(m, a, b).Failure? ==> Resolve(m, a, b).error == Resolve(m, c, d).error
    ensures Resolve(m, a, b).Success? ==> Resolve(m, a, b).value.(authentication := None) == Resolve(m, c, d).value.(authentication := None)
  {
  }

  /** SQL password: user and password are required, stay at the top level, and no authentication block is sent. */
  lemma SqlPasswordRules(m: Pairs, clientId: string, tenantId: string)
    requires "database" in m && m["database"] != ""
    requires ResolveAuthType(AuthenticationValue(m)) == Success(SqlPassword)
    ensures Lookup(m, "user").None? ==> Resolve(m, clientId, tenantId) == Failure(MissingUser)
    ensures Lookup(m, "user").Some? && Lookup(m, "password").None? ==> Resolve(m, clientId, tenantId) == Failure(MissingPassword)
    ensures Lookup(m, "user").Some? && Lookup(m, "password").Some? ==>
      Resolve(m, clientId, tenantId) == Success(Config(Lookup(m, "server"), m["database"], Some(m["user"]), Some(m["password"]), None))
  {
  }

  /**
   * Azure AD password: user and password are required; the options carry
   * them as userName and password, plus each action input that is not empty.
   */
  lemma AadPasswordRules(m: Pairs, clientId: string, tenantId: string)
    requires "database" in m && m["database"] != ""
    requires ResolveAuthType(AuthenticationValue(m)) == Success(AadPassword)
    ensures Lookup(m, "user").None? ==> Resolve(m, clientId, tenantId) == Failure(MissingUser)
    ensures Lookup(m, "user").Some? && Lookup(m, "password").None? ==> Resolve(m, clientId, tenantId) == Failure(MissingPassword)
    ensures Lookup(m, "user").Some? && Lookup(m, "password").Some? ==>
      var r := Resolve(m, clientId, tenantId);
      && r.Success? && r.value.authentication.Some?
      && r.value.authentication.value.kind == AadPassword
      && var o := r.value.authentication.value.options;
      && o["userName"] == m["user"] && o["password"] == m["password"]
      && ("clientId" in o <==> clientId != "") && ("clientId" in o ==> o["clientId"] == clientId)
      && ("tenantId" in o <==> tenantId != "") && ("tenantId" in o ==> o["tenantId"] == tenantId)
      && o.Keys <= {"userName", "password", "clientId", "tenantId"}
  {
  }

  /**
   * Azure AD service principal: the user is the client id and the password is
   * the client secret, and each missing one has its own error.
   */
  lemma ServicePrincipalRules(m: Pairs, clientId: string, tenantId: string)
    requires "database" in m && m["database"] != ""
    requires ResolveAuthType(AuthenticationValue(m)) == Success(AadServicePrincipalSecret)
    ensures Lookup(m, "user").None? ==> Resolve(m, clientId, tenantId) == Failure(MissingClientId)
    ensures Lookup(m, "user").Some? && Lookup(m, "password").None? ==> Resolve(m, clientId, tenantId) == Failure(MissingClientSecret)
    ensures Lookup(m, "user").Some? && Lookup(m, "password").Some? ==>
      Resolve(m, clientId, tenantId).Success? &&
      Resolve(m, clientId, tenantId).value.authentication ==
        Some(AuthenticationBlock(AadServicePrincipalSecret, map["clientId" := m["user"], "clientSecret" := m["password"]]))
  {
  }

  /** Azure AD default needs neither user nor password and sends no options. */
  lemma AadDefaultRules(m: Pairs, clientId: string, tenantId: string)
    requires "database" in m && m["database"] != ""
    requires ResolveAuthType(AuthenticationValue(m)) == Success(AadDefault)
    ensures Resolve(m, clientId, tenantId).Success?
    ensures Resolve(m, clientId, tenantId).value.authentication == Some(AuthenticationBlock(AadDefault, map[]))
  {
  }

  /** What every configuration the builder hands out satisfies. */
  predicate Valid(c: Config) {
    && c.database != ""
    && (c.authentication.None? ==> c.user.Some? && c.password.Some?)
    && (c.authentication.Some? ==>
          var b := c.authentication.value;
          && b.kind != SqlPassword
          && (b.kind == AadPassword ==>
                c.user.Some? && c.password.Some? && "userName" in b.options && "password" in b.options
                && b.options["userName"] == c.user.value && b.options["password"] == c.password.value)
          && (b.kind == AadServicePrincipalSecret ==>
                c.user.Some? && c.password.Some? && b.options == map["clientId" := c.user.value, "clientSecret" := c.password.value])
          && (b.kind == AadDefault ==> b.options == map[]))
    && (c.user.Some? ==> c.user.value != "")
    && (c.password.Some? ==> c.password.value != "")
  }

  lemma ResolveIsValid(m: Pairs, clientId: string, tenantId: string)
    ensures Resolve(m, clientId, tenantId).Success? ==> Valid(Resolve(m, clientId, tenantId).value)
  {
  }

  /** Adding a secret keeps what was marked, in order, and ends with `v` when `v` is new. */
  lemma WithSecretGrows(marked: seq<string>, v: string)
    ensures var r := WithSecret(marked, v);
      && marked <= r
      && (v != "" ==> v in r)
      && (v != "" && v !in marked ==> r[|r| - 1] == v)
  {
  }

  /** Adding a secret adds at most `v`, never twice and never empty. */
  lemma WithSecretKeeps(marked: seq<string>, v: string)
    requires forall i, j :: 0 <= i < j < |marked| ==> marked[i] != marked[j]
    ensures var r := WithSecret(marked, v);
      && (forall x :: x in r ==> x in marked || (x == v && v != ""))
      && (forall i, j :: 0 <= i < j < |r| ==> r[i] != r[j])
  {
  }

  /** Every value marked is marked once, is not empty, and is the password, the principal's id or an input. */
  lemma SecretsDistinct(c: Config, clientId: string, tenantId: string)
    ensures var ss := Secrets(c, clientId, tenantId);
      && (forall v :: v in ss ==> v != "" && (v == c.password.GetOr("") || v == PrincipalId(c) || v == clientId || v == tenantId))
      && (forall i, j :: 0 <= i < j < |ss| ==> ss[i] != ss[j])
  {
    var s0 := WithSecret([], c.password.GetOr(""));
    var s1 := WithSecret(s0, PrincipalId(c));
    var s2 := WithSecret(s1, clientId);
    WithSecretKeeps([], c.password.GetOr(""));
    WithSecretKeeps(s0, PrincipalId(c));
    WithSecretKeeps(s1, clientId);
    WithSecretKeeps(s2, tenantId);
  }

  /**
   * The password, whatever the type, is marked secret first; a service
   * principal's client id and each non-empty input are marked too, and the
   * tenant id comes last unless it repeats an earlier value.
   */
  lemma SecretsCoverCredentials(c: Config, clientId: string, tenantId: string)
    requires Valid(c)
    ensures var ss := Secrets(c, clientId, tenantId);
      && (c.password.Some? ==> |ss| > 0 && ss[0] == c.password.value)
      && (c.authentication.Some? && c.authentication.value.kind == AadServicePrincipalSecret ==> c.user.value in ss)
      && (clientId != "" ==> clientId in ss)
      && (tenantId != "" ==> tenantId in ss)
      && (tenantId != "" && tenantId != clientId && tenantId != PrincipalId(c) && Some(tenantId) != c.password ==>
            ss[|ss| - 1] == tenantId)
  {
    var s0 := WithSecret([], c.password.GetOr(""));
    var s1 := WithSecret(s0, PrincipalId(c));
    var s2 := WithSecret(s1, clientId);
    WithSecretGrows([], c.password.GetOr(""));
    WithSecretGrows(s0, PrincipalId(c));
    WithSecretGrows(s1, clientId);
    WithSecretGrows(s2, tenantId);
    if c.password.Some? {
      assert c.password.value != "";
      assert s0 == [c.password.value];
    }
    if c.authentication.Some? && c.authentication.value.kind == AadServicePrincipalSecret {
      assert PrincipalId(c) == c.user.value != "";
    }
  }

  // ---------------------------------------------------------------------------
  // The configuration object.

  class SqlConnectionConfig {
    /** The connection string exactly as given. */
    const ConnectionString: string
    /** The configuration handed to the database driver. */
    const Config: Config

    /**
     * Builds the configuration from a string already tokenized and validated,
     * reading the client-id and tenant-id inputs once each and marking
     * every secret it holds.
     */
    constructor (raw: string, settings: Pairs, kind: AuthType, inputs: ActionInputs, masker: SecretMasker)
      requires Parse(raw) == Success(settings) && Check(settings) == Success(kind)
      modifies inputs, masker
      ensures ConnectionString == raw
      ensures Build(raw, inputs.Get("client-id"), inputs.Get("tenant-id")) == Success(Config)
      ensures Valid(Config)
      ensures inputs.Requested == old(inputs.Requested) + ["client-id", "tenant-id"]
      ensures masker.Masked == old(masker.Masked) + Secrets(Config, inputs.Get("client-id"), inputs.Get("tenant-id"))
    {
      var clientId := inputs.GetInput("client-id");
      var tenantId := inputs.GetInput("tenant-id");
      ConnectionString := raw;
      Config := Assemble(settings, kind, clientId, tenantId);
      new;
      BuildOfChecked(raw, settings, kind, clientId, tenantId);
      ResolveIsValid(settings, clientId, tenantId);
      MarkSecrets(masker, Config, clientId, tenantId);
    }
  }

  /** Marks the password, a service principal's client id and each non-empty input as secret, each value once. */
  method MarkSecrets(masker: SecretMasker, c: Config, clientId: string, tenantId: string)
    modifies masker
    ensures masker.Masked == old(masker.Masked) + Secrets(c, clientId, tenantId)
  {
    ghost var before := masker.Masked;
    var marked := [];
    assert masker.Masked == before + marked;
    marked := MarkOnce(masker, before, marked, c.password.GetOr(""));
    marked := MarkOnce(masker, before, marked, PrincipalId(c));
    marked := MarkOnce(masker, before, marked, clientId);
    marked := MarkOnce(masker, before, marked, tenantId);
  }

  /** Marks `v` unless it is empty or among the values already `marked` since `before`. */
  method MarkOnce(masker: SecretMasker, ghost before: seq<string>, marked: seq<string>, v: string) returns (r: seq<string>)
    requires masker.Masked == before + marked
    modifies masker
    ensures r == WithSecret(marked, v)
    ensures masker.Masked == before + r
  {
    if v == "" || v in marked {
      r := marked;
    } else {
      masker.SetSecret(v);
      r := marked + [v];
    }
  }

  /**
   * Construction as the action performs it: a malformed or invalid string is
   * rejected before any input is read or any secret is marked.
   */
  method NewSqlConnectionConfig(raw: string, inputs: ActionInputs, masker: SecretMasker)
    returns (r: Result<SqlConnectionConfig, ConfigError>)
    modifies inputs, masker
    ensures Build(raw, inputs.Get("client-id"), inputs.Get("tenant-id")).Failure? <==> r.Failure?
    ensures r.Failure? ==> r.error == Build(raw, inputs.Get("client-id"), inputs.Get("tenant-id")).error
    ensures r.Failure? ==> inputs.Requested == old(inputs.Requested) && masker.Masked == old(masker.Masked)
    ensures r.Success? ==> fresh(r.value) && r.value.ConnectionString == raw
    ensures r.Success? ==> Build(raw, inputs.Get("client-id"), inputs.Get("tenant-id")) == Success(r.value.Config)
    ensures r.Success? ==> inputs.Requested == old(inputs.Requested) + ["client-id", "tenant-id"]
    ensures r.Success? ==>
      masker.Masked == old(masker.Masked) + Secrets(r.value.Config, inputs.Get("client-id"), inputs.Get("tenant-id"))
  {
    var parsed := Tokenize(raw);
    if parsed.Failure? {
      return Failure(parsed.error);
    }
    var checked := Check(parsed.value);
    if checked.Failure? {
      return Failure(checked.error);
    }
    var c := new SqlConnectionConfig(raw, parsed.value, checked.value, inputs, masker);
    return Success(c);
  }
}
