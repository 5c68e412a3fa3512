/**
 * The `Authentication` keyword: its value, compared without blanks and
 * without regard to case, names one of four authentication types.
 */
module Authentication {
  import opened Wrappers
  import opened Text
  import opened Errors

  datatype AuthType = SqlPassword | AadPassword | AadServicePrincipalSecret | AadDefault

  /** The type name the database driver expects in `authentication.type`. */
  function TypeName(t: AuthType): string {
    match t
    case SqlPassword => "default"
    case AadPassword => "azure-active-directory-password"
    case AadServicePrincipalSecret => "azure-active-directory-service-principal-secret"
    case AadDefault => "azure-active-directory-default"
  }

  /** The driver tells the types apart by their names. */
  lemma TypeNamesDistinct(a: AuthType, b: AuthType)
    ensures TypeName(a) == TypeName(b) <==> a == b
  {
  }

  /** The documented spelling of each type, with blanks between the words. */
  function Spelling(t: AuthType): string {
    match t
    case SqlPassword => "SQL Password"
    case AadPassword => "Active Directory Password"
    case AadServicePrincipalSecret => "Active Directory Service Principal"
    case AadDefault => "Active Directory Default"
  }

  /** The same spelling written as one word. */
  function OneWord(t: AuthType): string {
    match t
    case SqlPassword => "SQLPassword"
    case AadPassword => "ActiveDirectoryPassword"
    case AadServicePrincipalSecret => "ActiveDirectoryServicePrincipal"
    case AadDefault => "ActiveDirectoryDefault"
  }

  /** A value with its blanks removed and its letters lower-cased. */
  function Folded(v: string): string {
    Lower(RemoveSpaces(v))
  }

  /** The folded form each type is recognised by. */
  function Key(t: AuthType): string {
    match t
    case SqlPassword => "sqlpassword"
    case AadPassword => "activedirectorypassword"
    case AadServicePrincipalSecret => "activedirectoryserviceprincipal"
    case AadDefault => "activedirectorydefault"
  }

  /**
   * The type an `Authentication` value names. An absent or blank value means
   * SQL password; a value naming no type is rejected with the value as written.
   */
  function ResolveAuthType(value: Option<string>): (r: Result<AuthType, ConfigError>)
    ensures r.Failure? ==> value.Some? && r.error == UnsupportedAuthentication(value.value)
  {
    match value
    case None => Success(SqlPassword)
    case Some(v) =>
      var f := Folded(v);
      if f == "" || f == Key(SqlPassword) then Success(SqlPassword)
      else if f == Key(AadPassword) then Success(AadPassword)
      else if f == Key(AadServicePrincipalSecret) then Success(AadServicePrincipalSecret)
      else if f == Key(AadDefault) then Success(AadDefault)
      else Failure(UnsupportedAuthentication(v))
  }

  /**
   * A value is accepted exactly when it is absent, blank, or folds to one of
   * the four keys, and then it names the type of that key; every other value
   * is rejected with the value as written.
   */
  lemma ResolveExactlyNamed(value: Option<string>)
    ensures var r := ResolveAuthType(value);
      && (r.Success? <==> value.None? || Folded(value.value) in {"", Key(SqlPassword), Key(AadPassword), Key(AadServicePrincipalSecret), Key(AadDefault)})
      && (r.Failure? ==> r.error == UnsupportedAuthentication(value.value))
      && (r.Success? && value.Some? && Folded(value.value) != "" ==> Key(r.value) == Folded(value.value))
  {
  }

  /** Two values that differ only in blanks and letter case name the same type, or are both rejected. */
  lemma ResolveIgnoresBlanksAndCase(a: string, b: string)
    requires Folded(a) == Folded(b)
    ensures ResolveAuthType(Some(a)).Success? == ResolveAuthType(Some(b)).Success?
    ensures ResolveAuthType(Some(a)).Success? ==> ResolveAuthType(Some(a)) == ResolveAuthType(Some(b))
  {
  }

  /** Each type's spaced spelling and its one-word spelling both resolve to it. */
  lemma SpellingsResolve(t: AuthType)
    ensures ResolveAuthType(Some(Spelling(t))) == Success(t)
    ensures ResolveAuthType(Some(OneWord(t))) == Success(t)
  {
    SpellingsAreWords(t);
    OneWordLowers(t);
    WordsResolve(Words(t), t);
  }

  /** Words whose run-together, lower-cased form is a type's key name it, with or without blanks between them. */
  lemma WordsResolve(ws: seq<string>, t: AuthType)
    requires forall i :: 0 <= i < |ws| ==> Solid(ws[i])
    requires Lower(Concat(ws)) == Key(t)
    ensures ResolveAuthType(Some(Spaced(ws))) == Success(t)
    ensures ResolveAuthType(Some(Concat(ws))) == Success(t)
  {
    RemoveSpacesOfSpaced(ws);
    RemoveSpacesOfSolidWords(ws);
    ResolveByKey(Spaced(ws), t);
    ResolveByKey(Concat(ws), t);
  }

  /** The words of each spelling. */
  function Words(t: AuthType): (ws: seq<string>)
    ensures forall i :: 0 <= i < |ws| ==> Solid(ws[i])
  {
    match t
    case SqlPassword => ["SQL", "Password"]
    case AadPassword => ["Active", "Directory", "Password"]
    case AadServicePrincipalSecret => ["Active", "Directory", "Service", "Principal"]
    case AadDefault => ["Active", "Directory", "Default"]
  }

  lemma SpellingsAreWords(t: AuthType)
    ensures Spelling(t) == Spaced(Words(t)) && OneWord(t) == Concat(Words(t))
  {
    match t
    case SqlPassword => SqlSpaced0(); SqlConcat0();
    case AadPassword => AadPasswordSpaced0(); AadPasswordConcat0();
    case AadServicePrincipalSecret => ServicePrincipalSpaced0(); ServicePrincipalConcat0();
    case AadDefault => AadDefaultSpaced0(); AadDefaultConcat0();
  }

  /** One more word in front of words whose spaced form is already known. */
  lemma SpacedStep(w: string, ws: seq<string>, rest: string, whole: string)
    requires ws != [] && Spaced(ws) == rest && whole == w + " " + rest
    ensures Spaced([w] + ws) == whole
  {
    assert ([w] + ws)[1..] == ws;
  }

  /** One more word in front of words whose run-together form is already known. */
  lemma ConcatStep(w: string, ws: seq<string>, rest: string, whole: string)
    requires Concat(ws) == rest && whole == w + rest
    ensures Concat([w] + ws) == whole
  {
    assert ([w] + ws)[1..] == ws;
  }

  lemma SqlSpaced0()
    ensures Spaced(["SQL", "Password"]) == "SQL Password"
  {
    assert Spaced(["SQL", "Password"]) == "SQL" + " " + "Password";
  }

  lemma PasswordConcat()
    ensures Concat(["Password"]) == "Password"
  {
    assert Concat(["Password"]) == "Password" + Concat([]);
  }

  lemma SqlConcat0()
    ensures Concat(["SQL", "Password"]) == "SQLPassword"
  {
    PasswordConcat();
    ConcatStep("SQL", ["Password"], "Password", "SQLPassword");
    assert ["SQL"] + ["Password"] == ["SQL", "Password"];
  }

  lemma AadPasswordSpaced1()
    ensures Spaced(["Directory", "Password"]) == "Directory Password"
  {
    assert Spaced(["Directory", "Password"]) == "Directory" + " " + "Password";
  }

  lemma AadPasswordSpaced0()
    ensures Spaced(["Active", "Directory", "Password"]) == "Active Directory Password"
  {
    AadPasswordSpaced1();
    SpacedStep("Active", ["Directory", "Password"], "Directory Password", "Active Directory Password");
    assert ["Active"] + ["Directory", "Password"] == ["Active", "Directory", "Password"];
  }

  lemma AadPasswordConcat1()
    ensures Concat(["Directory", "Password"]) == "DirectoryPassword"
  {
    PasswordConcat();
    ConcatStep("Directory", ["Password"], "Password", "DirectoryPassword");
    assert ["Directory"] + ["Password"] == ["Directory", "Password"];
  }

  lemma AadPasswordConcat0()
    ensures Concat(["Active", "Directory", "Password"]) == "ActiveDirectoryPassword"
  {
    AadPasswordConcat1();
    ConcatStep("Active", ["Directory", "Password"], "DirectoryPassword", "ActiveDirectoryPassword");
    assert ["Active"] + ["Directory", "Password"] == ["Active", "Directory", "Password"];
  }

  lemma ServicePrincipalSpaced2()
    ensures Spaced(["Service", "Principal"]) == "Service Principal"
  {
    assert Spaced(["Service", "Principal"]) == "Service" + " " + "Principal";
  }

  lemma ServicePrincipalSpaced1()
    ensures Spaced(["Directory", "Service", "Principal"]) == "Directory Service Principal"
  {
    ServicePrincipalSpaced2();
    SpacedStep("Directory", ["Service", "Principal"], "Service Principal", "Directory Service Principal");
    assert ["Directory"] + ["Service", "Principal"] == ["Directory", "Service", "Principal"];
  }

  lemma ServicePrincipalSpaced0()
    ensures Spaced(["Active", "Directory", "Service", "Principal"]) == "Active Directory Service Principal"
  {
    ServicePrincipalSpaced1();
    SpacedStep("Active", ["Directory", "Service", "Principal"], "Directory Service Principal", "Active Directory Service Principal");
    assert ["Active"] + ["Directory", "Service", "Principal"] == ["Active", "Directory", "Service", "Principal"];
  }

  lemma ServicePrincipalConcat3()
    ensures Concat(["Principal"]) == "Principal"
  {
    assert Concat(["Principal"]) == "Principal" + Concat([]);
  }

  lemma ServicePrincipalConcat2()
    ensures Concat(["Service", "Principal"]) == "ServicePrincipal"
  {
    ServicePrincipalConcat3();
    ConcatStep("Service", ["Principal"], "Principal", "ServicePrincipal");
    assert ["Service"] + ["Principal"] == ["Service", "Principal"];
  }

  lemma ServicePrincipalConcat1()
    ensures Concat(["Directory", "Service", "Principal"]) == "DirectoryServicePrincipal"
  {
    ServicePrincipalConcat2();
    ConcatStep("Directory", ["Service", "Principal"], "ServicePrincipal", "DirectoryServicePrincipal");
    assert ["Directory"] + ["Service", "Principal"] == ["Directory", "Service", "Principal"];
  }

  lemma ServicePrincipalConcat0()
    ensures Concat(["Active", "Directory", "Service", "Principal"]) == "ActiveDirectoryServicePrincipal"
  {
    ServicePrincipalConcat1();
    ConcatStep("Active", ["Directory", "Service", "Principal"], "DirectoryServicePrincipal", "ActiveDirectoryServicePrincipal");
    assert ["Active"] + ["Directory", "Service", "Principal"] == ["Active", "Directory", "Service", "Principal"];
  }

  lemma AadDefaultSpaced1()
    ensures Spaced(["Directory", "Default"]) == "Directory Default"
  {
    assert Spaced(["Directory", "Default"]) == "Directory" + " " + "Default";
  }

  lemma AadDefaultSpaced0()
    ensures Spaced(["Active", "Directory", "Default"]) == "Active Directory Default"
  {
    AadDefaultSpaced1();
    SpacedStep("Active", ["Directory", "Default"], "Directory Default", "Active Directory Default");
    assert ["Active"] + ["Directory", "Default"] == ["Active", "Directory", "Default"];
  }

  lemma AadDefaultConcat2()
    ensures Concat(["Default"]) == "Default"
  {
    assert Concat(["Default"]) == "Default" + Concat([]);
  }

  lemma AadDefaultConcat1()
    ensures Concat(["Directory", "Default"]) == "DirectoryDefault"
  {
    AadDefaultConcat2();
    ConcatStep("Directory", ["Default"], "Default", "DirectoryDefault");
    assert ["Directory"] + ["Default"] == ["Directory", "Default"];
  }

  lemma AadDefaultConcat0()
    ensures Concat(["Active", "Directory", "Default"]) == "ActiveDirectoryDefault"
  {
    AadDefaultConcat1();
    ConcatStep("Active", ["Directory", "Default"], "DirectoryDefault", "ActiveDirectoryDefault");
    assert ["Active"] + ["Directory", "Default"] == ["Active", "Directory", "Default"];
  }

  lemma OneWordLowers(t: AuthType)
    ensures Lower(OneWord(t)) == Key(t)
  {
    match t
    case SqlPassword =>
    case AadPassword => LowerAadPassword();
    case AadServicePrincipalSecret => LowerServicePrincipal();
    case AadDefault => LowerAadDefault();
  }

  lemma LowerAadPassword() ensures Lower(OneWord(AadPassword)) == Key(AadPassword) {}
  lemma LowerServicePrincipal() ensures Lower(OneWord(AadServicePrincipalSecret)) == Key(AadServicePrincipalSecret) {}
  lemma LowerAadDefault() ensures Lower(OneWord(AadDefault)) == Key(AadDefault) {}

  /** A value folding to a type's key names that type. */
  lemma ResolveByKey(v: string, t: AuthType)
    requires Folded(v) == Key(t)
    ensures ResolveAuthType(Some(v)) == Success(t)
  {
  }
}
