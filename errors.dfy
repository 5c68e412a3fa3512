/** The errors a connection string can be rejected with, and their fixed wording. */
module Errors {

  datatype ConfigError =
    | MalformedConnectionString
    | MissingUser
    | MissingPassword
    | MissingDatabase
    | UnsupportedAuthentication(literal: string)
    | MissingClientId
    | MissingClientSecret

  const MalformedText :=
    "Invalid connection string. A valid connection string is a series of keyword/value pairs separated by semi-colons. "
    + "If there are any special characters like quotes or semi-colons in the keyword value, enclose the value within quotes. "
    + "Refer to this link for more info on connection string https://aka.ms/sqlconnectionstring"

  /** The text thrown for each error; only the unsupported-type error embeds anything from the input. */
  function Message(e: ConfigError): string {
    match e
    case MalformedConnectionString => MalformedText
    case MissingUser => "Invalid connection string. Please ensure 'User' or 'User ID' is provided in the connection string."
    case MissingPassword => "Invalid connection string. Please ensure 'Password' is provided in the connection string."
    case MissingDatabase => "Invalid connection string. Please ensure 'Database' or 'Initial Catalog' is provided in the connection string."
    case UnsupportedAuthentication(literal) => "Authentication type '" + literal + "' is not supported."
    case MissingClientId => "Invalid connection string. Please ensure client ID is provided in the 'User' or 'User ID' field of the connection string."
    case MissingClientSecret => "Invalid connection string. Please ensure client secret is provided in the 'Password' field of the connection string."
  }

  /** Different unsupported literals give different messages, so the message carries the literal exactly. */
  lemma UnsupportedMessageInjective(a: string, b: string)
    requires Message(UnsupportedAuthentication(a)) == Message(UnsupportedAuthentication(b))
    ensures a == b
  {
    var prefix := "Authentication type '";
    var suffix := "' is not supported.";
    var ma := Message(UnsupportedAuthentication(a));
    assert ma == prefix + a + suffix;
    assert a == ma[|prefix|..|ma| - |suffix|];
    assert b == ma[|prefix|..|ma| - |suffix|];
  }
}
