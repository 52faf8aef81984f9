/** The client for the KAS API of the hoster all-inkl.com: the session state
    kept by a `KAS` object, the request records it sends, and the helpers that
    find the local KAS user name. The SOAP transport is not modelled: the reply
    of the authentication service is a parameter, and each API method returns
    the request record it hands to the service. */
module KasApi {
  import opened PyStr

  /** What the source raises. */
  datatype Error =
    | IOError(message: string)   // raised by get_user off a KAS host
    | ServiceFault(message: string) // raised by the SOAP authentication call
    | NoApiClient                // `__client` is still the empty string

  datatype Result<T> = Ok(value: T) | Err(error: Error)

  /** What a request field holds: a string, an integer, or a nested
      dictionary of string parameters. */
  datatype Value = Str(s: string) | Int(i: int) | Params(fields: map<string, string>)

  /** A request dictionary, before it is serialised to JSON. */
  type Request = map<string, Value>

  /** How a call to the authentication service ends. */
  datatype AuthReply = Token(token: string) | Fault(message: string)

  /** Whether an API call reached the service. */
  datatype Outcome = Sent | Failed(error: Error)

  const SshPrefix := "ssh-"
  const NotOnKas := "Not on KAS!"

  /** `convert_bool_to_str`: "Y" for a true input, "N" otherwise. */
  function ConvertBoolToStr(input: bool): (r: string)
    ensures r == "Y" || r == "N"
    ensures r == "Y" <==> input
  {
    if input then "Y" else "N"
  }

  /** `is_local`: the method returns True before it looks at the host name,
      so the `.kasserver.com` test on `fqdn` never decides anything. */
  function IsLocal(fqdn: string): (r: bool)
    ensures r
  {
    true
  }

  /** `get_user`: off a KAS host (`local` false) an IOError; otherwise the
      login name with every occurrence of "ssh-" removed. */
  function GetUser(login: string, local: bool): (r: Result<string>)
    ensures r.Err? <==> !local
    ensures r.Err? ==> r.error == IOError(NotOnKas)
    ensures r.Ok? ==> |r.value| <= |login|
  {
    if !local then Err(IOError(NotOnKas))
    else Ok(ReplaceAll(login, SshPrefix, ""))
  }

  /** A login name without "ssh-" is the KAS user name as it is. */
  lemma GetUserUnchanged(login: string)
    requires !Contains(login, SshPrefix)
    ensures GetUser(login, true) == Ok(login)
  {
    ReplaceAllAbsent(login, SshPrefix, "");
  }

  /** Conversely, a login name that holds "ssh-" always comes back shorter. */
  lemma GetUserStrips(login: string)
    requires Contains(login, SshPrefix)
    ensures GetUser(login, true).Ok? && |GetUser(login, true).value| < |login|
  {
    ReplaceAllShrinks(login, SshPrefix, "");
  }

  /** The SSH login of a KAS account is its user name behind "ssh-": that
      prefix is removed and a user name without "ssh-" is kept as it is. */
  lemma GetUserSshLogin(name: string)
    requires !Contains(name, SshPrefix)
    ensures GetUser(SshPrefix + name, true) == Ok(name)
  {
    ReplaceLeadingOnly(SshPrefix, name, "");
    assert "" + name == name;
  }

  /** "ssh-w0123456" gives the KAS user "w0123456". */
  lemma GetUserExample()
    ensures GetUser("ssh-w0123456", true) == Ok("w0123456")
  {
    var name := "w0123456";
    AbsentWithoutFirstChar(name, SshPrefix);
    GetUserSshLogin(name);
    assert SshPrefix + name == "ssh-w0123456";
  }

  /** One pass of removal is not idempotent: removing the one "ssh-" in
      "ssssh-h-" leaves "ssh-", which still holds "ssh-". */
  lemma GetUserSinglePass()
    ensures GetUser("ssssh-h-", true) == Ok("ssh-")
    ensures Contains("ssh-", SshPrefix)
  {
    var login := "ssssh-h-";
    assert NoMatchBetween(login, SshPrefix, 0, 2) by {
      assert login[0..4][2] == 's' && login[1..5][2] == 's';
    }
    assert OccursAt(login, SshPrefix, 2) by { assert login[2..6] == SshPrefix; }
    ReplaceAllLeftmost(login, SshPrefix, "", 2);
    assert login[..2] + "" + login[6..] == "ssh-";
    assert OccursAt("ssh-", SshPrefix, 0);
  }

  /** On any host, as written, `get_user` never raises. */
  lemma GetUserNeverFails(login: string, fqdn: string)
    ensures GetUser(login, IsLocal(fqdn)).Ok?
  {
  }

  /** A `KAS` object: the user name and the session token stored by `login`,
      and whether `__client` holds a SOAP client for the API service. */
  class Kas {
    var user: string
    var authToken: string
    var hasApiClient: bool

    /** `KAS()`: the class attributes start as empty strings. */
    constructor ()
      ensures user == "" && authToken == "" && !hasApiClient
    {
      user := "";
      authToken := "";
      hasApiClient := false;
    }

    /** `login`: stores the user first, sends the sha1 authentication request
        and, when the service answers, stores the session token and creates the
        API client. `passwordSha1` is the hex digest of the password. */
    method Login(user: string, passwordSha1: string, authReply: AuthReply,
                 lifetime: int := 5, updateLifetime: bool := true)
      returns (request: Request, outcome: Outcome)
      modifies this
      ensures this.user == user
      ensures request.Keys == {"KasUser", "KasAuthType", "KasPassword", "SessionLifeTime", "SessionUpdateLifeTime"}
      ensures request["KasUser"] == Str(user) && request["KasAuthType"] == Str("sha1")
      ensures request["KasPassword"] == Str(passwordSha1) && request["SessionLifeTime"] == Int(lifetime)
      ensures request["SessionUpdateLifeTime"] == Str(ConvertBoolToStr(updateLifetime))
      ensures authReply.Token? ==> authToken == authReply.token && hasApiClient && outcome == Sent
      ensures authReply.Fault? ==>
                authToken == old(authToken) && hasApiClient == old(hasApiClient) &&
                outcome == Failed(ServiceFault(authReply.message))
    {
      this.user := user;
      request := map[
        "KasUser" := Str(this.user),
        "KasAuthType" := Str("sha1"),
        "KasPassword" := Str(passwordSha1),
        "SessionLifeTime" := Int(lifetime),
        "SessionUpdateLifeTime" := Str(ConvertBoolToStr(updateLifetime))
      ];
      match authReply {
        case Token(token) =>
          authToken := token;
          hasApiClient := true;
          outcome := Sent;
        case Fault(message) =>
          outcome := Failed(ServiceFault(message));
      }
    }

    /** `get_accounts`: a session-authenticated request without parameters.
        Before a successful login `__client` is a string and the call fails. */
    method GetAccounts() returns (request: Request, outcome: Outcome)
      ensures request.Keys == {"KasUser", "KasAuthType", "KasAuthData", "KasRequestType", "KasRequestParams"}
      ensures request["KasUser"] == Str(user) && request["KasAuthData"] == Str(authToken)
      ensures request["KasAuthType"] == Str("session") && request["KasRequestType"] == Str("get_accounts")
      ensures request["KasRequestParams"] == Str("")
      ensures outcome == Sent <==> hasApiClient
      ensures outcome != Sent ==> outcome == Failed(NoApiClient)
    {
      request := map[
        "KasUser" := Str(user),
        "KasAuthType" := Str("session"),
        "KasAuthData" := Str(authToken),
        "KasRequestType" := Str("get_accounts"),
        "KasRequestParams" := Str("")
      ];
      outcome := if hasApiClient then Sent else Failed(NoApiClient);
    }

    /** `update_chown`: a session-authenticated request to give `path` to
        `user`, recursively when asked ("Y"/"N"). */
    method UpdateChown(user: string, path: string, recursive: bool := false)
      returns (request: Request, outcome: Outcome)
      ensures request.Keys == {"KasUser", "KasAuthType", "KasAuthData", "KasRequestType", "KasRequestParams"}
      ensures request["KasUser"] == Str(this.user) && request["KasAuthData"] == Str(authToken)
      ensures request["KasAuthType"] == Str("session") && request["KasRequestType"] == Str("update_chown")
      ensures request["KasRequestParams"] ==
                Params(map["chown_path" := path, "chown_user" := user, "recursive" := ConvertBoolToStr(recursive)])
      ensures outcome == Sent <==> hasApiClient
      ensures outcome != Sent ==> outcome == Failed(NoApiClient)
    {
      request := map[
        "KasUser" := Str(this.user),
        "KasAuthType" := Str("session"),
        "KasAuthData" := Str(authToken),
        "KasRequestType" := Str("update_chown"),
        "KasRequestParams" := Params(map[
          "chown_path" := path,
          "chown_user" := user,
          "recursive" := ConvertBoolToStr(recursive)
        ])
      ];
      outcome := if hasApiClient then Sent else Failed(NoApiClient);
    }
  }

  /** After a successful `login(user, …)`, the next `update_chown` is sent and
      carries that user and the token the authentication service returned. */
  method LoginThenUpdateChown(kas: Kas, user: string, passwordSha1: string, token: string,
                              owner: string, path: string, recursive: bool)
    returns (request: Request, outcome: Outcome)
    modifies kas
    ensures outcome == Sent
    ensures "KasUser" in request && "KasAuthData" in request && "KasRequestParams" in request
    ensures request["KasRequestParams"].Params?
    ensures "chown_path" in request["KasRequestParams"].fields
    ensures "chown_user" in request["KasRequestParams"].fields
    ensures "recursive" in request["KasRequestParams"].fields
    ensures request["KasUser"] == Str(user) && request["KasAuthData"] == Str(token)
    ensures request["KasRequestParams"].fields["chown_path"] == path
    ensures request["KasRequestParams"].fields["chown_user"] == owner
    ensures request["KasRequestParams"].fields["recursive"] == ConvertBoolToStr(recursive)
    ensures kas.user == user && kas.authToken == token && kas.hasApiClient
  {
    var _, _ := kas.Login(user, passwordSha1, Token(token));
    request, outcome := kas.UpdateChown(owner, path, recursive);
  }

  /** After a successful `login(user, …)`, an `update_chown` followed by a
      `get_accounts` still runs in the same session: both are sent and both
      carry the login user and the token the authentication service returned. */
  method LoginThenGetAccounts(kas: Kas, user: string, passwordSha1: string, token: string,
                              owner: string, path: string, recursive: bool)
    returns (chown: Request, chownOutcome: Outcome, accounts: Request, accountsOutcome: Outcome)
    modifies kas
    ensures chownOutcome == Sent && accountsOutcome == Sent
    ensures "KasUser" in chown && "KasAuthData" in chown
    ensures "KasUser" in accounts && "KasAuthData" in accounts && "KasRequestType" in accounts
    ensures chown["KasUser"] == Str(user) && chown["KasAuthData"] == Str(token)
    ensures accounts["KasUser"] == Str(user) && accounts["KasAuthData"] == Str(token)
    ensures accounts["KasRequestType"] == Str("get_accounts")
    ensures kas.user == user && kas.authToken == token && kas.hasApiClient
  {
    var _, _ := kas.Login(user, passwordSha1, Token(token));
    chown, chownOutcome := kas.UpdateChown(owner, path, recursive);
    accounts, accountsOutcome := kas.GetAccounts();
  }
}
