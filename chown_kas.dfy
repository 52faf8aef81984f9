/** The input checks of the `chown_kas` tool: which new owners it accepts and
    how it turns an absolute path on the KAS host into the path the KAS API
    expects. Both ask `get_user` for the KAS user name, so both take the login
    name and the `is_local` answer that `get_user` reads. */
module ChownKas {
  import opened PyStr
  import opened KasApi

  /** The web server's user, always an acceptable owner. */
  const PhpUser := "phpuser"

  /** Where the home directory of a KAS user lives. */
  const HtdocsRoot := "/www/htdocs/"

  /** `check_owner`: the empty name is refused first, "phpuser" is accepted
      next; only then is `get_user` consulted (and may raise), and the owner is
      accepted exactly when it is the KAS user. */
  function CheckOwner(owner: string, login: string, local: bool): (r: Result<bool>)
    ensures owner == "" ==> r == Ok(false)
    ensures owner == PhpUser ==> r == Ok(true)
    ensures r.Err? <==> owner != "" && owner != PhpUser && !local
    ensures r.Err? ==> r.error == IOError(NotOnKas)
    ensures local ==> r == Ok(owner != "" && (owner == PhpUser || owner == GetUser(login, true).value))
  {
    if owner == "" then Ok(false)
    else if owner == PhpUser then Ok(true)
    else match GetUser(login, local)
      case Err(e) => Err(e)
      case Ok(kasUser) => Ok(owner == kasUser)
  }

  /** Even when the KAS user name is empty (the login name is "ssh-"), the
      empty owner is refused, because that test comes first. */
  lemma CheckOwnerEmptyBeforeKasUser()
    ensures GetUser(SshPrefix, true) == Ok("")
    ensures CheckOwner("", SshPrefix, true) == Ok(false)
  {
    AbsentWithoutFirstChar("", SshPrefix);
    GetUserSshLogin("");
    assert SshPrefix + "" == SshPrefix;
  }

  /** `fix_path`: every occurrence of "/www/htdocs/" followed by the KAS user
      name is removed from `path`, wherever it stands. */
  function FixPath(path: string, login: string, local: bool): (r: Result<string>)
    ensures r.Err? <==> !local
    ensures r.Err? ==> r.error == IOError(NotOnKas)
    ensures r.Ok? ==> |r.value| <= |path|
  {
    match GetUser(login, local)
    case Err(e) => Err(e)
    case Ok(kasUser) => Ok(ReplaceAll(path, HtdocsRoot + kasUser, ""))
  }

  /** The directory that `fix_path` removes for a login name. */
  function HomeOf(login: string): (home: string)
    ensures |home| >= |HtdocsRoot| && home[..|HtdocsRoot|] == HtdocsRoot
  {
    HtdocsRoot + GetUser(login, true).value
  }

  /** A path comes back unchanged exactly when it does not contain the home
      directory; otherwise it comes back strictly shorter. */
  lemma FixPathUnchangedIff(path: string, login: string)
    ensures FixPath(path, login, true) == Ok(path) <==> !Contains(path, HomeOf(login))
    ensures Contains(path, HomeOf(login)) ==> |FixPath(path, login, true).value| < |path|
  {
    RemoveAllUnchangedIff(path, HomeOf(login));
    if Contains(path, HomeOf(login)) {
      ReplaceAllShrinks(path, HomeOf(login), "");
    }
  }

  /** A path inside the home directory, which does not contain the home
      directory a second time, becomes the part after it. */
  lemma FixPathStripsHome(login: string, rest: string)
    requires !Contains(rest, HomeOf(login))
    ensures FixPath(HomeOf(login) + rest, login, true) == Ok(rest)
  {
    ReplaceLeadingOnly(HomeOf(login), rest, "");
    assert "" + rest == rest;
  }

  /** The removal is not tied to path components: for the KAS user "w123",
      "/www/htdocs/w1234/x" becomes "4/x". */
  lemma FixPathNotAnchored()
    ensures FixPath("/www/htdocs/w1234/x", "w123", true) == Ok("4/x")
  {
    var login := "w123";
    AbsentWithoutFirstChar(login, SshPrefix);
    GetUserUnchanged(login);
    assert HomeOf(login) == "/www/htdocs/w123";
    var rest := "4/x";
    forall i: nat | i <= |rest| ensures !OccursAt(rest, HomeOf(login), i) {
    }
    FixPathStripsHome(login, rest);
    assert HomeOf(login) + rest == "/www/htdocs/w1234/x";
  }
}
