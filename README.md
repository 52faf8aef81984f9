# kas_tools: the KAS client and the chown tool's input checks

`kas_tools` drives the KAS API of the German hoster all-inkl.com. `kas.py`
holds the `KAS` class. Its `login` method authenticates with a sha1 password
digest and stores the user and the session token on the object. Its
`get_accounts` and `update_chown` methods then build session-authenticated
request dictionaries from that stored state. Three helpers go with the class:
`convert_bool_to_str` encodes booleans as "Y"/"N", `is_local` is meant to
tell whether the tool runs on a KAS host but, as written, always returns True,
and `get_user` derives the KAS user name from the local login name by
removing "ssh-". `chown_kas.py` adds two input checks:
`check_owner` accepts "phpuser" or the KAS user as the new owner, and
`fix_path` strips "/www/htdocs/<user>" from a path.

The model has three modules:

- `PyStr` (py_str.dfy) gives Python's `str.replace` for a non-empty pattern
  as `ReplaceAll`. It is built on `ReplaceFrom`, the left-to-right scan from
  an index, which replaces non-overlapping matches. Its lemmas pin the result
  down completely. `ReplaceAllLeftmost` covers a string with a match: the
  leftmost match is replaced and the scan goes on after it. `ReplaceAllAbsent`
  covers a string with no match: it comes back unchanged. Further lemmas
  bound the length of the result.
- `KasApi` (kas.py) holds the pure helpers as functions and the `KAS` object
  as the class `Kas`. The class has the fields `user`, `authToken` and
  `hasApiClient`; `hasApiClient` says whether `__client` holds a SOAP client
  or still the initial empty string. A request is a map from the source's
  dictionary keys to string, integer or nested-parameter values.
- `ChownKas` (chown_kas.py) holds `CheckOwner` and `FixPath`. Both consult
  `GetUser` just as the source does, so each can fail with its IOError. In
  `CheckOwner` that failure is possible only after the empty-name test and the
  "phpuser" test have both failed.

Values that come from outside the program are parameters. These are the
local login name (`getpass.getuser()`), the answer of `is_local`, the host
name, the sha1 hex digest of the password, and the reply of the
authentication service.

## Model

| member | source | states |
|---|---|---|
| PyStr.ReplaceFrom | chown_kas.py:27 | the scan of `str.replace` from an index; when the replacement is no longer than the pattern, the result is no longer than the rest of the string |
| PyStr.ReplaceAll | chown_kas.py:26-27 | `str.replace` with a non-empty pattern; when the replacement is no longer than the pattern, the result is no longer than the input |
| PyStr.ReplaceFromAbsent | chown_kas.py:27 | a tail that holds no match is kept as it is |
| PyStr.ReplaceAllAbsent | chown_kas.py:27 | a string that does not contain the pattern is returned unchanged |
| PyStr.ReplaceFromLeftmost | chown_kas.py:27 | from any index, the first match is replaced, what precedes it is kept, and the scan resumes right after the match |
| PyStr.ReplaceAllLeftmost | chown_kas.py:27 | the leftmost match is replaced and the scan continues after it, so matches never overlap and are taken left to right |
| PyStr.ReplaceFromShrinks | kas.py:96 | a match at or after the index makes the scanned tail strictly shorter when the replacement is shorter than the pattern |
| PyStr.ReplaceAllShrinks | kas.py:96 | a string that contains the pattern gets strictly shorter when the replacement is shorter than the pattern |
| PyStr.RemoveAllUnchangedIff | chown_kas.py:27 | removing every match leaves a string unchanged if and only if it does not contain the pattern |
| PyStr.ReplaceLeadingOnly | chown_kas.py:20-27 | a string that is the pattern followed by a rest without the pattern gives the replacement followed by that rest |
| KasApi.ConvertBoolToStr | kas.py:99-108 | the result is "Y" or "N", and it is "Y" exactly when the input is true |
| KasApi.IsLocal | kas.py:77-86 | always true, whatever the host name, because the early return makes the `.kasserver.com` test unreachable |
| KasApi.GetUser | kas.py:88-97 | fails with IOError("Not on KAS!") exactly when `is_local` is false; otherwise returns a name no longer than the login name |
| KasApi.GetUserUnchanged | kas.py:96 | a login name without "ssh-" is returned as it is |
| KasApi.GetUserStrips | kas.py:96 | a login name that contains "ssh-" comes back strictly shorter |
| KasApi.GetUserSshLogin | kas.py:95-96 | "ssh-" followed by a name free of "ssh-" gives that name |
| KasApi.GetUserExample | kas.py:95-96 | "ssh-w0123456" gives "w0123456" |
| KasApi.GetUserSinglePass | kas.py:96 | removal is a single pass: "ssssh-h-" gives "ssh-", which still contains "ssh-" |
| KasApi.GetUserNeverFails | kas.py:82-94 | with `is_local` as written, `get_user` never raises |
| KasApi.Kas.constructor | kas.py:17-19 | a new object has an empty user, an empty token and no API client |
| KasApi.Kas.Login | kas.py:21-48 | stores the user unconditionally; sends KasUser, KasAuthType "sha1", the password digest, SessionLifeTime (default 5) and SessionUpdateLifeTime "Y"/"N" (default "Y"); on a reply, stores the token and creates the API client; on a fault, keeps the old token and client |
| KasApi.Kas.GetAccounts | kas.py:50-59 | the request has exactly the five session keys: the stored user and token, KasAuthType "session", KasRequestType "get_accounts" and empty parameters; it is sent exactly when an API client exists |
| KasApi.Kas.UpdateChown | kas.py:62-75 | the request has the stored user and token, "session" and "update_chown", with chown_path and chown_user from the arguments and recursive as "Y"/"N" (default "N"); it is sent exactly when an API client exists |
| KasApi.LoginThenUpdateChown | kas.py:34-73 | after a successful login, a later update_chown is sent with KasUser equal to the login user and KasAuthData equal to the returned token, and its parameters hold the path, the new owner and recursive as "Y"/"N"; the object keeps that user, token and client |
| KasApi.LoginThenGetAccounts | kas.py:34-73 | after a successful login, an update_chown and then a get_accounts are both sent, and both carry the login user and the returned token: the session lasts for every later request |
| ChownKas.CheckOwner | chown_kas.py:8-18 | "" is refused and "phpuser" is accepted, both before `get_user` runs; fails only when `get_user` fails; on a KAS host, accepts exactly a non-empty owner that is "phpuser" or the KAS user |
| ChownKas.CheckOwnerEmptyBeforeKasUser | chown_kas.py:14-16 | with the login "ssh-" the KAS user name is "", and the owner "" is still refused |
| ChownKas.FixPath | chown_kas.py:20-27 | fails exactly when `get_user` fails; never makes the path longer |
| ChownKas.HomeOf | chown_kas.py:26 | the removed string starts with "/www/htdocs/" |
| ChownKas.FixPathUnchangedIff | chown_kas.py:27 | a path comes back unchanged exactly when it does not contain "/www/htdocs/" plus the user; otherwise it comes back strictly shorter |
| ChownKas.FixPathStripsHome | chown_kas.py:20-27 | "/www/htdocs/<user>" followed by a rest that does not contain it again gives the rest |
| ChownKas.FixPathNotAnchored | chown_kas.py:26-27 | the removal ignores path components: for user "w123", "/www/htdocs/w1234/x" gives "4/x" |

## Left out

- The SOAP transport: the `suds` clients and the `KasAuth`/`KasApi` service calls (kas.py:36, 46, 48, 59, 75). The authentication reply is a parameter. The API methods return the request that would be sent and whether a client exists to send it; the service's answers are not modelled.
- `hashlib.sha1(password).hexdigest()` (kas.py:41) is a foreign hash; the digest is the parameter `passwordSha1`.
- The `json.dumps` serialisation of requests: requests are maps, not JSON text.
- The `debug` flag of `login` and its logging setup (kas.py:31-32), and `print` of the get_accounts response (kas.py:60).
- `socket.getfqdn()` (kas.py:83): `IsLocal` takes the host name as a parameter and, as in the source, ignores it.
- `getpass.getuser()` (kas.py:95): the login name is a parameter of `GetUser`, `CheckOwner` and `FixPath`.
- `getpass.getpass`, `argparse`, `os.path.abspath`, `os.path.exists` and the rest of the command-line block (chown_kas.py:29-59). This is filesystem and CLI glue. `check_owner` and `fix_path` call `get_user` on the global `kas`, which that block rebinds to a `KAS` object at chown_kas.py:45. The model passes the values `get_user` reads instead.
- Python's `str.replace` with an empty pattern: `ReplaceAll` requires a non-empty pattern. Both patterns used here ("ssh-" and "/www/htdocs/" plus a user) are non-empty.
- Python 2 byte strings versus Unicode: names and paths are sequences of characters.
- ConvertBoolToStr: only boolean inputs are modelled. The source tests Python truthiness, so a non-boolean such as `2` would give "Y"; every caller passes a bool (the `update_lifetime` and `recursive` defaults, and argparse's `store_true` flag).
