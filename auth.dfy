/** Web API authentication (djblets/webapi/auth.py): the process-wide cache of backend classes,
    the HTTP Basic `Authorization` header parser, a backend's authenticate/login steps, and
    `check_login`, which asks the backends in order until one decides. Django's own
    authentication (`auth.authenticate`, `auth.login`, `auth.logout`), base64 decoding and the
    import machinery are collaborators: the first two are given as functions, the login and
    logout calls are recorded on the request, and imports are a map from module name to the
    classes the module defines. */
module WebAPIAuth {
  import opened Wrappers
  import opened Strings

  /** `request.user`: the anonymous user, or an account with its username and `is_active`. */
  datatype User = AnonymousUser | Account(username: string, isActive: bool)

  /** `user.is_authenticated()`: true for every account, false for the anonymous user. */
  predicate IsAuthenticated(u: User)
  {
    u.Account?
  }

  /** `user.is_active` (the anonymous user is never active). */
  predicate IsActive(u: User)
  {
    u.Account? && u.isActive
  }

  /** The `(is_successful, error_message, headers)` tuple of an authentication attempt. */
  datatype AuthResult = AuthResult(success: bool, errorMessage: Option<string>, headers: Option<map<string, string>>)

  /** `(True, None, None)`. */
  const LoggedIn: AuthResult := AuthResult(true, None, None)

  /** `(False, None, None)`. */
  const LoginFailed: AuthResult := AuthResult(false, None, None)

  /** What `get_credentials` returns: nothing usable (None or another falsy value), a username
      and password dictionary, or a ready-made result tuple. */
  datatype Credentials =
    | NoCredentials
    | UsernamePassword(username: string, password: string)
    | Decided(result: AuthResult)

  /** The calls made into `django.contrib.auth` while handling one request. */
  datatype AuthEvent = Authenticate(username: string, password: string) | Login(user: User) | Logout

  /** What the code raises instead of returning. */
  datatype AuthError =
    | MissingAuthorization              // `request.META['HTTP_AUTHORIZATION']` has no such key (KeyError)
    | UnprintableHeader(header: string) // the warning's `%` formatting of a non-ASCII header raises UnicodeDecodeError
    | Undecodable(encoded: string)      // `decode('base64')` raises binascii.Error, not a ValueError
    | EmptyModuleName                   // `__import__('')` (ValueError)
    | ImportFailed(moduleName: string) // ImproperlyConfigured after an ImportError
    | MissingClass(moduleName: string, attr: string) // ImproperlyConfigured after an AttributeError

  /** A backend class: the built-in HTTP Basic one, or another one by name. */
  datatype BackendClass = BasicAuthBackend | CustomBackend(name: string)

  /** The code outside this module that authentication calls: `str.decode('base64')` (None when
      decoding raises binascii.Error, as it does on bad padding), the `get_credentials` of custom backends, and Django's
      `auth.authenticate(username=..., password=...)`. */
  datatype Services = Services(
    decode: string -> Option<string>,
    customCredentials: (string, map<string, string>) -> Credentials,
    authenticate: (string, string) -> Option<User>)

  /** A request as authentication sees it: its META headers, its user, and the login and logout
      calls made on it. */
  class Request {
    const meta: map<string, string>
    var user: User
    var events: seq<AuthEvent>

    constructor (meta: map<string, string>, user: User)
      ensures this.meta == meta && this.user == user && events == []
    {
      this.meta := meta;
      this.user := user;
      events := [];
    }

    /** `auth.login(request, user)`. */
    method LogIn(u: User)
      modifies this
      ensures user == u && events == old(events) + [Login(u)]
    {
      user := u;
      events := events + [Login(u)];
    }

    /** `auth.logout(request)`. */
    method LogOut()
      modifies this
      ensures user == AnonymousUser && events == old(events) + [Logout]
    {
      user := AnonymousUser;
      events := events + [Logout];
    }
  }

  /** The effect of one step on a request: its result, the request's user afterwards, and the
      calls it made. */
  datatype Attempt<+T> = Attempt(result: T, user: User, events: seq<AuthEvent>)

  /** `login_with_credentials` for a request whose user is `current`. */
  function LoginAttempt(current: User, username: string, password: string, authenticate: (string, string) -> Option<User>)
    : (a: Attempt<AuthResult>)
    ensures a.result == LoggedIn || a.result == LoginFailed
    ensures a.result.success <==>
      (IsAuthenticated(current) && current.username == username) ||
      (authenticate(username, password).Some? && IsActive(authenticate(username, password).value))
    ensures IsAuthenticated(current) && current.username == username ==> a.user == current && a.events == []
    ensures !(IsAuthenticated(current) && current.username == username) ==>
      && |a.events| == 2 && a.events[0] == Authenticate(username, password)
      && (a.result.success ==> a.user == authenticate(username, password).value && a.events[1] == Login(a.user))
      && (!a.result.success ==> a.user == AnonymousUser && a.events[1] == Logout)
  {
    if IsAuthenticated(current) && current.username == username then
      Attempt(LoggedIn, current, [])
    else
      var user := authenticate(username, password);
      if user.Some? && IsActive(user.value) then
        Attempt(LoggedIn, user.value, [Authenticate(username, password), Login(user.value)])
      else
        Attempt(LoginFailed, AnonymousUser, [Authenticate(username, password), Logout])
  }

  /** `WebAPIAuthBackend.login_with_credentials`: a request already logged in under `username`
      succeeds at once, without asking Django; otherwise Django authenticates the credentials,
      an active user is logged in, and anything else logs the request out. */
  method LoginWithCredentials(request: Request, username: string, password: string,
                              authenticate: (string, string) -> Option<User>)
    returns (r: AuthResult)
    modifies request
    ensures var a := LoginAttempt(old(request.user), username, password, authenticate);
      r == a.result && request.user == a.user && request.events == old(request.events) + a.events
  {
    if IsAuthenticated(request.user) && request.user.username == username {
      return LoggedIn;
    }
    request.events := request.events + [Authenticate(username, password)];
    var user := authenticate(username, password);
    if user.Some? && IsActive(user.value) {
      request.LogIn(user.value);
      return LoggedIn;
    }
    request.LogOut();
    r := LoginFailed;
  }

  /** `WebAPIBasicAuthBackend.get_credentials` on the header's bytes: the header must split on
      spaces into exactly two parts, the second must decode, the decoded bytes must be ASCII and
      hold a `:`, and the first part must be exactly `Basic`; the username is the text before
      the first `:` and the password all of the rest. The two unpackings and the two implicit
      ASCII decodings (of the header by `split(u' ')`, of the decoded bytes by `split(u':', 1)`)
      raise ValueError, which the backend catches (None). A decoding error is a binascii.Error,
      which it does not catch, and it is raised before the scheme is looked at. A non-ASCII
      header raises: the handler's `u"... %s" % header` decodes it as ASCII once more, and
      that second UnicodeDecodeError leaves the handler. */
  function ParseBasic(header: string, decode: string -> Option<string>)
    : (r: Result<Option<(string, string)>, AuthError>)
    ensures r == Err(UnprintableHeader(header)) <==> !IsAscii(header)
    ensures r.Ok? && r.value.Some? ==> IsAscii(r.value.value.0) && IsAscii(r.value.value.1)
  {
    if !IsAscii(header) then Err(UnprintableHeader(header))
    else
      var parts := Split(header, ' ');
      if |parts| != 2 then Ok(None)
      else
        match decode(parts[1])
        case None => Err(Undecodable(parts[1]))
        case Some(text) =>
          if !IsAscii(text) then Ok(None)
          else
            match Partition(text, ":")
            case None => Ok(None)
            case Some((username, password)) =>
              assert forall i :: 0 <= i < |username| ==> username[i] == text[i];
              assert forall i :: 0 <= i < |password| ==> password[i] == text[|username| + 1 + i];
              if parts[0] != "Basic" then Ok(None) else Ok(Some((username, password)))
  }

  /** Every well-formed Basic header is accepted: the scheme `Basic`, one space, and a
      space-free ASCII encoding of `username:password`, both ASCII, whose username holds no
      `:`. */
  lemma BasicAccepted(encoded: string, username: string, password: string, decode: string -> Option<string>)
    requires ' ' !in encoded && ':' !in username
    requires IsAscii(encoded) && IsAscii(username) && IsAscii(password)
    requires decode(encoded) == Some(username + ":" + password)
    ensures ParseBasic("Basic " + encoded, decode) == Ok(Some((username, password)))
  {
    assert "Basic " + encoded == "Basic" + [' '] + encoded;
    assert IsAscii("Basic " + encoded) by {
      forall i | 6 <= i < |"Basic " + encoded|
        ensures ("Basic " + encoded)[i] < 128 as char
      {
        assert ("Basic " + encoded)[i] == encoded[i - 6];
      }
    }
    SplitAt("Basic", encoded, ' ');
    SplitNone(encoded, ' ');
    assert Split("Basic " + encoded, ' ') == ["Basic", encoded];
    var text := username + ":" + password;
    assert IsAscii(text) by {
      forall i | 0 <= i < |text|
        ensures text[i] < 128 as char
      {
        if i > |username| {
          assert text[i] == password[i - |username| - 1];
        }
      }
    }
    PartitionAtChar(username, ':', password);
  }

  /** Only such headers are accepted: a header that yields credentials is ASCII, `Basic`, one
      space and a space-free text that decodes to the ASCII username, a `:` and the password.
      So a header with another scheme (`basic` included), a second space, no `:` or a
      non-ASCII decoding yields nothing, and one whose part does not decode raises. */
  lemma BasicParsed(header: string, decode: string -> Option<string>)
    requires ParseBasic(header, decode).Ok? && ParseBasic(header, decode).value.Some?
    ensures var (username, password) := ParseBasic(header, decode).value.value;
      && IsAscii(header) && |header| >= 6 && header[..6] == "Basic " && ' ' !in header[6..]
      && decode(header[6..]) == Some(username + ":" + password) && ':' !in username
      && IsAscii(username + ":" + password)
  {
    var parts := Split(header, ' ');
    SplitInTwo(header, ' ');
    assert header == "Basic " + parts[1];
    assert header[6..] == parts[1];
    var text := decode(parts[1]).value;
    var (username, password) := Partition(text, ":").value;
    forall i | 0 <= i < |username|
      ensures username[i] != ':'
    {
      assert text[i] == username[i];
      assert !OccursAt(text, ":", i);
      assert text[i..i + 1] == [text[i]];
    }
  }

  /** An ASCII header of two space-free parts makes the backend raise exactly when its second
      part does not decode, whatever the scheme: the scheme is compared only after decoding. A
      non-ASCII header always raises, and names itself in the error. */
  lemma BasicUndecodable(scheme: string, encoded: string, decode: string -> Option<string>)
    requires ' ' !in scheme && ' ' !in encoded
    ensures ParseBasic(scheme + " " + encoded, decode).Err? <==>
      !IsAscii(scheme + " " + encoded) || decode(encoded).None?
    ensures IsAscii(scheme + " " + encoded) && decode(encoded).None? ==>
      ParseBasic(scheme + " " + encoded, decode) == Err(Undecodable(encoded))
  {
    assert scheme + " " + encoded == scheme + [' '] + encoded;
    SplitAt(scheme, encoded, ' ');
    SplitNone(encoded, ' ');
  }

  /** Only such headers make it raise: either the header is not ASCII, or the error names a
      space-free second part that does not decode, after a space-free scheme and one space. */
  lemma BasicRaises(header: string, decode: string -> Option<string>)
    requires ParseBasic(header, decode).Err?
    ensures var e := ParseBasic(header, decode).error;
      || (e == UnprintableHeader(header) && !IsAscii(header))
      || (&& IsAscii(header) && e.Undecodable? && ' ' !in e.encoded && decode(e.encoded).None?
          && exists scheme :: ' ' !in scheme && header == scheme + " " + e.encoded)
  {
    if IsAscii(header) {
      var parts := Split(header, ' ');
      SplitInTwo(header, ' ');
      assert header == parts[0] + " " + parts[1];
    }
  }

  /** An ASCII header whose credentials decode to non-ASCII bytes (a UTF-8 `josé:pw`, say) is
      declined, not accepted and not raised: the `split(u':', 1)` that fails to decode them is
      inside the `try`. */
  lemma BasicNonAsciiCredentials(encoded: string, decode: string -> Option<string>)
    requires ' ' !in encoded && IsAscii("Basic " + encoded)
    requires decode(encoded).Some? && !IsAscii(decode(encoded).value)
    ensures ParseBasic("Basic " + encoded, decode) == Ok(None)
  {
    assert "Basic " + encoded == "Basic" + [' '] + encoded;
    SplitAt("Basic", encoded, ' ');
    SplitNone(encoded, ' ');
  }

  /** `get_credentials` of a backend class for a request with headers `meta`. The Basic backend
      reads `HTTP_AUTHORIZATION` without a default, so a request without one raises. */
  function GetCredentials(cls: BackendClass, meta: map<string, string>, services: Services)
    : (r: Result<Credentials, AuthError>)
    ensures cls.BasicAuthBackend? ==> (r == Err(MissingAuthorization) <==> "HTTP_AUTHORIZATION" !in meta)
    ensures cls.BasicAuthBackend? && "HTTP_AUTHORIZATION" in meta ==>
      && (r.Ok? ==> r.value.UsernamePassword? || r.value == NoCredentials)
      && (r.Err? ==> r.error == UnprintableHeader(meta["HTTP_AUTHORIZATION"]) ||
                     (r.error.Undecodable? && services.decode(r.error.encoded).None?))
  {
    match cls
    case CustomBackend(name) => Ok(services.customCredentials(name, meta))
    case BasicAuthBackend =>
      if "HTTP_AUTHORIZATION" !in meta then Err(MissingAuthorization)
      else
        match ParseBasic(meta["HTTP_AUTHORIZATION"], services.decode)
        case Err(e) => Err(e)
        case Ok(None) => Ok(NoCredentials)
        case Ok(Some((username, password))) => Ok(UsernamePassword(username, password))
  }

  /** `WebAPIAuthBackend.authenticate` for a request whose user is `current`. */
  function AuthenticateAttempt(cls: BackendClass, meta: map<string, string>, current: User, services: Services)
    : (a: Attempt<Result<Option<AuthResult>, AuthError>>)
    ensures a.result == Ok(None) <==> GetCredentials(cls, meta, services) == Ok(NoCredentials)
    ensures GetCredentials(cls, meta, services).Err? ==> a.result == Err(GetCredentials(cls, meta, services).error)
    ensures GetCredentials(cls, meta, services).Ok? && GetCredentials(cls, meta, services).value.Decided? ==>
      a.result == Ok(Some(GetCredentials(cls, meta, services).value.result))
    ensures GetCredentials(cls, meta, services).Ok? && GetCredentials(cls, meta, services).value.UsernamePassword? ==>
      var c := GetCredentials(cls, meta, services).value;
      var login := LoginAttempt(current, c.username, c.password, services.authenticate);
      a == Attempt(Ok(Some(login.result)), login.user, login.events)
    ensures !(GetCredentials(cls, meta, services).Ok? && GetCredentials(cls, meta, services).value.UsernamePassword?) ==>
      a.user == current && a.events == []
  {
    match GetCredentials(cls, meta, services)
    case Err(e) => Attempt(Err(e), current, [])
    case Ok(NoCredentials) => Attempt(Ok(None), current, [])
    case Ok(Decided(result)) => Attempt(Ok(Some(result)), current, [])
    case Ok(UsernamePassword(username, password)) =>
      var login := LoginAttempt(current, username, password, services.authenticate);
      Attempt(Ok(Some(login.result)), login.user, login.events)
  }

  /** `cls().authenticate(request)`: no credentials means the backend declines (None); a result
      tuple is returned as it is; a username and password go through
      `login_with_credentials`. */
  method AuthenticateRequest(cls: BackendClass, request: Request, services: Services)
    returns (r: Result<Option<AuthResult>, AuthError>)
    modifies request
    ensures var a := AuthenticateAttempt(cls, request.meta, old(request.user), services);
      r == a.result && request.user == a.user && request.events == old(request.events) + a.events
  {
    var credentials := GetCredentials(cls, request.meta, services);
    if credentials.Err? {
      return Err(credentials.error);
    }
    match credentials.value
    case NoCredentials =>
      r := Ok(None);
    case Decided(result) =>
      r := Ok(Some(result));
    case UsernamePassword(username, password) =>
      var result := LoginWithCredentials(request, username, password, services.authenticate);
      r := Ok(Some(result));
  }

  /** Position of the first backend that does not decline, or the number of backends when all
      of them decline. */
  function FirstDecider(backends: seq<BackendClass>, meta: map<string, string>, current: User, services: Services)
    : (k: nat)
    ensures k <= |backends|
    ensures forall j :: 0 <= j < k ==> AuthenticateAttempt(backends[j], meta, current, services).result == Ok(None)
    ensures k < |backends| ==> AuthenticateAttempt(backends[k], meta, current, services).result != Ok(None)
  {
    if |backends| == 0 then 0
    else if AuthenticateAttempt(backends[0], meta, current, services).result != Ok(None) then 0
    else 1 + FirstDecider(backends[1..], meta, current, services)
  }

  /** What `check_login` does with the backends once the header is present: the attempt of the
      first backend that does not decline, or None with nothing changed. */
  function CheckAttempt(backends: seq<BackendClass>, meta: map<string, string>, current: User, services: Services)
    : (a: Attempt<Result<Option<AuthResult>, AuthError>>)
  {
    if |backends| == 0 then Attempt(Ok(None), current, [])
    else
      var a := AuthenticateAttempt(backends[0], meta, current, services);
      if a.result != Ok(None) then a else CheckAttempt(backends[1..], meta, current, services)
  }

  /** `check_login` stops at the first backend that does not decline: its attempt is the whole
      effect, the backends before it declined without changing anything, and the ones after it
      are not consulted. When every backend declines, the result is None and nothing changes. */
  lemma {:induction false} CheckAttemptFirst(backends: seq<BackendClass>, meta: map<string, string>, current: User,
                                             services: Services)
    ensures var k := FirstDecider(backends, meta, current, services);
      CheckAttempt(backends, meta, current, services) ==
        if k < |backends| then AuthenticateAttempt(backends[k], meta, current, services)
        else Attempt(Ok(None), current, [])
  {
    if |backends| > 0 && AuthenticateAttempt(backends[0], meta, current, services).result == Ok(None) {
      CheckAttemptFirst(backends[1..], meta, current, services);
    }
  }

  /** The module that defines the HTTP Basic backend, and the backend's class name. */
  const BasicBackendModule: string := "djblets.webapi.auth"
  const BasicBackendName: string := "WebAPIBasicAuthBackend"

  /** The class paths used when `WEB_API_AUTH_BACKENDS` is not set. */
  const DefaultClassPaths: seq<string> := [BasicBackendModule + "." + BasicBackendName]

  /** `class_path[:i], class_path[i + 1:]` with `i = class_path.rfind('.')`: the module and the
      attribute. A path without a dot gets Python's `[:-1]`, all but its last character, as
      module, and the whole path as attribute. */
  function ClassPathParts(path: string): (r: (string, string))
    ensures '.' in path ==> path == r.0 + "." + r.1 && '.' !in r.1
    ensures '.' !in path ==> r.1 == path && r.0 == (if |path| > 0 then path[..|path| - 1] else "")
  {
    var i := RFind(path, '.');
    if i >= 0 then
      assert path == path[..i] + "." + path[i + 1..];
      (path[..i], path[i + 1..])
    else
      ((if |path| > 0 then path[..|path| - 1] else ""), path)
  }

  /** Splitting undoes joining a module and a dot-free attribute with a dot. */
  lemma ClassPathPartsOf(moduleName: string, attr: string)
    requires '.' !in attr
    ensures ClassPathParts(moduleName + "." + attr) == (moduleName, attr)
  {
    var path := moduleName + "." + attr;
    assert path[|moduleName|] == '.';
    assert forall j :: |moduleName| < j < |path| ==> path[j] == attr[j - |moduleName| - 1];
    RFindUnique(path, '.', |moduleName|);
    assert path[..|moduleName|] == moduleName;
    assert path[|moduleName| + 1..] == attr;
  }

  /** The (module, attribute) pair of each class path, in order. */
  function Targets(paths: seq<string>): (targets: seq<(string, string)>)
    ensures |targets| == |paths|
    ensures forall i :: 0 <= i < |paths| ==> targets[i] == ClassPathParts(paths[i])
  {
    seq(|paths|, i requires 0 <= i < |paths| => ClassPathParts(paths[i]))
  }

  /** `__import__(module)` then `getattr(mod, attr)`: the class, or what the two `try` blocks
      raise. An empty module name makes `__import__` itself raise a ValueError, which the
      `except ImportError` does not catch. */
  function Import(target: (string, string), modules: map<string, map<string, BackendClass>>)
    : (r: Result<BackendClass, AuthError>)
    ensures r.Ok? <==> target.0 != "" && target.0 in modules && target.1 in modules[target.0]
    ensures r.Ok? ==> r.value == modules[target.0][target.1]
    ensures target.0 == "" ==> r == Err(EmptyModuleName)
    ensures r.Err? && target.0 != "" ==>
      r.error == if target.0 in modules then MissingClass(target.0, target.1) else ImportFailed(target.0)
  {
    var (m, attr) := target;
    if m == "" then Err(EmptyModuleName)
    else if m !in modules then Err(ImportFailed(m))
    else if attr !in modules[m] then Err(MissingClass(m, attr))
    else Ok(modules[m][attr])
  }

  /** The list that the resolution loop leaves in `_auth_backends` for `targets`, and the error
      it raises, if any: the classes of the targets imported before the first failing one. */
  function Resolve(targets: seq<(string, string)>, modules: map<string, map<string, BackendClass>>)
    : (r: (seq<BackendClass>, Option<AuthError>))
    ensures |r.0| <= |targets|
    ensures forall i :: 0 <= i < |r.0| ==> Import(targets[i], modules) == Ok(r.0[i])
    ensures r.1.None? ==> |r.0| == |targets|
    ensures r.1.Some? ==> |r.0| < |targets| && Import(targets[|r.0|], modules) == Err(r.1.value)
  {
    if |targets| == 0 then ([], None)
    else
      var n := |targets| - 1;
      var (resolved, error) := Resolve(targets[..n], modules);
      if error.Some? then (resolved, error)
      else
        match Import(targets[n], modules)
        case Ok(cls) => (resolved + [cls], None)
        case Err(e) => (resolved, Some(e))
  }

  /** `get_auth_backends` as a function of the cache before the call: the returned list or the
      error, and the cache afterwards. */
  function GetBackends(cache: seq<BackendClass>, settings: Option<seq<string>>,
                       modules: map<string, map<string, BackendClass>>)
    : (r: (Result<seq<BackendClass>, AuthError>, seq<BackendClass>))
    ensures |cache| > 0 ==> r == (Ok(cache), cache)
    ensures r.0.Ok? ==> r.0.value == r.1
  {
    if |cache| > 0 then (Ok(cache), cache)
    else
      var (resolved, error) := Resolve(Targets(settings.GetOr(DefaultClassPaths)), modules);
      (if error.None? then Ok(resolved) else Err(error.value), resolved)
  }

  /** Once a call leaves a non-empty cache, every later call returns that same list, whatever the
      settings say by then, until the cache is reset. */
  lemma GetBackendsStable(cache: seq<BackendClass>, settings: Option<seq<string>>, later: Option<seq<string>>,
                          modules: map<string, map<string, BackendClass>>)
    ensures var after := GetBackends(cache, settings, modules).1;
      |after| > 0 ==> GetBackends(after, later, modules) == (Ok(after), after)
  {
  }

  /** A failure partway through resolution leaves the classes resolved before it in the cache:
      the call raises, and the next call returns that shorter list instead of retrying. */
  lemma {:induction false} GetBackendsPartialFailure(settings: Option<seq<string>>,
                                                     modules: map<string, map<string, BackendClass>>)
    ensures var (r, after) := GetBackends([], settings, modules);
      var paths := settings.GetOr(DefaultClassPaths);
      r.Err? ==>
        && |after| < |paths| && Import(ClassPathParts(paths[|after|]), modules) == Err(r.error)
        && (|after| > 0 ==> GetBackends(after, settings, modules) == (Ok(after), after))
  {
  }

  /** An explicitly empty `WEB_API_AUTH_BACKENDS` gives no backends and leaves the cache empty,
      so every call builds it again. */
  lemma GetBackendsEmptySetting(modules: map<string, map<string, BackendClass>>)
    ensures GetBackends([], Some([]), modules) == (Ok([]), [])
  {
  }

  /** Without the setting, the one backend is the HTTP Basic one, found in this module. */
  lemma GetBackendsDefault(modules: map<string, map<string, BackendClass>>)
    requires BasicBackendModule in modules
    requires BasicBackendName in modules[BasicBackendModule]
    requires modules[BasicBackendModule][BasicBackendName] == BasicAuthBackend
    ensures GetBackends([], None, modules) == (Ok([BasicAuthBackend]), [BasicAuthBackend])
  {
    ClassPathPartsOf(BasicBackendModule, BasicBackendName);
    var targets := Targets(DefaultClassPaths);
    assert targets == [(BasicBackendModule, BasicBackendName)];
    assert BasicBackendModule != "";
    assert Import(targets[0], modules) == Ok(BasicAuthBackend);
    assert targets[..0] == [];
    assert Resolve(targets[..0], modules) == ([], None);
    assert [] + [BasicAuthBackend] == [BasicAuthBackend];
  }

  /** The module-level `_auth_backends` list. */
  class BackendCache {
    var backends: seq<BackendClass>

    constructor ()
      ensures backends == []
    {
      backends := [];
    }

    /** `get_auth_backends`: builds the list from the settings (or the default class path) only
        when the cache is empty, appending each class as it is resolved. */
    method GetAuthBackends(settings: Option<seq<string>>, modules: map<string, map<string, BackendClass>>)
      returns (r: Result<seq<BackendClass>, AuthError>)
      modifies this
      ensures (r, backends) == GetBackends(old(backends), settings, modules)
    {
      if |backends| == 0 {
        var error := Rebuild(settings.GetOr(DefaultClassPaths), modules);
        if error.Some? {
          return Err(error.value);
        }
      }
      r := Ok(backends);
    }

    /** The resolution loop of `get_auth_backends`: start from an empty list and append the class
        of each path in turn; an import failure raises and leaves the classes appended so far. */
    method Rebuild(paths: seq<string>, modules: map<string, map<string, BackendClass>>)
      returns (error: Option<AuthError>)
      modifies this
      ensures (backends, error) == Resolve(Targets(paths), modules)
    {
      ghost var targets := Targets(paths);
      backends := [];
      for i := 0 to |paths|
        invariant Resolve(targets[..i], modules) == (backends, None)
      {
        assert targets[..i + 1][..i] == targets[..i];
        var target := ClassPathParts(paths[i]);
        var cls := Import(target, modules);
        if cls.Err? {
          ResolvePrefixError(targets, modules, i + 1);
          return Some(cls.error);
        }
        backends := backends + [cls.value];
      }
      assert targets[..|paths|] == targets;
      error := None;
    }

    /** `reset_auth_backends`: empties the cache, so that the next call builds it again. */
    method ResetAuthBackends()
      modifies this
      ensures backends == []
      ensures forall settings, modules ::
                GetBackends(backends, settings, modules).1 == Resolve(Targets(settings.GetOr(DefaultClassPaths)), modules).0
    {
      backends := [];
    }
  }

  /** Once a prefix of the targets fails to import, resolving all of them ends the same way. */
  lemma {:induction false} ResolvePrefixError(targets: seq<(string, string)>,
                                              modules: map<string, map<string, BackendClass>>, k: nat)
    requires k <= |targets| && Resolve(targets[..k], modules).1.Some?
    ensures Resolve(targets, modules) == Resolve(targets[..k], modules)
    decreases |targets| - k
  {
    if k < |targets| {
      assert targets[..k + 1][..k] == targets[..k];
      ResolvePrefixError(targets, modules, k + 1);
    } else {
      assert targets[..k] == targets;
    }
  }

  /** `check_login(request)`: without an `HTTP_AUTHORIZATION` header, None and nothing else
      happens; otherwise the backends are fetched (building the cache if needed) and tried in
      order, and the first one that does not decline decides. */
  method CheckLogin(cache: BackendCache, request: Request, settings: Option<seq<string>>,
                    modules: map<string, map<string, BackendClass>>, services: Services)
    returns (r: Result<Option<AuthResult>, AuthError>)
    modifies cache, request
    ensures "HTTP_AUTHORIZATION" !in request.meta ==>
      r == Ok(None) && cache.backends == old(cache.backends)
      && request.user == old(request.user) && request.events == old(request.events)
    ensures "HTTP_AUTHORIZATION" in request.meta ==>
      var (got, after) := GetBackends(old(cache.backends), settings, modules);
      && cache.backends == after
      && (got.Err? ==> r == Err(got.error) && request.user == old(request.user) && request.events == old(request.events))
      && (got.Ok? ==>
            var a := CheckAttempt(got.value, request.meta, old(request.user), services);
            r == a.result && request.user == a.user && request.events == old(request.events) + a.events)
  {
    if "HTTP_AUTHORIZATION" !in request.meta {
      return Ok(None);
    }
    var got := cache.GetAuthBackends(settings, modules);
    if got.Err? {
      return Err(got.error);
    }
    var backends := got.value;
    ghost var current := request.user;
    for i := 0 to |backends|
      invariant request.user == current && request.events == old(request.events)
      invariant cache.backends == backends
      invariant CheckAttempt(backends, request.meta, current, services) ==
        CheckAttempt(backends[i..], request.meta, current, services)
    {
      assert backends[i..][1..] == backends[i + 1..];
      var result := AuthenticateRequest(backends[i], request, services);
      if result != Ok(None) {
        return result;
      }
    }
    r := Ok(None);
  }
}
