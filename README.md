# djblets extension hooks, extension metadata and web API authentication, in Dafny

This project models three pieces of djblets and proves properties of them:

- **Extension hooks** (`djblets/extensions/hooks.py`). Every hook point keeps an ordered list of live hooks. A hook class made by the `ExtensionHookPoint` metaclass shares its base's list unless it declares one of its own. Constructing a hook registers it twice: it is appended to its hook point's list and added to its extension's hook set. `shutdown` asserts that the hook is initialized, removes it from the list with `list.remove` and clears the flag. Each specialised hook adds a side effect on top:
  - datagrid columns are added and removed;
  - URL patterns are added and removed;
  - a signal is connected and disconnected under a fresh `dispatch_uid`;
  - template hooks are added to and removed from the name index that `by_name` reads.
  
  `render_to_string` brackets rendering with a context push and pop.
- **The extension object and its metadata** (`djblets/extensions/extension.py`). The model covers:
  - `Extension.shutdown_hooks`, which sweeps the hook set;
  - `JSExtension.applies_to`;
  - `get_bundle_id`;
  - `ExtensionInfo`, built from the package's `PKG-INFO` lines and the class's own metadata;
  - `ExtensionInfo.__str__`.
- **Web API authentication** (`djblets/webapi/auth.py`). The model covers:
  - the process-wide cache of backend classes (`get_auth_backends`, `reset_auth_backends`);
  - the strict HTTP Basic `Authorization` header parser;
  - a backend's `authenticate` and `login_with_credentials`;
  - `check_login`, which stops at the first backend that does not decline.

Modules:

| module | file | contents |
|---|---|---|
| `Wrappers` | `wrappers.dfy` | `Option` (Python's None), `Result` and `Outcome` (a value or a raised exception) |
| `Lists` | `lists.dfy` | `list.remove` and its effect on membership and multiplicity |
| `Strings` | `strings.dfy` | `str.split`, `str.split(sep, 1)`, `str.rfind`, `str.join` |
| `Collaborators` | `collaborators.dfy` | datagrid, dynamic URLs, signal, `uuid.uuid1`, template context |
| `ExtensionHooks` | `hooks.dfy` | hook points, hooks, template index, and the Extension's hook set and shutdown |
| `ExtensionMetadata` | `extension.dfy` | `JSExtension.applies_to`, bundle ids, `ExtensionInfo` |
| `WebAPIAuth` | `auth.dfy` | backends, credentials, login, `check_login`, backend cache |

How the Python constructs are represented:
- **Exceptions** become values: `Outcome.Fail` / `Result.Err` hold what is raised, with the state as it was at the raise. This covers `AssertionError`, the `ValueError` from `list.remove` or from unpacking a split, `KeyError`, `ImproperlyConfigured`, the `ValueError` of `__import__('')`, the `binascii.Error` of an undecodable Basic credential, the `UnicodeDecodeError` of an implicit ASCII decoding, and the `AttributeError` of `os.path.join` on a missing package name.
- **Byte strings** (the `HTTP_AUTHORIZATION` header, the decoded credential and the `PKG-INFO` lines, which Python 2 gives as `str`) are `string`s with one character per byte. Both source files use `unicode_literals`, so splitting such a string on a literal, or formatting it into a literal, first decodes it as ASCII, and any byte above 127 raises `UnicodeDecodeError` (`Strings.IsAscii` says when it does not).
- **Hook subclasses** are one `Hook` class. A `Kind` value holds the data each subclass keeps, and a named constructor stands for each subclass's `__init__`.
- **The metaclass-managed `hooks` class attribute** is a `HookList` object owned by a `HookPoint`. Two hook points can share one list.
- **The `Extension` class** (its hook set, `shutdown` and `shutdown_hooks`) lives in module `ExtensionHooks`. Hooks and extensions refer to each other, and Dafny modules cannot import each other in a cycle.
- **Collaborators** record the calls they receive, in order.

An explicitly empty `WEB_API_AUTH_BACKENDS` gives an empty list, not the default backend. The cache stays empty, so every call builds it again (`GetBackendsEmptySetting`).

## Model

| member | source | states |
|---|---|---|
| ExtensionHooks.HookPoint.constructor | djblets/extensions/hooks.py:72-76 | a hook class that declares its own `hooks` list uses it. One that declares none shares its base's list object, and only a class whose bases have none gets a new empty list |
| ExtensionHooks.HookPoint.AddHook | djblets/extensions/hooks.py:78-83 | the hook is appended at the end of the list |
| ExtensionHooks.HookPoint.RemoveHook | djblets/extensions/hooks.py:85-90 | the first occurrence of the hook is removed. A hook not in the list raises and leaves the list as it was |
| ExtensionHooks.Hook.Register | djblets/extensions/hooks.py:52-56 | the hook joins its extension's set and the end of its hook point's list, and becomes initialized |
| ExtensionHooks.Hook.ExtensionHook | djblets/extensions/hooks.py:52-56 | a plain hook is built registered, initialized and appended last |
| ExtensionHooks.Hook.DataGridColumnsHook | djblets/extensions/hooks.py:123-129 | after registering, `add_column` is called once per column, in list order, and nothing else is called on the datagrid |
| ExtensionHooks.Hook.URLHook | djblets/extensions/hooks.py:145-149 | after registering, exactly its pattern list is added to the extension manager's dynamic URLs |
| ExtensionHooks.Hook.SignalHook | djblets/extensions/hooks.py:165-173 | the `dispatch_uid` was never issued before. The signal gets one `connect` with the callback, the sender, `weak=False` and that uid |
| ExtensionHooks.Hook.TemplateHook | djblets/extensions/hooks.py:189-197 | the hook is appended to the list for its name, and the list is created on first use. `by_name(name)` afterwards is the old list plus this hook, and other names are untouched |
| ExtensionHooks.Hook.ShutdownBase | djblets/extensions/hooks.py:58-62 | a hook that is not initialized fails the assert and changes nothing. One that is not listed raises from `remove` and stays initialized. Otherwise its first list entry is removed, the other entries keep their order, and the flag is cleared |
| ExtensionHooks.Hook.Shutdown | djblets/extensions/hooks.py:131-202 | shutdown completes exactly when the hook is initialized and registered. The kind's teardown runs only after the base bookkeeping succeeds: `remove_column` for the same columns, in the same order; `remove_patterns` for the same pattern list; `disconnect` by the hook's own `dispatch_uid` only; or removal from the name's list, where a missing name or hook raises (`KeyError`/`ValueError`) after the base shutdown has already happened |
| ExtensionHooks.Hook.RenderToString | djblets/extensions/hooks.py:204-216 | the renderer sees the caller's scopes plus one scope binding `extension`. The context afterwards equals the context before, whether rendering succeeds or fails, and the render result is returned |
| ExtensionHooks.AppliesTo | djblets/extensions/hooks.py:103-110 | `AppliesToURLMixin.applies_to`: a hook with an empty `apply_to` applies to every page, and one with a list applies exactly to the URL names it lists |
| ExtensionHooks.TemplateIndex.ByName | djblets/extensions/hooks.py:218-220 | `by_name(name)` is empty for a name never registered, and otherwise holds only hooks registered under that name |
| ExtensionHooks.Hook.StaysListed | djblets/extensions/hooks.py:85-90 | removing one hook from a list leaves every other hook's membership and count unchanged, in any list |
| ExtensionHooks.Hook.StaysNamed | djblets/extensions/hooks.py:199-202 | removing one template hook from the name index leaves every other template hook in its name's list |
| ExtensionHooks.Hook.StaysRegistered | djblets/extensions/hooks.py:58-62 | a completed shutdown of one hook changes no other hook's registration or count |
| ExtensionHooks.Extension.constructor | djblets/extensions/extension.py:200-202 | a new extension has an empty hook set |
| ExtensionHooks.Extension.ShutdownHooks | djblets/extensions/extension.py:247-251 | the sweep completes whenever every initialized hook is registered. Afterwards no hook in the set is initialized, and the set is not emptied. `order` lists exactly the hooks that were initialized, each once, in the order they were shut down. Each of them has left its list exactly once, and the others kept their entries. Each hook's list holds what the removals of the hooks in `order` that belong to it, made one after the other, leave of its old items (`ListAfter`), so nothing was added and the remaining hooks keep their order. Hooks outside the set keep their list count and their registration. Every datagrid, URL resolver and signal used by a hook received, after its earlier calls, exactly the teardown calls of the hooks in `order` that use it, in that order; a template index went through the removals of those hooks, in that order. Skipped hooks cause no calls |
| ExtensionHooks.Extension.Sweep | djblets/extensions/extension.py:249-251 | the `for` loop over the hook set, started with nothing done: it keeps the hook set, completes when the sweep started ready, and then every hook is done and the progress facts (`Swept`, `Logged`, `Unlisted`) hold of the whole set. Hooks outside the set keep their list count and their registration |
| ExtensionHooks.Extension.SweepOne | djblets/extensions/extension.py:249-251 | one iteration: a hook that is not initialized is skipped, and an initialized one is shut down. It completes when the sweep started ready, and the sweep's progress (`Swept`, `Logged`, `Unlisted`) is kept, with the hook added to `order` exactly when it was initialized. Every other hook keeps its list count and registration |
| ExtensionHooks.Extension.ShutdownOne | djblets/extensions/extension.py:251 | `hook.shutdown()` on an initialized hook completes exactly when the hook is registered. Then it has left its list once, is no longer initialized and ran its teardown. Every other hook of the extension kept its flag, its list unless shared, and its collaborator unless shared. Every other hook anywhere kept its list count and registration |
| ExtensionHooks.Extension.SweptSkip | djblets/extensions/extension.py:250 | skipping a hook that is not initialized keeps the sweep's progress |
| ExtensionHooks.Extension.SweepBegins | djblets/extensions/extension.py:249 | before the first iteration, every hook is to do, `order` is empty, and every hook's flag and count are those the sweep starts from |
| ExtensionHooks.Extension.LogsBegin | djblets/extensions/extension.py:249 | before the first iteration, no collaborator has received a teardown call |
| ExtensionHooks.Extension.ListsBegin | djblets/extensions/extension.py:249 | before the first iteration, every hook's list holds its old items |
| ExtensionHooks.Extension.SweepEnds | djblets/extensions/extension.py:247-251 | once no hook is left to do, the progress facts give the final state promised for `shutdown_hooks`: flags, counts, `order`, and each collaborator's teardown calls |
| ExtensionHooks.Extension.ListsEnd | djblets/extensions/extension.py:247-251 | once no hook is left to do, each hook's list is what the removals of the hooks in `order` left of its old items |
| ExtensionHooks.SweptStep | djblets/extensions/extension.py:249-251 | one completed hook shutdown moves that hook from "to do" to "done" and to the end of `order`, and keeps every other hook's flag, count and registration |
| ExtensionHooks.LoggedStep | djblets/extensions/extension.py:249-251 | one completed hook shutdown adds its teardown calls to its own collaborator, and nothing to any other hook's collaborator |
| ExtensionHooks.UnlistedStep | djblets/extensions/extension.py:249-251 | one completed hook shutdown takes the hook out of its own list once and leaves every other hook's list as it was |
| ExtensionHooks.ListAfterWithout | djblets/extensions/hooks.py:85-90 | on a list that holds each of its hooks once, shutting down the hooks of `order` (in any order, repeated or not) leaves exactly the list's other hooks, in their old order |
| ExtensionHooks.OthersStay | djblets/extensions/hooks.py:58-62 | when a shutdown changed only the hook's own list and collaborator, no other hook's list count or registration changed |
| ExtensionHooks.Extension.Shutdown | djblets/extensions/extension.py:238-245 | shutting an extension down is shutting down its hooks, with all the guarantees of `shutdown_hooks`: flags, counts, `order`, each hook list's new items, the frame on hooks outside the set, and the collaborators' teardown calls |
| Lists.IndexOf | djblets/extensions/hooks.py:90 | the position found holds the element, and no earlier position does |
| Lists.RemoveFirst | djblets/extensions/hooks.py:90 | `list.remove` cuts out exactly the first occurrence: the prefix before it and the suffix after it are kept |
| Lists.RemoveFirstMultiset | djblets/extensions/hooks.py:90 | removal takes one copy of the element out of the list's multiset and nothing else |
| Lists.RemoveFirstMembership | djblets/extensions/hooks.py:202 | every other element stays in the list, and the removed one stays only when it occurred more than once |
| Lists.WithoutMembers | djblets/extensions/hooks.py:90 | filtering a list keeps exactly its elements outside the filtered set |
| Lists.RemoveFirstWithout | djblets/extensions/hooks.py:90 | on a list without repetitions, `list.remove(x)` is filtering `x` out |
| Strings.FindFrom | djblets/extensions/extension.py:285 | the result is the first occurrence of the separator at or after the start |
| Strings.IsAscii | djblets/webapi/auth.py:154 | a byte string Python 2 decodes as ASCII without raising: every byte is below 128 |
| Strings.Partition | djblets/extensions/extension.py:285 | `split(sep, 1)` unpacked into two names: the text is the head, the separator and the tail. The head holds no earlier occurrence, and the unpacking fails exactly when the separator does not occur |
| Strings.PartitionOf | djblets/webapi/auth.py:155 | a text built as head, separator and tail, with no separator in the head, splits back into that head and tail |
| Strings.PartitionAtChar | djblets/webapi/auth.py:155 | with a one-character separator that the head does not contain, splitting gives back the head and the tail |
| Strings.Split | djblets/webapi/auth.py:154 | `split(' ')` always gives at least one piece |
| Strings.SplitJoin | djblets/webapi/auth.py:154 | joining the pieces with the separator gives back the text |
| Strings.SplitInTwo | djblets/webapi/auth.py:154 | the text splits into exactly two pieces if and only if it is a separator-free text, one separator, and a separator-free text. The two pieces are those texts |
| Strings.RFind | djblets/webapi/auth.py:206 | the result is the position of the last occurrence, or -1 when there is none |
| Strings.DropLastComponent | djblets/extensions/extension.py:307 | `'.'.join(s.split('.')[:-1])` is the text before the last dot, or empty when there is no dot |
| ExtensionMetadata.JSAppliesToListed | djblets/extensions/extension.py:69-71 | with no list, the extension applies everywhere. With a list, it applies exactly on the listed URL names |
| ExtensionMetadata.JSAppliesTo | djblets/extensions/extension.py:69-71 | `JSExtension.applies_to`: true when `apply_to` is None, otherwise membership of the URL name in the list |
| ExtensionMetadata.AppliesToEmptyList | djblets/extensions/extension.py:69-71 | on an empty list a JavaScript extension applies nowhere, while a hook (`AppliesToURLMixin`) applies everywhere |
| ExtensionMetadata.AppliesToAgree | djblets/extensions/hooks.py:109-110 | on a non-empty list, a hook's `applies_to` and a JavaScript extension's agree: membership of the URL name |
| ExtensionMetadata.BundleId | djblets/extensions/extension.py:267-269 | the bundle id is the extension id, a dash, then the name |
| ExtensionMetadata.BundleIdInjective | djblets/extensions/extension.py:267-269 | within one extension, distinct bundle names give distinct ids |
| ExtensionMetadata.Entry | djblets/extensions/extension.py:285 | a line that splits is ASCII and is its key, `": "` and its value. A non-ASCII line raises `UnicodeDecodeError` and an ASCII line without `": "` raises the unpacking `ValueError` |
| ExtensionMetadata.EntrySplits | djblets/extensions/extension.py:285 | a line splits if and only if it is ASCII and holds `": "`, and the key holds no `": "`: the split is at the first occurrence |
| ExtensionMetadata.Entries | djblets/extensions/extension.py:284-285 | when every line splits, the entries are the lines' (key, value) splits at the first `": "`, one per line, in order |
| ExtensionMetadata.EntriesMalformed | djblets/extensions/extension.py:284-285 | reading fails if and only if some line is not ASCII or has no `": "`, and the error is that of the first such line |
| ExtensionMetadata.EntriesPrefixError | djblets/extensions/extension.py:284-285 | once a line fails, the later lines do not matter |
| ExtensionMetadata.Collect | djblets/extensions/extension.py:286-288 | the dictionary never stores `UNKNOWN` |
| ExtensionMetadata.CollectKeys | djblets/extensions/extension.py:286-288 | a key is in the metadata dictionary if and only if some line stores a value other than `UNKNOWN` under it |
| ExtensionMetadata.CollectLastWins | djblets/extensions/extension.py:286-288 | a key's value is the one on the last line that stores a value under it. A later `UNKNOWN` does not remove it |
| ExtensionMetadata.PkgInfo | djblets/extensions/extension.py:284-288 | the PKG-INFO loop fails if and only if some line fails to split, and otherwise its keys are exactly those of the lines that store a value other than `UNKNOWN` |
| ExtensionMetadata.Merged | djblets/extensions/extension.py:294-295 | `metadata.update(ext_class.metadata)`: the keys of both, with the class's value winning on every key it sets; no class metadata leaves the package's |
| ExtensionMetadata.Info | djblets/extensions/extension.py:290-311 | built only when the package metadata has a `Name`, which is `package_name` (taken before the merge). The class metadata wins over the package's on every key. `author_url` falls back to `Home-page`. `app_name` is the module path before its last dot. `enabled` and `installed` start false, and the flags are the class's |
| ExtensionMetadata.NewExtensionInfo | djblets/extensions/extension.py:281-313 | the loop builds exactly the dictionary `PkgInfo` describes. A line that does not split raises its error, and a package without a `Name` (or with `UNKNOWN`) raises the `AttributeError` of `os.path.join` on None; in both cases no record is built. Otherwise the record is `Info`'s |
| ExtensionMetadata.DescribeEnabled | djblets/extensions/extension.py:317-318 | the text ends with `(enabled = <flag>)`, which is `False` for a new record |
| ExtensionMetadata.DescribeName | djblets/extensions/extension.py:317-318 | a name without spaces is the text before the first space of the description, and the rest is the version and the flag |
| ExtensionMetadata.Describe | djblets/extensions/extension.py:317-318 | `__str__` starts with the name (or `None`) and a space |
| WebAPIAuth.Request.LogIn | djblets/webapi/auth.py:137 | the request's user becomes the given user, and the login is recorded |
| WebAPIAuth.Request.LogOut | djblets/webapi/auth.py:143 | the request's user becomes anonymous, and the logout is recorded |
| WebAPIAuth.LoginAttempt | djblets/webapi/auth.py:109-145 | the result is `(True, None, None)` or `(False, None, None)`. It succeeds if and only if the request is already logged in under that username, or Django returns an active user. The short-circuit makes no calls to Django. Otherwise Django's `authenticate` is called once, then a login of the returned user on success, or a logout (with an anonymous user) on failure |
| WebAPIAuth.LoginWithCredentials | djblets/webapi/auth.py:123-145 | the request's user, the calls made and the result are those described by `LoginAttempt` |
| WebAPIAuth.ParseBasic | djblets/webapi/auth.py:152-169 | a non-ASCII header raises, and it is the header itself that the error names: the warning's `%` formatting decodes it again inside the handler. Accepted credentials are ASCII |
| WebAPIAuth.BasicAccepted | djblets/webapi/auth.py:152-169 | `Basic`, one space, and a space-free ASCII text that decodes to `user:password` (both ASCII, no `:` in the user) gives exactly that username and password. The password may hold colons |
| WebAPIAuth.BasicParsed | djblets/webapi/auth.py:152-169 | any accepted header is ASCII and has that form, with an ASCII decoding. So another scheme (including `basic`), a second space, a missing `:` or a non-ASCII decoding gives no credentials |
| WebAPIAuth.BasicUndecodable | djblets/webapi/auth.py:152-163 | for a header of one space between space-free parts, parsing raises if and only if the header is not ASCII or the second part does not decode. For an ASCII header the error names that part. Decoding happens before the scheme is compared, so this holds for any scheme |
| WebAPIAuth.BasicRaises | djblets/webapi/auth.py:152-163 | parsing raises only for a non-ASCII header (the error names the header) or for an ASCII header of two space-free parts joined by one space whose second part does not decode |
| WebAPIAuth.BasicNonAsciiCredentials | djblets/webapi/auth.py:154-161 | an ASCII `Basic` header whose credential decodes to non-ASCII bytes (UTF-8 `josé:pw`) is declined: the ASCII decoding by `split(':', 1)` raises inside the `try`, and the handler returns None |
| WebAPIAuth.GetCredentials | djblets/webapi/auth.py:152-169 | the Basic backend raises when the header is missing. With a header it returns a username and password, or nothing, or raises: for a non-ASCII header, naming the header, or because the credential part does not decode, naming that part |
| WebAPIAuth.AuthenticateAttempt | djblets/webapi/auth.py:84-95 | the backend declines (None) if and only if it found no credentials. An exception from `get_credentials` propagates unchanged, a result tuple is returned unchanged, a username and password go through the login, and only that last case changes the request |
| WebAPIAuth.AuthenticateRequest | djblets/webapi/auth.py:84-95 | the result and the request afterwards are those of `AuthenticateAttempt` |
| WebAPIAuth.FirstDecider | djblets/webapi/auth.py:178-183 | the position returned is the first backend that does not decline. Every backend before it declines |
| WebAPIAuth.CheckAttempt | djblets/webapi/auth.py:172-185 | the backends are asked in order, and the attempt is that of the first one that does not decline, or None with nothing changed when all decline (`CheckAttemptFirst` states it) |
| WebAPIAuth.CheckAttemptFirst | djblets/webapi/auth.py:178-185 | the overall attempt is that of the first backend that does not decline. When all decline, the result is None and nothing changes |
| WebAPIAuth.CheckLogin | djblets/webapi/auth.py:172-185 | without an `HTTP_AUTHORIZATION` header, the result is None and neither the cache nor the request changes. Otherwise the cache is built as `get_auth_backends` builds it, and the first backend that does not decline decides |
| WebAPIAuth.ClassPathParts | djblets/webapi/auth.py:206-207 | a dotted path is the module, a dot, and a dot-free attribute. A path without a dot keeps Python's `[:-1]` module and the whole path as the attribute |
| WebAPIAuth.ClassPathPartsOf | djblets/webapi/auth.py:206-207 | splitting undoes joining a module and a dot-free attribute with a dot |
| WebAPIAuth.Targets | djblets/webapi/auth.py:205-207 | one (module, attribute) pair per class path, in order |
| WebAPIAuth.Import | djblets/webapi/auth.py:209-222 | the class is found if and only if the module name is non-empty and importable, and it defines the attribute. An empty module name (a path `X` or `.X`) raises the `ValueError` of `__import__('')`. Otherwise the error is the failed import or the missing class |
| WebAPIAuth.Resolve | djblets/webapi/auth.py:203-222 | the list holds the classes of the paths before the first one that fails, in order. With no failure it holds all of them, and an error comes from the path right after the list |
| WebAPIAuth.ResolvePrefixError | djblets/webapi/auth.py:205-222 | resolution stops at the first failure |
| WebAPIAuth.GetBackends | djblets/webapi/auth.py:195-224 | a non-empty cache is returned as it is, and a returned list is the cache |
| WebAPIAuth.GetBackendsStable | djblets/webapi/auth.py:197-201 | once a call leaves a non-empty cache, later calls return that list, whatever the settings are by then |
| WebAPIAuth.GetBackendsPartialFailure | djblets/webapi/auth.py:203-222 | a failure partway leaves the classes before it in the cache. The call raises, and the next call returns that shorter list without retrying |
| WebAPIAuth.GetBackendsEmptySetting | djblets/webapi/auth.py:197-201 | an explicitly empty setting gives `[]` and leaves the cache empty |
| WebAPIAuth.GetBackendsDefault | djblets/webapi/auth.py:198-201 | without the setting, the backends are exactly the HTTP Basic one |
| WebAPIAuth.BackendCache.GetAuthBackends | djblets/webapi/auth.py:188-224 | the returned list and the cache afterwards are those of `GetBackends` |
| WebAPIAuth.BackendCache.Rebuild | djblets/webapi/auth.py:203-222 | the appending loop leaves `Resolve`'s list in the cache and raises `Resolve`'s error |
| WebAPIAuth.BackendCache.ResetAuthBackends | djblets/webapi/auth.py:227-235 | the cache is empty, so the next call resolves the settings again |

## Left out

- Template rendering itself is a function parameter of `RenderToString`. Only the context bracketing and the `extension` binding are modelled.
- The internals of the datagrid column registry, the dynamic URL resolver and the signal dispatcher are not modelled. Each records the calls it receives. Whether `disconnect(dispatch_uid=...)` without the sender matches a connection made with a sender depends on the dispatcher's keying, which is outside the model.
- `uuid.uuid1()` is a counter object (`UuidSource`) that never hands out the same token twice. Freshness is promised per `UuidSource` object, while `uuid1` is unique across the whole process, so two signal hooks built from different `UuidSource` objects are not promised different `dispatch_uid`s.
- Base64 decoding is a function parameter that returns None for undecodable text. Under Python 2, that failure is a `binascii.Error`, which `except ValueError` does not catch, so it propagates out of `get_credentials`, `authenticate` and `check_login`.
- `__import__` and `getattr` are a map from module name to the classes the module defines. Package-relative imports are not modelled.
- A custom backend is modelled through its `get_credentials`, which is a function parameter. Custom overrides of `authenticate` or `login_with_credentials` are not modelled.
- `auth.login`/`auth.logout` are modelled as setting the request's user and recording the call. Session storage is not modelled.
- The following are framework plumbing and are not modelled:
  - the views `account_login` and `account_logout`;
  - `get_auth_headers`;
  - `www_auth_scheme`;
  - `WebAPIResponse*`;
  - the decorators;
  - logging, apart from the `%` formatting of the warning in `get_credentials`, which can raise.
- From `extension.py`, the following are not modelled:
  - middleware introspection in `Extension.__init__`;
  - `initialize` (a no-op);
  - the admin URLconf import;
  - the `Settings` object;
  - `JSExtension.get_model_data`;
  - the module-level settings check;
  - the values of the static paths `installed_htdocs_path`/`installed_static_path`. Only the `AttributeError` that `os.path.join` raises on a missing package name is modelled.
- `ExtensionInfo.__str__` is modelled for `%s` of strings, None and bools. Unicode conversion is not modelled.
- Thread safety is not modelled: the code has no locking around its module and class globals.
- `ExtensionHooks.Extension.ShutdownHooks` promises completion only when every initialized hook is registered. When a hook raises, the sweep stops there, and the model states only that the hook set is kept. The iteration order over the set is left open, as Python's set order is.
- `ExtensionHooks.Hook.Shutdown` states `unchanged` for the collaborator only when the base shutdown raised. When a template hook's own teardown raises, it states only that the index's `byName` map is as before. It has no `ensures` about other objects: its `modifies` clause (the hook, its list and its collaborator) is what keeps them unchanged.
- `ExtensionHooks.TemplateIndex.ByName` returns the list's value. `by_name` returns the list object stored in the index, shared with every caller (or a fresh `[]` for an unknown name), so a caller that mutates it changes the index. No modelled caller mutates it.
- Python 2's implicit ASCII decoding is modelled only as far as whether it raises (`Strings.IsAscii`). The unicode strings it produces are not told apart from the byte strings they came from.
