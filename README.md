# AnchovyCURLBundle `Curl` client — a verified Dafny model

The bundle's one class, `Curl`, wraps PHP's cURL extension. This project models its client-state and option-assembly policy and proves properties of it:

- **Per-instance state.** Each instance has a URL, stored verbatim, and an override array. The array is ordered and each key appears once. `setOption` inserts or overwrites one entry. `setOptions` replaces the whole array.
- **Shared class-level state.** All instances share one engine handle, kept in a static slot. They also share the static default option values. In the model this is one `Shared` object that every `Curl` points to. Constructing a client replaces the shared handle with a fresh one.
- **Option assembly (`getOptions`).** Each call adjusts the shared defaults before it builds anything:
  - follow-location is forced off under `safe_mode`/`open_basedir`;
  - SSL peer verification is forced on for a URL with the case-sensitive prefix `https://`.
  
  These writes stick for later calls and for other instances. The call then builds the ten default entries, with `CURLOPT_URL` holding the stored URL (null if none was set). Finally it overlays every override in array order, each at the constant named by its upper-cased key. Overrides therefore beat every default. Of two keys that differ only in case, the later one wins. An unknown name aborts the assembly.
- **Execution (`execute`).** It overlays the merged map on the handle, which keeps every entry already there. It throws whenever the transfer result is falsy in PHP's sense (`false`, `""`, `"0"`), even when no error number was recorded. The exception text is exactly `"Error: " + message + " and the Error no is: " + code + " "`. When `getError` reported nothing, both parts are empty. The model also proves that code and message can be read back from the text.
- **Other operations.**
  - `getError` reports the pair only for a positive error number.
  - `getInfo` always runs a fresh `execute` first.
  - `setMethod` writes the upper-cased method and the encoded body straight onto the handle.
  - The destructor closes the handle and clears the URL only while the handle is live.

Modules:
- `Php` (php.dfy): values, truthiness, `strtoupper`, decimal integers and ordered arrays.
- `CurlOptions` (curl_options.dfy): the assembly policy and its lemmas.
- `CurlErrors` (curl_errors.dfy): the error report, the exception text and the execute outcome.
- `CurlClient` (curl.dfy): the `Handle`, `Shared` and `Curl` classes with their imperative methods.

Inputs the model cannot see are parameters:
- the transfer's result, error number and text (`Transfer`);
- what `curl_getinfo` reports;
- `ini_get` as two booleans (`Env`);
- whether `curl_version` exists;
- the name-to-id table behind `constant()` (`ConstantTable`);
- the default values of the base class `AbstractCurl` (`Defaults`), which is not part of this model;
- `http_build_query`, as a function argument.

Behaviours of the code a reader might not expect:
- the handle is shared by all instances, not owned per instance;
- `execute` fails on a falsy result, not on a non-zero error code;
- option assembly mutates the static defaults instead of being free of side effects;
- `setMethod` writes onto the handle, not into the merged options;
- no "last error" is stored on the instance: the private `$error` field is never written;
- `setURL`, `setOption` and `setOptions` return nothing (null in PHP), although their doc comments (CURL/Curl.php:73, 117, 138) promise the client and the example at CURL/Curl.php:133 chains `setOptions(...)->execute()`. Such a chain would call `execute` on null. In the model these three methods have no result; only `setMethod` returns the client.

## Model

| member | source | states |
|---|---|---|
| Php.FalsyValues | CURL/Curl.php:102 | a transfer result is falsy exactly when it is null, false, 0, `""`, `"0"` or the empty array |
| Php.Upper | CURL/Curl.php:211 | upper-casing keeps the length, maps each character by ASCII upper-casing and leaves no lower-case letter |
| Php.UpperIdempotent | CURL/Curl.php:211 | upper-casing an already upper-cased key changes nothing |
| Php.UpperIgnoresCase | CURL/Curl.php:211 | keys that differ only in letter case upper-case to the same constant name |
| Php.Decimal | CURL/Curl.php:104 | the interpolated error number is a non-empty run of digits with no leading zero |
| Php.DecimalRoundTrip | CURL/Curl.php:104 | the decimal text of the error number reads back as the same number |
| Php.Lookup | CURL/Curl.php:120 | reading an override finds nothing exactly when no entry has that key, and otherwise returns a stored entry's value |
| Php.Put | CURL/Curl.php:120 | assigning an override makes the key hold the value, leaves every other key's value, keeps every existing key at its position, and appends only a new key, at the end |
| Php.PutKeepsKeysDistinct | CURL/Curl.php:120 | assigning an override keeps the array's keys unique |
| CurlOptions.IsUrlHttps | CURL/Curl.php:243-245 | the https test holds exactly when a URL is set and its first eight characters are `https://`; an unset (null) URL never matches |
| CurlOptions.HttpsIffPrefix | CURL/Curl.php:243-245 | a URL counts as https exactly when it starts with the eight characters `https://` |
| CurlOptions.HttpsIsCaseSensitive | CURL/Curl.php:243-245 | `https://…` matches, `HTTPS://…` does not |
| CurlOptions.AdjustDefaults | CURL/Curl.php:190-194 | a restricted environment sets follow-location to false, an https URL sets SSL verification to true, and no other default changes |
| CurlOptions.VerifyStaysOn | CURL/Curl.php:193-194 | once SSL verification is on, no later option assembly switches it off, whatever its URL |
| CurlOptions.HttpsForcesVerify | CURL/Curl.php:193-194 | one https URL anywhere in a series of assemblies leaves SSL verification on at the end, for the later http calls too |
| CurlOptions.FollowStaysOff | CURL/Curl.php:190-191 | once follow-location is off, no later option assembly switches it back on |
| CurlOptions.RestrictedForcesNoFollow | CURL/Curl.php:190-191 | one restricted environment anywhere in a series of assemblies leaves follow-location off at the end |
| CurlOptions.OtherDefaultsUntouched | CURL/Curl.php:188-194 | across any series of assemblies only the two flags can change; the other seven defaults keep their values |
| CurlOptions.DefaultOptions | CURL/Curl.php:196-207 | the starting map has exactly the ten default ids, `CURLOPT_URL` holds the stored URL as is (null when unset), each other id holds its default, and neither `CUSTOMREQUEST` nor `POSTFIELDS` is among them |
| CurlOptions.DefaultIdsCount | CURL/Curl.php:196-207 | the ten default option constants are distinct |
| CurlOptions.Resolve | CURL/Curl.php:211 | an override key resolves exactly when its upper-cased form is a known constant name, and then to that constant's id |
| CurlOptions.Overlay | CURL/Curl.php:209-213 | a successful overlay keeps every base entry's id, and every override key resolves to an id present in the result |
| CurlOptions.Merge | CURL/Curl.php:196-213 | a successful assembly contains all ten default ids; with no overrides it is exactly the ten defaults |
| CurlOptions.LastValueNoneIff | CURL/Curl.php:209-213 | there is no last override for an id exactly when no override key resolves to it |
| CurlOptions.LastValueAt | CURL/Curl.php:209-213 | the override at index i is the last word on its id when no later override resolves to that id: later entries win |
| CurlOptions.OverlayOkIff | CURL/Curl.php:209-213 | assembly succeeds exactly when every override key, upper-cased, names a known constant |
| CurlOptions.OverlayErrNamesKey | CURL/Curl.php:211 | a failed assembly reports the upper-cased name of the first override key, in array order, that names no constant; every earlier key resolved |
| CurlOptions.OverlayValues | CURL/Curl.php:209-213 | after a successful overlay, every id holds the last override that resolves to it, or else the base entry, and no other id appears |
| CurlOptions.MergeWithoutOverrides | CURL/Curl.php:196-213 | with an empty or unset override array the result is exactly the ten defaults with `CURLOPT_URL` equal to the stored URL |
| CurlOptions.UserOverrideWins | CURL/Curl.php:196-213 | a user override beats every default, including `CURLOPT_URL` and both adjusted flags, unless a later override hits the same id |
| CurlOptions.DefaultKeptUnlessOverridden | CURL/Curl.php:196-213 | a default is kept unchanged when no override key resolves to its id |
| CurlOptions.CaseVariantsCollide | CURL/Curl.php:209-213 | two keys that differ only in case write the same option, and the later one's value is what remains |
| CurlErrors.ErrorOf | CURL/Curl.php:224-233 | the error pair is reported exactly when the handle is live and its error number is positive, and it carries that number and text |
| CurlErrors.ErrorMessageFormat | CURL/Curl.php:104 | the exception text is `"Error: " + message + " and the Error no is: " + code + " "`, and exactly `Error:  and the Error no is:  ` when `getError` reported nothing |
| CurlErrors.ErrorMessageRoundTrip | CURL/Curl.php:102-105 | the exception text carries the reported pair: parsing it gives back the code and message, or nothing when no pair was reported |
| CurlErrors.ParseWithCode | CURL/Curl.php:104 | a text built from a message and a non-negative code parses back to exactly that message and code |
| CurlErrors.ErrorMessageInjective | CURL/Curl.php:104 | different error reports never produce the same exception text |
| CurlErrors.ExecOutcome | CURL/Curl.php:102-106 | execute fails exactly when the transfer result is falsy, whatever the error number; on success it returns the result unchanged; a failure is a transfer failure whose text parses back to the reported pair |
| CurlErrors.FalsyBodyFailsWithoutError | CURL/Curl.php:102-104 | an empty body or the body `"0"` with no recorded error throws the text `Error:  and the Error no is:  ` |
| CurlClient.Handle.Init | CURL/Curl.php:61 | `curl_init` gives a live handle with no options and no error |
| CurlClient.Handle.SetOptArray | CURL/Curl.php:100 | pushing an option map overlays it on a live handle and never clears earlier entries; a closed handle is left as it is |
| CurlClient.Handle.SetOpt | CURL/Curl.php:158-159 | setting one option on a live handle writes only that entry |
| CurlClient.Handle.Exec | CURL/Curl.php:102 | a live handle returns the transfer result and records its error number and text; a closed one returns false |
| CurlClient.Handle.Unset | CURL/Curl.php:26 | the slot's value before any construction, or after a failed `curl_init`, is a handle that is not live, with no options and no error |
| CurlClient.Shared.constructor | CURL/Curl.php:26 | before any client exists the shared slot holds no live handle, and the defaults are the base class's |
| CurlClient.Curl.constructor | CURL/Curl.php:57-65 | construction stores a fresh handle in the shared slot, live exactly when `curl_init` succeeded; the URL is unset and the override array is empty |
| CurlClient.Curl.Create | CURL/Curl.php:57-65 | construction fails with "Curl not installed." exactly when `curl_version` is missing, and otherwise yields a fresh client on a fresh shared handle, live exactly when `curl_init` succeeded |
| CurlClient.Curl.SetURL | CURL/Curl.php:75-77 | the URL is stored verbatim |
| CurlClient.Curl.SetOption | CURL/Curl.php:119-121 | the override array holds the value at the key, every other key keeps its value, and keys stay unique |
| CurlClient.Curl.SetOptions | CURL/Curl.php:140-142 | the override array becomes exactly the argument, with no merge, and the empty array by default |
| CurlClient.Curl.SetMethod | CURL/Curl.php:154-166 | a live handle gets `CUSTOMREQUEST` = the upper-cased method and `POSTFIELDS` = the encoded parameters; the override array is untouched, the defaults are `POST` and no parameters, and the same object is returned |
| CurlClient.Curl.GetOptions | CURL/Curl.php:188-215 | the loop leaves the shared defaults adjusted for this environment and URL, and returns the overlay of the overrides on the ten adjusted defaults, or the first unknown name |
| CurlClient.ExecuteOnClosedHandle | CURL/Curl.php:100-104 | with no overrides and a closed shared handle, execute throws `Error:  and the Error no is:  ` and leaves the handle's options as they were |
| CurlClient.Curl.GetError | CURL/Curl.php:224-233 | the pair (error number, error text) is returned exactly when the shared handle is live and its error number is positive |
| CurlClient.Curl.Execute | CURL/Curl.php:98-107 | an unknown option name aborts before the handle is touched; otherwise the merged map is overlaid on the shared handle, the transfer's error is recorded, and the result is returned when truthy or else a failure carrying the text built from `getError` |
| CurlClient.Curl.GetInfo | CURL/Curl.php:175-179 | a fresh execute runs with the same effects on the shared state; its failure propagates, otherwise the engine's info map is returned |
| CurlClient.Curl.Destruct | CURL/Curl.php:254-259 | a live shared handle is closed and the URL cleared; otherwise nothing changes, so a second call is a no-op |
| CurlClient.HandleEntryAfterExecute | CURL/Curl.php:100 | a handle entry outside the ten defaults, such as the method set by `setMethod`, survives execute unless an override resolves to it, and then holds the last such override |
| CurlClient.MethodSurvivesExecute | CURL/Curl.php:154-161 | the method set by `setMethod` is still on the handle after execute when no override names `CURLOPT_CUSTOMREQUEST` |

## Left out

- The transfer itself is an input (`Transfer`): connection handling, TLS, redirects, timeouts and what `curl_getinfo` reports.
- `http_build_query` is an opaque function argument. Its URL-encoding is not modelled, and so is any exception it might raise, which `setMethod` passes on unchanged.
- `constant()` is an abstract table from names to integer option ids. An unknown name is modelled as an error that aborts the assembly, as PHP 8 throws. The warning-and-null behaviour of older PHP versions is not modelled. Under PHP 7 an unknown key would write its value under the empty-string key, `curl_setopt_array` would stop at that entry, and the transfer would still run.
- The PHP versions are mixed on purpose. `constant()` follows PHP 8 (above), so an unknown name is a reported error and not a silent write under the empty key. The handle follows PHP 7 resource semantics (below), under which the destructor's `is_resource` check can tell a live handle from a closed one.
- Override keys are strings. Integer keys, and numeric-string keys that PHP turns into integers, are not modelled.
- `curl_setopt_array` stops at the first option the engine rejects. The model assumes every pushed option is accepted.
- `strtoupper` is modelled as ASCII-only, as in the "C" locale. Locale-dependent upper-casing is not modelled.
- The handle is modelled as a PHP resource with a `live` flag, so `is_resource` tells a live handle from a closed one. Under PHP 8 handles are objects, `is_resource` is false for them, and the destructor never closes anything. That behaviour is not modelled.
- Before the first construction, the static slot holds null. It is modelled as a handle that is not live: every engine call on it fails the way one on a closed handle does. A failed `curl_init` stores false, which is modelled the same way. PHP 8 would raise a type error on the first engine call with null or false; that is not modelled.
- `getURL` is a plain read of the `url` field and has no member of its own.
- The destructor is an explicit method. When PHP calls it is not modelled, and neither is garbage collection of a handle that a later construction replaced.
- `ini_get` and `function_exists('curl_version')` are booleans given to the model.
- Concurrency is not modelled.
