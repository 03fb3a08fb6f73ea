# mountepy, modelled in Dafny

mountepy starts HTTP services as child processes for tests. It waits until a
service's port accepts connections, and it stops the service when the test is
done or the interpreter exits. Its main use is running Mountebank, a server
of HTTP stubs ("imposters"). Under the process, socket and HTTP calls there
is a deterministic layer, and this project models and proves that layer:

- **Command and environment templating** (`Text`, `HttpService`).
  - A process command is either one string or a list of tokens.
  - Only tokens that contain `{port}` are formatted with the service's port.
  - The service environment is the given variables, with `{port}` substituted
    in their values. It is either laid over the parent's environment or used
    alone.
- **The service lifecycle** (`ExitHooks`, `Processes`, `Readiness`,
  `HttpService`).
  - A service is created, started, then stopped.
  - It keeps a handle on its process and its entry in the registry of exit
    hooks.
  - The port probe is a loop over a sequence of connect attempts with clock
    readings.
- **Imposter configuration** (`Imposters`, `Mountebank`).
  - Simplified `HttpStub` records are translated into the nested JSON
    document Mountebank accepts.
  - The module also builds the management URLs and the `Imposter` returned
    after a POST.
- **Locating a Mountebank installation** (`MbMgmt`).
  - The search takes the first listing entry with a given prefix.
  - The command is `['mb']`, or a standalone node path plus the mb script.
  - The first command found is cached for all later calls.
- **The first, single-file release** (`Legacy`). It has the same three
  concerns with the older behaviour:
  - Only a refused connection is retried.
  - The process is killed rather than interrupted.
  - The imposter calls return nothing.

Inputs from the outside world are parameters:

| Parameter | Stands for |
|---|---|
| `randomPort` | `port_for.select_random()` |
| `parentEnv` | `os.environ` |
| `disk` | `os.listdir` over the directories involved |
| `mbInstalled` | whether `mb help` ran |
| `unpacked` | the file system after the download |
| `attempts` | the socket results and `time.perf_counter()` readings |
| `pid` | the process `Popen` creates |
| `postStatus` | the HTTP status Mountebank answers |

Python strings are `seq<char>`. Because Dafny maps and sequences are
values, the caller's `env` dictionary cannot be changed by the model.

## Model

| member | source | states |
|---|---|---|
| Text.Decimal | mountepy/http_service.py:67 | `str(port)`: a non-empty digit string with no leading zero except for 0 |
| Text.DecimalRoundTrip | mountepy/http_service.py:67 | reading the decimal text back gives the port |
| Text.DecimalInjective | mountepy/http_service.py:67 | different ports print differently |
| Text.DigitPrefixUnique | mountepy/mountebank.py:130 | a digit run followed by a non-digit splits a string in only one way |
| Text.DigitsHaveNoBraces | mountepy/http_service.py:112 | decimal text contains no brace, so formatting introduces none |
| Text.NoOpenBraceNoPlaceholder | mountepy/http_service.py:112 | a token without `{` does not contain `{port}` |
| Text.StartsWith | mountepy/mb_mgmt.py:98 | `s.startswith(p)`: p is a prefix of s (also used at mountepy/mb_mgmt.py:108) |
| Text.Contains | mountepy/http_service.py:112 | `p in s`: p occurs at some position of s (also used for env values at line 122) |
| Text.Format | mountepy/http_service.py:112 | `s.format(port=n)` on a template: each `{port}` becomes the decimal port, every other character is copied; pinned down by FormatPlaceholder, FormatBraceFree and FormatSplice |
| Text.FormatHasNoBraces | mountepy/http_service.py:112 | `str.format(port=…)` on a token whose only fields are `{port}` leaves no brace in the result |
| Text.TemplateConcat | mountepy/http_service.py:112 | two valid tokens concatenated are a valid token |
| Text.FormatBraceFree | mountepy/http_service.py:112 | a token without braces formats to itself |
| Text.FormatConcat | mountepy/http_service.py:112 | formatting distributes over concatenation |
| Text.FormatPlaceholder | mountepy/http_service.py:112 | `'{port}'` formats to the decimal port |
| Text.FormatSplice | mountepy/http_service.py:112 | `a + '{port}' + b` formats to `format(a) + str(port) + format(b)` |
| Text.NoBracesNoPlaceholder | mountepy/http_service.py:112 | brace-free text does not contain `{port}` |
| Text.PlaceholderHasBrace | mountepy/http_service.py:112 | text containing `{port}` has a brace |
| Text.FormatChangesIff | mountepy/http_service.py:111-112 | formatting changes a token exactly when it contains `{port}` (both directions) |
| Text.TemplateWithoutPlaceholderIsBraceFree | mountepy/http_service.py:112 | a valid token without `{port}` has no braces at all |
| ExitHooks.Without | mountepy/http_service.py:93 | `atexit.unregister`: the hook is gone, and every other hook keeps its count |
| ExitHooks.WithoutAbsent | mountepy/http_service.py:93 | unregistering a hook that is not registered changes nothing |
| ExitHooks.WithoutAppended | mountepy/http_service.py:82-93 | unregistering after a register is the same as unregistering without it |
| ExitHooks.RegisterThenUnregister | mountepy/http_service.py:82-93 | register then unregister restores the registry |
| ExitHooks.ExitRegistry.constructor | mountepy/http_service.py:82 | the registry starts empty |
| ExitHooks.ExitRegistry.Register | mountepy/http_service.py:82 | `atexit.register` appends the hook |
| ExitHooks.ExitRegistry.Unregister | mountepy/http_service.py:93 | `atexit.unregister` removes every occurrence of the hook |
| Processes.Spawn | mountepy/http_service.py:81 | `Popen`: a live process with the given pid, command and environment, not yet signalled |
| Processes.SignalAndWait | mountepy/http_service.py:98-100 | signal then `wait`: the process is reaped; a process already reaped is not signalled again |
| Processes.SignalAndWaitIdempotent | mountepy/http_service.py:98-100 | stopping twice is the same as stopping once; at most one signal is sent |
| Readiness.ProbeFrom | mountepy/http_service.py:28-37 | the probe stops at the first attempt that is accepted, or is an error the variant does not retry, or is retried after the deadline; nothing before it settles; it reports which of the three |
| Readiness.Probe | mountepy/http_service.py:28-37 | at least one connect attempt is always made |
| Readiness.ProbeStopsAtFirstSettling | mountepy/http_service.py:29-37 | the probe uses exactly the attempts up to the first settling one |
| Readiness.VariantsAgreeOnRefusals | mountepy/mountepy.py:13-22 | when no connect error other than refusal occurs, the legacy and current probes give the same outcome |
| Readiness.AnyOSErrorNeverFailsToConnect | mountepy/http_service.py:33-37 | the current probe ends only with an open port or a timeout |
| HttpService.FormatPart | mountepy/http_service.py:112 | a token is formatted when it contains `{port}`, kept otherwise; no `{port}` remains |
| HttpService.FormatParts | mountepy/http_service.py:112 | the list comprehension: same length, token by token |
| HttpService.FormatPartsConcat | mountepy/http_service.py:112 | formatting a token list distributes over list concatenation |
| HttpService.FormatProcessCommand | mountepy/http_service.py:110-114 | a string command is returned verbatim; a token list keeps its length and order, no `{port}` remains, a token holding `{port}` becomes its formatted text, and a token is unchanged exactly when it had no `{port}` |
| HttpService.Url | mountepy/http_service.py:67 | `url` is exactly `http://localhost:` followed by `str(port)`, and the text after the prefix reads back as the port |
| HttpService.UrlInjective | mountepy/http_service.py:67 | the URL determines the port |
| HttpService.Given | mountepy/http_service.py:118 | `env or {}`: the given variables, or none when env is None |
| HttpService.ProcessEnvUnique | mountepy/http_service.py:117-130 | the environment description fixes the environment completely |
| HttpService.FormatProcessEnv | mountepy/http_service.py:117-130 | keys are env's alone or parent ∪ env; env's values are formatted and override the parent; parent-only values are kept; no `{port}` remains in env's values |
| HttpService.WaitForPort | mountepy/http_service.py:17-37 | the loop returns the outcome of the probe specification, which is an open port or a timeout |
| HttpService.HttpService.constructor | mountepy/http_service.py:62-70 | the port is the given or random one; url, command and environment are formatted; no process yet |
| HttpService.HttpService.Start | mountepy/http_service.py:72-89 | the process is stored and the hook registered before probing; success iff the probe finds the port open; on failure the service is stopped, its hook removed, and a timeout is raised |
| HttpService.HttpService.Stop | mountepy/http_service.py:91-100 | the hook is unregistered first; with no process it fails; otherwise SIGINT is sent and the process waited for |
| HttpService.HttpService.With | mountepy/http_service.py:102-107 | `with` start then stop: the outcome is the probe's, the service ends stopped, and its hook is removed, so a registry it was not in ends as it began |
| Imposters.StubFor | mountepy/mountebank.py:82-106 | one stub document per `HttpStub`, from which the stub reads back exactly |
| Imposters.ReadStub | mountepy/mountebank.py:82-106 | a readable stub document has one response with the JSON content-type header and one `and` predicate with one clause |
| Imposters.StubsFor | mountepy/mountebank.py:81-107 | one document per stub, in input order |
| Imposters.ConfigFor | mountepy/mountebank.py:75-107 | the config carries the port, protocol `http`, and stubs that read back as the input list |
| Imposters.ReadStubs | mountepy/mountebank.py:81-107 | reading a stub list keeps its length |
| Imposters.ReadStubsRoundTrip | mountepy/mountebank.py:81-107 | reading back the built stub documents gives the input stubs |
| Imposters.ConfigForInjective | mountepy/mountebank.py:75-107 | different port or stubs give different configs |
| Mountebank.MountebankCommandFormat | mountepy/mountebank.py:25 | the command formats to the mb command followed by `--mock --port <port>` |
| Mountebank.ImpostersUrl | mountepy/mountebank.py:26 | `http://localhost:<port>/imposters` |
| Mountebank.NewImposter | mountepy/mountebank.py:129-131 | the imposter keeps its port, and its url is the imposters url, a slash and the port |
| Mountebank.ImposterUrlInjective | mountepy/mountebank.py:130 | an imposter url determines both the Mountebank port and the imposter port |
| Mountebank.SplitAroundSeparator | mountepy/mountebank.py:130 | two digit runs around a non-digit separator split uniquely |
| Mountebank.IsHttpError | mountepy/mountebank.py:39 | `raise_for_status` raises exactly for a 4xx or 5xx status |
| Mountebank.Mountebank.constructor | mountepy/mountebank.py:24-26 | the service runs the mb command with `--mock --port <port>`, inherits the parent's environment, and has the imposters url |
| Mountebank.Mountebank.AddImposter | mountepy/mountebank.py:28-40 | an error status raises; otherwise the imposter has the config's port and url |
| Mountebank.Mountebank.AddMultiStubImposterSimple | mountepy/mountebank.py:64-108 | the loop builds exactly the config for the stubs, in order, and posts it |
| Mountebank.Mountebank.AddImposterSimple | mountepy/mountebank.py:42-62 | port is the given or random one; the config holds exactly the one stub built from the arguments (defaults GET, `/`, 200, empty body) |
| MbMgmt.PathJoin | mountepy/mb_mgmt.py:99 | `os.path.join`: the result ends with the second part, and a relative part is appended after a slash |
| MbMgmt.PathJoinPlain | mountepy/mb_mgmt.py:99 | joining onto a directory without a trailing slash inserts exactly one slash |
| MbMgmt.FirstWithPrefix | mountepy/mb_mgmt.py:98 | `next(...)` over the listing: the first entry with the prefix, or none when no entry has it |
| MbMgmt.GetMbDir | mountepy/mb_mgmt.py:95-103 | a missing directory raises; otherwise success iff an entry starts with `mountebank-v`, the result joins the first one, and the error is the broken-standalone message |
| MbMgmt.GetNodePath | mountepy/mb_mgmt.py:105-113 | same shape for `node-v`, result ending in `/bin/node`, error message naming the directory |
| MbMgmt.MbDirPlain | mountepy/mb_mgmt.py:96-99 | the result is `cache_dir + "/" + e` for the first matching entry e |
| MbMgmt.NodePathPlain | mountepy/mb_mgmt.py:106-109 | the result is `mb_dir + "/" + e + "/bin/node"` for the first matching entry e |
| MbMgmt.GetMbCommand | mountepy/mb_mgmt.py:45-63 | `['mb']` when installed; otherwise setup runs iff the cache directory is missing, and the result is node path then `mb_dir/mountebank/bin/mb`, or the lookup error |
| MbMgmt.MbCommandCache.constructor | mountepy/mb_mgmt.py:12 | the cache starts unset |
| MbMgmt.MbCommandCache.IsEmpty | mountepy/mb_mgmt.py:17 | `not _mb_command`: unset, or set to an empty list |
| MbMgmt.MbCommandCache.Get | mountepy/mb_mgmt.py:15-20 | the manager is asked only while the cache is empty; a result found is cached; a cached value is returned unchanged |
| MbMgmt.GetTwice | mountepy/mb_mgmt.py:15-20 | once a command has been found, the next call returns the same command |
| Legacy.FormatProcessCommand | mountepy/mountepy.py:77-82 | the legacy templating agrees with the current one on every command |
| Legacy.WaitForPort | mountepy/mountepy.py:13-22 | the loop returns the probe outcome of the refused-only variant: an open port, a timeout, or an immediate connect error |
| Legacy.HttpService.constructor | mountepy/mountepy.py:31-45 | the port is the given or random one; the command is formatted; no process yet |
| Legacy.HttpService.Start | mountepy/mountepy.py:47-62 | the process inherits the environment and the hook is registered before probing; success iff the port opens; on failure the service is killed, its hook removed, and the probe's error is raised |
| Legacy.HttpService.Stop | mountepy/mountepy.py:64-68 | the hook is unregistered first; with no process it fails; otherwise the process is killed and waited for |
| Legacy.MbCommandFormat | mountepy/mountepy.py:101 | `['mb', '--port', '{port}']` formats to `['mb', '--port', <port>]` |
| Legacy.SimpleImposterConfig | mountepy/mountepy.py:124-154 | the literal one-stub config equals the multi-stub config of that single stub |
| Legacy.Mountebank.constructor | mountepy/mountepy.py:95-102 | the service runs `mb --port <port>`, and the imposters url is `http://localhost:<port>/imposters` |
| Legacy.Mountebank.AddImposter | mountepy/mountepy.py:104-111 | an error status raises, otherwise nothing is returned |
| Legacy.Mountebank.AddImposterSimple | mountepy/mountepy.py:113-155 | the config carries the port, `http`, and exactly the one stub from the arguments, and is posted |
| Legacy.Mountebank.AddImpostersSimple | mountepy/mountepy.py:157-199 | the loop builds exactly the config for the stubs, in order, and posts it |

## Left out

- `ServiceGroup` (mountepy/http_service.py:133-178, mountepy/mountepy.py:210-255) is left out. It only fans `start`/`stop` out over a thread pool and waits on futures with a timeout. Concurrency is outside the model.
- Real process control is not modelled. `Popen`, `send_signal`, `kill` and `wait` become the abstract `Spawn` and `SignalAndWait` steps over a process value. Blocking, and a process that ignores the signal, are not represented.
- Sockets, `time.sleep` and floating-point `time.perf_counter` are replaced by a sequence of attempts. Each attempt holds a connect result and an integer clock reading taken after the sleep. Timeouts are integers in milliseconds, 5000 by default.
- Wait-loop termination: the wait loops require that some attempt in the given sequence ends the probe (`Readiness.Ends`). A service whose port never opens and whose clock never passes the deadline would loop forever in Python; the model does not represent that run.
- Only `add_imposter`'s POST is modelled, reduced to the HTTP status it is answered with (a parameter).
- `reset`, `Imposter.requests`, `Imposter.wait_for_requests`, `Imposter.destroy` and the `dateutil` timestamp parsing are left out: they are network I/O over `requests` and a foreign parser.
- Mountebank download, tar extraction and the `mb help` check (mountepy/mb_mgmt.py:65-93) are left out. Their effects are the `unpacked` listing and the `mbInstalled` flag.
- Paths are not expanded. `os.path.expanduser` of `CACHE_DIR` is not modelled; the cache directory is a parameter.
- `os.path.exists` is modelled as "the path has a listing". A regular file at the cache path is therefore not distinguished from a directory.
- Text.Format: `str.format` is modelled only for text whose braces all belong to `{port}`. Other fields, `{{`/`}}` escapes and format errors are excluded by the `Formattable` precondition.
- `_format_process_command` uses `isinstance(command, str)` and the legacy version uses `type(command) != str`. They differ only for subclasses of `str`, which the model does not have: a command is a tagged value.
- Mountebank.Mountebank.AddImposter: the config is a typed imposter document rather than an arbitrary dictionary. The `KeyError` for a dictionary without `'port'` cannot arise.
- Mountebank and HTTP stub configurations beyond the simplified `HttpStub` shape (other protocols, predicates and responses) are not modelled.
- Legacy.FormatProcessCommand: its contract is agreement with `HttpService.FormatProcessCommand`, whose own contract states the templating.
- The test suite refers to members the source does not have. Examples are a `stop` timeout, a module-level `CACHE_DIR`, `_check_mb_install` and `cache_clear`, plus `ExistingMountebank` in `mountepy/__init__.py`. The model follows the source.
- HttpService.HttpService.Start, Legacy.HttpService.Start: `Popen` (mountepy/http_service.py:81, mountepy/mountepy.py:54) sits outside the `try`, so when it raises, `start` raises with no exit hook registered and the previous `_service_proc` kept. `Processes.Spawn` always succeeds, so neither `Start` represents a failed spawn.
- MbMgmt.GetMbCommand: `_check_mb_install` (mountepy/mb_mgmt.py:84-93) catches only `FileNotFoundError`; when `mb help` exits non-zero, `CalledProcessError` escapes `get_mb_command`. `mbInstalled` is a boolean, so that third outcome is not represented.
- HttpService.HttpService.constructor, Legacy.HttpService.constructor, Mountebank.Mountebank.constructor, Legacy.Mountebank.constructor: ports are `nat`. Python accepts any value as `port` (mountepy/http_service.py:62-66, mountepy/mountepy.py:40-43) and formats it into the command and url; a negative or non-integer port is not represented.
- Logging is left out.
