# Azure AD authentication for DNF repositories, modelled in Dafny

The `azure_auth` DNF plugin (`sources/azure_auth.py`) authenticates package
downloads from Azure Blob Storage. When DNF configures its repositories, the
plugin gives every repository named in its configuration file (that DNF knows
and has enabled) two HTTP headers: the storage API version
`x-ms-version: 2022-11-02` and `Authorization: Bearer <token>`. The token is
read from `DNF_PLUGIN_AZURE_AUTH_TOKEN` when that is non-empty. Otherwise it
comes from `get_token`, which runs `az account get-access-token` and reads
`accessToken` from its JSON output. Under `sudo`, the first try runs the CLI
as the invoking user through `runuser`, and a retry as the current identity
follows only when that try exits non-zero. The token is fetched lazily and
reused for the remaining repositories once obtained.

The model has five modules:

- `Commands` (`commands.dfy`): `AZ_COMMAND` and the first command line of
  `get_token`.
- `TokenFetch` (`token_fetch.dfy`): `get_token` as a pure function of
  `SUDO_USER`, what each command line does when run (`run: Cmd -> Outcome`),
  and what the CLI's output decodes to (`decode: string -> Extract`). It
  returns the result (token, `None`, or the exception that escapes) and the
  command lines it ran.
- `AuthConfig` (`auth_config.dfy`): `parse_config`, a method whose loop fills
  an insertion-ordered dictionary from the section list.
- `Plugin` (`plugin.dfy`): `config`, a method on class `AzureAuth` whose loop
  walks the configured ids and updates the host's repositories (class `Base`)
  in place. It is proved equal to `Run`, a specification of the loop over an
  abstract sequence of `get_token` results (`fetch(n)` is the result of the
  call made after `n` earlier ones). Lemmas then say what `Run` does.
- `Scenarios` (`scenarios.dfy`): concrete runs (a sudo fallback, a
  pre-generated token, an unconfigured repository).

## Behaviour of the code that the model follows

The model follows the code, including where it departs from what the plugin
is commonly expected to do:

- No `[main] enabled` switch is read and no section is excluded. Every section
  is a repository id (`sources/azure_auth.py:69-70`). Whether a repository
  exists and is enabled is DNF's decision (`sources/azure_auth.py:95-96`).
- The fallback to the current identity happens only after a non-zero exit
  (`CalledProcessError`). A first try whose output cannot be decoded, or whose
  executable is missing, ends in `None` with no retry
  (`NoFallbackAfterDecodeErrorOrMissingBinary`).
- An exception can escape `config()`: a missing `accessToken` field
  (`KeyError`) is never caught. On the retry path, a decode error or a missing
  `az` binary is not caught either. This is because the retry runs inside the
  `except CalledProcessError` handler. Such an exception ends the loop before
  any repository has been changed.
- The token is cached across repositories within one `config` call, not
  fetched per request.
- The token is `accessToken` from the CLI's JSON output, not trimmed text
  output.
- `SUDO_USER` counts as set whenever it is present in the environment, even
  when empty. `DNF_PLUGIN_AZURE_AUTH_TOKEN` counts as set only when non-empty.
  A `get_token` result that is an empty string counts as no token, so the
  next enabled repository calls `get_token` again.

## Model

| member | source | states |
|---|---|---|
| `Commands.FirstCommand` | sources/azure_auth.py:120-125 | The first command runs as exactly the `SUDO_USER` value when that is present, and as the current identity otherwise. Either way the program executed is `AZ_COMMAND`. |
| `TokenFetch.GetToken` | sources/azure_auth.py:111-158 | Every call runs one or two commands, and the first is `FirstCommand(SUDO_USER)`. |
| `TokenFetch.GetTokenOutcomes` | sources/azure_auth.py:127-158 | A second command runs iff `SUDO_USER` is set and the first exited non-zero, and that second command is plain `AZ_COMMAND`. A token is returned iff the last command's output decodes to one, and it is exactly that `accessToken`. A missing `accessToken` always escapes as `KeyError`. A decode error or a missing `az` binary on the retry escapes as `JSONDecodeError` or `FileNotFoundError`; such errors escape from the retry, and only from it. |
| `TokenFetch.RetrySwitchesIdentity` | sources/azure_auth.py:120-146 | Whenever a call runs two commands, `SUDO_USER` is set, both commands run `AZ_COMMAND`, the first as the `SUDO_USER` account and the second as the current identity, so the two differ. |
| `TokenFetch.NoRetryFailuresEndInNone` | sources/azure_auth.py:150-158 | If the first try has a missing binary, a decode error, or a non-zero exit without `SUDO_USER`, the result is `None` after exactly one command. |
| `TokenFetch.AgreesWithAttemptOrder` | sources/azure_auth.py:122-149 | When every command the attempt order reaches either yields a token or exits non-zero, `get_token` returns the same result as trying the attempt order the docstring and the retry comment describe (invoking user, then current identity; sources/azure_auth.py:114-115, 136-137) until the first success. It also runs the same commands. |
| `TokenFetch.NoFallbackAfterDecodeErrorOrMissingBinary` | sources/azure_auth.py:153-158 | Under `sudo`, a first try that cannot be decoded or whose executable is missing is not retried. Read as covering any error, the retry comment (sources/azure_auth.py:136-137) would have both commands tried. |
| `AuthConfig.ParseConfig` | sources/azure_auth.py:64-71 | The map's keys are exactly the configuration's sections, and each maps to an empty option map. Keys iterate in order of first appearance. |
| `AuthConfig.DedupElements` | sources/azure_auth.py:69-70 | The iteration order holds every section exactly once and nothing else. |
| `AuthConfig.DedupOfDistinct` | sources/azure_auth.py:69-70 | With distinct sections, the iteration order is the section order. |
| `Plugin.EnabledKeys` | sources/azure_auth.py:94-96 | An id is processed iff it is configured, DNF has that repository, and the repository is enabled. |
| `Plugin.FirstStop` | sources/azure_auth.py:97-99 | Finds the first `get_token` call that yields a non-empty token or raises. No earlier call does. |
| `Plugin.ReuseToken` | sources/azure_auth.py:97-106 | Once the token is non-empty, `get_token` is not called again. Every remaining enabled configured repository gets `[x-ms-version: 2022-11-02, Authorization: Bearer <token>]`, no warning is logged, and nothing else changes. |
| `Plugin.Search` | sources/azure_auth.py:94-108 | Without a usable token, `get_token` is called once per enabled repository, up to and including the first call that yields a token or raises, and never afterwards. Each repository before that call gets a warning and keeps its headers. On a token, that repository and all later enabled ones get the two headers for it. On an exception, no repository changes and the exception is the outcome. If no call stops the search, every enabled repository is warned about and none changes. |
| `Plugin.InvocationBound` | sources/azure_auth.py:94-98 | The loop never runs more commands than twice its number of `get_token` calls, and never fewer than that number. |
| `Plugin.FetcherRunsOneOrTwoCommands` | sources/azure_auth.py:122-149 | Every `get_token` call the loop makes runs one or two commands. |
| `Plugin.EnvTokenShortCircuits` | sources/azure_auth.py:92-106 | With a non-empty `DNF_PLUGIN_AZURE_AUTH_TOKEN` T, `get_token` is never called and no command runs. No warning is logged, and every enabled configured repository gets headers built from T. |
| `Plugin.HeadersExactOrUntouched` | sources/azure_auth.py:94-108 | No repository is added, removed, enabled or disabled. Repositories that are not configured or not enabled are unchanged. Every changed repository has exactly the two headers for the loop's final token. |
| `Plugin.RaisedLeavesReposUnchanged` | sources/azure_auth.py:97-106 | When an exception escapes the loop, no repository has been changed, and the exception is what the last `get_token` call raised. |
| `Plugin.TriedInCallOrder` | sources/azure_auth.py:97-98 | The loop's command log is the commands of its `get_token` calls, in call order, each call's commands in the order that call ran them. |
| `Plugin.AzureAuth.Config` | sources/azure_auth.py:82-108 | The host's repositories, the warnings, the commands run, the number of `get_token` calls and the escaping exception are exactly those of `Run` over the ids `parse_config` yields, in its order. The commands run are those of its `get_token` calls in call order (`TriedInCallOrder`). |
| `Scenarios.SudoFallbackScenario` | sources/azure_auth.py:122-146 | Under `sudo` as alice, with alice's session rejected, the commands are `runuser -u alice -- az …` and then `az …`, and the token is root's. |
| `Scenarios.SudoFallbackHeadersScenario` | sources/azure_auth.py:94-106 | In that setting, the one configured repository gets `Authorization: Bearer tok1` after one `get_token` call running `runuser -u alice -- az …` and then `az …`. |
| `Scenarios.EnvTokenScenario` | sources/azure_auth.py:92-106 | With `DNF_PLUGIN_AZURE_AUTH_TOKEN=zzz999`, the repository gets `Authorization: Bearer zzz999` and the CLI never runs. |
| `Scenarios.UnconfiguredRepoScenario` | sources/azure_auth.py:94-96 | A repository without a section keeps its headers, and the CLI never runs. |

## Left out

- Spawning processes, `runuser`, the `az` CLI and the token service: each command's effect is the `Outcome` the `run` oracle gives it. The oracle may differ from one `get_token` call to the next. Failures to start a process other than a missing executable (`PermissionError` and other `OSError`s) are not modelled; in the code they escape `get_token` and `config()` as `KeyError` does.
- JSON decoding: `json.loads(stdout)["accessToken"]` is the `decode` parameter. A document that is not an object raises `TypeError`, which escapes just as `KeyError` does; it is folded into `KeyMissing`. An `accessToken` that is not a string (and its Python truthiness) is not modelled. Output that is not valid text (`UnicodeDecodeError`) is not modelled either.
- Reading the environment: `DNF_PLUGIN_AZURE_AUTH_TOKEN` and `SUDO_USER` are optional-string inputs.
- `dnf.Plugin`, `read_config` and libdnf's INI parsing: the configuration enters as its section list. `self.base.repos` is a map from id to a repository's enabled flag and headers.
- Repository objects are values in that map, so aliasing between repository objects is not modelled. A repository object that DNF returns is taken to be truthy.
- Logging: a warning is recorded as the repository id it names. Debug and error messages are not modelled.
- An exception escaping `config` is returned as a value instead of being raised into DNF.
- The integer exit status inside `CalledProcessError` appears only in a log message and is not modelled.
