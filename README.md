# Syfer injector core, modelled in Dafny

This project models the core of the Syfer DLL injector:

- **Process lookup.**
  - `DLLInjector::GetProcessIdByName` walks a process-table snapshot and stops at the first entry whose executable name matches the query under `_wcsicmp`.
  - `DLLInjector::GetAllProcessIdsByName` walks all of the snapshot and collects every match in table order.
- **The injection protocol.** `DLLInjector::InjectDLL` runs a chain of steps: platform check, file check, `OpenProcess`, `VirtualAllocEx` of `length + 1` bytes, `WriteProcessMemory`, `GetModuleHandleA`, `GetProcAddress`, `CreateRemoteThread`, then the wait and the clean-up.
- **The error catalogue.** This is the `InjectionError` enum and `DLLInjector::GetErrorMessage`.
- **The logger's in-memory record.**
  - `Logger::Log` formats `"<timestamp> [<LEVEL>] <message>"` and appends it to `m_logs`.
  - `LogWarning`, `LogError` and `LogDebug` call `Log` with their level.
  - The model also covers `LogLevelToString`, the millisecond suffix of `GetTimestamp`, and `GetLogs`.

Every Windows call is recorded on a `WinApi.Host` as an `ApiCall`. A call that can fail and whose result the code checks records whether it succeeded. The wait, the read of the exit code and the releases, whose results the code ignores, record no success. What the calls acquire and release is kept on a ledger in acquisition order:
- the snapshot handle;
- the process handle;
- the remote memory;
- the thread handle.

`Balanced(calls)` states three things about a run of calls:
- each call releases only the resource acquired most recently among those still held;
- the run ends holding nothing;
- hence everything is released in reverse order of acquisition.

Whether each call succeeds is a parameter:
- `Injection.Environment` for `InjectDLL`;
- `ProcessLookup.Snapshot` for the lookups.

The text of `GetLastErrorAsString` is part of that parameter too.

Modules:

- `text.dfy` (`Text`): decimal printing of unsigned numbers and the three-digit zero-filled field, each with its parser.
- `logging.dfy` (`Logging`): the `LogLevel` enum, `LogLevelToString`, the timestamp, the line format and its parser, and `class Logger`.
  - `logs` is `m_logs`.
  - The ghost `history` lists the messages logged.
  - `Valid()` states that the k-th line is the k-th message formatted with the k-th instant of the clock.
- `injection_errors.dfy` (`InjectionErrors`): the enum, its codes and `GetErrorMessage`.
- `win_api.dfy` (`WinApi`): `DWORD`, the calls, the ledger and `class Host`.
- `process_lookup.dfy` (`ProcessLookup`): the specification of both lookups. It defines:
  - the matching rule;
  - the first match and all matches;
  - the calls each lookup makes;
  - the messages each lookup logs.
- `injection.dfy` (`Injection`): the specification of `InjectDLL`, as functions of the environment. It defines the outcome, the calls and the messages.
- `injector.dfy` (`Injector`): `class DllInjector`, with the loops and the step-by-step acquisition and release, proved against the two modules above.

The model follows the code in three places where its behaviour is easy to misread:
- On Windows, `GetProcessIdByName` returns 0 both when the snapshot cannot be taken and when nothing matches, so a caller cannot tell the two apart (`ProcessLookup.ZeroIsAmbiguous`).
- On builds without Windows, the lookups return fixed demo ids rather than reporting that the capability is missing. `GetProcessIdByName` returns 12345, and `GetAllProcessIdsByName` returns 12345 and 12346.
- A zero exit code of the remote thread is logged at ERROR level, not as a warning, and the result is still `SUCCESS` (`Injection.ExitCodeIgnored`, `Injection.FailuresAreLogged`).

## Model

| member | source | states |
|---|---|---|
| Text.DecimalRoundTrip | DLLInjector.cpp:48 | The decimal form of an id is non-empty digits, has no leading zero except for 0 itself, and reads back as the id. |
| Text.DecimalStringInjective | DLLInjector.cpp:131 | Distinct process ids print differently in the log. |
| Text.ZeroPad3Digits | Logger.cpp:81 | `setw(3)` with `setfill('0')` gives exactly three digits that read back as the milliseconds. |
| Logging.LevelOfCode | Logger.h:15-20 | Exactly the enum values 0 to 3 name a level, and that level carries the value. |
| Logging.LevelCodeRoundTrip | Logger.h:15-20 | Each of the four levels is the level of its own value. |
| Logging.LevelNameOfCode | Logger.cpp:86-98 | `LogLevelToString` is "UNKNOWN" exactly for the values outside the four levels, and otherwise is the level's name. |
| Logging.LevelNameInjective | Logger.cpp:86-98 | The four names INFO, WARNING, ERROR and DEBUG are pairwise distinct. |
| Logging.TimestampFormat | Logger.cpp:64-84 | A timestamp is the local time, a '.', and three digits whose value is the epoch milliseconds modulo 1000. |
| Logging.ParseRender | Logger.cpp:28-31 | A line `timestamp + " [" + level + "] " + message` parses back to its timestamp, level and message. |
| Logging.RenderInjective | Logger.cpp:31 | Two entries whose timestamps have the same length give equal lines only when the entries are equal. |
| Logging.FormatsAppend | Logger.cpp:34 | If one more message is logged, the new record is the old record plus exactly that message's line. |
| Logging.Logger.constructor | Logger.cpp:6-15 | After construction the record is exactly one line, "Logger initialized" at INFO. The defaults are "SyferInjector.log" and console output on. |
| Logging.Logger.Log | Logger.cpp:25-46 | Appends the message with its level (INFO by default) to the history and keeps `Valid()`. With `FormatsAppend`, this gives exactly one new formatted line and leaves earlier lines unchanged. |
| Logging.Logger.LogWarning | Logger.cpp:48-50 | Same as `Log` at WARNING. |
| Logging.Logger.LogError | Logger.cpp:52-54 | Same as `Log` at ERR. |
| Logging.Logger.LogDebug | Logger.cpp:56-58 | Same as `Log` at DEBUG. |
| Logging.Logger.Shutdown | Logger.cpp:17-23 | The destructor logs "Logger shutting down" at INFO. |
| Logging.Logger.GetLogs | Logger.cpp:60-62 | Changes nothing. It returns one line per logged message, and line k parses back to message k with its level and the k-th timestamp. |
| InjectionErrors.FromCode | DLLInjector.h:22-34 | Exactly the codes 0 to 10 name a variant. |
| InjectionErrors.CodesRoundTrip | DLLInjector.h:22-34 | Each variant decodes from its own code, and a decoded variant carries the code it came from. |
| InjectionErrors.CodesDistinct | DLLInjector.h:22-34 | The eleven variants have pairwise distinct codes. |
| InjectionErrors.ErrorMessageOfCode | DLLInjector.cpp:213-238 | `GetErrorMessage` is total. It gives "Unknown error" exactly for `UNKNOWN_ERROR` and out-of-range values, and each named variant's fixed text otherwise. |
| InjectionErrors.ErrorMessageInjective | DLLInjector.cpp:213-238 | Distinct variants have distinct messages. |
| ProcessLookup.LowerAscii | DLLInjector.cpp:45 | Folds exactly A-Z to a-z and leaves every other character as it is. |
| ProcessLookup.NamesMatchIsFoldedEquality | DLLInjector.cpp:45 | A name matches exactly when the two names are equal after ASCII folding. |
| ProcessLookup.NamesMatchIsEquivalence | DLLInjector.cpp:45 | Name matching is reflexive, symmetric and transitive. |
| ProcessLookup.NamesMatchExamples | DLLInjector.cpp:45 | "Cod.EXE" matches "cod.exe", and "cod" does not. |
| ProcessLookup.FirstMatchIsFirst | DLLInjector.cpp:43-52 | The first match matches and no earlier entry matches. There is no first match exactly when no entry matches. |
| ProcessLookup.MatchPositions | DLLInjector.cpp:86-95 | The positions returned are exactly the matching entries, strictly increasing. |
| ProcessLookup.MatchingIdsArePositions | DLLInjector.cpp:86-95 | The collected ids are, one for one and in order, the ids of the matching entries. |
| ProcessLookup.FirstMatchStartsAllMatches | DLLInjector.cpp:43-52 | The first match is the first of all matches, and there is none exactly when there are no matches. |
| ProcessLookup.ZeroIsAmbiguous | DLLInjector.cpp:32-64 | On Windows, a failed snapshot and a miss both give 0. Any other id is the first match's id. |
| ProcessLookup.LookupsAgree | DLLInjector.cpp:28-106 | The single lookup returns the first id of the collecting lookup, or 0 when that list is empty. |
| ProcessLookup.NarrowKeepsLowBytes | DLLInjector.cpp:29 | Narrowing the wide name keeps its length and the low byte of each character. |
| ProcessLookup.AdvancesReport | DLLInjector.cpp:52 | The k-th `Process32NextW` call reports whether entry k + 1 exists. |
| ProcessLookup.FirstLookupStopsAtMatch | DLLInjector.cpp:43-52 | The single lookup reads entries up to and including the first match and no further, or all entries when none matches. |
| ProcessLookup.AllLookupReadsAll | DLLInjector.cpp:86-94 | The collecting lookup reads every entry. |
| ProcessLookup.LookupsCloseSnapshot | DLLInjector.cpp:58 | Both lookups close a snapshot they created on every path (also line 97) and acquire nothing else. |
| Injection.FirstFailure | DLLInjector.cpp:119-181 | The result is Success exactly when no check failed. Otherwise it is the failure of a check that failed with every earlier check passing. |
| Injection.OutcomeIsFirstFailure | DLLInjector.cpp:119-181 | The outcome of `InjectDLL` is the failure of the first step that failed, in protocol order. |
| Injection.OutcomeRange | DLLInjector.cpp:119-211 | `PROCESS_NOT_FOUND` and `UNKNOWN_ERROR` are never the outcome. |
| Injection.ExitCodeIgnored | DLLInjector.cpp:188-202 | The thread's exit code does not change the outcome. |
| Injection.AttemptCallsByPath | DLLInjector.cpp:135-200 | Gives the exact sequence of Windows calls on each of the nine paths, including the releases: memory freed before the process handle is closed, and the thread handle closed first. |
| Injection.AttemptBalanced | DLLInjector.cpp:135-200 | Every path releases exactly what it acquired, most recent first, and ends holding nothing. |
| Injection.AllocationIsExact | DLLInjector.cpp:142-150 | Every allocation and every write in the remote process is `length + 1` bytes. |
| Injection.PreconditionsComeFirst | DLLInjector.cpp:121-135 | The platform check comes before any other check. A process handle is requested exactly when both checks pass. |
| Injection.FailureIsFinal | DLLInjector.cpp:136-181 | After a failed call, only releases follow. |
| Injection.FailureNamesOutcome | DLLInjector.cpp:136-181 | A failed call's kind is the outcome. When no call fails, the outcome is Success or one of the two checks. |
| Injection.NoThreadWithoutWrite | DLLInjector.cpp:150-175 | Without a successful write, neither loader lookup nor the thread is attempted. |
| Injection.FailuresAreLogged | DLLInjector.cpp:119-195 | Every failed attempt ends its log with an ERROR message. A successful one does so exactly when the exit code is 0. |
| Injector.DllInjector.constructor | DLLInjector.cpp:8-14 | Logs "DLLInjector initialized", plus the warning when the platform is not supported. |
| Injector.DllInjector.Destroy | DLLInjector.cpp:16-18 | Logs "DLLInjector destroyed". |
| Injector.DllInjector.GetProcessIdByName | DLLInjector.cpp:28-70 | Returns `ProcessIdOf`: the first match's id, 0, or the demo id. It makes exactly `FirstLookupCalls`, leaves the ledger as it was, and logs exactly `FirstLookupLog`. |
| Injector.DllInjector.FirstInSnapshot | DLLInjector.cpp:33-64 | With a snapshot taken: walks it, closes it and reports a miss. |
| Injector.DllInjector.FindFirst | DLLInjector.cpp:40-56 | The do-while loop returns the first match's id, or 0. It makes exactly the enumeration calls up to that match and logs the find, or the empty table. |
| Injector.DllInjector.GetAllProcessIdsByName | DLLInjector.cpp:72-106 | Returns `ProcessIdsOf`: every match's id in order, empty when the snapshot fails, or the demo ids. It makes exactly `AllLookupCalls` and logs one message per instance. |
| Injector.DllInjector.AllInSnapshot | DLLInjector.cpp:76-97 | With a snapshot taken: collects every match and closes the snapshot. |
| Injector.DllInjector.CollectMatches | DLLInjector.cpp:83-95 | The do-while loop collects exactly `MatchingIds` and reads the whole table. |
| Injector.DllInjector.CollectStep | DLLInjector.cpp:87-94 | One turn of the loop: entry i is examined, then `Process32NextW` reports whether entry i + 1 exists. |
| Injector.DllInjector.CollectEntry | DLLInjector.cpp:88-93 | A matching entry's id is pushed and logged. Any other entry changes nothing. |
| Injector.DllInjector.CheckDllExists | DLLInjector.cpp:108-117 | Returns whether the file exists and logs the find or the miss. |
| Injector.DllInjector.InjectDll | DLLInjector.cpp:119-202 | Returns `Outcome`, makes exactly `AttemptCalls` with `length` as the path length, ends with the ledger as it found it, and logs exactly `AttemptLog`. |
| Injector.DllInjector.InjectIntoTarget | DLLInjector.cpp:131-202 | Announces the attempt, then runs the Windows steps. |
| Injector.DllInjector.OpenTarget | DLLInjector.cpp:135-139 | `OpenProcess`, returning `PROCESS_OPEN_FAILED` with nothing held when it fails. |
| Injector.DllInjector.UseProcessHandle | DLLInjector.cpp:141-200 | Everything done with the process handle, which is then closed last on every path. |
| Injector.DllInjector.WithProcessHandle | DLLInjector.cpp:141-199 | `VirtualAllocEx`, returning `MEMORY_ALLOCATION_FAILED` when it fails. Once the memory is held, it is freed on every later path. |
| Injector.DllInjector.WithRemoteMemory | DLLInjector.cpp:149-181 | `WriteProcessMemory`, returning `MEMORY_WRITE_FAILED` when it fails, then the loader. |
| Injector.DllInjector.StartLoader | DLLInjector.cpp:157-181 | `GetModuleHandleA` and `GetProcAddress`, each failure with its own error. |
| Injector.DllInjector.RunRemoteThread | DLLInjector.cpp:174-202 | `CreateRemoteThread`, returning `REMOTE_THREAD_FAILED` when it fails, and `SUCCESS` once the thread ran. |
| Injector.DllInjector.AwaitRemoteThread | DLLInjector.cpp:183-198 | Waits, reads the exit code, logs the verdict, and closes the thread handle. |

## Left out

- The real effects of the Windows API calls (`CreateToolhelp32Snapshot`, `Process32FirstW`/`Process32NextW`, `OpenProcess`, `VirtualAllocEx`, `WriteProcessMemory`, `GetModuleHandleA`, `GetProcAddress`, `CreateRemoteThread`, `WaitForSingleObject`, `GetExitCodeThread`, `VirtualFreeEx`, `CloseHandle`): each is an `ApiCall`. For the calls whose result the code checks, success is a parameter. Nothing about the target process is modelled.
- `GetLastErrorAsString` (`FormatMessageA`, `LocalFree`) is foreign and gives only diagnostic text. Its result is an opaque string parameter, and each path uses it at most once.
- `std::filesystem::exists` in `CheckDLLExists` is a boolean parameter. Only its boolean result is modelled. The `filesystem_error` it throws on an operating-system error other than not-found is not modelled. Neither `CheckDLLExists` nor `InjectDLL` catches that error, so `InjectDLL` can leave with no outcome, before it acquires anything.
- `IsPlatformSupported` is a build-time constant. It is the `platformSupported` field, fixed at construction.
- The `#else` branch of `InjectDLL` (the sleep and the "Simulating" messages) is not modelled. The platform check before it always returns first on such builds, so it never runs.
- The lookups' demo branches are modelled, but only by their fixed result and warning.
- The `INFINITE` wait is modelled as terminating. No timeout exists in the code.
- Logger I/O: opening, writing and flushing the file, console output and the mutex are not modelled. Entries are made one at a time.
- The system clock and the local-time rendering of `put_time` are not modelled. The clock is the `Logger.clock` function, which gives the instant of the k-th entry; its local-time string is opaque.
- Wide strings are `seq<char>`, narrowed by keeping the low byte, and no locale is modelled. `_wcsicmp` is modelled as folding only ASCII letters. A Dafny `char` is a Unicode scalar value, while the source's `wchar_t` is a UTF-16 unit. A name with a character outside the Basic Multilingual Plane is therefore one `char` here but two units in the source, so narrowing it gives one byte here and two there. Such names are not represented unit for unit; this affects only the text of the log.
- Logging.Logger.Log: the contract states the new `history` and that `Valid()` is kept. The new `logs` follows from these through `Logging.FormatsAppend` rather than being stated on the method.
- WinApi.Host: the code ignores the results of `WaitForSingleObject`, `GetExitCodeThread`, `VirtualFreeEx` and `CloseHandle` (DLLInjector.cpp lines 58, 97, 145, 152-153, 185, 189 and 198-200). The model treats every release as giving its resource back (`WinApi.Step`). The ledger therefore records the releases issued, not releases confirmed to have succeeded, and `Injection.AttemptBalanced` and `ProcessLookup.LookupsCloseSnapshot` prove that every release is issued.
- WinApi.Host: `held` is tied to `calls` only through each call's `Step`. The class keeps no invariant that `held == Replay([], calls)`.
- `main.cpp` is not part of this model. It covers the console presentation, the input waits, the spinner threads and `GetExecutablePath`.
