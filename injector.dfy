/** The DLLInjector class of DLLInjector.h and DLLInjector.cpp. Its only
    state is the logger it shares; every method below changes the logger's
    record and the host's call ledger and nothing else, and is proved
    against the functions of ProcessLookup and Injection. The host's
    answers (the process table, whether each Windows call succeeds, the
    text of the last error) are parameters. */
module Injector {
  import opened Wrappers
  import opened Text
  import opened Logging
  import opened WinApi
  import opened InjectionErrors
  import opened ProcessLookup
  import opened Injection

  /** The messages of the constructor and the destructor. */
  const InitializedText := "DLLInjector initialized"
  const NotWindowsText := "Current platform is not Windows. Limited functionality available."
  const DestroyedText := "DLLInjector destroyed"

  /** The messages the constructor logs. */
  function StartupLog(platformSupported: bool): seq<Message> {
    [Message(Info, InitializedText)] +
    if platformSupported then []
    else [Message(Warning, NotWindowsText)]
  }

  /** One more match found by GetAllProcessIdsByName adds one message. */
  lemma FoundLogAppend(ids: seq<DWord>, id: DWord)
    ensures FoundLog(ids + [id]) ==
      FoundLog(ids) + [Message(Info, InstanceFoundText + DecimalString(id as nat))]
  {
    assert (ids + [id])[..|ids|] == ids;
  }

  /** One more entry read by GetAllProcessIdsByName: the matches among the
      first i + 1 entries are those among the first i, and entry i if it
      matches. */
  lemma MatchingIdsExtend(entries: seq<ProcessEntry>, name: string, i: nat)
    requires i < |entries|
    ensures MatchingIds(entries[..i + 1], name) ==
      MatchingIds(entries[..i], name) + (if NamesMatch(entries[i].exeFile, name) then [entries[i].processId] else [])
  {
    assert entries[..i + 1][..i] == entries[..i];
  }

  class DllInjector {
    /** m_logger, shared with the caller. */
    const logger: Logger
    /** IsPlatformSupported: fixed when the program is built. */
    const platformSupported: bool

    constructor (logger: Logger, platformSupported: bool)
      requires logger.Valid()
      modifies logger
      ensures this.logger == logger && this.platformSupported == platformSupported
      ensures logger.Valid()
      ensures logger.history == old(logger.history) + StartupLog(platformSupported)
    {
      this.logger := logger;
      this.platformSupported := platformSupported;
      new;
      logger.Log(InitializedText);
      if !platformSupported {
        logger.LogWarning(NotWindowsText);
      }
    }

    /** The destructor. */
    method Destroy()
      requires logger.Valid()
      modifies logger
      ensures logger.Valid()
      ensures logger.history == old(logger.history) + [Message(Info, DestroyedText)]
    {
      logger.Log(DestroyedText);
    }

    /** Walks the process table until the first entry whose name matches,
        and closes the snapshot whatever it finds. */
    method GetProcessIdByName(processName: string, host: Host, snapshot: Snapshot) returns (processId: DWord)
      requires logger.Valid()
      modifies logger, host
      ensures processId == ProcessIdOf(platformSupported, snapshot, processName)
      ensures host.calls == old(host.calls) + FirstLookupCalls(platformSupported, snapshot, processName)
      ensures host.held == old(host.held)
      ensures logger.Valid()
      ensures logger.history == old(logger.history) + FirstLookupLog(platformSupported, snapshot, processName)
    {
      logger.Log(SearchingText + Narrow(processName));
      if !platformSupported {
        logger.LogWarning(FirstLookupDemoText);
        return 12345;
      }
      if snapshot.Unavailable? {
        host.Invoke(CreateSnapshot(false));
        logger.LogError(SnapshotFailedText + snapshot.lastError);
        return 0;
      }
      processId := FirstInSnapshot(processName, host, snapshot.entries, snapshot.lastError);
      assert logger.history == old(logger.history) + FirstLookupLog(platformSupported, snapshot, processName);
    }

    /** GetProcessIdByName once the snapshot is taken: walks it, closes it,
        and reports a miss. */
    method FirstInSnapshot(processName: string, host: Host, entries: seq<ProcessEntry>, lastError: string)
      returns (processId: DWord)
      requires logger.Valid()
      modifies logger, host
      ensures processId == FirstOf(entries, processName)
      ensures host.calls == old(host.calls) +
        ([CreateSnapshot(true)] + Enumeration(|entries|, FirstAdvances(entries, processName)) + [CloseHandle(SnapshotHandle)])
      ensures host.held == old(host.held)
      ensures logger.Valid()
      ensures logger.history == old(logger.history) +
        (ScanLog(entries, lastError, processName) + MissingLog(FirstOf(entries, processName), processName))
    {
      ghost var held0 := host.held;
      host.Invoke(CreateSnapshot(true));
      processId := FindFirst(processName, host, entries, lastError);
      StepRelease(held0, SnapshotHandle, CloseHandle(SnapshotHandle));
      host.Invoke(CloseHandle(SnapshotHandle));
      if processId == 0 {
        logger.LogError(ProcessMissingText + Narrow(processName));
      }
    }

    /** The walk of GetProcessIdByName over a table it could take: stops at
        the first entry whose name matches, or at the end of the table. */
    method FindFirst(processName: string, host: Host, entries: seq<ProcessEntry>, lastError: string)
      returns (processId: DWord)
      requires logger.Valid()
      modifies logger, host
      ensures processId == FirstOf(entries, processName)
      ensures host.calls == old(host.calls) + Enumeration(|entries|, FirstAdvances(entries, processName))
      ensures host.held == old(host.held)
      ensures logger.Valid()
      ensures logger.history == old(logger.history) + ScanLog(entries, lastError, processName)
    {
      var n := |entries|;
      host.Invoke(FirstProcess(n > 0));
      if n == 0 {
        logger.LogError(FirstProcessFailedText + lastError);
        return 0;
      }
      processId := 0;
      var i := 0;
      while true
        invariant 0 <= i < n
        invariant forall j :: 0 <= j < i ==> !MatchesAt(entries, processName, j)
        invariant host.held == old(host.held)
        invariant host.calls == old(host.calls) + [FirstProcess(true)] + Advances(n, i)
        invariant logger.Valid()
        invariant logger.history == old(logger.history)
        decreases n - i
      {
        if NamesMatch(entries[i].exeFile, processName) {
          assert FirstMatch(entries, processName) == Some(i) by {
            FirstMatchIsFirst(entries, processName);
            assert MatchesAt(entries, processName, i);
          }
          processId := entries[i].processId;
          logger.Log(ProcessFoundText + DecimalString(processId as nat));
          return;
        }
        var more := i + 1 < n;
        host.Invoke(NextProcess(more));
        assert Advances(n, i) + [NextProcess(more)] == Advances(n, i + 1);
        if !more {
          assert FirstMatch(entries, processName).None? by {
            FirstMatchIsFirst(entries, processName);
            assert forall j :: 0 <= j < n ==> !MatchesAt(entries, processName, j);
          }
          return;
        }
        i := i + 1;
      }
    }

    /** Walks the whole process table and collects the id of every entry
        whose name matches, in table order. */
    method GetAllProcessIdsByName(processName: string, host: Host, snapshot: Snapshot) returns (processIds: seq<DWord>)
      requires logger.Valid()
      modifies logger, host
      ensures processIds == ProcessIdsOf(platformSupported, snapshot, processName)
      ensures host.calls == old(host.calls) + AllLookupCalls(platformSupported, snapshot)
      ensures host.held == old(host.held)
      ensures logger.Valid()
      ensures logger.history == old(logger.history) + AllLookupLog(platformSupported, snapshot, processName)
    {
      processIds := [];
      if !platformSupported {
        logger.LogWarning(AllLookupDemoText);
        processIds := processIds + [12345];
        processIds := processIds + [12346];
        return;
      }
      if snapshot.Unavailable? {
        host.Invoke(CreateSnapshot(false));
        logger.LogError(SnapshotFailedText + snapshot.lastError);
        return;
      }
      processIds := AllInSnapshot(processName, host, snapshot.entries);
    }

    /** GetAllProcessIdsByName once the snapshot is taken: walks all of it
        and closes it. */
    method AllInSnapshot(processName: string, host: Host, entries: seq<ProcessEntry>)
      returns (processIds: seq<DWord>)
      requires logger.Valid()
      modifies logger, host
      ensures processIds == MatchingIds(entries, processName)
      ensures host.calls == old(host.calls) +
        ([CreateSnapshot(true)] + Enumeration(|entries|, |entries|) + [CloseHandle(SnapshotHandle)])
      ensures host.held == old(host.held)
      ensures logger.Valid()
      ensures logger.history == old(logger.history) + FoundLog(processIds)
    {
      ghost var held0 := host.held;
      host.Invoke(CreateSnapshot(true));
      processIds := CollectMatches(processName, host, entries);
      StepRelease(held0, SnapshotHandle, CloseHandle(SnapshotHandle));
      host.Invoke(CloseHandle(SnapshotHandle));
    }

    /** The walk of GetAllProcessIdsByName over a table it could take: reads
        every entry and logs each match as it is found. */
    method CollectMatches(processName: string, host: Host, entries: seq<ProcessEntry>)
      returns (processIds: seq<DWord>)
      requires logger.Valid()
      modifies logger, host
      ensures processIds == MatchingIds(entries, processName)
      ensures host.calls == old(host.calls) + Enumeration(|entries|, |entries|)
      ensures host.held == old(host.held)
      ensures logger.Valid()
      ensures logger.history == old(logger.history) + FoundLog(processIds)
    {
      var n := |entries|;
      processIds := [];
      host.Invoke(FirstProcess(n > 0));
      if n == 0 {
        return;
      }
      ghost var logStart, callStart, held0 := old(logger.history), old(host.calls) + [FirstProcess(true)], host.held;
      var i := 0;
      while true
        invariant 0 <= i < n
        invariant processIds == MatchingIds(entries[..i], processName)
        invariant host.held == held0
        invariant host.calls == callStart + Advances(n, i)
        invariant logger.Valid()
        invariant logger.history == logStart + FoundLog(processIds)
        decreases n - i
      {
        var more;
        processIds, more := CollectStep(processName, host, entries, i, processIds, logStart, callStart);
        if !more {
          return;
        }
        i := i + 1;
      }
    }

    /** One turn of GetAllProcessIdsByName's loop: entry i is looked at,
        then the walk asks for the next entry. */
    method CollectStep(processName: string, host: Host, entries: seq<ProcessEntry>, i: nat,
                       processIds: seq<DWord>, ghost start: seq<Message>, ghost callStart: seq<ApiCall>)
      returns (ids: seq<DWord>, more: bool)
      requires i < |entries| && processIds == MatchingIds(entries[..i], processName)
      requires logger.Valid() && logger.history == start + FoundLog(processIds)
      requires host.calls == callStart + Advances(|entries|, i)
      modifies logger, host
      ensures more == (i + 1 < |entries|)
      ensures ids == MatchingIds(entries[..i + 1], processName)
      ensures !more ==> ids == MatchingIds(entries, processName)
      ensures logger.Valid() && logger.history == start + FoundLog(ids)
      ensures host.calls == callStart + Advances(|entries|, i + 1)
      ensures host.held == old(host.held)
    {
      ids := CollectEntry(processName, entries, i, processIds, start);
      more := i + 1 < |entries|;
      host.Invoke(NextProcess(more));
      if !more {
        assert entries[..i + 1] == entries;
      }
    }

    /** One step of GetAllProcessIdsByName's walk: entry i, if its name
        matches, has its id collected and logged. */
    method CollectEntry(processName: string, entries: seq<ProcessEntry>, i: nat, processIds: seq<DWord>,
                        ghost start: seq<Message>)
      returns (ids: seq<DWord>)
      requires i < |entries| && processIds == MatchingIds(entries[..i], processName)
      requires logger.Valid() && logger.history == start + FoundLog(processIds)
      modifies logger
      ensures ids == MatchingIds(entries[..i + 1], processName)
      ensures logger.Valid() && logger.history == start + FoundLog(ids)
    {
      MatchingIdsExtend(entries, processName, i);
      ids := processIds;
      if NamesMatch(entries[i].exeFile, processName) {
        FoundLogAppend(ids, entries[i].processId);
        ids := ids + [entries[i].processId];
        logger.Log(InstanceFoundText + DecimalString(entries[i].processId as nat));
      }
    }

    /** std::filesystem::exists is the parameter `found`. */
    method CheckDllExists(dllPath: string, found: bool) returns (present: bool)
      requires logger.Valid()
      modifies logger
      ensures present == found
      ensures logger.Valid()
      ensures logger.history == old(logger.history) + CheckLog(dllPath, found)
    {
      present := found;
      if present {
        logger.Log(DllFoundText + dllPath);
      } else {
        logger.LogError(DllMissingText + dllPath);
      }
    }

    /** Loads the library at `dllPath` into process `processId`: checks,
        then acquires the process handle, the remote memory and the remote
        thread in turn, and on every exit gives back what it holds. */
    method InjectDll(processId: DWord, dllPath: string, host: Host, env: Environment) returns (result: InjectionError)
      requires logger.Valid()
      modifies logger, host
      ensures result == Outcome(platformSupported, env)
      ensures host.calls == old(host.calls) + AttemptCalls(processId, |dllPath|, platformSupported, env)
      ensures host.held == old(host.held)
      ensures logger.Valid()
      ensures logger.history == old(logger.history) + AttemptLog(processId, dllPath, platformSupported, env)
    {
      if !platformSupported {
        logger.LogError(WindowsOnlyText);
        return PlatformNotSupported;
      }
      var present := CheckDllExists(dllPath, env.dllExists);
      if !present {
        return DllNotFound;
      }
      result := InjectIntoTarget(processId, dllPath, host, env);
    }

    /** InjectDLL once both checks pass: announces the attempt and opens
        the target (every exit after OpenProcess closes the process handle
        last, so that release is made once, in UseProcessHandle). */
    method InjectIntoTarget(processId: DWord, dllPath: string, host: Host, env: Environment)
      returns (result: InjectionError)
      requires env.dllExists
      requires logger.Valid()
      modifies logger, host
      ensures result == Outcome(true, env)
      ensures host.calls == old(host.calls) + AttemptCalls(processId, |dllPath|, true, env)
      ensures host.held == old(host.held)
      ensures logger.Valid()
      ensures logger.history == old(logger.history) + TargetLog(processId, dllPath, env)
    {
      logger.Log(AttemptingText + dllPath + IntoProcessText + DecimalString(processId as nat));
      result := OpenTarget(processId, |dllPath|, host, env);
    }

    /** OpenProcess, and once the process handle is held, WithProcessHandle
        and the handle's release. */
    method OpenTarget(processId: DWord, pathLength: nat, host: Host, env: Environment)
      returns (result: InjectionError)
      requires env.dllExists
      requires logger.Valid()
      modifies logger, host
      ensures result == Outcome(true, env)
      ensures host.calls == old(host.calls) + AttemptCalls(processId, pathLength, true, env)
      ensures host.held == old(host.held)
      ensures logger.Valid()
      ensures logger.history == old(logger.history) + StepsLog(env)
    {
      ghost var held0 := host.held;
      host.Invoke(OpenProcess(processId, env.processOpens));
      if !env.processOpens {
        logger.LogError(OpenFailedText + env.lastError);
        return ProcessOpenFailed;
      }
      result := UseProcessHandle(pathLength + 1, host, env, held0);
    }

    /** Everything InjectDLL does with the process handle, then the
        handle's release. */
    method UseProcessHandle(size: nat, host: Host, env: Environment, ghost base: seq<Resource>)
      returns (result: InjectionError)
      requires env.dllExists && env.processOpens
      requires logger.Valid()
      requires host.held == base + [ProcessHandle]
      modifies logger, host
      ensures result == Outcome(true, env)
      ensures host.held == base
      ensures host.calls == old(host.calls) + ProcessCalls(size, env) + [CloseHandle(ProcessHandle)]
      ensures logger.Valid()
      ensures logger.history == old(logger.history) + StepsLog(env)
    {
      result := WithProcessHandle(size, host, env, base);
      StepRelease(base, ProcessHandle, CloseHandle(ProcessHandle));
      host.Invoke(CloseHandle(ProcessHandle));
    }

    /** The part of InjectDLL that runs while the process handle is held:
        reserves `size` bytes in the target and, once they are reserved,
        runs WithRemoteMemory and frees them (every exit after
        VirtualAllocEx frees the memory just before closing the process
        handle). */
    method WithProcessHandle(size: nat, host: Host, env: Environment, ghost base: seq<Resource>)
      returns (result: InjectionError)
      requires env.dllExists && env.processOpens
      requires logger.Valid()
      requires host.held == base + [ProcessHandle]
      modifies logger, host
      ensures result == Outcome(true, env)
      ensures host.held == base + [ProcessHandle]
      ensures host.calls == old(host.calls) + ProcessCalls(size, env)
      ensures logger.Valid()
      ensures logger.history == old(logger.history) + StepsLog(env)
    {
      host.Invoke(AllocRemote(size, env.memoryReserved));
      if !env.memoryReserved {
        logger.LogError(AllocFailedText + env.lastError);
        return MemoryAllocationFailed;
      }
      result := WithRemoteMemory(size, host, env, base + [ProcessHandle]);
      StepRelease(base + [ProcessHandle], RemoteBuffer, FreeRemote);
      host.Invoke(FreeRemote);
    }

    /** The part of InjectDLL that runs while the remote memory is held:
        writes the path and, once it is written, starts the loader. */
    method WithRemoteMemory(size: nat, host: Host, env: Environment, ghost base: seq<Resource>)
      returns (result: InjectionError)
      requires env.dllExists && env.processOpens && env.memoryReserved
      requires logger.Valid()
      requires host.held == base + [RemoteBuffer]
      modifies logger, host
      ensures result == Outcome(true, env)
      ensures host.held == base + [RemoteBuffer]
      ensures host.calls == old(host.calls) + BufferCalls(size, env)
      ensures logger.Valid()
      ensures logger.history == old(logger.history) + StepsLog(env)
    {
      host.Invoke(WriteRemote(size, env.memoryWritten));
      if !env.memoryWritten {
        logger.LogError(WriteFailedText + env.lastError);
        return MemoryWriteFailed;
      }
      result := StartLoader(host, env, base + [RemoteBuffer]);
    }

    /** Finds LoadLibraryA through kernel32.dll and, once it is found, runs
        it in the target on a remote thread. */
    method StartLoader(host: Host, env: Environment, ghost held0: seq<Resource>)
      returns (result: InjectionError)
      requires env.dllExists && env.processOpens && env.memoryReserved && env.memoryWritten
      requires logger.Valid()
      requires host.held == held0
      modifies logger, host
      ensures result == Outcome(true, env)
      ensures host.held == held0
      ensures host.calls == old(host.calls) + LoaderCalls(env)
      ensures logger.Valid()
      ensures logger.history == old(logger.history) + StepsLog(env)
    {
      host.Invoke(GetKernel32(env.kernel32Found));
      if !env.kernel32Found {
        logger.LogError(Kernel32FailedText + env.lastError);
        return Kernel32HandleFailed;
      }
      host.Invoke(GetLoadLibrary(env.loadLibraryFound));
      if !env.loadLibraryFound {
        logger.LogError(LoadLibraryFailedText + env.lastError);
        return LoadLibraryAddrFailed;
      }
      result := RunRemoteThread(host, env, held0);
    }

    /** Starts the remote thread at LoadLibraryA and, once it runs, waits
        for it. */
    method RunRemoteThread(host: Host, env: Environment, ghost held0: seq<Resource>)
      returns (result: InjectionError)
      requires env.dllExists && env.processOpens && env.memoryReserved && env.memoryWritten
      requires env.kernel32Found && env.loadLibraryFound
      requires logger.Valid()
      requires host.held == held0
      modifies logger, host
      ensures result == Outcome(true, env)
      ensures host.held == held0
      ensures host.calls == old(host.calls) + ThreadCalls(env)
      ensures logger.Valid()
      ensures logger.history == old(logger.history) + StepsLog(env)
    {
      host.Invoke(StartRemoteThread(env.threadStarted));
      if !env.threadStarted {
        logger.LogError(ThreadFailedText + env.lastError);
        return RemoteThreadFailed;
      }
      AwaitRemoteThread(host, env.exitCode, held0);
      return Success;
    }

    /** Waits for the remote thread, reads its exit code, logs the verdict
        and closes the thread's handle. */
    method AwaitRemoteThread(host: Host, exitCode: DWord, ghost base: seq<Resource>)
      requires logger.Valid()
      requires host.held == base + [ThreadHandle]
      modifies logger, host
      ensures host.held == base
      ensures host.calls == old(host.calls) + [WaitThread, ReadExitCode(exitCode), CloseHandle(ThreadHandle)]
      ensures logger.Valid()
      ensures logger.history == old(logger.history) + ThreadLog(exitCode)
    {
      logger.Log(WaitingText);
      host.Invoke(WaitThread);
      host.Invoke(ReadExitCode(exitCode));
      if exitCode == 0 {
        logger.LogError(ExitCodeZeroText);
      } else {
        logger.Log(ThreadCompletedText);
      }
      StepRelease(base, ThreadHandle, CloseHandle(ThreadHandle));
      host.Invoke(CloseHandle(ThreadHandle));
    }
  }
}
