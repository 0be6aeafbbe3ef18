/** What one call of DLLInjector::InjectDLL does, as functions of how the
    host answers each step: the outcome, the Windows calls in order, and
    the log messages. The method itself is Injector.DllInjector.InjectDll,
    proved against these functions; the lemmas here state what the
    protocol promises. */
module Injection {
  import opened Wrappers
  import opened Text
  import opened Logging
  import opened WinApi
  import opened InjectionErrors

  /** The fixed parts of the messages InjectDLL and CheckDLLExists log. */
  const DllFoundText := "DLL file found: "
  const DllMissingText := "DLL file not found: "
  const WaitingText := "Waiting for injection thread to complete..."
  const ExitCodeZeroText := "DLL injection may have failed (thread exit code is 0)"
  const ThreadCompletedText := "DLL injection thread completed successfully"
  const OpenFailedText := "Failed to open process: "
  const AllocFailedText := "Failed to allocate memory in process: "
  const WriteFailedText := "Failed to write to process memory: "
  const Kernel32FailedText := "Failed to get kernel32.dll handle: "
  const LoadLibraryFailedText := "Failed to get LoadLibraryA address: "
  const ThreadFailedText := "Failed to create remote thread: "
  const WindowsOnlyText := "DLL injection is only supported on Windows"
  const AttemptingText := "Attempting to inject DLL: "
  const IntoProcessText := " into process ID: "

  /** How the host answers one attempt: whether the library file exists,
      whether each Windows call succeeds, the remote thread's exit code,
      and the text GetLastErrorAsString gives after the call that failed. */
  datatype Environment = Environment(
    dllExists: bool,         // std::filesystem::exists(dllPath)
    processOpens: bool,      // OpenProcess returns a handle
    memoryReserved: bool,    // VirtualAllocEx returns an address
    memoryWritten: bool,     // WriteProcessMemory succeeds
    kernel32Found: bool,     // GetModuleHandleA("kernel32.dll") returns a handle
    loadLibraryFound: bool,  // GetProcAddress finds LoadLibraryA
    threadStarted: bool,     // CreateRemoteThread returns a handle
    exitCode: DWord,         // GetExitCodeThread
    lastError: string)

  /** InjectDLL's result. */
  function Outcome(platformSupported: bool, env: Environment): InjectionError {
    if !platformSupported then PlatformNotSupported
    else if !env.dllExists then DllNotFound
    else if !env.processOpens then ProcessOpenFailed
    else if !env.memoryReserved then MemoryAllocationFailed
    else if !env.memoryWritten then MemoryWriteFailed
    else if !env.kernel32Found then Kernel32HandleFailed
    else if !env.loadLibraryFound then LoadLibraryAddrFailed
    else if !env.threadStarted then RemoteThreadFailed
    else Success
  }

  /** One check of the protocol, with the outcome its failure produces. */
  datatype Check = Check(passed: bool, failure: InjectionError)

  /** The checks of one attempt, in the order they are made. */
  function Checks(platformSupported: bool, env: Environment): seq<Check> {
    [Check(platformSupported, PlatformNotSupported),
     Check(env.dllExists, DllNotFound),
     Check(env.processOpens, ProcessOpenFailed),
     Check(env.memoryReserved, MemoryAllocationFailed),
     Check(env.memoryWritten, MemoryWriteFailed),
     Check(env.kernel32Found, Kernel32HandleFailed),
     Check(env.loadLibraryFound, LoadLibraryAddrFailed),
     Check(env.threadStarted, RemoteThreadFailed)]
  }

  /** The failure of the first check that did not pass; Success if all did. */
  function FirstFailure(checks: seq<Check>): (e: InjectionError)
    ensures e == Success <==> forall i :: 0 <= i < |checks| ==> checks[i].passed || checks[i].failure == Success
    ensures e != Success ==>
      exists i :: 0 <= i < |checks| && !checks[i].passed && checks[i].failure == e &&
        (forall j :: 0 <= j < i ==> checks[j].passed || checks[j].failure == Success)
    decreases |checks|
  {
    if checks == [] then Success
    else if !checks[0].passed && checks[0].failure != Success then checks[0].failure
    else
      var e := FirstFailure(checks[1..]);
      assert forall i :: 1 <= i < |checks| ==> checks[i] == checks[1..][i - 1];
      if e != Success then
        var i :| 0 <= i < |checks[1..]| && !checks[1..][i].passed && checks[1..][i].failure == e &&
          (forall j :: 0 <= j < i ==> checks[1..][j].passed || checks[1..][j].failure == Success);
        assert !checks[i + 1].passed && checks[i + 1].failure == e;
        e
      else e
  }

  /** The outcome names the first step that failed, checked in protocol
      order, and is Success exactly when every step succeeded. */
  lemma OutcomeIsFirstFailure(platformSupported: bool, env: Environment)
    ensures Outcome(platformSupported, env) == FirstFailure(Checks(platformSupported, env))
  {
    var checks := Checks(platformSupported, env);
    var e := FirstFailure(checks);
    if e != Success {
      var i :| 0 <= i < |checks| && !checks[i].passed && checks[i].failure == e &&
        (forall j :: 0 <= j < i ==> checks[j].passed || checks[j].failure == Success);
      assert forall j :: 0 <= j < i ==> checks[j].passed;
      assert i == 0 || checks[0].passed;
      assert i <= 1 || checks[1].passed;
      assert i <= 2 || checks[2].passed;
      assert i <= 3 || checks[3].passed;
      assert i <= 4 || checks[4].passed;
      assert i <= 5 || checks[5].passed;
      assert i <= 6 || checks[6].passed;
    } else {
      assert forall j :: 0 <= j < |checks| ==> checks[j].passed;
      assert checks[0].passed && checks[1].passed && checks[2].passed && checks[3].passed;
      assert checks[4].passed && checks[5].passed && checks[6].passed && checks[7].passed;
    }
  }

  /** PROCESS_NOT_FOUND and UNKNOWN_ERROR are never the outcome. */
  lemma OutcomeRange(platformSupported: bool, env: Environment)
    ensures Outcome(platformSupported, env) != ProcessNotFound
    ensures Outcome(platformSupported, env) != UnknownError
  {
  }

  /** The thread's exit code does not affect the outcome: a zero exit code
      is logged as a likely failure, but the result is still Success. */
  lemma ExitCodeIgnored(platformSupported: bool, env: Environment, exitCode: DWord)
    ensures Outcome(platformSupported, env) == Outcome(platformSupported, env.(exitCode := exitCode))
  {
  }

  /** The Windows calls of one attempt, for a path of `pathLength` bytes:
      nothing unless both checks pass, then OpenProcess, and once the
      process handle is held, the calls made with it and the handle's
      release. */
  function AttemptCalls(processId: DWord, pathLength: nat, platformSupported: bool, env: Environment): seq<ApiCall> {
    if !platformSupported || !env.dllExists then []
    else if !env.processOpens then [OpenProcess(processId, false)]
    else [OpenProcess(processId, true)] + ProcessCalls(pathLength + 1, env) + [CloseHandle(ProcessHandle)]
  }

  /** The calls made while the process handle is held: VirtualAllocEx of
      `size` bytes, and once the memory is reserved, the calls made with it
      and its release. */
  function ProcessCalls(size: nat, env: Environment): seq<ApiCall> {
    if !env.memoryReserved then [AllocRemote(size, false)]
    else [AllocRemote(size, true)] + BufferCalls(size, env) + [FreeRemote]
  }

  /** The calls made while the remote memory is held: WriteProcessMemory,
      and once the path is written, the calls that start the loader. */
  function BufferCalls(size: nat, env: Environment): seq<ApiCall> {
    if !env.memoryWritten then [WriteRemote(size, false)]
    else [WriteRemote(size, true)] + LoaderCalls(env)
  }

  /** The lookups of LoadLibraryA, up to the first that fails, and once it
      is found, the remote thread's calls. */
  function LoaderCalls(env: Environment): seq<ApiCall> {
    if !env.kernel32Found then [GetKernel32(false)]
    else if !env.loadLibraryFound then [GetKernel32(true), GetLoadLibrary(false)]
    else [GetKernel32(true), GetLoadLibrary(true)] + ThreadCalls(env)
  }

  /** CreateRemoteThread, and once the thread runs, the wait for it, the
      read of its exit code and the release of its handle. */
  function ThreadCalls(env: Environment): seq<ApiCall> {
    if !env.threadStarted then [StartRemoteThread(false)]
    else [StartRemoteThread(true), WaitThread, ReadExitCode(env.exitCode), CloseHandle(ThreadHandle)]
  }

  /** The calls made with the remote memory on each path, written out. */
  lemma BufferCallsByPath(size: nat, env: Environment)
    ensures var calls, write := BufferCalls(size, env), WriteRemote(size, true);
      if !env.memoryWritten then calls == [WriteRemote(size, false)]
      else if !env.kernel32Found then calls == [write, GetKernel32(false)]
      else if !env.loadLibraryFound then calls == [write, GetKernel32(true), GetLoadLibrary(false)]
      else if !env.threadStarted then
        calls == [write, GetKernel32(true), GetLoadLibrary(true), StartRemoteThread(false)]
      else
        calls == [write, GetKernel32(true), GetLoadLibrary(true), StartRemoteThread(true),
                  WaitThread, ReadExitCode(env.exitCode), CloseHandle(ThreadHandle)]
  {
  }

  /** Each path of an attempt, written out call by call. */
  lemma AttemptCallsByPath(processId: DWord, pathLength: nat, platformSupported: bool, env: Environment)
    ensures var calls := AttemptCalls(processId, pathLength, platformSupported, env);
      var size, open, alloc, write := pathLength + 1, OpenProcess(processId, true), AllocRemote(pathLength + 1, true),
        WriteRemote(pathLength + 1, true);
      var close := [FreeRemote, CloseHandle(ProcessHandle)];
      if !platformSupported || !env.dllExists then calls == []
      else if !env.processOpens then calls == [OpenProcess(processId, false)]
      else if !env.memoryReserved then calls == [open, AllocRemote(size, false), CloseHandle(ProcessHandle)]
      else if !env.memoryWritten then
        calls == [open, alloc, WriteRemote(size, false)] + close
      else if !env.kernel32Found then
        calls == [open, alloc, write, GetKernel32(false)] + close
      else if !env.loadLibraryFound then
        calls == [open, alloc, write, GetKernel32(true), GetLoadLibrary(false)] + close
      else if !env.threadStarted then
        calls == [open, alloc, write, GetKernel32(true), GetLoadLibrary(true), StartRemoteThread(false)] + close
      else
        calls == [open, alloc, write, GetKernel32(true), GetLoadLibrary(true), StartRemoteThread(true),
                  WaitThread, ReadExitCode(env.exitCode), CloseHandle(ThreadHandle)] + close
  {
    var size := pathLength + 1;
    if platformSupported && env.dllExists && env.processOpens && env.memoryReserved {
      var buffer := BufferCalls(size, env);
      BufferCallsByPath(size, env);
      assert AttemptCalls(processId, pathLength, platformSupported, env) ==
        [OpenProcess(processId, true), AllocRemote(size, true)] + buffer + [FreeRemote, CloseHandle(ProcessHandle)];
    }
  }

  /** A call that reported failure. */
  predicate Failed(c: ApiCall) {
    match c
    case OpenProcess(_, ok) => !ok
    case AllocRemote(_, ok) => !ok
    case WriteRemote(_, ok) => !ok
    case GetKernel32(ok) => !ok
    case GetLoadLibrary(ok) => !ok
    case StartRemoteThread(ok) => !ok
    case _ => false
  }

  /** The outcome a failed call leads to. */
  function FailureOf(c: ApiCall): InjectionError {
    match c
    case OpenProcess(_, _) => ProcessOpenFailed
    case AllocRemote(_, _) => MemoryAllocationFailed
    case WriteRemote(_, _) => MemoryWriteFailed
    case GetKernel32(_) => Kernel32HandleFailed
    case GetLoadLibrary(_) => LoadLibraryAddrFailed
    case StartRemoteThread(_) => RemoteThreadFailed
    case _ => UnknownError
  }

  /** The calls made with the remote memory release what they acquire. */
  lemma BufferCallsBalanced(size: nat, env: Environment)
    ensures Balanced(BufferCalls(size, env))
  {
    if env.memoryWritten && env.kernel32Found && env.loadLibraryFound && env.threadStarted {
      var threaded := [WaitThread, ReadExitCode(env.exitCode)];
      NeutralBalanced([], threaded);
      Bracket(StartRemoteThread(true), threaded, CloseHandle(ThreadHandle));
      var thread := ThreadCalls(env);
      assert thread == [StartRemoteThread(true)] + threaded + [CloseHandle(ThreadHandle)];
      Prepend(GetLoadLibrary(true), thread);
      Prepend(GetKernel32(true), [GetLoadLibrary(true)] + thread);
      assert LoaderCalls(env) == [GetKernel32(true)] + ([GetLoadLibrary(true)] + thread);
      Prepend(WriteRemote(size, true), LoaderCalls(env));
    } else {
      NeutralBalanced([], BufferCalls(size, env));
    }
  }

  /** Every path of an attempt releases exactly what it acquired, each
      release giving back the most recently acquired resource still held
      (thread handle, then remote memory, then process handle), and ends
      holding nothing. */
  lemma AttemptBalanced(processId: DWord, pathLength: nat, platformSupported: bool, env: Environment)
    ensures Balanced(AttemptCalls(processId, pathLength, platformSupported, env))
  {
    var size := pathLength + 1;
    if !platformSupported || !env.dllExists || !env.processOpens {
      NeutralBalanced([], AttemptCalls(processId, pathLength, platformSupported, env));
    } else {
      if env.memoryReserved {
        BufferCallsBalanced(size, env);
        Bracket(AllocRemote(size, true), BufferCalls(size, env), FreeRemote);
      } else {
        NeutralBalanced([], ProcessCalls(size, env));
      }
      Bracket(OpenProcess(processId, true), ProcessCalls(size, env), CloseHandle(ProcessHandle));
    }
  }

  /** The remote memory is reserved, and written, for exactly the path and
      its terminating zero byte: `pathLength + 1` bytes. */
  lemma AllocationIsExact(processId: DWord, pathLength: nat, platformSupported: bool, env: Environment)
    ensures forall c :: c in AttemptCalls(processId, pathLength, platformSupported, env) && c.AllocRemote? ==>
      c.size == pathLength + 1
    ensures forall c :: c in AttemptCalls(processId, pathLength, platformSupported, env) && c.WriteRemote? ==>
      c.size == pathLength + 1
  {
    var size := pathLength + 1;
    if platformSupported && env.dllExists && env.processOpens && env.memoryReserved {
      var buffer := BufferCalls(size, env);
      assert forall c :: c in buffer ==> !c.AllocRemote? && (c.WriteRemote? ==> c.size == size) by {
        BufferCallsByPath(size, env);
      }
      var calls := AttemptCalls(processId, pathLength, platformSupported, env);
      assert calls == [OpenProcess(processId, true), AllocRemote(size, true)] + buffer + [FreeRemote, CloseHandle(ProcessHandle)];
      assert forall c :: c in calls <==>
        c in [OpenProcess(processId, true), AllocRemote(size, true)] || c in buffer || c in [FreeRemote, CloseHandle(ProcessHandle)];
    }
  }

  /** Neither the platform check nor the file check touches the target:
      a process handle is requested only when both pass, and when the
      platform check fails nothing else is even checked. */
  lemma PreconditionsComeFirst(processId: DWord, pathLength: nat, platformSupported: bool, env: Environment)
    ensures !platformSupported ==> AttemptCalls(processId, pathLength, platformSupported, env) == []
    ensures !platformSupported ==> Outcome(platformSupported, env) == PlatformNotSupported
    ensures platformSupported && !env.dllExists ==> AttemptCalls(processId, pathLength, platformSupported, env) == []
    ensures (exists c :: c in AttemptCalls(processId, pathLength, platformSupported, env) && c.OpenProcess?) <==>
      platformSupported && env.dllExists
  {
    var calls := AttemptCalls(processId, pathLength, platformSupported, env);
    if platformSupported && env.dllExists {
      assert calls[0].OpenProcess? && calls[0] in calls;
    }
  }

  /** After a call that failed, only releases follow. */
  predicate OnlyReleasesAfterFailure(calls: seq<ApiCall>) {
    forall i, j :: 0 <= i < j < |calls| && Failed(calls[i]) ==> Releases(calls[j]).Some? && !Failed(calls[j])
  }

  /** A call that cannot fail, put before a run in which only releases
      follow a failure. */
  lemma ReleasesAfterFailurePrepend(c: ApiCall, rest: seq<ApiCall>)
    requires !Failed(c) && OnlyReleasesAfterFailure(rest)
    ensures OnlyReleasesAfterFailure([c] + rest)
  {
    var calls := [c] + rest;
    assert forall k :: 1 <= k < |calls| ==> calls[k] == rest[k - 1];
  }

  /** An acquisition that succeeded and its release, around a run in which
      only releases follow a failure. */
  lemma ReleasesAfterFailureBracket(acquire: ApiCall, inner: seq<ApiCall>, release: ApiCall)
    requires !Failed(acquire) && Releases(release).Some? && !Failed(release)
    requires OnlyReleasesAfterFailure(inner)
    ensures OnlyReleasesAfterFailure([acquire] + inner + [release])
  {
    var calls := [acquire] + inner + [release];
    assert forall k :: 1 <= k <= |inner| ==> calls[k] == inner[k - 1];
    assert calls[|calls| - 1] == release;
  }

  /** Once a call fails, the attempt only gives back what it holds: every
      later call is a release, so no later call can fail. */
  lemma FailureIsFinal(processId: DWord, pathLength: nat, platformSupported: bool, env: Environment)
    ensures OnlyReleasesAfterFailure(AttemptCalls(processId, pathLength, platformSupported, env))
  {
    var size := pathLength + 1;
    if platformSupported && env.dllExists && env.processOpens {
      if env.memoryReserved {
        if env.memoryWritten && env.kernel32Found && env.loadLibraryFound {
          ReleasesAfterFailurePrepend(GetLoadLibrary(true), ThreadCalls(env));
          ReleasesAfterFailurePrepend(GetKernel32(true), [GetLoadLibrary(true)] + ThreadCalls(env));
          assert LoaderCalls(env) == [GetKernel32(true)] + ([GetLoadLibrary(true)] + ThreadCalls(env));
        }
        if env.memoryWritten {
          ReleasesAfterFailurePrepend(WriteRemote(size, true), LoaderCalls(env));
        }
        ReleasesAfterFailureBracket(AllocRemote(size, true), BufferCalls(size, env), FreeRemote);
      }
      ReleasesAfterFailureBracket(OpenProcess(processId, true), ProcessCalls(size, env), CloseHandle(ProcessHandle));
    }
  }

  /** Every failed call of the run leads to outcome e, and a run in which
      nothing fails leads to Success. */
  predicate FailsAs(calls: seq<ApiCall>, e: InjectionError) {
    (forall c :: c in calls && Failed(c) ==> FailureOf(c) == e) &&
    ((forall c :: c in calls ==> !Failed(c)) ==> e == Success)
  }

  /** One call that failed with outcome e. */
  lemma FailsAsLeaf(c: ApiCall, e: InjectionError)
    requires Failed(c) && FailureOf(c) == e
    ensures FailsAs([c], e)
  {
    assert c in [c];
  }

  /** A call that cannot fail, put before a run that fails as e. */
  lemma FailsAsPrepend(c: ApiCall, rest: seq<ApiCall>, e: InjectionError)
    requires !Failed(c) && FailsAs(rest, e)
    ensures FailsAs([c] + rest, e)
  {
    assert forall d :: d in [c] + rest <==> d == c || d in rest;
  }

  /** An acquisition that succeeded and its release, around a run that
      fails as e. */
  lemma FailsAsBracket(acquire: ApiCall, inner: seq<ApiCall>, release: ApiCall, e: InjectionError)
    requires !Failed(acquire) && !Failed(release) && FailsAs(inner, e)
    ensures FailsAs([acquire] + inner + [release], e)
  {
    assert forall d :: d in [acquire] + inner + [release] <==> d == acquire || d in inner || d == release;
  }

  /** The kind of the failed call is what the outcome names. When no call
      fails, the outcome is one of the two checks made before any call, or
      Success. */
  lemma FailureNamesOutcome(processId: DWord, pathLength: nat, platformSupported: bool, env: Environment)
    ensures forall c :: c in AttemptCalls(processId, pathLength, platformSupported, env) && Failed(c) ==>
      FailureOf(c) == Outcome(platformSupported, env)
    ensures (forall c :: c in AttemptCalls(processId, pathLength, platformSupported, env) ==> !Failed(c)) ==>
      Outcome(platformSupported, env) in {Success, PlatformNotSupported, DllNotFound}
  {
    var size, e := pathLength + 1, Outcome(platformSupported, env);
    if platformSupported && env.dllExists && env.processOpens {
      if env.memoryReserved {
        if env.memoryWritten {
          if env.kernel32Found {
            if env.loadLibraryFound {
              if !env.threadStarted {
                FailsAsLeaf(StartRemoteThread(false), e);
              }
              FailsAsPrepend(GetLoadLibrary(true), ThreadCalls(env), e);
              FailsAsPrepend(GetKernel32(true), [GetLoadLibrary(true)] + ThreadCalls(env), e);
              assert LoaderCalls(env) == [GetKernel32(true)] + ([GetLoadLibrary(true)] + ThreadCalls(env));
            } else {
              FailsAsLeaf(GetLoadLibrary(false), e);
              FailsAsPrepend(GetKernel32(true), [GetLoadLibrary(false)], e);
            }
          } else {
            FailsAsLeaf(GetKernel32(false), e);
          }
          FailsAsPrepend(WriteRemote(size, true), LoaderCalls(env), e);
        } else {
          FailsAsLeaf(WriteRemote(size, false), e);
        }
        FailsAsBracket(AllocRemote(size, true), BufferCalls(size, env), FreeRemote, e);
      } else {
        FailsAsLeaf(AllocRemote(size, false), e);
      }
      FailsAsBracket(OpenProcess(processId, true), ProcessCalls(size, env), CloseHandle(ProcessHandle), e);
    } else if platformSupported && env.dllExists {
      FailsAsLeaf(OpenProcess(processId, false), e);
    }
  }

  /** GetModuleHandleA, GetProcAddress and CreateRemoteThread are reached
      only after the write succeeded. */
  lemma NoThreadWithoutWrite(processId: DWord, pathLength: nat, platformSupported: bool, env: Environment)
    requires !env.memoryWritten
    ensures forall c :: c in AttemptCalls(processId, pathLength, platformSupported, env) ==>
      !c.GetKernel32? && !c.GetLoadLibrary? && !c.StartRemoteThread?
  {
  }

  /** The messages CheckDLLExists logs. */
  function CheckLog(dllPath: string, found: bool): seq<Message> {
    if found then [Message(Info, DllFoundText + dllPath)]
    else [Message(Err, DllMissingText + dllPath)]
  }

  /** The messages logged once the remote thread runs: the wait, then a
      verdict read from the thread's exit code. */
  function ThreadLog(exitCode: DWord): seq<Message> {
    [Message(Info, WaitingText),
     if exitCode == 0 then Message(Err, ExitCodeZeroText)
     else Message(Info, ThreadCompletedText)]
  }

  /** The messages InjectDLL logs from the OpenProcess call on. */
  function StepsLog(env: Environment): seq<Message> {
    if !env.processOpens then [Message(Err, OpenFailedText + env.lastError)]
    else if !env.memoryReserved then [Message(Err, AllocFailedText + env.lastError)]
    else if !env.memoryWritten then [Message(Err, WriteFailedText + env.lastError)]
    else if !env.kernel32Found then [Message(Err, Kernel32FailedText + env.lastError)]
    else if !env.loadLibraryFound then [Message(Err, LoadLibraryFailedText + env.lastError)]
    else if !env.threadStarted then [Message(Err, ThreadFailedText + env.lastError)]
    else ThreadLog(env.exitCode)
  }

  /** The messages InjectDLL logs once both checks pass. */
  function TargetLog(processId: DWord, dllPath: string, env: Environment): seq<Message> {
    [Message(Info, AttemptingText + dllPath + IntoProcessText + DecimalString(processId as nat))] +
    StepsLog(env)
  }

  /** The messages InjectDLL logs. */
  function AttemptLog(processId: DWord, dllPath: string, platformSupported: bool, env: Environment): seq<Message> {
    if !platformSupported then [Message(Err, WindowsOnlyText)]
    else
      CheckLog(dllPath, env.dllExists) +
      if !env.dllExists then [] else TargetLog(processId, dllPath, env)
  }

  /** Every failed attempt ends its log with an error-level message; a
      successful one ends with an error-level message exactly when the
      thread's exit code is 0. */
  lemma FailuresAreLogged(processId: DWord, dllPath: string, platformSupported: bool, env: Environment)
    ensures var log := AttemptLog(processId, dllPath, platformSupported, env);
      |log| > 0 &&
      (Outcome(platformSupported, env) != Success ==> log[|log| - 1].level == Err) &&
      (Outcome(platformSupported, env) == Success ==> (log[|log| - 1].level == Err <==> env.exitCode == 0))
  {
  }
}
