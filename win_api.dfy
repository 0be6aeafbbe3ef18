/** The Windows calls the injector makes, seen only through what they
    acquire and release. Nothing here models what a call does inside the
    target process. A call whose result the injector checks is recorded
    with whether it succeeded; the wait, the exit-code read and the
    releases, whose results it ignores, are recorded as issued. The
    resources left held form a ledger kept in acquisition order. */
module WinApi {
  import opened Wrappers

  /** DWORD: an unsigned 32-bit value (process ids, thread exit codes). */
  newtype DWord = x: int | 0 <= x < 0x1_0000_0000

  /** What a call can leave behind that must be given back: the
      process-table snapshot handle, the target's process handle, the
      memory reserved inside the target, and the remote thread's handle. */
  datatype Resource = SnapshotHandle | ProcessHandle | RemoteBuffer | ThreadHandle

  datatype ApiCall =
    | CreateSnapshot(created: bool)            // CreateToolhelp32Snapshot
    | FirstProcess(found: bool)                // Process32FirstW
    | NextProcess(found: bool)                 // Process32NextW
    | OpenProcess(processId: DWord, granted: bool)
    | AllocRemote(size: nat, reserved: bool)  // VirtualAllocEx
    | WriteRemote(size: nat, written: bool)    // WriteProcessMemory
    | GetKernel32(found: bool)                 // GetModuleHandleA("kernel32.dll")
    | GetLoadLibrary(found: bool)              // GetProcAddress(kernel32, "LoadLibraryA")
    | StartRemoteThread(started: bool)         // CreateRemoteThread
    | WaitThread                               // WaitForSingleObject(thread, INFINITE)
    | ReadExitCode(exitCode: DWord)            // GetExitCodeThread
    | FreeRemote                               // VirtualFreeEx(..., MEM_RELEASE)
    | CloseHandle(handle: Resource)

  /** The resource a successful call hands out. */
  function Acquires(c: ApiCall): Option<Resource> {
    match c
    case CreateSnapshot(ok) => if ok then Some(SnapshotHandle) else None
    case OpenProcess(_, ok) => if ok then Some(ProcessHandle) else None
    case AllocRemote(_, ok) => if ok then Some(RemoteBuffer) else None
    case StartRemoteThread(ok) => if ok then Some(ThreadHandle) else None
    case _ => None
  }

  /** The resource a call gives back. */
  function Releases(c: ApiCall): Option<Resource> {
    match c
    case FreeRemote => Some(RemoteBuffer)
    case CloseHandle(r) => Some(r)
    case _ => None
  }

  /** A call that neither acquires nor releases anything. */
  predicate Neutral(c: ApiCall) {
    Acquires(c).None? && Releases(c).None?
  }

  /** A call may be made when it releases nothing, or releases the resource
      acquired most recently among those still held. */
  predicate CanIssue(held: seq<Resource>, c: ApiCall) {
    Releases(c).Some? ==> |held| > 0 && held[|held| - 1] == Releases(c).value
  }

  /** The ledger after one call. */
  function Step(held: seq<Resource>, c: ApiCall): seq<Resource> {
    match Releases(c)
    case Some(_) => if held == [] then held else held[..|held| - 1]
    case None =>
      match Acquires(c)
      case Some(r) => held + [r]
      case None => held
  }

  /** The ledger after a run of calls. */
  function Replay(held: seq<Resource>, calls: seq<ApiCall>): seq<Resource>
    decreases |calls|
  {
    if calls == [] then held
    else Step(Replay(held, calls[..|calls| - 1]), calls[|calls| - 1])
  }

  /** Every call of the run releases only what is held, most recent first. */
  predicate Disciplined(held: seq<Resource>, calls: seq<ApiCall>)
    decreases |calls|
  {
    calls == [] ||
    (Disciplined(held, calls[..|calls| - 1]) &&
     CanIssue(Replay(held, calls[..|calls| - 1]), calls[|calls| - 1]))
  }

  /** Starting with nothing held, the run releases only what it acquired,
      in reverse order, and ends holding nothing. */
  predicate Balanced(calls: seq<ApiCall>) {
    Disciplined([], calls) && Replay([], calls) == []
  }

  lemma {:induction false} ReplayAppend(held: seq<Resource>, a: seq<ApiCall>, b: seq<ApiCall>)
    ensures Replay(held, a + b) == Replay(Replay(held, a), b)
    ensures Disciplined(held, a + b) <==> Disciplined(held, a) && Disciplined(Replay(held, a), b)
    decreases |b|
  {
    if b == [] {
      assert a + b == a;
    } else {
      var b' := b[..|b| - 1];
      assert (a + b)[..|a + b| - 1] == a + b';
      assert (a + b)[|a + b| - 1] == b[|b| - 1];
      ReplayAppend(held, a, b');
    }
  }

  /** Resources held from before a run stay below it untouched: a
      disciplined run behaves the same on top of them. */
  lemma {:induction false} ReplayFrame(base: seq<Resource>, held: seq<Resource>, calls: seq<ApiCall>)
    requires Disciplined(held, calls)
    ensures Disciplined(base + held, calls)
    ensures Replay(base + held, calls) == base + Replay(held, calls)
    decreases |calls|
  {
    if calls != [] {
      var init := calls[..|calls| - 1];
      var c := calls[|calls| - 1];
      ReplayFrame(base, held, init);
      var h := Replay(held, init);
      if Releases(c).Some? && h != [] {
        assert (base + h)[..|base + h| - 1] == base + h[..|h| - 1];
      }
      if Releases(c).None? && Acquires(c).Some? {
        assert (base + h) + [Acquires(c).value] == base + (h + [Acquires(c).value]);
      }
    }
  }

  /** A run of calls that touch no resource leaves the ledger as it was. */
  lemma {:induction false} NeutralBalanced(held: seq<Resource>, calls: seq<ApiCall>)
    requires forall i :: 0 <= i < |calls| ==> Neutral(calls[i])
    ensures Disciplined(held, calls) && Replay(held, calls) == held
    decreases |calls|
  {
    if calls != [] {
      NeutralBalanced(held, calls[..|calls| - 1]);
    }
  }

  /** A run of one call is one step. */
  lemma Single(held: seq<Resource>, c: ApiCall)
    ensures Replay(held, [c]) == Step(held, c)
    ensures Disciplined(held, [c]) <==> CanIssue(held, c)
  {
    assert [c][..0] == [];
    assert Disciplined(held, []) && Replay(held, []) == held;
  }

  /** Acquiring a resource, running a balanced inner part, then releasing
      that resource is balanced: the shape of every path through the
      lookups and the injection. */
  lemma Bracket(acquire: ApiCall, inner: seq<ApiCall>, release: ApiCall)
    requires Releases(acquire).None? && Acquires(acquire).Some?
    requires Releases(release) == Acquires(acquire)
    requires Balanced(inner)
    ensures Balanced([acquire] + inner + [release])
  {
    var r := Acquires(acquire).value;
    Single([], acquire);
    assert [r] + [] == [r];
    ReplayFrame([r], [], inner);
    assert Disciplined([r], inner) && Replay([r], inner) == [r];
    ReplayAppend([], [acquire], inner);
    ReplayAppend([], [acquire] + inner, [release]);
    Single([r], release);
    assert [r][..0] == [];
    assert Replay([], [acquire]) == [r];
    assert Replay([], [acquire] + inner) == [r];
    assert Disciplined([], [acquire] + inner);
    assert CanIssue([r], release);
    assert Step([r], release) == [];
  }

  /** One call that touches no resource, followed by a balanced run. */
  lemma Prepend(c: ApiCall, rest: seq<ApiCall>)
    requires Neutral(c) && Balanced(rest)
    ensures Balanced([c] + rest)
  {
    Single([], c);
    ReplayAppend([], [c], rest);
  }

  /** Giving back the resource on top of the ledger removes just it. */
  lemma StepRelease(held: seq<Resource>, r: Resource, c: ApiCall)
    requires Releases(c) == Some(r)
    ensures Step(held + [r], c) == held
  {
    assert (held + [r])[..|held|] == held;
  }

  /** The processes of the host, seen through the calls made to them. */
  class Host {
    /** Every call made so far, in order. */
    var calls: seq<ApiCall>
    /** What those calls left held, in acquisition order. */
    var held: seq<Resource>

    constructor ()
      ensures calls == [] && held == []
    {
      calls := [];
      held := [];
    }

    /** Makes one call; a release must give back the most recent resource
        still held. */
    method Invoke(c: ApiCall)
      requires CanIssue(held, c)
      modifies this
      ensures calls == old(calls) + [c]
      ensures held == Step(old(held), c)
    {
      calls := calls + [c];
      held := Step(held, c);
    }
  }
}
