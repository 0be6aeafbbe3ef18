/** What DLLInjector::GetProcessIdByName and
    DLLInjector::GetAllProcessIdsByName compute from a snapshot of the
    process table: name matching, the first match, every match, and the
    calls and log messages each lookup makes. The loops themselves are the
    methods of Injector.DllInjector, proved against these functions. */
module ProcessLookup {
  import opened Wrappers
  import opened Text
  import opened Logging
  import opened WinApi

  /** The fixed parts of the messages the two lookups log. */
  const SearchingText := "Searching for process: "
  const FirstLookupDemoText := "GetProcessIdByName is only supported on Windows. Using demo mode."
  const AllLookupDemoText := "GetAllProcessIdsByName is only supported on Windows. Using demo mode."
  const SnapshotFailedText := "Failed to create process snapshot: "
  const FirstProcessFailedText := "Failed to get first process: "
  const ProcessFoundText := "Process found with ID: "
  const ProcessMissingText := "Process not found: "
  const InstanceFoundText := "Found process instance with ID: "

  /** One row of the process table: th32ProcessID and szExeFile. */
  datatype ProcessEntry = ProcessEntry(processId: DWord, exeFile: string)

  /** The outcome of CreateToolhelp32Snapshot: the table it captured, or
      INVALID_HANDLE_VALUE. `lastError` is the text GetLastErrorAsString
      gives after the failing call (the snapshot itself, or
      Process32FirstW on an empty table). */
  datatype Snapshot =
    | Unavailable(lastError: string)
    | Taken(entries: seq<ProcessEntry>, lastError: string)

  /** The case folding of `_wcsicmp` in the "C" locale: A-Z to a-z. */
  function LowerAscii(c: char): (l: char)
    ensures 'A' <= c <= 'Z' ==> l as int == c as int + 32
    ensures !('A' <= c <= 'Z') ==> l == c
  {
    if 'A' <= c <= 'Z' then (c as int + 32) as char else c
  }

  /** `_wcsicmp(a, b) == 0`: equal length, and equal character by character
      once ASCII letters are folded. No substring or path matching. */
  predicate NamesMatch(a: string, b: string) {
    |a| == |b| && forall i :: 0 <= i < |a| ==> LowerAscii(a[i]) == LowerAscii(b[i])
  }

  function Lower(s: string): (l: string)
    ensures |l| == |s|
    ensures forall i :: 0 <= i < |s| ==> l[i] == LowerAscii(s[i])
  {
    seq(|s|, i requires 0 <= i < |s| => LowerAscii(s[i]))
  }

  /** Matching is equality of the lower-cased names. */
  lemma NamesMatchIsFoldedEquality(a: string, b: string)
    ensures NamesMatch(a, b) <==> Lower(a) == Lower(b)
  {
    if Lower(a) == Lower(b) {
      assert |a| == |Lower(a)|;
      forall i | 0 <= i < |a|
        ensures LowerAscii(a[i]) == LowerAscii(b[i])
      {
        assert Lower(a)[i] == Lower(b)[i];
      }
    }
  }

  lemma NamesMatchIsEquivalence(a: string, b: string, c: string)
    ensures NamesMatch(a, a)
    ensures NamesMatch(a, b) ==> NamesMatch(b, a)
    ensures NamesMatch(a, b) && NamesMatch(b, c) ==> NamesMatch(a, c)
  {
  }

  /** Case differences are ignored; a shorter name is never a match. */
  lemma NamesMatchExamples()
    ensures NamesMatch("Cod.EXE", "cod.exe")
    ensures !NamesMatch("cod", "cod.exe")
  {
    var a, b := "Cod.EXE", "cod.exe";
    forall i | 0 <= i < |a|
      ensures LowerAscii(a[i]) == LowerAscii(b[i])
    {
    }
  }

  predicate MatchesAt(entries: seq<ProcessEntry>, name: string, j: int)
    requires 0 <= j < |entries|
  {
    NamesMatch(entries[j].exeFile, name)
  }

  /** The position of the first entry whose name matches. */
  function FirstMatch(entries: seq<ProcessEntry>, name: string): (r: Option<nat>)
    ensures r.Some? ==> r.value < |entries|
    decreases |entries|
  {
    if entries == [] then None
    else if NamesMatch(entries[0].exeFile, name) then Some(0)
    else
      match FirstMatch(entries[1..], name)
      case None => None
      case Some(i) => Some(i + 1)
  }

  /** The first match is a match and no entry before it matches; there is
      none exactly when no entry matches. */
  lemma {:induction false} FirstMatchIsFirst(entries: seq<ProcessEntry>, name: string)
    ensures var r := FirstMatch(entries, name);
      r.Some? ==> MatchesAt(entries, name, r.value) && forall j :: 0 <= j < r.value ==> !MatchesAt(entries, name, j)
    ensures FirstMatch(entries, name).None? ==> forall j :: 0 <= j < |entries| ==> !MatchesAt(entries, name, j)
    decreases |entries|
  {
    if entries != [] && !NamesMatch(entries[0].exeFile, name) {
      FirstMatchIsFirst(entries[1..], name);
      assert forall j :: 1 <= j < |entries| ==> MatchesAt(entries, name, j) == MatchesAt(entries[1..], name, j - 1);
    }
  }

  /** The positions of all matching entries, in table order. */
  function MatchPositions(entries: seq<ProcessEntry>, name: string): (ps: seq<nat>)
    ensures forall k :: 0 <= k < |ps| ==> ps[k] < |entries| && MatchesAt(entries, name, ps[k])
    ensures forall k, l :: 0 <= k < l < |ps| ==> ps[k] < ps[l]
    ensures forall j :: 0 <= j < |entries| && MatchesAt(entries, name, j) ==> j in ps
    decreases |entries|
  {
    if entries == [] then []
    else
      var init := entries[..|entries| - 1];
      var ps := MatchPositions(init, name);
      assert forall j :: 0 <= j < |init| ==> MatchesAt(init, name, j) == MatchesAt(entries, name, j);
      if NamesMatch(entries[|entries| - 1].exeFile, name) then ps + [|entries| - 1] else ps
  }

  /** The ids of the matching entries, in table order. */
  function MatchingIds(entries: seq<ProcessEntry>, name: string): seq<DWord>
    decreases |entries|
  {
    if entries == [] then []
    else
      var last := entries[|entries| - 1];
      MatchingIds(entries[..|entries| - 1], name) + (if NamesMatch(last.exeFile, name) then [last.processId] else [])
  }

  /** One id per matching entry: the k-th id is the id of the k-th match. */
  lemma {:induction false} MatchingIdsArePositions(entries: seq<ProcessEntry>, name: string)
    ensures |MatchingIds(entries, name)| == |MatchPositions(entries, name)|
    ensures forall k :: 0 <= k < |MatchingIds(entries, name)| ==>
      MatchingIds(entries, name)[k] == entries[MatchPositions(entries, name)[k]].processId
    decreases |entries|
  {
    if entries != [] {
      var init := entries[..|entries| - 1];
      MatchingIdsArePositions(init, name);
      assert forall j :: 0 <= j < |init| ==> init[j] == entries[j];
    }
  }

  /** The first match is the first of all matches. */
  lemma FirstMatchStartsAllMatches(entries: seq<ProcessEntry>, name: string)
    ensures FirstMatch(entries, name).None? <==> MatchPositions(entries, name) == []
    ensures FirstMatch(entries, name).Some? ==> FirstMatch(entries, name).value == MatchPositions(entries, name)[0]
  {
    FirstMatchIsFirst(entries, name);
  }

  /** The process id GetProcessIdByName returns. */
  function ProcessIdOf(platformSupported: bool, snapshot: Snapshot, name: string): DWord {
    if !platformSupported then 12345
    else
      match snapshot
      case Unavailable(_) => 0
      case Taken(entries, _) => FirstOf(entries, name)
  }

  /** The id of the first matching entry of a table, 0 when none matches. */
  function FirstOf(entries: seq<ProcessEntry>, name: string): DWord {
    match FirstMatch(entries, name)
    case Some(i) => entries[i].processId
    case None => 0
  }

  /** The ids GetAllProcessIdsByName returns. */
  function ProcessIdsOf(platformSupported: bool, snapshot: Snapshot, name: string): seq<DWord> {
    if !platformSupported then [12345, 12346]
    else
      match snapshot
      case Unavailable(_) => []
      case Taken(entries, _) => MatchingIds(entries, name)
  }

  /** On Windows, 0 comes back both when the table cannot be read and when
      no entry matches; any other answer is the id of the first match. */
  lemma ZeroIsAmbiguous(snapshot: Snapshot, name: string)
    ensures snapshot.Unavailable? ==> ProcessIdOf(true, snapshot, name) == 0
    ensures snapshot.Taken? && FirstMatch(snapshot.entries, name).None? ==> ProcessIdOf(true, snapshot, name) == 0
    ensures ProcessIdOf(true, snapshot, name) != 0 ==>
      snapshot.Taken? && FirstMatch(snapshot.entries, name).Some? &&
      ProcessIdOf(true, snapshot, name) == snapshot.entries[FirstMatch(snapshot.entries, name).value].processId
  {
  }

  /** The two lookups agree: the single id is the first of all the ids, or
      0 when there are none. */
  lemma LookupsAgree(snapshot: Snapshot, name: string)
    ensures ProcessIdOf(true, snapshot, name) ==
      (if ProcessIdsOf(true, snapshot, name) == [] then 0 else ProcessIdsOf(true, snapshot, name)[0])
  {
    if snapshot.Taken? {
      FirstMatchStartsAllMatches(snapshot.entries, name);
      MatchingIdsArePositions(snapshot.entries, name);
    }
  }

  /** `std::string(name.begin(), name.end())`: each wide character cut to
      its low byte. */
  function Narrow(w: string): string
    decreases |w|
  {
    if w == [] then [] else Narrow(w[..|w| - 1]) + [(w[|w| - 1] as int % 256) as char]
  }

  /** Narrowing keeps the length and the low byte of each character, so
      plain ASCII passes through unchanged. */
  lemma {:induction false} NarrowKeepsLowBytes(w: string)
    ensures |Narrow(w)| == |w|
    ensures forall i :: 0 <= i < |w| ==> Narrow(w)[i] as int == w[i] as int % 256
    decreases |w|
  {
    if w != [] {
      NarrowKeepsLowBytes(w[..|w| - 1]);
    }
  }

  /** The Process32NextW calls made after the first entry, `count` of them
      in a table of n entries. */
  function Advances(n: nat, count: nat): seq<ApiCall>
    decreases count
  {
    if count == 0 then [] else Advances(n, count - 1) + [NextProcess(count < n)]
  }

  /** The k-th advance reports whether entry k + 1 exists. */
  lemma {:induction false} AdvancesReport(n: nat, count: nat)
    ensures |Advances(n, count)| == count
    ensures forall k :: 0 <= k < count ==> Advances(n, count)[k] == NextProcess(k + 1 < n)
    decreases count
  {
    if count > 0 {
      AdvancesReport(n, count - 1);
    }
  }

  /** How many entries the enumeration handed over (successful
      Process32FirstW and Process32NextW calls). */
  function EntriesRead(calls: seq<ApiCall>): nat
    decreases |calls|
  {
    if calls == [] then 0
    else
      var c := calls[|calls| - 1];
      EntriesRead(calls[..|calls| - 1]) +
        (if (c.FirstProcess? && c.found) || (c.NextProcess? && c.found) then 1 else 0)
  }

  /** The enumeration calls of a walk over a table of n entries that makes
      `advances` Process32NextW calls: Process32FirstW, which fails on an
      empty table, then the advances. */
  function Enumeration(n: nat, advances: nat): seq<ApiCall> {
    [FirstProcess(n > 0)] + (if n == 0 then [] else Advances(n, advances))
  }

  /** How many Process32NextW calls GetProcessIdByName makes: one per entry
      before the first match, or one per entry when nothing matches (the
      last of them reporting the end of the table). */
  function FirstAdvances(entries: seq<ProcessEntry>, name: string): nat {
    match FirstMatch(entries, name)
    case Some(i) => i
    case None => |entries|
  }

  /** The Windows calls GetProcessIdByName makes. */
  function FirstLookupCalls(platformSupported: bool, snapshot: Snapshot, name: string): seq<ApiCall> {
    if !platformSupported then []
    else
      match snapshot
      case Unavailable(_) => [CreateSnapshot(false)]
      case Taken(entries, _) =>
        [CreateSnapshot(true)] + Enumeration(|entries|, FirstAdvances(entries, name)) + [CloseHandle(SnapshotHandle)]
  }

  /** The Windows calls GetAllProcessIdsByName makes. */
  function AllLookupCalls(platformSupported: bool, snapshot: Snapshot): seq<ApiCall> {
    if !platformSupported then []
    else
      match snapshot
      case Unavailable(_) => [CreateSnapshot(false)]
      case Taken(entries, _) =>
        [CreateSnapshot(true)] + Enumeration(|entries|, |entries|) + [CloseHandle(SnapshotHandle)]
  }

  lemma {:induction false} EntriesReadAppend(a: seq<ApiCall>, b: seq<ApiCall>)
    ensures EntriesRead(a + b) == EntriesRead(a) + EntriesRead(b)
    decreases |b|
  {
    if b == [] {
      assert a + b == a;
    } else {
      assert (a + b)[..|a + b| - 1] == a + b[..|b| - 1];
      EntriesReadAppend(a, b[..|b| - 1]);
    }
  }

  lemma {:induction false} EntriesReadAdvances(n: nat, count: nat)
    requires count <= n
    ensures EntriesRead(Advances(n, count)) == if count == n && n > 0 then count - 1 else count
    decreases count
  {
    if count > 0 {
      var init := Advances(n, count - 1);
      assert (init + [NextProcess(count < n)])[..|init|] == init;
      EntriesReadAdvances(n, count - 1);
    }
  }

  lemma EntriesReadOne(c: ApiCall)
    ensures EntriesRead([c]) == if (c.FirstProcess? && c.found) || (c.NextProcess? && c.found) then 1 else 0
  {
    assert [c][..0] == [];
  }

  /** GetProcessIdByName reads the table up to its first match and no
      further, and reads all of it when nothing matches. */
  lemma FirstLookupStopsAtMatch(entries: seq<ProcessEntry>, lastError: string, name: string)
    ensures FirstMatch(entries, name).Some? ==>
      EntriesRead(FirstLookupCalls(true, Taken(entries, lastError), name)) == FirstMatch(entries, name).value + 1
    ensures FirstMatch(entries, name).None? ==>
      EntriesRead(FirstLookupCalls(true, Taken(entries, lastError), name)) == |entries|
  {
    var n := |entries|;
    var advances := FirstAdvances(entries, name);
    EntriesReadAppend([CreateSnapshot(true)] + Enumeration(n, advances), [CloseHandle(SnapshotHandle)]);
    EntriesReadAppend([CreateSnapshot(true)], Enumeration(n, advances));
    EntriesReadOne(CreateSnapshot(true));
    EntriesReadOne(CloseHandle(SnapshotHandle));
    EntriesReadOne(FirstProcess(n > 0));
    if n > 0 {
      EntriesReadAppend([FirstProcess(true)], Advances(n, advances));
      EntriesReadAdvances(n, advances);
    }
  }

  /** GetAllProcessIdsByName reads every entry of the table. */
  lemma AllLookupReadsAll(entries: seq<ProcessEntry>, lastError: string)
    ensures EntriesRead(AllLookupCalls(true, Taken(entries, lastError))) == |entries|
  {
    var n := |entries|;
    EntriesReadAppend([CreateSnapshot(true)] + Enumeration(n, n), [CloseHandle(SnapshotHandle)]);
    EntriesReadAppend([CreateSnapshot(true)], Enumeration(n, n));
    EntriesReadOne(CreateSnapshot(true));
    EntriesReadOne(CloseHandle(SnapshotHandle));
    EntriesReadOne(FirstProcess(n > 0));
    if n > 0 {
      EntriesReadAppend([FirstProcess(true)], Advances(n, n));
      EntriesReadAdvances(n, n);
    }
  }

  lemma EnumerationBalanced(n: nat, advances: nat)
    ensures Balanced(Enumeration(n, advances))
  {
    AdvancesReport(n, advances);
    NeutralBalanced([], Enumeration(n, advances));
  }

  /** Whatever the table holds and whether or not a match is found, a
      snapshot handle that was created is closed, and nothing else is
      acquired or released. */
  lemma LookupsCloseSnapshot(platformSupported: bool, snapshot: Snapshot, name: string)
    ensures Balanced(FirstLookupCalls(platformSupported, snapshot, name))
    ensures Balanced(AllLookupCalls(platformSupported, snapshot))
  {
    if platformSupported {
      match snapshot
      case Unavailable(_) =>
        NeutralBalanced([], [CreateSnapshot(false)]);
      case Taken(entries, _) =>
        var n := |entries|;
        var advances := FirstAdvances(entries, name);
        EnumerationBalanced(n, advances);
        Bracket(CreateSnapshot(true), Enumeration(n, advances), CloseHandle(SnapshotHandle));
        EnumerationBalanced(n, n);
        Bracket(CreateSnapshot(true), Enumeration(n, n), CloseHandle(SnapshotHandle));
    } else {
      NeutralBalanced([], []);
    }
  }

  /** The messages GetProcessIdByName logs while it walks a table it could
      take: the failure of Process32FirstW on an empty table, or the id of
      the first match. */
  function ScanLog(entries: seq<ProcessEntry>, lastError: string, name: string): seq<Message> {
    if entries == [] then [Message(Err, FirstProcessFailedText + lastError)]
    else
      match FirstMatch(entries, name)
      case Some(i) => [Message(Info, ProcessFoundText + DecimalString(entries[i].processId as nat))]
      case None => []
  }

  /** The error GetProcessIdByName logs when the id it found is 0. */
  function MissingLog(processId: DWord, name: string): seq<Message> {
    if processId == 0 then [Message(Err, ProcessMissingText + Narrow(name))] else []
  }

  /** The messages GetProcessIdByName logs. */
  function FirstLookupLog(platformSupported: bool, snapshot: Snapshot, name: string): seq<Message> {
    [Message(Info, SearchingText + Narrow(name))] +
    if !platformSupported then
      [Message(Warning, FirstLookupDemoText)]
    else
      match snapshot
      case Unavailable(lastError) => [Message(Err, SnapshotFailedText + lastError)]
      case Taken(entries, lastError) =>
        ScanLog(entries, lastError, name) + MissingLog(FirstOf(entries, name), name)
  }

  /** One message per instance found. */
  function FoundLog(ids: seq<DWord>): seq<Message>
    decreases |ids|
  {
    if ids == [] then []
    else FoundLog(ids[..|ids| - 1]) + [Message(Info, InstanceFoundText + DecimalString(ids[|ids| - 1] as nat))]
  }

  /** The messages GetAllProcessIdsByName logs. */
  function AllLookupLog(platformSupported: bool, snapshot: Snapshot, name: string): seq<Message> {
    if !platformSupported then
      [Message(Warning, AllLookupDemoText)]
    else
      match snapshot
      case Unavailable(lastError) => [Message(Err, SnapshotFailedText + lastError)]
      case Taken(entries, _) => FoundLog(MatchingIds(entries, name))
  }
}
