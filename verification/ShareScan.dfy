// The share scanner: a thread walks the share folder and queues files under a lock while
// the main thread takes them away and publishes them. Folders are fixed during a scan;
// links are followed, so a folder may be reached along any number of paths.

module ShareScan {

  import opened Prelude

  const MAXIMUM_SCAN_DEPTH: nat := 32

  datatype Target = Folder(id: nat) | Regular(size: int) | Special | Missing

  datatype DirEntry = DirEntry(name: string, target: Target)

  /** The folders that can be opened. */
  type Folders = map<nat, seq<DirEntry>>

  datatype ScannedFile = ScannedFile(fileName: string, relativePath: string, absolutePath: string, fileSize: int)

  // ----- The walk -----

  predicate IsHidden(name: string) { name != "" && name[0] == '.' }

  function Below(path: string, name: string): string { path + "/" + name }

  function ChildPath(relativePath: string, name: string): string {
    if relativePath == "" then name else Below(relativePath, name)
  }

  function Levels(depth: nat): nat {
    if depth > MAXIMUM_SCAN_DEPTH then 0 else 2 * (MAXIMUM_SCAN_DEPTH + 1 - depth)
  }

  /** _ScanDirectory: the regular files it visits, in order. */
  function Visits(folders: Folders, id: nat, path: string, relativePath: string, depth: nat): seq<ScannedFile>
    decreases Levels(depth) + 1, 0
  {
    if depth > MAXIMUM_SCAN_DEPTH || id !in folders then []
    else VisitsOf(folders, folders[id], path, relativePath, depth)
  }

  function VisitsOf(folders: Folders, entries: seq<DirEntry>, path: string, relativePath: string, depth: nat)
    : seq<ScannedFile>
    requires depth <= MAXIMUM_SCAN_DEPTH
    decreases Levels(depth), |entries|
  {
    if entries == [] then []
    else
      VisitsOf(folders, entries[..|entries| - 1], path, relativePath, depth)
      + EntryVisits(folders, entries[|entries| - 1], path, relativePath, depth)
  }

  function EntryVisits(folders: Folders, e: DirEntry, path: string, relativePath: string, depth: nat)
    : seq<ScannedFile>
    requires depth <= MAXIMUM_SCAN_DEPTH
    decreases Levels(depth), 0
  {
    if IsHidden(e.name) then []
    else
      match e.target
      case Folder(child) =>
        Visits(folders, child, Below(path, e.name), ChildPath(relativePath, e.name), depth + 1)
      case Regular(size) => [ScannedFile(e.name, relativePath, Below(path, e.name), size)]
      case Special => []
      case Missing => []
  }

  /** The relative path that going down through folders of these names spells. */
  function Spelled(trail: seq<string>): string {
    if trail == [] then "" else ChildPath(Spelled(trail[..|trail| - 1]), trail[|trail| - 1])
  }

  /** The names of the folders on a relative path, of which none is hidden. */
  ghost predicate IsTrail(trail: seq<string>, relativePath: string) {
    && |trail| <= MAXIMUM_SCAN_DEPTH && Spelled(trail) == relativePath
    && forall i | 0 <= i < |trail| :: trail[i] != "" && !IsHidden(trail[i])
  }

  ghost predicate PathsAgree(root: string, f: ScannedFile) {
    && !IsHidden(f.fileName)
    && (exists trail :: IsTrail(trail, f.relativePath))
    && f.absolutePath == Below(if f.relativePath == "" then root else Below(root, f.relativePath), f.fileName)
  }

  predicate Here(root: string, path: string, relativePath: string) {
    path == if relativePath == "" then root else Below(root, relativePath)
  }

  ghost predicate Named(folders: Folders) {
    forall i, e | i in folders && e in folders[i] :: e.name != ""
  }

  /** The path a file is announced under leads from the share folder to the file itself,
      through at most 32 folders, none of which is hidden. */
  lemma WalkPathsAgree(folders: Folders, id: nat, root: string)
    requires Named(folders)
    ensures forall f | f in Visits(folders, id, root, "", 0) :: PathsAgree(root, f)
  {
    FolderPathsAgree(folders, id, root, root, []);
  }

  lemma {:induction false} FolderPathsAgree(folders: Folders, id: nat, root: string, path: string, trail: seq<string>)
    requires Named(folders) && Here(root, path, Spelled(trail))
    requires |trail| <= MAXIMUM_SCAN_DEPTH ==> IsTrail(trail, Spelled(trail))
    ensures forall f | f in Visits(folders, id, path, Spelled(trail), |trail|) :: PathsAgree(root, f)
    decreases Levels(|trail|) + 1, 0
  {
    if |trail| <= MAXIMUM_SCAN_DEPTH && id in folders {
      EntryPathsAgree(folders, folders[id], root, path, trail);
    }
  }

  lemma {:induction false} EntryPathsAgree(folders: Folders, entries: seq<DirEntry>, root: string, path: string,
                                           trail: seq<string>)
    requires Named(folders) && (forall e | e in entries :: e.name != "")
    requires Here(root, path, Spelled(trail)) && IsTrail(trail, Spelled(trail))
    ensures forall f | f in VisitsOf(folders, entries, path, Spelled(trail), |trail|) :: PathsAgree(root, f)
    decreases Levels(|trail|), |entries|
  {
    hide PathsAgree, IsTrail, Named, EntryVisits, Spelled, Here;
    if entries != [] {
      var last := |entries| - 1;
      EntryPathsAgree(folders, entries[..last], root, path, trail);
      OneEntryPathsAgree(folders, entries[last], root, path, trail);
    }
  }

  lemma {:induction false} OneEntryPathsAgree(folders: Folders, e: DirEntry, root: string, path: string,
                                              trail: seq<string>)
    requires Named(folders) && e.name != ""
    requires Here(root, path, Spelled(trail)) && IsTrail(trail, Spelled(trail))
    ensures forall f | f in EntryVisits(folders, e, path, Spelled(trail), |trail|) :: PathsAgree(root, f)
    decreases Levels(|trail|), 0
  {
    hide Named, Visits;
    if e.target.Folder? && !IsHidden(e.name) {
      var deeper := trail + [e.name];
      assert deeper[..|trail|] == trail;
      ChildIsHere(root, path, Spelled(trail), e.name);
      FolderPathsAgree(folders, e.target.id, root, Below(path, e.name), deeper);
    }
  }

  lemma ChildIsHere(root: string, path: string, relativePath: string, name: string)
    requires Here(root, path, relativePath) && name != ""
    ensures Here(root, Below(path, name), ChildPath(relativePath, name))
  {
    if relativePath != "" {
      assert Below(root, Below(relativePath, name)) == Below(Below(root, relativePath), name);
    }
  }

  // ----- Claiming names -----

  /** The files of which no earlier one has the same name. */
  function FirstByName(files: seq<ScannedFile>): seq<ScannedFile> {
    if files == [] then []
    else
      var before, f := files[..|files| - 1], files[|files| - 1];
      FirstByName(before) + if f.fileName in Names(before) then [] else [f]
  }

  function Names(files: seq<ScannedFile>): set<string> { set f | f in files :: f.fileName }

  lemma NamesSnoc(files: seq<ScannedFile>, f: ScannedFile)
    ensures Names(files + [f]) == Names(files) + {f.fileName}
  {
    assert forall x :: x in files + [f] <==> x in files || x == f;
  }

  ghost predicate NamesDiffer(files: seq<ScannedFile>) {
    forall i, j | 0 <= i < j < |files| :: files[i].fileName != files[j].fileName
  }

  lemma {:induction false} FirstByNameClaims(files: seq<ScannedFile>)
    ensures Names(FirstByName(files)) == Names(files) && NamesDiffer(FirstByName(files))
    ensures |FirstByName(files)| == |Names(files)|
  {
    hide Names, NamesDiffer;
    if files == [] {
      NoNames();
    } else {
      var before, f := files[..|files| - 1], files[|files| - 1];
      var first := FirstByName(before);
      FirstByNameClaims(before);
      assert files == before + [f] && first + [] == first;
      NamesSnoc(before, f);
      NamesSnoc(first, f);
      if f.fileName in Names(before) {
        assert Names(before) + {f.fileName} == Names(before);
      } else {
        DifferSnoc(first, f);
      }
    }
  }

  lemma NoNames()
    ensures Names([]) == {} && NamesDiffer([])
  {
  }

  lemma DifferSnoc(files: seq<ScannedFile>, f: ScannedFile)
    requires NamesDiffer(files) && f.fileName !in Names(files)
    ensures NamesDiffer(files + [f])
  {
    forall i | 0 <= i < |files| ensures files[i].fileName != f.fileName {
      assert files[i] in files;
    }
  }

  lemma FirstByNameSnoc(visits: seq<ScannedFile>, i: nat)
    requires i < |visits|
    ensures FirstByName(visits[..i + 1]) ==
      FirstByName(visits[..i]) + if visits[i].fileName in Names(visits[..i]) then [] else [visits[i]]
    ensures Names(visits[..i + 1]) == Names(visits[..i]) + {visits[i].fileName}
  {
    assert visits[..i + 1][..i] == visits[..i] && visits[..i + 1] == visits[..i] + [visits[i]];
    NamesSnoc(visits[..i], visits[i]);
  }

  // ----- Two threads, one lock -----

  /** The scanning thread: next is the visit it will look at; inFlight is a file whose name
      it has claimed and which it has not queued yet. */
  datatype Thread = NoThread | Scanning(next: nat, inFlight: Option<ScannedFile>) | Ended

  /** Everything of one scan, the files the main thread has taken from it so far, how often
      it has been told that the scan is over, and what it shares: the published files by
      name (those taken from number sharedFrom on) and the file count it announced last. */
  datatype Sharing = Sharing(
    visits: seq<ScannedFile>,
    thread: Thread,
    seen: nat,
    shouldAbort: bool,
    stopping: bool,
    pending: seq<ScannedFile>,
    claimed: set<string>,
    duplicates: nat,
    finished: bool,
    taken: seq<ScannedFile>,
    finishReports: nat,
    sharedFrom: nat,
    shared: map<string, ScannedFile>,
    sharedCount: nat,
    announced: Option<nat>)

  datatype Action =
    | Look                                       // thread: the next visit, under the lock
    | Queue                                      // thread: queue the file in flight
    | Finish                                     // thread: all visited, or aborted
    | StartSharing(visits: seq<ScannedFile>)
    | AskStop
    | Joined
    | Unshare
    | TakeFiles
    | TakeFinished

  function Publish(shared: map<string, ScannedFile>, files: seq<ScannedFile>): map<string, ScannedFile> {
    if files == [] then shared
    else Publish(shared, files[..|files| - 1])[files[|files| - 1].fileName := files[|files| - 1]]
  }

  function ThreadStep(y: Sharing, a: Action): Sharing
    requires y.thread.Scanning?
  {
    var t := y.thread;
    match a
    case Look =>
      if t.inFlight.Some? || t.next >= |y.visits| then y
      else
        var f := y.visits[t.next];
        var r := y.(seen := t.next + 1);
        if f.fileName in y.claimed then r.(duplicates := y.duplicates + 1, thread := Scanning(t.next + 1, None))
        else r.(claimed := y.claimed + {f.fileName}, thread := Scanning(t.next + 1, Some(f)))
    case Queue =>
      if t.inFlight.None? then y
      else y.(pending := y.pending + [t.inFlight.value], thread := Scanning(t.next, None))
    case _ =>
      if t.inFlight.None? && (t.next >= |y.visits| || y.shouldAbort) then y.(finished := true, thread := Ended) else y
  }

  /** The main thread does nothing else while it waits for the scanning thread to end, and
      it never starts a scan before the previous one has been joined. */
  function Step(y: Sharing, a: Action): Sharing {
    if a.Look? || a.Queue? || a.Finish? then
      if y.thread.Scanning? then ThreadStep(y, a) else y
    else if y.stopping then
      if a.Joined? && y.thread.Ended? then y.(thread := NoThread, stopping := false) else y
    else
      match a
      case StartSharing(visits) =>
        if !y.thread.NoThread? then y
        else Sharing(visits, Scanning(0, None), 0, false, false, [], {}, 0, false, [], 0, 0, map[], 0, y.announced)
      case AskStop => if y.thread.NoThread? then y else y.(shouldAbort := true, stopping := true)
      case Unshare => y.(sharedFrom := |y.taken|, shared := map[], sharedCount := 0, announced := Some(0))
      case TakeFiles =>
        y.(pending := [], taken := y.taken + y.pending, shared := Publish(y.shared, y.pending),
           sharedCount := y.sharedCount + |y.pending|)
      case TakeFinished =>
        if y.finished
        then y.(finished := false, finishReports := y.finishReports + 1, announced := Some(y.sharedCount))
        else y
      case _ => y
  }

  function InFlight(y: Sharing): seq<ScannedFile> {
    if y.thread.Scanning? && y.thread.inFlight.Some? then [y.thread.inFlight.value] else []
  }

  ghost predicate Conserves(y: Sharing) {
    && y.seen <= |y.visits|
    && y.taken + y.pending + InFlight(y) == FirstByName(y.visits[..y.seen])
    && y.claimed == Names(y.visits[..y.seen])
    && y.duplicates + |y.claimed| == y.seen
  }

  ghost predicate InStep(y: Sharing) {
    && (y.thread.Scanning? ==> y.thread.next == y.seen && !y.finished && y.finishReports == 0)
    && (y.finished ==> y.finishReports == 0)
    && y.finishReports <= 1
    && (y.stopping ==> y.shouldAbort && !y.thread.NoThread?)
    && (!y.shouldAbort && !y.thread.Scanning? ==> y.seen == |y.visits|)
  }

  ghost predicate SharesTaken(y: Sharing) {
    && y.sharedFrom <= |y.taken|
    && y.shared == Publish(map[], y.taken[y.sharedFrom..])
    && y.sharedCount == |y.taken| - y.sharedFrom
  }

  ghost predicate Inv(y: Sharing) { Conserves(y) && InStep(y) && SharesTaken(y) }

  lemma {:induction false} PublishAppend(shared: map<string, ScannedFile>, a: seq<ScannedFile>, b: seq<ScannedFile>)
    ensures Publish(shared, a + b) == Publish(Publish(shared, a), b)
  {
    if b == [] {
      assert a + b == a;
    } else {
      var last := |b| - 1;
      assert (a + b)[..|a + b| - 1] == a + b[..last];
      PublishAppend(shared, a, b[..last]);
    }
  }

  /** Files of different names are published under as many names. */
  lemma {:induction false} PublishedByName(files: seq<ScannedFile>)
    requires NamesDiffer(files)
    ensures Publish(map[], files).Keys == Names(files) && |Publish(map[], files)| == |files|
    ensures forall f | f in files :: Publish(map[], files)[f.fileName] == f
  {
    if files != [] {
      var last := |files| - 1;
      assert files == files[..last] + [files[last]];
      NamesSnoc(files[..last], files[last]);
      PublishedByName(files[..last]);
    }
  }

  lemma TakeShares(y: Sharing)
    requires SharesTaken(y)
    ensures SharesTaken(Step(y, TakeFiles))
  {
    PublishAppend(map[], y.taken[y.sharedFrom..], y.pending);
    assert (y.taken + y.pending)[y.sharedFrom..] == y.taken[y.sharedFrom..] + y.pending;
  }

  lemma LookConserves(y: Sharing)
    requires Inv(y) && y.thread.Scanning? && y.thread.inFlight.None? && y.thread.next < |y.visits|
    ensures Conserves(Step(y, Look))
  {
    hide FirstByName, Names;
    FirstByNameSnoc(y.visits, y.seen);
    var first, f := FirstByName(y.visits[..y.seen]), y.visits[y.seen];
    assert first == y.taken + y.pending + [] == y.taken + y.pending;
    if f.fileName in y.claimed {
      assert y.claimed + {f.fileName} == y.claimed && first + [] == first;
    }
  }

  lemma QueueConserves(y: Sharing)
    requires Inv(y) && y.thread.Scanning? && y.thread.inFlight.Some?
    ensures Conserves(Step(y, Queue))
  {
    var f := y.thread.inFlight.value;
    assert y.taken + (y.pending + [f]) + [] == y.taken + y.pending + [f];
  }

  lemma StepKeepsInv(y: Sharing, a: Action)
    requires Inv(y)
    ensures Inv(Step(y, a))
  {
    hide FirstByName, Names, Publish;
    match a
    case Look =>
      if y.thread.Scanning? && y.thread.inFlight.None? && y.thread.next < |y.visits| {
        LookConserves(y);
      }
    case Queue =>
      if y.thread.Scanning? && y.thread.inFlight.Some? {
        QueueConserves(y);
      }
    case StartSharing(visits) =>
      NothingSeen(visits);
      NothingPublished(map[]);
    case TakeFiles =>
      assert (y.taken + y.pending) + [] + InFlight(y) == y.taken + y.pending + InFlight(y);
      TakeShares(y);
    case Unshare =>
      assert y.taken[|y.taken|..] == [];
      NothingPublished(map[]);
    case _ =>
  }

  lemma NothingPublished(shared: map<string, ScannedFile>)
    ensures Publish(shared, []) == shared
  {
  }

  lemma NothingSeen(visits: seq<ScannedFile>)
    ensures FirstByName(visits[..0]) == [] && Names(visits[..0]) == {}
  {
  }

  const NOT_SHARING: Sharing :=
    Sharing([], NoThread, 0, false, false, [], {}, 0, false, [], 0, 0, map[], 0, None)

  ghost function After(actions: seq<Action>): (y: Sharing)
    ensures Inv(y)
  {
    if actions == [] then
      NothingSeen([]);
      NothingPublished(map[]);
      NOT_SHARING
    else
      var last := |actions| - 1;
      StepKeepsInv(After(actions[..last]), actions[last]);
      Step(After(actions[..last]), actions[last])
  }

  /** Conservation, in every interleaving of the two threads. Within one scan the files
      taken, queued and in flight are, in order, the first file of every name among those
      visited; so no name occurs twice in them, their names are the claimed ones, and
      together with the duplicates they account for every visit. */
  lemma ScanConserves(actions: seq<Action>)
    ensures var y := After(actions);
      var found := y.taken + y.pending + InFlight(y);
      && y.seen <= |y.visits|
      && found == FirstByName(y.visits[..y.seen])
      && NamesDiffer(found) && Names(found) == y.claimed
      && y.duplicates + |found| == y.seen
  {
    var y := After(actions);
    FirstByNameClaims(y.visits[..y.seen]);
  }

  /** The end of a scan is reported at most once; once it has been reported without a stop
      having been asked for, one more take gives everything the walk has found. */
  lemma FinishReportedOnce(actions: seq<Action>)
    ensures var y := After(actions);
      && y.finishReports <= 1
      && (y.finishReports == 1 && !y.shouldAbort && !y.stopping ==>
            Step(y, TakeFiles).taken == FirstByName(y.visits) && Step(y, TakeFiles).pending == [])
  {
    var y := After(actions);
    hide After, FirstByName, Names, Publish;
    if y.finishReports == 1 && !y.shouldAbort {
      assert y.visits[..y.seen] == y.visits;
      assert y.taken + y.pending + [] == y.taken + y.pending;
    }
  }

  /** What is shared is what has been taken since sharing was last switched on or off, each
      file under its own name, and the running count is the number of those files. */
  lemma SharedFilesAreCounted(actions: seq<Action>)
    ensures var y := After(actions);
      && y.sharedFrom <= |y.taken|
      && y.shared.Keys == Names(y.taken[y.sharedFrom..])
      && (forall f | f in y.taken[y.sharedFrom..] :: y.shared[f.fileName] == f)
      && y.sharedCount == |y.shared|
  {
    hide After, FirstByName, Names, Publish;
    var y := After(actions);
    ScanConserves(actions);
    var found := y.taken + y.pending + InFlight(y);
    var files := y.taken[y.sharedFrom..];
    assert forall i | 0 <= i < |files| :: files[i] == found[y.sharedFrom + i];
    assert NamesDiffer(files);
    PublishedByName(files);
  }

  // ----- What the interleaving spoils -----

  /** The file count announced when the end of the scan is observed leaves out the files
      queued since the last take. They are shared all the same by the next take, but no
      further count is announced: it is right if and only if nothing was queued then. */
  lemma AnnouncedCountMayLag(actions: seq<Action>)
    ensures var y := After(actions);
      var told := Step(y, TakeFinished);
      var drained := Step(told, TakeFiles);
      y.finished && !y.stopping ==>
        && told.announced == Some(y.sharedCount)
        && drained.announced == told.announced && Step(drained, TakeFinished) == drained
        && drained.sharedCount == y.sharedCount + |y.pending|
        && (told.announced == Some(drained.sharedCount) <==> y.pending == [])
        && (y.sharedFrom == 0 && !y.shouldAbort ==> drained.sharedCount == |FirstByName(y.visits)|)
  {
    hide After, FirstByName, Names, Publish;
    var y := After(actions);
    if y.finished && !y.shouldAbort {
      assert y.visits[..y.seen] == y.visits;
      assert y.taken + y.pending + [] == y.taken + y.pending;
    }
  }

  lemma AfterSnoc(actions: seq<Action>, a: Action)
    ensures After(actions + [a]) == Step(After(actions), a)
  {
    assert (actions + [a])[..|actions|] == actions;
  }

  /** One file claimed, and a look at the empty queue just before the file is put there. */
  lemma LookedTooEarly(f: ScannedFile) returns (actions: seq<Action>)
    ensures After(actions) == Sharing([f], Scanning(1, Some(f)), 1, false, false, [], {f.fileName}, 0, false,
                                      [], 0, 0, map[], 0, None)
  {
    hide After, Inv, Conserves, FirstByName, Names;
    NothingPublished(map[]);
    actions := [];
    assert After(actions) == NOT_SHARING by { AfterNothing(); }
    AfterSnoc(actions, StartSharing([f]));
    actions := actions + [StartSharing([f])];
    AfterSnoc(actions, Look);
    actions := actions + [Look];
    AfterSnoc(actions, TakeFiles);
    actions := actions + [TakeFiles];
  }

  lemma AfterNothing()
    ensures After([]) == NOT_SHARING
  {
  }

  /** A run in which the count announced is 0 while one file is shared, for good. */
  lemma CountLags(f: ScannedFile)
    ensures exists actions :: var y := After(actions);
      y.announced == Some(0) && y.sharedCount == 1 && y.thread.Ended? && y.pending == [] && !y.finished
  {
    hide After, Publish, Inv, Conserves, FirstByName, Names;
    var actions := LookedTooEarly(f);
    AfterSnoc(actions, Queue);
    actions := actions + [Queue];
    AfterSnoc(actions, Finish);
    actions := actions + [Finish];
    AfterSnoc(actions, TakeFinished);
    actions := actions + [TakeFinished];
    assert After(actions) == Sharing([f], Ended, 1, false, false, [f], {f.fileName}, 0, false, [], 1, 0, map[], 0,
                                     Some(0));
    AfterSnoc(actions, TakeFiles);
    actions := actions + [TakeFiles];
    assert After(actions).sharedCount == 1;
  }

  /** Switching sharing off stops the scan but leaves the queue: at the next look the files
      in it are published again, so nothing is shared then if and only if the queue was
      empty when sharing was switched off. */
  lemma LeftoversAreSharedAfterStop(actions: seq<Action>)
    ensures var y := After(actions);
      var r := Step(Step(Step(y, Unshare), TakeFiles), TakeFinished);
      y.thread.NoThread? ==>
        && r.shared.Keys == Names(y.pending) && r.sharedCount == |y.pending|
        && (r.shared == map[] <==> y.pending == [])
        && r.announced == Some(if y.finished then |y.pending| else 0)
  {
    hide After, Publish, Names, FirstByName;
    var y := After(actions);
    ScanConserves(actions);
    PendingDiffers(y.taken, y.pending, InFlight(y));
    PublishedByName(y.pending);
    NothingPublished(map[]);
    if y.pending != [] {
      assert Publish(map[], y.pending) != map[];
    }
  }

  lemma PendingDiffers(taken: seq<ScannedFile>, pending: seq<ScannedFile>, inFlight: seq<ScannedFile>)
    requires NamesDiffer(taken + pending + inFlight)
    ensures NamesDiffer(pending)
  {
    var found := taken + pending + inFlight;
    assert forall i | 0 <= i < |pending| :: pending[i] == found[|taken| + i];
  }

  /** A run that ends with sharing off, no scan running and a file still in the queue. */
  lemma StopCanLeaveAFile(f: ScannedFile)
    ensures exists actions :: After(actions).thread.NoThread? && After(actions).pending == [f]
  {
    hide After, Publish, Inv, Conserves, FirstByName, Names;
    var actions: seq<Action> := [];
    assert After(actions) == NOT_SHARING by { AfterNothing(); }
    AfterSnoc(actions, StartSharing([f]));
    actions := actions + [StartSharing([f])];
    AfterSnoc(actions, Look);
    actions := actions + [Look];
    AfterSnoc(actions, Queue);
    actions := actions + [Queue];
    AfterSnoc(actions, AskStop);
    actions := actions + [AskStop];
    AfterSnoc(actions, Finish);
    actions := actions + [Finish];
    AfterSnoc(actions, Joined);
    actions := actions + [Joined];
  }

  // ----- The scanner, step by step, between two looks of the main thread -----

  datatype Tally = Tally(pending: seq<ScannedFile>, claimed: set<string>, duplicates: nat)

  function Visit(t: Tally, f: ScannedFile): Tally {
    if f.fileName in t.claimed then t.(duplicates := t.duplicates + 1)
    else t.(pending := t.pending + [f], claimed := t.claimed + {f.fileName})
  }

  function VisitAll(t: Tally, files: seq<ScannedFile>): Tally {
    if files == [] then t else Visit(VisitAll(t, files[..|files| - 1]), files[|files| - 1])
  }

  lemma {:induction false} VisitAppend(t: Tally, a: seq<ScannedFile>, b: seq<ScannedFile>)
    ensures VisitAll(t, a + b) == VisitAll(VisitAll(t, a), b)
  {
    if b == [] {
      assert a + b == a;
    } else {
      var last := |b| - 1;
      assert (a + b)[..|a + b| - 1] == a + b[..last];
      VisitAppend(t, a, b[..last]);
    }
  }

  lemma VisitOne(t: Tally, f: ScannedFile)
    ensures VisitAll(t, [f]) == Visit(t, f)
  {
    assert [f][..0] == [];
  }

  /** A whole walk queues the first file of every name and counts the others. */
  lemma {:induction false} WalkQueuesFirstOfEachName(files: seq<ScannedFile>)
    ensures |FirstByName(files)| <= |files|
    ensures VisitAll(Tally([], {}, 0), files)
         == Tally(FirstByName(files), Names(files), |files| - |FirstByName(files)|)
  {
    if files != [] {
      var before, f := files[..|files| - 1], files[|files| - 1];
      WalkQueuesFirstOfEachName(before);
      assert files == before + [f];
      NamesSnoc(before, f);
      assert FirstByName(before) + [] == FirstByName(before);
      assert f.fileName in Names(before) ==> Names(before) + {f.fileName} == Names(before);
      hide Names;
    }
  }

  lemma EntriesSnoc(folders: Folders, entries: seq<DirEntry>, path: string, relativePath: string, depth: nat, i: nat)
    requires depth <= MAXIMUM_SCAN_DEPTH && i < |entries|
    ensures VisitsOf(folders, entries[..i + 1], path, relativePath, depth)
         == VisitsOf(folders, entries[..i], path, relativePath, depth)
            + EntryVisits(folders, entries[i], path, relativePath, depth)
  {
    assert entries[..i + 1][..i] == entries[..i];
  }

  /** Whether the main thread has asked for a stop by the k-th look of the scanning thread;
      within one scan a request is not taken back. */
  ghost predicate Lasting(stopAsked: nat -> bool) {
    forall i, j | 0 <= i <= j :: stopAsked(i) ==> stopAsked(j)
  }

  lemma PrefixGrows(t: Tally, before: seq<ScannedFile>, more: seq<ScannedFile>, k: nat)
    requires k <= |more|
    ensures VisitAll(VisitAll(t, before), more[..k]) == VisitAll(t, (before + more)[..|before| + k])
  {
    assert (before + more)[..|before| + k] == before + more[..k];
    VisitAppend(t, before, more[..k]);
  }

  lemma PrefixOfPrefix(folders: Folders, entries: seq<DirEntry>, path: string, relativePath: string, depth: nat,
                       i: nat)
    requires depth <= MAXIMUM_SCAN_DEPTH && i <= |entries|
    ensures VisitsOf(folders, entries[..i], path, relativePath, depth)
         <= VisitsOf(folders, entries, path, relativePath, depth)
    decreases |entries| - i
  {
    if i < |entries| {
      EntriesSnoc(folders, entries, path, relativePath, depth, i);
      PrefixOfPrefix(folders, entries, path, relativePath, depth, i + 1);
    } else {
      assert entries[..i] == entries;
    }
  }

  lemma NothingVisited(t: Tally)
    ensures VisitAll(t, []) == t
  {
  }

  /** What a loop over the first i entries has done is the beginning of the whole walk. */
  lemma CutShort(folders: Folders, entries: seq<DirEntry>, path: string, relativePath: string, depth: nat, i: nat,
                 done: nat)
    requires depth <= MAXIMUM_SCAN_DEPTH && i <= |entries|
    requires done <= |VisitsOf(folders, entries[..i], path, relativePath, depth)|
    ensures var before, visits := VisitsOf(folders, entries[..i], path, relativePath, depth),
                                  VisitsOf(folders, entries, path, relativePath, depth);
      && |before| <= |visits| && before[..done] == visits[..done]
      && (i == |entries| ==> before == visits)
  {
    PrefixOfPrefix(folders, entries, path, relativePath, depth, i);
    assert i == |entries| ==> entries[..i] == entries;
  }

  class ShareScanner {
    const stopAsked: nat -> bool
    var looks: nat
    var pendingFiles: seq<ScannedFile>
    var claimedNames: set<string>
    var duplicateNameCount: nat
    var scanFinished: bool

    function Found(): Tally
      reads this
    {
      Tally(pendingFiles, claimedNames, duplicateNameCount)
    }

    /** The last look at the abort flag found it raised. */
    predicate Stopped()
      reads this
    {
      looks > 0 && stopAsked(looks - 1)
    }

    constructor (stopAsked: nat -> bool)
      ensures Found() == Tally([], {}, 0) && !scanFinished && looks == 0 && this.stopAsked == stopAsked
    {
      this.stopAsked, looks := stopAsked, 0;
      pendingFiles, claimedNames, duplicateNameCount, scanFinished := [], {}, 0, false;
    }

    /** How far the walk got is given back for the contract only. */
    method ScanThread(folders: Folders, root: nat, path: string) returns (ghost done: nat)
      requires Lasting(stopAsked)
      modifies this
      ensures scanFinished
      ensures var visits := Visits(folders, root, path, "", 0);
        && done <= |visits| && Found() == VisitAll(old(Found()), visits[..done])
        && (done < |visits| ==> Stopped())
    {
      done := ScanDirectory(folders, root, path, "", 0);
      scanFinished := true;
    }

    method ScanDirectory(folders: Folders, id: nat, path: string, relativePath: string, depth: nat)
      returns (ghost done: nat)
      requires Lasting(stopAsked)
      modifies this
      ensures scanFinished == old(scanFinished) && looks >= old(looks)
      ensures var visits := Visits(folders, id, path, relativePath, depth);
        && done <= |visits| && Found() == VisitAll(old(Found()), visits[..done])
        && (done < |visits| ==> Stopped())
      decreases Levels(depth) + 1, 0
    {
      done := 0;
      if depth > MAXIMUM_SCAN_DEPTH {
        return;
      }
      if id !in folders {
        return;
      }
      var entries := folders[id];
      ghost var before: seq<ScannedFile> := [];
      assert VisitsOf(folders, entries[..0], path, relativePath, depth) == [] && before[..0] == [];
      hide VisitAll, VisitsOf, EntryVisits, Lasting;
      NothingVisited(Found());
      var i := 0;
      while i < |entries|
        invariant i <= |entries| && before == VisitsOf(folders, entries[..i], path, relativePath, depth)
        invariant scanFinished == old(scanFinished) && looks >= old(looks)
        invariant done <= |before| && Found() == VisitAll(old(Found()), before[..done])
        invariant done < |before| ==> Stopped()
      {
        var shouldAbort := stopAsked(looks);
        looks := looks + 1;
        if shouldAbort {
          break;
        }
        assert before[..done] == before;
        EntriesSnoc(folders, entries, path, relativePath, depth, i);
        ghost var here := EntryVisits(folders, entries[i], path, relativePath, depth);
        ghost var k := ScanEntry(folders, entries[i], path, relativePath, depth);
        PrefixGrows(old(Found()), before, here, k);
        before, done, i := before + here, |before| + k, i + 1;
      }
      CutShort(folders, entries, path, relativePath, depth, i, done);
    }

    method ScanEntry(folders: Folders, e: DirEntry, path: string, relativePath: string, depth: nat)
      returns (ghost done: nat)
      requires depth <= MAXIMUM_SCAN_DEPTH && Lasting(stopAsked)
      modifies this
      ensures scanFinished == old(scanFinished) && looks >= old(looks)
      ensures var visits := EntryVisits(folders, e, path, relativePath, depth);
        && done <= |visits| && Found() == VisitAll(old(Found()), visits[..done])
        && (done < |visits| ==> Stopped())
      decreases Levels(depth), 0
    {
      done := 0;
      if e.name != "" && e.name[0] == '.' {
        return;
      }
      match e.target
      case Missing =>
      case Special =>
      case Folder(child) =>
        var childRelative := if relativePath == "" then e.name else relativePath + "/" + e.name;
        done := ScanDirectory(folders, child, Below(path, e.name), childRelative, depth + 1);
      case Regular(size) =>
        var shared := ScannedFile(e.name, relativePath, Below(path, e.name), size);
        done := 1;
        VisitOne(Found(), shared);
        assert [shared][..1] == [shared];
        if e.name in claimedNames {
          duplicateNameCount := duplicateNameCount + 1;
          return;
        }
        claimedNames := claimedNames + {e.name};
        pendingFiles := pendingFiles + [shared];
    }

    method TakeDiscoveredFiles() returns (taken: seq<ScannedFile>)
      modifies this`pendingFiles
      ensures taken == old(pendingFiles) && pendingFiles == []
    {
      taken := pendingFiles;
      pendingFiles := [];
    }

    method TakeScanFinished() returns (finished: bool)
      modifies this`scanFinished
      ensures finished == old(scanFinished) && !scanFinished
    {
      finished := scanFinished;
      if finished {
        scanFinished := false;
      }
    }
  }
}
