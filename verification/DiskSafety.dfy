// What a download does to the disk over a whole run: any order of starts, connections,
// peer messages, hang-ups and cancellations. Messages arrive only while the session is
// up, and this download has the paths of its disk to itself; SharedDirectory is about many.

module DiskSafety {

  import opened Prelude
  import opened ChunkIntegrity
  import opened OutputPath
  import opened TransferProtocol
  import opened DownloadSession

  datatype Event =
    | Begun(reachable: bool)
    | LinkUp
    | Arrived(message: Message, env: Environment)
    | HungUp
    | Cancelled

  function Step(config: Config, d: Download, e: Event): Download
    requires HandleIsBacked(d)
  {
    match e
    case Begun(reachable) => if d.state.Idle? || IsFinished(d) then Start(config, d, reachable) else d
    case LinkUp => if d.state.Connecting? then SessionConnected(d) else d
    case Arrived(m, env) => if IsConnected(d) then MessageReceived(config, d, m, env) else d
    case HungUp => if IsConnected(d) || d.state.Connecting? then SessionDisconnected(d) else d
    case Cancelled => Abort(d)
  }

  function CompletedPaths(completed: seq<Completed>): set<string> {
    set c | c in completed :: c.path
  }

  function PathBeingWritten(d: Download): set<string> {
    if d.isOpen then {d.outputPath} else {}
  }

  ghost predicate CompletedAreNew(before: map<string, seq<Byte>>, completed: seq<Completed>) {
    && (forall i, j | 0 <= i < j < |completed| :: completed[i].path != completed[j].path)
    && (forall c | c in completed :: c.path !in before)
  }

  /** The run's invariant, relative to the disk as it was before the download existed. */
  ghost predicate CleanDisk(before: map<string, seq<Byte>>, d: Download) {
    && (forall p | p in before :: p in d.disk && d.disk[p] == before[p])
    && d.disk.Keys == before.Keys + CompletedPaths(d.completed) + PathBeingWritten(d)
    && CompletedAreNew(before, d.completed)
    && (d.isOpen ==>
         && IsConnected(d) && d.outputPath != ""
         && d.outputPath !in before && d.outputPath !in CompletedPaths(d.completed)
         && |d.disk[d.outputPath]| == d.bytesDone)
    && (!d.isOpen && d.outputPath != "" ==> d.outputPath !in d.disk)
  }

  /** Every path this download has created lies in its download directory. */
  ghost predicate Placed(config: Config, d: Download) {
    && (forall c | c in d.completed :: LiesUnder(config.directory, c.path))
    && (d.isOpen ==> LiesUnder(config.directory, d.outputPath))
  }

  /** What one event does to the files already reported complete: nothing. At most one
      file is added to them, the one being written, and it has its announced length. */
  ghost predicate KeepsCompleted(d: Download, r: Download) {
    && d.completed <= r.completed
    && (forall c | c in d.completed :: c.path in d.disk && c.path in r.disk && r.disk[c.path] == d.disk[c.path])
    && (r.completed != d.completed ==>
          && r.completed == d.completed + [Completed(d.currentName, d.outputPath)]
          && d.isOpen && d.outputPath in r.disk
          && |r.disk[d.outputPath]| >= d.size)
  }

  lemma CompletedPathsSnoc(completed: seq<Completed>, c: Completed)
    ensures CompletedPaths(completed + [c]) == CompletedPaths(completed) + {c.path}
  {
    assert forall x :: x in completed + [c] <==> x in completed || x == c;
  }

  lemma FinishKeepsClean(before: map<string, seq<Byte>>, d: Download)
    requires CleanDisk(before, d)
    ensures CleanDisk(before, FinishCurrentFile(d)) && KeepsCompleted(d, FinishCurrentFile(d))
    ensures !FinishCurrentFile(d).isOpen
  {
    CompletedPathsSnoc(d.completed, Completed(d.currentName, d.outputPath));
  }

  lemma AbortKeepsClean(before: map<string, seq<Byte>>, d: Download)
    requires CleanDisk(before, d)
    ensures CleanDisk(before, Abort(d)) && KeepsCompleted(d, Abort(d)) && Abort(d).completed == d.completed
  {
  }

  lemma OpenKeepsClean(before: map<string, seq<Byte>>, d: Download, name: string, size: int, path: string)
    requires CleanDisk(before, d) && !d.isOpen && path !in d.disk && path != ""
    ensures CleanDisk(before, Opened(d, name, size, path)) && KeepsCompleted(d, Opened(d, name, size, path))
  {
  }

  function Opened(d: Download, name: string, size: int, path: string): Download {
    d.(currentName := name, size := size, bytesDone := 0, isOpen := true, outputPath := path,
       disk := d.disk[path := []], state := Transferring)
  }

  lemma HeaderKeepsClean(config: Config, before: map<string, seq<Byte>>, d: Download,
                         name: Option<string>, size: Option<int>, path: string, env: Environment)
    requires CleanDisk(before, d)
    ensures var r := HandleFileHeader(config, d, name, size, path, env);
      CleanDisk(before, r) && KeepsCompleted(d, r)
  {
    hide ChosenPath, FinishCurrentFile, LiesUnder, CleanDisk, KeepsCompleted, Abort;
    FinishKeepsClean(before, d);
    var idle := FinishCurrentFile(d);
    if name.None? || size.None? {
      AbortKeepsClean(before, idle);
      KeepsChain(d, idle, Abort(idle));
    } else {
      var named := idle.(currentName := name.value, size := size.value, bytesDone := 0);
      RenamingChangesNothing(before, d, idle, named);
      AbortKeepsClean(before, named);
      KeepsChain(d, named, Abort(named));
      var taken := idle.disk.Keys + env.directories;
      var chosen := ChosenPath(config.directory, config.retainPaths, name.value, path, taken);
      ChosenPathIsContained(config.directory, config.retainPaths, name.value, path, taken);
      if chosen.Some? {
        OpenKeepsClean(before, idle, name.value, size.value, chosen.value);
        KeepsChain(d, idle, Opened(idle, name.value, size.value, chosen.value));
      }
    }
  }

  lemma KeepsChain(d: Download, m: Download, r: Download)
    requires KeepsCompleted(d, m) && KeepsCompleted(m, r) && r.completed == m.completed
    ensures KeepsCompleted(d, r)
  {
    if m.completed != d.completed {
      assert m.completed[|d.completed|] in m.completed;
    }
  }

  lemma RenamingChangesNothing(before: map<string, seq<Byte>>, d: Download, idle: Download, named: Download)
    requires CleanDisk(before, idle) && KeepsCompleted(d, idle) && !idle.isOpen
    requires named == idle.(currentName := named.currentName, size := named.size, bytesDone := named.bytesDone)
    ensures CleanDisk(before, named) && KeepsCompleted(d, named)
  {
  }

  lemma ChunkKeepsClean(before: map<string, seq<Byte>>, d: Download, plain: seq<Byte>, env: Environment)
    requires CleanDisk(before, d) && d.isOpen
    ensures var r := WriteChunk(d, plain, env);
      CleanDisk(before, r) && KeepsCompleted(d, r)
  {
    var part := if env.accepts < |plain| then plain[..env.accepts] else plain;
    var w := Written(d, part).(bytesDone := d.bytesDone + |part|, totalDone := d.totalDone + |part|);
    if env.accepts < |plain| {
      AbortKeepsClean(before, w);
      assert Abort(Written(d, part)).disk == Abort(w).disk;
    } else {
      FinishKeepsClean(before, w);
    }
  }

  lemma DataKeepsClean(before: map<string, seq<Byte>>, d: Download, data: Option<seq<Byte>>,
                       checksum: Option<Int32>, mode: int, env: Environment)
    requires CleanDisk(before, d)
    ensures var r := HandleFileData(d, data, checksum, mode, env);
      CleanDisk(before, r) && KeepsCompleted(d, r)
  {
    if !d.isOpen {
    } else if data.None? {
      FinishKeepsClean(before, d);
    } else if !ChecksumAccepts(data.value, checksum) || !IsKnownMunge(mode) {
      AbortKeepsClean(before, d);
    } else {
      ChunkKeepsClean(before, d, ApplyMunge(data.value, mode), env);
    }
  }

  lemma MessageKeepsClean(config: Config, before: map<string, seq<Byte>>, d: Download, m: Message, env: Environment)
    requires CleanDisk(before, d) && IsConnected(d)
    ensures var r := MessageReceived(config, d, m, env);
      CleanDisk(before, r) && KeepsCompleted(d, r)
  {
    match m
    case FileHeader(name, size, path) => HeaderKeepsClean(config, before, d, name, size, path, env);
    case FileData(data, checksum, mungeMode) => DataKeepsClean(before, d, data, checksum, ModeOf(mungeMode), env);
    case Rejected => AbortKeepsClean(before, d);
    case NotifyQueued =>
    case PeerId =>
    case FileList(_, _) =>
  }

  lemma StepKeepsClean(config: Config, before: map<string, seq<Byte>>, d: Download, e: Event)
    requires CleanDisk(before, d)
    ensures CleanDisk(before, Step(config, d, e)) && KeepsCompleted(d, Step(config, d, e))
  {
    match e
    case Arrived(m, env) =>
      if IsConnected(d) {
        MessageKeepsClean(config, before, d, m, env);
      }
    case HungUp => AbortKeepsClean(before, d);
    case Cancelled => AbortKeepsClean(before, d);
    case Begun(_) =>
    case LinkUp =>
  }

  /** A file that is open after an event was open before, or has just been placed. */
  lemma OpenPathOrigin(config: Config, d: Download, e: Event)
    requires HandleIsBacked(d)
    ensures var r := Step(config, d, e);
      r.isOpen ==> (d.isOpen && r.outputPath == d.outputPath) || LiesUnder(config.directory, r.outputPath)
  {
    hide ChosenPath, LiesUnder;
    if e.Arrived? {
      ArrivalOrigin(config, d, e.message, e.env);
    }
  }

  lemma ArrivalOrigin(config: Config, d: Download, m: Message, env: Environment)
    requires HandleIsBacked(d)
    ensures var r := MessageReceived(config, d, m, env);
      r.isOpen ==> (d.isOpen && r.outputPath == d.outputPath) || LiesUnder(config.directory, r.outputPath)
  {
    hide ChosenPath, LiesUnder, Checksum;
    if m.FileHeader? && m.name.Some? {
      ChosenPathIsContained(config.directory, config.retainPaths, m.name.value, m.path,
                            FinishCurrentFile(d).disk.Keys + env.directories);
    }
  }

  lemma StepKeepsPlaced(config: Config, before: map<string, seq<Byte>>, d: Download, e: Event)
    requires CleanDisk(before, d) && Placed(config, d)
    ensures Placed(config, Step(config, d, e))
  {
    StepKeepsClean(config, before, d, e);
    OpenPathOrigin(config, d, e);
  }

  /** The download after a run of events on a disk. */
  ghost function After(config: Config, before: map<string, seq<Byte>>, events: seq<Event>): (d: Download)
    ensures HandleIsBacked(d)
  {
    if events == [] then Fresh(before)
    else
      var last := |events| - 1;
      Step(config, After(config, before, events[..last]), events[last])
  }

  lemma {:induction false} RunKeepsClean(config: Config, before: map<string, seq<Byte>>, events: seq<Event>)
    ensures CleanDisk(before, After(config, before, events)) && Placed(config, After(config, before, events))
  {
    if events != [] {
      hide CleanDisk, Placed, Step;
      var last := |events| - 1;
      RunKeepsClean(config, before, events[..last]);
      StepKeepsClean(config, before, After(config, before, events[..last]), events[last]);
      StepKeepsPlaced(config, before, After(config, before, events[..last]), events[last]);
    }
  }

  /** Disk safety. Whatever a peer sends and whenever the session ends: files that were
      there before are untouched; the only new paths are the files reported complete, all
      inside the download directory, and at most one more while a file is open, whose
      length is the byte count; and once the download is over no partial file is left. */
  lemma {:induction false} EveryRunIsDiskSafe(config: Config, before: map<string, seq<Byte>>, events: seq<Event>)
    ensures var d := After(config, before, events);
      && (forall p | p in before :: p in d.disk && d.disk[p] == before[p])
      && (forall p | p in d.disk && p !in before :: LiesUnder(config.directory, p))
      && (d.isOpen ==> d.outputPath in d.disk && |d.disk[d.outputPath]| == d.bytesDone)
      && d.disk.Keys - before.Keys - CompletedPaths(d.completed) == PathBeingWritten(d)
      && (IsFinished(d) ==> d.disk.Keys == before.Keys + CompletedPaths(d.completed))
  {
    var d := After(config, before, events);
    RunKeepsClean(config, before, events);
    forall p | p in d.disk && p !in before ensures LiesUnder(config.directory, p) {
      if p in CompletedPaths(d.completed) {
        var c :| c in d.completed && c.path == p;
      }
    }
  }

  /** A file once reported complete stays reported, on disk and unchanged, whatever
      happens later in the run. */
  lemma {:induction false} CompletedFilesAreKept(config: Config, before: map<string, seq<Byte>>, events: seq<Event>,
                              more: seq<Event>)
    ensures var d, r := After(config, before, events), After(config, before, events + more);
      && d.completed <= r.completed
      && forall c | c in d.completed :: c.path in d.disk && c.path in r.disk && r.disk[c.path] == d.disk[c.path]
  {
    hide Step, CleanDisk, Placed, After;
    var d := After(config, before, events);
    RunKeepsClean(config, before, events);
    if more == [] {
      assert events + more == events;
      CompletedAreOnDisk(before, d);
    } else {
      var last := |more| - 1;
      CompletedFilesAreKept(config, before, events, more[..last]);
      assert events + more == (events + more[..last]) + [more[last]];
      AfterSnoc(config, before, events + more[..last], more[last]);
      RunKeepsClean(config, before, events + more[..last]);
      StepKeepsClean(config, before, After(config, before, events + more[..last]), more[last]);
    }
  }

  lemma CompletedAreOnDisk(before: map<string, seq<Byte>>, d: Download)
    requires CleanDisk(before, d)
    ensures forall c | c in d.completed :: c.path in d.disk
  {
    forall c | c in d.completed ensures c.path in d.disk {
      assert c.path in CompletedPaths(d.completed);
    }
  }

  lemma AfterSnoc(config: Config, before: map<string, seq<Byte>>, events: seq<Event>, e: Event)
    ensures HandleIsBacked(After(config, before, events))
    ensures After(config, before, events + [e]) == Step(config, After(config, before, events), e)
  {
    assert (events + [e])[..|events|] == events;
  }
}
