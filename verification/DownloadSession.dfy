// One download session: what it does with everything a peer sends, and what that does
// to the disk. The functions describe each handler on values; class FileDownload is the
// handler as the program runs it, field by field.

module DownloadSession {

  import opened Prelude
  import opened ChunkIntegrity
  import opened OutputPath
  import opened TransferProtocol

  datatype DownloadState =
    | Idle | Connecting | Requesting | QueuedRemotely | Transferring | Finished | Failed

  /** Fixed when the download is created. */
  datatype Config = Config(directory: string, retainPaths: bool, requested: seq<string>)

  /** One DownloadFileCompleted callback. */
  datatype Completed = Completed(name: string, path: string)

  datatype Download = Download(
    state: DownloadState,
    disk: map<string, seq<Byte>>,
    isOpen: bool,
    outputPath: string,
    currentName: string,
    size: int,
    bytesDone: nat,
    totalDone: nat,
    completed: seq<Completed>)

  /** What the operating system answers while one message is handled: which directories
      exist, whether the directory tree and the file could be created, and how many bytes
      fwrite() takes. */
  datatype Environment = Environment(directories: set<string>, opens: bool, accepts: nat)

  predicate IsFinished(d: Download) { d.state.Finished? || d.state.Failed? }

  /** The states in which the session is up, so that messages can arrive. */
  predicate IsConnected(d: Download) {
    d.state.Requesting? || d.state.QueuedRemotely? || d.state.Transferring?
  }

  function Fresh(disk: map<string, seq<Byte>>): Download {
    Download(Idle, disk, false, "", "", 0, 0, 0, [])
  }

  function Greeting(config: Config): seq<Message> {
    [PeerId, FileList(config.requested, Some(MUNGE_MODE_XOR))]
  }

  function FinishCurrentFile(d: Download): Download {
    if !d.isOpen then d
    else
      var closed := d.(isOpen := false, outputPath := "", bytesDone := 0, size := 0);
      if d.size <= 0 || d.bytesDone >= d.size
      then closed.(completed := d.completed + [Completed(d.currentName, d.outputPath)])
      else closed.(disk := d.disk - {d.outputPath})
  }

  function Abort(d: Download): Download {
    if IsFinished(d) then d
    else d.(state := Failed, isOpen := false,
            disk := if d.outputPath != "" then d.disk - {d.outputPath} else d.disk)
  }

  function HandleFileHeader(config: Config, d: Download, name: Option<string>, size: Option<int>,
                            path: string, env: Environment): Download
  {
    var idle := FinishCurrentFile(d);
    if name.None? || size.None? then Abort(idle)
    else
      var named := idle.(currentName := name.value, size := size.value, bytesDone := 0);
      var chosen := ChosenPath(config.directory, config.retainPaths, name.value, path,
                               idle.disk.Keys + env.directories);
      if chosen.None? || !env.opens then Abort(named)
      else named.(isOpen := true, outputPath := chosen.value,
                  disk := idle.disk[chosen.value := []], state := Transferring)
  }

  predicate IsKnownMunge(mungeMode: int) {
    mungeMode == MUNGE_MODE_XOR || mungeMode == MUNGE_MODE_NONE
  }

  predicate ChecksumAccepts(wire: seq<Byte>, checksum: Option<Int32>) {
    checksum.Some? ==> Checksum(wire) == ToUint32(checksum.value)
  }

  function Written(d: Download, bytes: seq<Byte>): Download
    requires d.isOpen && d.outputPath in d.disk
  {
    d.(disk := d.disk[d.outputPath := d.disk[d.outputPath] + bytes])
  }

  predicate HandleIsBacked(d: Download) { d.isOpen ==> d.outputPath in d.disk }

  function WriteChunk(d: Download, plain: seq<Byte>, env: Environment): Download
    requires d.isOpen && d.outputPath in d.disk
  {
    if env.accepts < |plain| then Abort(Written(d, plain[..env.accepts]))
    else
      var counted := Written(d, plain).(bytesDone := d.bytesDone + |plain|,
                                        totalDone := d.totalDone + |plain|);
      if d.size >= 0 && counted.bytesDone >= d.size then FinishCurrentFile(counted) else counted
  }

  function HandleFileData(d: Download, data: Option<seq<Byte>>, checksum: Option<Int32>,
                          mungeMode: int, env: Environment): Download
    requires HandleIsBacked(d)
  {
    if !d.isOpen then d
    else if data.None? then FinishCurrentFile(d)
    else if !ChecksumAccepts(data.value, checksum) || !IsKnownMunge(mungeMode) then Abort(d)
    else WriteChunk(d, ApplyMunge(data.value, mungeMode), env)
  }

  function MessageReceived(config: Config, d: Download, m: Message, env: Environment): Download
    requires HandleIsBacked(d)
  {
    match m
    case FileHeader(name, size, path) => HandleFileHeader(config, d, name, size, path, env)
    case FileData(data, checksum, mungeMode) => HandleFileData(d, data, checksum, ModeOf(mungeMode), env)
    case NotifyQueued => d.(state := QueuedRemotely)
    case Rejected => Abort(d)
    case PeerId => d
    case FileList(_, _) => d
  }

  /** Start(): nothing happens without requested files; otherwise the connection attempt
      is under way or has failed at once. */
  function Start(config: Config, d: Download, reachable: bool): Download {
    if config.requested == [] then d
    else d.(state := if reachable then Connecting else Failed)
  }

  function SessionConnected(d: Download): Download { d.(state := Requesting) }

  function SessionDisconnected(d: Download): Download {
    if IsFinished(d) then d
    else if d.isOpen then Abort(d)
    else d.(state := if |d.completed| > 0 then Finished else Failed)
  }

  class FileDownload {
    const config: Config
    var state: DownloadState
    var disk: map<string, seq<Byte>>
    var outputFileIsOpen: bool
    var outputPath: string
    var currentFileName: string
    var currentFileSize: int
    var currentFileBytesDone: nat
    var totalBytesDone: nat
    var completed: seq<Completed>

    function Snapshot(): Download
      reads this
    {
      Download(state, disk, outputFileIsOpen, outputPath, currentFileName, currentFileSize,
               currentFileBytesDone, totalBytesDone, completed)
    }

    constructor (config: Config, disk: map<string, seq<Byte>>)
      ensures Snapshot() == Fresh(disk) && this.config == config
    {
      this.config := config;
      this.disk := disk;
      state, outputFileIsOpen, outputPath, currentFileName := Idle, false, "", "";
      currentFileSize, currentFileBytesDone, totalBytesDone, completed := 0, 0, 0, [];
    }

    method FinishFile()
      modifies this
      ensures Snapshot() == FinishCurrentFile(old(Snapshot()))
    {
      if !outputFileIsOpen {
        return;
      }
      outputFileIsOpen := false;
      if currentFileSize <= 0 || currentFileBytesDone >= currentFileSize {
        completed := completed + [Completed(currentFileName, outputPath)];
      } else {
        disk := disk - {outputPath};
      }
      outputPath := "";
      currentFileBytesDone := 0;
      currentFileSize := 0;
    }

    method AbortTransfer()
      modifies this
      ensures Snapshot() == Abort(old(Snapshot()))
    {
      if state == Finished || state == Failed {
        return;
      }
      outputFileIsOpen := false;
      if outputPath != "" {
        disk := disk - {outputPath};
      }
      state := Failed;
    }

    method OpenOutputFile(fileName: string, relativePath: string, env: Environment) returns (ok: bool)
      modifies this
      ensures var before := old(Snapshot());
        var chosen := ChosenPath(config.directory, config.retainPaths, fileName, relativePath,
                                 before.disk.Keys + env.directories);
        ok == (chosen.Some? && env.opens)
        && Snapshot() == if ok then before.(isOpen := true, outputPath := chosen.value,
                                                disk := before.disk[chosen.value := []])
                         else before
    {
      var candidate := ChooseOutputPath(config.directory, config.retainPaths, fileName, relativePath,
                                        disk.Keys + env.directories);
      if candidate.None? || !env.opens {
        return false;
      }
      outputFileIsOpen := true;
      disk := disk[candidate.value := []];
      outputPath := candidate.value;
      ok := true;
    }

    method ReceiveFileHeader(name: Option<string>, size: Option<int>, path: string, env: Environment)
      modifies this
      ensures Snapshot() == HandleFileHeader(config, old(Snapshot()), name, size, path, env)
    {
      FinishFile();
      if name.None? || size.None? {
        AbortTransfer();
        return;
      }
      currentFileName := name.value;
      currentFileSize := size.value;
      currentFileBytesDone := 0;
      var ok := OpenOutputFile(name.value, path, env);
      if !ok {
        AbortTransfer();
        return;
      }
      state := Transferring;
    }

    method ReceiveFileData(data: Option<seq<Byte>>, checksum: Option<Int32>, mungeMode: int, env: Environment)
      requires HandleIsBacked(Snapshot())
      modifies this
      ensures Snapshot() == HandleFileData(old(Snapshot()), data, checksum, mungeMode, env)
    {
      if !outputFileIsOpen {
        return;
      }
      if data.None? {
        FinishFile();
        return;
      }
      var byteCount := |data.value|;
      var wire := new Byte[byteCount](i requires 0 <= i < byteCount => data.value[i]);
      assert wire[..byteCount] == data.value;
      if checksum.Some? {
        var actual := CalculateChecksum(wire, byteCount);
        if actual != ToUint32(checksum.value) {
          AbortTransfer();
          return;
        }
      }
      if mungeMode == MUNGE_MODE_XOR {
        MungeInPlace(wire, byteCount);
      } else if mungeMode != MUNGE_MODE_NONE {
        AbortTransfer();
        return;
      }
      assert wire[..byteCount] == ApplyMunge(data.value, mungeMode);
      WriteBytes(wire[..byteCount], env);
    }

    method WriteBytes(plain: seq<Byte>, env: Environment)
      requires outputFileIsOpen && outputPath in disk
      modifies this
      ensures Snapshot() == WriteChunk(old(Snapshot()), plain, env)
    {
      var written := if env.accepts < |plain| then env.accepts else |plain|;
      disk := disk[outputPath := disk[outputPath] + plain[..written]];
      if written != |plain| {
        AbortTransfer();
        return;
      }
      assert plain[..written] == plain;
      currentFileBytesDone := currentFileBytesDone + |plain|;
      totalBytesDone := totalBytesDone + |plain|;
      if currentFileSize >= 0 && currentFileBytesDone >= currentFileSize {
        FinishFile();
      }
    }

    method Receive(m: Message, env: Environment)
      requires HandleIsBacked(Snapshot())
      modifies this
      ensures Snapshot() == MessageReceived(config, old(Snapshot()), m, env)
    {
      match m
      case FileHeader(name, size, path) => ReceiveFileHeader(name, size, path, env);
      case FileData(data, checksum, mungeMode) => ReceiveFileData(data, checksum, ModeOf(mungeMode), env);
      case NotifyQueued => state := QueuedRemotely;
      case Rejected => AbortTransfer();
      case PeerId =>
      case FileList(_, _) =>
    }

    method Connected() returns (sent: seq<Message>)
      modifies this
      ensures Snapshot() == SessionConnected(old(Snapshot())) && sent == Greeting(config)
    {
      state := Requesting;
      sent := [PeerId];
      sent := sent + [FileList(config.requested, Some(MUNGE_MODE_XOR))];
    }

    method Disconnected()
      modifies this
      ensures Snapshot() == SessionDisconnected(old(Snapshot()))
    {
      if state == Finished || state == Failed {
        return;
      }
      if outputFileIsOpen {
        AbortTransfer();
        return;
      }
      state := if |completed| > 0 then Finished else Failed;
    }

    method Begin(reachable: bool)
      modifies this
      ensures Snapshot() == Start(config, old(Snapshot()), reachable)
    {
      if config.requested == [] {
        return;
      }
      state := if reachable then Connecting else Failed;
    }
  }
}
