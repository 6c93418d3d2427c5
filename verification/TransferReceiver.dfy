// A download fed with a server's script, message by message: it reports exactly the
// files of the script, in order, each byte for byte what the sharer has on disk.

module TransferReceiver {

  import opened Prelude
  import opened ChunkIntegrity
  import opened TransferProtocol
  import opened UploadServer
  import opened TransferScript
  import opened DownloadSession
  import opened DiskSafety

  /** The requested files that can be opened; the others are skipped without a trace. */
  function Openable(files: seq<SharedFile>, share: Disk): (r: seq<SharedFile>)
    ensures forall f | f in r :: f in files && f.absolutePath in share
  {
    if files == [] then []
    else if files[0].absolutePath in share then [files[0]] + Openable(files[1..], share)
    else Openable(files[1..], share)
  }

  ghost predicate SizesAgree(files: seq<SharedFile>, share: Disk) {
    forall f | f in files && f.absolutePath in share :: f.fileSize == |share[f.absolutePath]|
  }

  /** The completed files are the first of the openable ones, and their contents agree. */
  ghost predicate Matches(d: Download, all: seq<SharedFile>, share: Disk) {
    && |d.completed| <= |all|
    && forall j | 0 <= j < |d.completed| ::
         && d.completed[j].name == all[j].fileName
         && all[j].absolutePath in share && d.completed[j].path in d.disk
         && d.disk[d.completed[j].path] == share[all[j].absolutePath]
  }

  /** Between two files. */
  ghost predicate AtBoundary(d: Download, all: seq<SharedFile>, rest: seq<SharedFile>, share: Disk) {
    && !d.isOpen && |d.completed| <= |all|
    && all[|d.completed|..] == Openable(rest, share)
  }

  /** In the middle of a file: so many bytes have arrived, and a file with bytes still to
      come, or with none at all, is open. */
  ghost predicate InFile(d: Download, all: seq<SharedFile>, rest: seq<SharedFile>, share: Disk) {
    && d.isOpen && |d.completed| < |all|
    && all[|d.completed| + 1..] == Openable(rest, share)
    && d.outputPath in d.disk
    && IsPartOf(d, all[|d.completed|], share)
  }

  predicate IsPartOf(d: Download, f: SharedFile, share: Disk)
    requires d.outputPath in d.disk
  {
    && f.absolutePath in share && d.currentName == f.fileName
    && d.size == |share[f.absolutePath]| && d.bytesDone <= d.size
    && (d.bytesDone < d.size || d.size == 0)
    && d.disk[d.outputPath] == share[f.absolutePath][..d.bytesDone]
  }

  function FileBeingRead(d: Download, all: seq<SharedFile>, share: Disk): OpenFile
    requires |d.completed| < |all| && all[|d.completed|].absolutePath in share
  {
    OpenFile(share[all[|d.completed|].absolutePath], d.bytesDone)
  }

  /** The messages still to come, read off the state of the download. */
  ghost predicate Synced(d: Download, remaining: seq<Message>, all: seq<SharedFile>, share: Disk, mungeMode: int) {
    || (exists rest :: AtBoundary(d, all, rest, share) && remaining == Script(rest, share, mungeMode))
    || (exists rest :: InFile(d, all, rest, share)
          && remaining == ChunkScript(FileBeingRead(d, all, share), mungeMode) + Script(rest, share, mungeMode))
  }

  /** The last file completed was completed by its own bytes. */
  predicate EndsWithContent(d: Download, all: seq<SharedFile>, share: Disk) {
    d.completed == [] ||
      var n := |d.completed|;
      n <= |all| && all[n - 1].absolutePath in share && share[all[n - 1].absolutePath] != []
  }

  ghost predicate Progress(d: Download, remaining: seq<Message>, all: seq<SharedFile>, share: Disk, mungeMode: int) {
    && Matches(d, all, share)
    && (IsConnected(d) ==> Synced(d, remaining, all, share, mungeMode))
    && (IsConnected(d) && !d.isOpen ==> EndsWithContent(d, all, share))
  }

  /** The headers among some messages, in order. */
  function Headers(messages: seq<Message>): seq<Message> {
    if messages == [] then []
    else (if messages[0].FileHeader? then [messages[0]] else []) + Headers(messages[1..])
  }

  function Announced(files: seq<SharedFile>): seq<Message> {
    if files == [] then []
    else [FileHeader(Some(files[0].fileName), Some(files[0].fileSize), files[0].relativePath)] + Announced(files[1..])
  }

  lemma {:induction false} HeadersAppend(a: seq<Message>, b: seq<Message>)
    ensures Headers(a + b) == Headers(a) + Headers(b)
  {
    if a == [] {
      assert a + b == b;
    } else {
      assert (a + b)[1..] == a[1..] + b;
      HeadersAppend(a[1..], b);
      var first := if a[0].FileHeader? then [a[0]] else [];
      assert Headers(a) == first + Headers(a[1..]) && Headers(a + b) == first + Headers(a[1..] + b);
      hide Headers;
      Regroup(first, Headers(a[1..]), Headers(b));
    }
  }

  lemma {:induction false} ChunksHaveNoHeaders(f: OpenFile, mungeMode: int)
    ensures Headers(ChunkScript(f, mungeMode)) == []
    decreases |f.contents| - f.position
  {
    if NextBytes(f) != [] {
      ChunksHaveNoHeaders(Advanced(f), mungeMode);
    }
  }

  /** A script announces every file that can be opened, once, in request order, under its
      name, with its size and its path. */
  lemma {:induction false} ScriptAnnounces(files: seq<SharedFile>, share: Disk, mungeMode: int)
    ensures Headers(Script(files, share, mungeMode)) == Announced(Openable(files, share))
  {
    if files != [] {
      var first, rest := FileScript(files[0], share, mungeMode), Script(files[1..], share, mungeMode);
      ScriptAnnounces(files[1..], share, mungeMode);
      HeadersAppend(first, rest);
      if files[0].absolutePath in share {
        var chunks := ChunkScript(OpenFile(share[files[0].absolutePath], 0), mungeMode);
        ChunksHaveNoHeaders(OpenFile(share[files[0].absolutePath], 0), mungeMode);
        HeadersAppend([Header(files[0])], chunks);
        OneHeader(files[0]);
      }
    }
  }

  lemma OneHeader(f: SharedFile)
    ensures Headers([Header(f)]) == [FileHeader(Some(f.fileName), Some(f.fileSize), f.relativePath)]
  {
    assert [Header(f)][1..] == [];
  }

  // ----- The next message of a script -----

  /** A script that is not over begins with the header of the next openable file. */
  lemma {:induction false} ScriptHead(files: seq<SharedFile>, share: Disk, mungeMode: int)
    returns (rest: seq<SharedFile>)
    ensures Script(files, share, mungeMode) == [] <==> Openable(files, share) == []
    ensures Openable(files, share) != [] ==>
      var f := Openable(files, share)[0];
      && Openable(files, share)[1..] == Openable(rest, share)
      && Script(files, share, mungeMode)
         == [Header(f)] + (ChunkScript(OpenFile(share[f.absolutePath], 0), mungeMode) + Script(rest, share, mungeMode))
  {
    if files == [] {
      rest := [];
    } else if files[0].absolutePath in share {
      rest := files[1..];
      Associates([Header(files[0])], ChunkScript(OpenFile(share[files[0].absolutePath], 0), mungeMode),
                 Script(rest, share, mungeMode));
    } else {
      rest := ScriptHead(files[1..], share, mungeMode);
    }
  }

  // ----- One message -----

  lemma MatchesKept(d: Download, r: Download, all: seq<SharedFile>, share: Disk)
    requires Matches(d, all, share) && KeepsCompleted(d, r) && r.completed == d.completed
    ensures Matches(r, all, share)
  {
  }

  /** Opening the announced file leaves the download at its start. */
  lemma HeaderEntersFile(config: Config, before: map<string, seq<Byte>>, d: Download, all: seq<SharedFile>,
                         files: seq<SharedFile>, rest: seq<SharedFile>, share: Disk, env: Environment)
    requires CleanDisk(before, d) && IsConnected(d)
    requires Matches(d, all, share) && AtBoundary(d, all, files, share) && SizesAgree(all, share)
    requires Openable(files, share) != [] && Openable(files, share)[1..] == Openable(rest, share)
    ensures var f := Openable(files, share)[0];
      var r := HandleFileHeader(config, d, Some(f.fileName), Some(f.fileSize), f.relativePath, env);
      && Matches(r, all, share) && r.completed == d.completed
      && (IsConnected(r) ==>
            (InFile(r, all, rest, share) && r.bytesDone == 0 && all[|r.completed|] == f))
  {
    var n := |d.completed|;
    var f := Openable(files, share)[0];
    assert all[n] == all[n..][0] == f;
    assert all[n + 1..] == all[n..][1..];
    assert f in all;
    var r := HandleFileHeader(config, d, Some(f.fileName), Some(f.fileSize), f.relativePath, env);
    HeaderKeepsClean(config, before, d, Some(f.fileName), Some(f.fileSize), f.relativePath, env);
    MatchesKept(d, r, all, share);
  }

  lemma BoundaryReceives(config: Config, before: map<string, seq<Byte>>, d: Download, all: seq<SharedFile>,
                         files: seq<SharedFile>, share: Disk, mungeMode: int, env: Environment)
    requires CleanDisk(before, d) && IsConnected(d)
    requires Matches(d, all, share) && AtBoundary(d, all, files, share) && SizesAgree(all, share)
    requires Script(files, share, mungeMode) != []
    ensures var script := Script(files, share, mungeMode);
      && script[0].FileHeader?
      && Progress(MessageReceived(config, d, script[0], env), script[1..], all, share, mungeMode)
  {
    var rest := ScriptHead(files, share, mungeMode);
    var script := Script(files, share, mungeMode);
    var f := Openable(files, share)[0];
    HeaderEntersFile(config, before, d, all, files, rest, share, env);
    var r := MessageReceived(config, d, script[0], env);
    if IsConnected(r) {
      assert script[1..] == ChunkScript(FileBeingRead(r, all, share), mungeMode) + Script(rest, share, mungeMode);
    }
  }

  /** A chunk as the server stamps it passes the checksum test and decodes to the bytes
      that were read. */
  lemma ChunkAccepted(bytes: seq<Byte>, mungeMode: int)
    requires IsKnownMunge(mungeMode)
    ensures var m := ChunkMessage(bytes, mungeMode);
      && ChecksumAccepts(m.data.value, m.checksum)
      && ApplyMunge(m.data.value, ModeOf(m.mungeMode)) == bytes
  {
    ApplyMungeTwice(bytes, mungeMode);
  }

  /** A file whose bytes are all there matches once it is finished. */
  lemma FullFileCompletes(d: Download, all: seq<SharedFile>, rest: seq<SharedFile>, share: Disk)
    requires d.isOpen && |d.completed| < |all| && all[|d.completed| + 1..] == Openable(rest, share)
    requires Matches(d, all, share) && d.outputPath in d.disk
    requires var f := all[|d.completed|];
      f.absolutePath in share && d.currentName == f.fileName
      && d.disk[d.outputPath] == share[f.absolutePath] && d.bytesDone >= d.size
    ensures var idle := FinishCurrentFile(d);
      Matches(idle, all, share) && AtBoundary(idle, all, rest, share)
  {
  }

  /** The bytes of a chunk, once written, extend the part of the file that is there. */
  lemma ChunkWritten(before: map<string, seq<Byte>>, d: Download, all: seq<SharedFile>, rest: seq<SharedFile>,
                     share: Disk) returns (w: Download)
    requires CleanDisk(before, d) && InFile(d, all, rest, share) && Matches(d, all, share)
    ensures var f := FileBeingRead(d, all, share);
      && w == Written(d, NextBytes(f)).(bytesDone := d.bytesDone + |NextBytes(f)|,
                                        totalDone := d.totalDone + |NextBytes(f)|)
      && Matches(w, all, share)
      && w.bytesDone == Advanced(f).position <= |f.contents|
      && w.disk[w.outputPath] == f.contents[..w.bytesDone]
  {
    var f := FileBeingRead(d, all, share);
    var plain := NextBytes(f);
    w := Written(d, plain).(bytesDone := d.bytesDone + |plain|, totalDone := d.totalDone + |plain|);
    MatchesKept(d, w, all, share);
  }

  lemma ShortWriteFails(before: map<string, seq<Byte>>, d: Download, plain: seq<Byte>, all: seq<SharedFile>,
                        share: Disk, env: Environment)
    requires CleanDisk(before, d) && d.isOpen && d.outputPath in d.disk
    requires Matches(d, all, share) && env.accepts < |plain|
    ensures var r := WriteChunk(d, plain, env);
      !IsConnected(r) && Matches(r, all, share)
  {
    hide Matches, CleanDisk, KeepsCompleted;
    var r := WriteChunk(d, plain, env);
    ChunkKeepsClean(before, d, plain, env);
    MatchesKept(d, r, all, share);
  }

  lemma ChunkLands(before: map<string, seq<Byte>>, d: Download, all: seq<SharedFile>, rest: seq<SharedFile>,
                   share: Disk, env: Environment)
    requires CleanDisk(before, d) && InFile(d, all, rest, share) && Matches(d, all, share)
    requires NextBytes(FileBeingRead(d, all, share)) != []
    ensures var f := FileBeingRead(d, all, share);
      var r := WriteChunk(d, NextBytes(f), env);
      && Matches(r, all, share)
      && (IsConnected(r) ==>
            || (AtBoundary(r, all, rest, share) && NextBytes(Advanced(f)) == [] && EndsWithContent(r, all, share))
            || (InFile(r, all, rest, share) && FileBeingRead(r, all, share) == Advanced(f)))
  {
    hide CleanDisk, Matches;
    var f := FileBeingRead(d, all, share);
    if env.accepts < |NextBytes(f)| {
      ShortWriteFails(before, d, NextBytes(f), all, share, env);
    } else {
      var w := ChunkWritten(before, d, all, rest, share);
      if w.bytesDone >= d.size {
        assert f.contents[..w.bytesDone] == f.contents;
        FullFileCompletes(w, all, rest, share);
      }
    }
  }

  lemma ChunkIsWritten(config: Config, d: Download, bytes: seq<Byte>, mungeMode: int, env: Environment)
    requires d.isOpen && HandleIsBacked(d) && IsKnownMunge(mungeMode)
    ensures MessageReceived(config, d, ChunkMessage(bytes, mungeMode), env) == WriteChunk(d, bytes, env)
  {
    ChunkAccepted(bytes, mungeMode);
    hide Checksum, ApplyMunge, WriteChunk;
  }

  lemma FileReceivesChunk(config: Config, before: map<string, seq<Byte>>, d: Download, all: seq<SharedFile>,
                          rest: seq<SharedFile>, share: Disk, mungeMode: int, env: Environment)
    requires CleanDisk(before, d) && IsConnected(d) && IsKnownMunge(mungeMode)
    requires InFile(d, all, rest, share) && Matches(d, all, share)
    requires NextBytes(FileBeingRead(d, all, share)) != []
    ensures var f := FileBeingRead(d, all, share);
      Progress(MessageReceived(config, d, ChunkMessage(NextBytes(f), mungeMode), env),
               ChunkScript(Advanced(f), mungeMode) + Script(rest, share, mungeMode), all, share, mungeMode)
  {
    hide CleanDisk, Matches, WriteChunk, MessageReceived, ChunkMessage, NextBytes, EndsWithContent;
    var f := FileBeingRead(d, all, share);
    ChunkIsWritten(config, d, NextBytes(f), mungeMode, env);
    ChunkLands(before, d, all, rest, share, env);
    var r := WriteChunk(d, NextBytes(f), env);
    if IsConnected(r) && AtBoundary(r, all, rest, share) {
      assert ChunkScript(Advanced(f), mungeMode) + Script(rest, share, mungeMode) == Script(rest, share, mungeMode);
    }
  }

  /** An empty file is completed by the header that follows it. */
  lemma EmptyFileCompletes(d: Download, all: seq<SharedFile>, rest: seq<SharedFile>, share: Disk)
    requires InFile(d, all, rest, share) && Matches(d, all, share)
    requires NextBytes(FileBeingRead(d, all, share)) == []
    ensures var idle := FinishCurrentFile(d);
      Matches(idle, all, share) && AtBoundary(idle, all, rest, share)
  {
    FullFileCompletes(d, all, rest, share);
  }

  lemma FileReceivesHeader(config: Config, before: map<string, seq<Byte>>, d: Download, all: seq<SharedFile>,
                           rest: seq<SharedFile>, share: Disk, mungeMode: int, env: Environment)
    requires CleanDisk(before, d) && IsConnected(d) && SizesAgree(all, share)
    requires InFile(d, all, rest, share) && Matches(d, all, share)
    requires NextBytes(FileBeingRead(d, all, share)) == [] && Script(rest, share, mungeMode) != []
    ensures var script := Script(rest, share, mungeMode);
      Progress(MessageReceived(config, d, script[0], env), script[1..], all, share, mungeMode)
  {
    var idle := FinishCurrentFile(d);
    EmptyFileCompletes(d, all, rest, share);
    FinishKeepsClean(before, d);
    BoundaryReceives(config, before, idle, all, rest, share, mungeMode, env);
    assert FinishCurrentFile(idle) == idle;
  }

  lemma ChunkIsNext(f: OpenFile, mungeMode: int, tail: seq<Message>)
    requires NextBytes(f) != []
    ensures var remaining := ChunkScript(f, mungeMode) + tail;
      && remaining != [] && remaining[0] == ChunkMessage(NextBytes(f), mungeMode)
      && remaining[1..] == ChunkScript(Advanced(f), mungeMode) + tail
  {
    ConsAppend(ChunkMessage(NextBytes(f), mungeMode), ChunkScript(Advanced(f), mungeMode),
               ChunkScript(f, mungeMode), tail);
  }

  lemma ConsAppend<T>(head: T, a: seq<T>, whole: seq<T>, tail: seq<T>)
    requires whole == [head] + a
    ensures (whole + tail) != [] && (whole + tail)[0] == head && (whole + tail)[1..] == a + tail
  {
  }

  lemma FileReceives(config: Config, before: map<string, seq<Byte>>, d: Download, remaining: seq<Message>,
                     all: seq<SharedFile>, rest: seq<SharedFile>, share: Disk, mungeMode: int, env: Environment)
    requires CleanDisk(before, d) && IsConnected(d) && IsKnownMunge(mungeMode) && SizesAgree(all, share)
    requires InFile(d, all, rest, share) && Matches(d, all, share) && remaining != []
    requires remaining == ChunkScript(FileBeingRead(d, all, share), mungeMode) + Script(rest, share, mungeMode)
    ensures Progress(MessageReceived(config, d, remaining[0], env), remaining[1..], all, share, mungeMode)
  {
    var f := FileBeingRead(d, all, share);
    if NextBytes(f) != [] {
      ChunkIsNext(f, mungeMode, Script(rest, share, mungeMode));
      FileReceivesChunk(config, before, d, all, rest, share, mungeMode, env);
    } else {
      assert remaining == Script(rest, share, mungeMode);
      FileReceivesHeader(config, before, d, all, rest, share, mungeMode, env);
    }
  }

  /** Whatever position the download is in, the next message of the script keeps it on
      the script. */
  lemma ReceiveKeepsProgress(config: Config, before: map<string, seq<Byte>>, d: Download,
                             remaining: seq<Message>, all: seq<SharedFile>, share: Disk, mungeMode: int,
                             env: Environment)
    requires CleanDisk(before, d) && IsConnected(d) && IsKnownMunge(mungeMode) && SizesAgree(all, share)
    requires Progress(d, remaining, all, share, mungeMode) && remaining != []
    ensures Progress(MessageReceived(config, d, remaining[0], env), remaining[1..], all, share, mungeMode)
  {
    if rest :| AtBoundary(d, all, rest, share) && remaining == Script(rest, share, mungeMode) {
      BoundaryReceives(config, before, d, all, rest, share, mungeMode, env);
    } else {
      var rest :| InFile(d, all, rest, share)
        && remaining == ChunkScript(FileBeingRead(d, all, share), mungeMode) + Script(rest, share, mungeMode);
      FileReceives(config, before, d, remaining, all, rest, share, mungeMode, env);
    }
  }

  /** When the whole script has arrived and the session is still up, every openable file
      is complete, except that a trailing empty one is still open. */
  lemma WholeScriptArrived(d: Download, all: seq<SharedFile>, share: Disk, mungeMode: int)
    requires IsConnected(d) && Progress(d, [], all, share, mungeMode)
    ensures (|d.completed| == |all| && !d.isOpen && EndsWithContent(d, all, share))
         || (|d.completed| + 1 == |all| && d.isOpen && share[all[|all| - 1].absolutePath] == [])
  {
    hide Matches, EndsWithContent, Openable;
    if rest :| AtBoundary(d, all, rest, share) && [] == Script(rest, share, mungeMode) {
      var _ := ScriptHead(rest, share, mungeMode);
    } else {
      var rest :| InFile(d, all, rest, share)
        && [] == ChunkScript(FileBeingRead(d, all, share), mungeMode) + Script(rest, share, mungeMode);
      var _ := ScriptHead(rest, share, mungeMode);
      assert ChunkScript(FileBeingRead(d, all, share), mungeMode) == [];
    }
  }
}
