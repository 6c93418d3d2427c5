// What a connected download makes of each message, in every run: exactly which ones fail
// it, and what the others do to the file being written.

module DownloadLaws {

  import opened Prelude
  import opened ChunkIntegrity
  import opened OutputPath
  import opened TransferProtocol
  import opened DownloadSession
  import opened DiskSafety
  import UploadServer

  /** The wire bytes do not have the sum that was sent with them. */
  predicate IsCorrupt(wire: seq<Byte>, checksum: Option<Int32>) {
    checksum.Some? && WeightedSum(wire) % WORD != (if checksum.value < 0 then checksum.value + WORD else checksum.value)
  }

  /** The open file, if any, that would be thrown away if it ended now. */
  predicate IsShort(d: Download) { d.isOpen && 0 < d.size && d.bytesDone < d.size }

  /** The paths in use once the open file has ended. */
  function TakenPaths(d: Download, env: Environment): set<string> {
    d.disk.Keys - (if IsShort(d) then {d.outputPath} else {}) + env.directories
  }

  /** What fails a connected download: a refusal; a header without name or size, or for
      which no file can be created; with a file open, a chunk that is corrupt, that is in
      an unknown encoding, or that the disk does not take. */
  ghost predicate Spoils(config: Config, d: Download, m: Message, env: Environment) {
    match m
    case Rejected => true
    case FileHeader(name, size, path) =>
      || name.None? || size.None? || !env.opens
      || ChosenPath(config.directory, config.retainPaths, name.value, path, TakenPaths(d, env)).None?
    case FileData(data, checksum, mungeMode) =>
      && d.isOpen && data.Some?
      && (|| IsCorrupt(data.value, checksum) || ModeOf(mungeMode) !in {0, 1} || env.accepts < |data.value|)
    case _ => false
  }

  lemma EndedDisk(d: Download, env: Environment)
    requires HandleIsBacked(d)
    ensures FinishCurrentFile(d).disk.Keys + env.directories == TakenPaths(d, env)
  {
  }

  lemma CorruptIsRefused(wire: seq<Byte>, checksum: Option<Int32>)
    ensures IsCorrupt(wire, checksum) <==> !ChecksumAccepts(wire, checksum)
  {
  }

  lemma SpoiledData(config: Config, d: Download, m: Message, env: Environment)
    requires IsConnected(d) && HandleIsBacked(d) && m.FileData?
    ensures var r := MessageReceived(config, d, m, env);
      if Spoils(config, d, m, env) then r.state.Failed? && !r.isOpen && r.completed == d.completed
      else IsConnected(r)
  {
    hide IsCorrupt, ChecksumAccepts, ApplyMunge;
    if m.data.Some? {
      CorruptIsRefused(m.data.value, m.checksum);
    }
  }

  lemma SpoiledHeader(config: Config, d: Download, m: Message, env: Environment)
    requires IsConnected(d) && HandleIsBacked(d) && m.FileHeader?
    ensures var r := MessageReceived(config, d, m, env);
      if Spoils(config, d, m, env) then r.state.Failed? && !r.isOpen else IsConnected(r)
  {
    hide ChosenPath;
    EndedDisk(d, env);
  }

  lemma SpoilingFails(config: Config, d: Download, m: Message, env: Environment)
    requires IsConnected(d) && HandleIsBacked(d)
    ensures var r := MessageReceived(config, d, m, env);
      if Spoils(config, d, m, env) then r.state.Failed? && !r.isOpen && (!m.FileHeader? ==> r.completed == d.completed)
      else IsConnected(r)
  {
    if m.FileHeader? {
      hide Spoils, MessageReceived;
      SpoiledHeader(config, d, m, env);
    } else if m.FileData? {
      hide Spoils, MessageReceived;
      SpoiledData(config, d, m, env);
    }
  }

  /** In every run, a connected download is failed by exactly these messages. It is then
      closed, keeps what it had completed, and leaves nothing else on the disk: the file
      it was writing, unless a header has just ended it, is gone. */
  lemma MessagesThatFail(config: Config, before: map<string, seq<Byte>>, events: seq<Event>, m: Message,
                         env: Environment)
    ensures var d := After(config, before, events);
      var r := MessageReceived(config, d, m, env);
      IsConnected(d) ==>
        && (r.state.Failed? <==> Spoils(config, d, m, env)) && (!r.state.Failed? ==> IsConnected(r))
        && (r.state.Failed? ==>
              && !r.isOpen && d.completed <= r.completed
              && r.disk.Keys == before.Keys + CompletedPaths(r.completed)
              && (!m.FileHeader? ==> r.completed == d.completed && (d.isOpen ==> d.outputPath !in r.disk)))
  {
    hide After, Spoils, MessageReceived;
    var d := After(config, before, events);
    if IsConnected(d) {
      RunKeepsClean(config, before, events);
      SpoilingFails(config, d, m, env);
      MessageKeepsClean(config, before, d, m, env);
    }
  }

  /** A chunk with any one byte changed on its way fails the download, whatever the byte,
      the chunk and its encoding. */
  lemma DamagedChunkFails(config: Config, before: map<string, seq<Byte>>, events: seq<Event>, bytes: seq<Byte>,
                          mungeMode: int, i: nat, b: Byte, env: Environment)
    requires i < |bytes| && b != ApplyMunge(bytes, mungeMode)[i]
    ensures var d := After(config, before, events);
      var sent := UploadServer.ChunkMessage(bytes, mungeMode);
      var r := MessageReceived(config, d, sent.(data := Some(sent.data.value[i := b])), env);
      IsConnected(d) && d.isOpen ==>
        r.state.Failed? && !r.isOpen && r.completed == d.completed && d.outputPath !in r.disk
  {
    var wire := ApplyMunge(bytes, mungeMode);
    var damaged := FileData(Some(wire[i := b]), Some(ToInt32(Checksum(wire))), Some(mungeMode));
    SingleByteChangeDetected(wire, i, b);
    MessagesThatFail(config, before, events, damaged, env);
  }

  // ----- Chunks that are accepted -----

  function Plain(wire: seq<Byte>, mungeMode: Option<int>): seq<Byte> {
    seq(|wire|, i requires 0 <= i < |wire| => if mungeMode == Some(1) then wire[i] ^ 0xFF else wire[i])
  }

  lemma PlainIs(wire: seq<Byte>, mungeMode: Option<int>)
    requires ModeOf(mungeMode) in {0, 1}
    ensures ApplyMunge(wire, ModeOf(mungeMode)) == Plain(wire, mungeMode)
  {
  }

  /** An accepted chunk is appended, decoded, to the file being written and to no other; the
      file is complete exactly if its announced size is known and has been reached. */
  lemma AcceptedChunkIsWritten(config: Config, d: Download, wire: seq<Byte>, checksum: Option<Int32>,
                               mungeMode: Option<int>, env: Environment)
    requires d.isOpen && d.outputPath in d.disk
    requires !Spoils(config, d, FileData(Some(wire), checksum, mungeMode), env)
    ensures var r := MessageReceived(config, d, FileData(Some(wire), checksum, mungeMode), env);
      && r.disk == d.disk[d.outputPath := d.disk[d.outputPath] + Plain(wire, mungeMode)]
      && r.totalDone == d.totalDone + |wire|
      && if d.size >= 0 && d.bytesDone + |wire| >= d.size
         then !r.isOpen && r.completed == d.completed + [Completed(d.currentName, d.outputPath)]
         else r == d.(disk := r.disk, bytesDone := d.bytesDone + |wire|, totalDone := d.totalDone + |wire|)
  {
    hide WeightedSum;
    PlainIs(wire, mungeMode);
    hide ApplyMunge, Plain;
  }

  /** A message without data, like a header, ends the open file: a file of unknown size, or
      with all its bytes, is complete, and a short one is removed. */
  lemma FileEnds(config: Config, d: Download, checksum: Option<Int32>, mungeMode: Option<int>, env: Environment)
    requires d.isOpen && d.outputPath in d.disk
    ensures var r := MessageReceived(config, d, FileData(None, checksum, mungeMode), env);
      && !r.isOpen
      && (if IsShort(d) then r.completed == d.completed && r.disk == d.disk - {d.outputPath}
          else r.completed == d.completed + [Completed(d.currentName, d.outputPath)] && r.disk == d.disk)
  {
  }

  // ----- From the first event to the last -----

  /** In every run a download is connected only if it has requested files, has been begun
      towards a peer that could be reached, and its link has come up after that. */
  lemma {:induction false} ConnectedAfterLink(config: Config, before: map<string, seq<Byte>>, events: seq<Event>)
    ensures var d := After(config, before, events);
      && (d.state.Connecting? || IsConnected(d) ==>
            config.requested != [] && exists i :: 0 <= i < |events| && events[i] == Begun(true))
      && (IsConnected(d) ==> exists i, j :: 0 <= i < j < |events| && events[i] == Begun(true) && events[j] == LinkUp)
  {
    if events != [] {
      hide MessageReceived;
      var last := |events| - 1;
      var was := After(config, before, events[..last]);
      ConnectedAfterLink(config, before, events[..last]);
      assert forall i | 0 <= i < last :: events[..last][i] == events[i];
      StateMoves(config, was, events[last]);
    }
  }

  /** Who connects, and who goes on being connected. */
  lemma StateMoves(config: Config, d: Download, e: Event)
    requires HandleIsBacked(d)
    ensures var r := Step(config, d, e);
      && (r.state.Connecting? ==> d.state.Connecting? || (e == Begun(true) && config.requested != []))
      && (IsConnected(r) ==> IsConnected(d) || (e == LinkUp && d.state.Connecting?))
  {
    hide ChosenPath, WeightedSum, ApplyMunge, IsCorrupt;
    if e.Arrived? && IsConnected(d) {
      hide Spoils, MessageReceived;
      SpoilingFails(config, d, e.message, e.env);
    }
  }

  /** Whatever has happened before, a cancelled download is over, and stays over and as it
      was until it is begun anew. */
  lemma {:induction false} CancelledIsOver(config: Config, before: map<string, seq<Byte>>, events: seq<Event>,
                                           more: seq<Event>)
    ensures var d := After(config, before, events + [Cancelled]);
      IsFinished(d) && ((forall e | e in more :: !e.Begun?) ==>
        After(config, before, events + [Cancelled] + more) == d)
  {
    hide After;
    AfterSnoc(config, before, events, Cancelled);
    if more == [] {
      assert events + [Cancelled] + more == events + [Cancelled];
    } else {
      var last := |more| - 1;
      CancelledIsOver(config, before, events, more[..last]);
      assert events + [Cancelled] + more == (events + [Cancelled] + more[..last]) + [more[last]];
      AfterSnoc(config, before, events + [Cancelled] + more[..last], more[last]);
    }
  }
}
