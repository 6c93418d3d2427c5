// Three runs of one server and one download that end with a hang-up: everything complete,
// one of two files missing and yet finished, and a trailing empty file discarded.

module HangUpRuns {

  import opened Prelude
  import opened ChunkIntegrity
  import opened OutputPath
  import opened TransferProtocol
  import opened UploadServer
  import opened TransferScript
  import opened DownloadSession
  import opened TransferReceiver
  import opened TransferSystem
  import Admission = UploadAdmission
  import DiskSafety

  const BYTES: seq<Byte> := [0]
  const FIRST: SharedFile := SharedFile("f", "", "/f", 1)
  const SECOND: SharedFile := SharedFile("g", "", "/g", 1)
  const EMPTY: SharedFile := SharedFile("e", "", "/e", 0)
  const SHARED: map<string, SharedFile> := map["f" := FIRST, "g" := SECOND, "e" := EMPTY]
  const SHARE: Disk := map["/f" := BYTES, "/g" := BYTES, "/e" := []]
  const PEER: SessionId := "p"
  const ROOMY: Environment := Environment({}, true, 1)

  function Setup(names: seq<string>): Config { Config("/d", false, names) }

  function Asking(files: seq<SharedFile>): PeerUpload { PeerUpload(files, None, MUNGE_MODE_XOR, 0, false) }

  // ----- The server's answer to the one request -----

  lemma SendsFirst(s: Server, files: seq<SharedFile>)
    requires Valid(s) && PEER in s.peers && s.sent[PEER] == []
    requires files != [] && files[0] == FIRST && s.peers[PEER] == Asking(files)
    ensures BeginAndSend(s, PEER, SHARE).sent[PEER] == [Header(FIRST), ChunkMessage(BYTES, MUNGE_MODE_XOR)]
  {
    hide ChunkMessage;
    var p := Asking(files);
    var b := BeginNextFile(p, SHARE);
    assert b == Begun(p.(currentFile := Some(OpenFile(BYTES, 0)), nextFileIndex := 1), true, [Header(FIRST)]);
    var begun := BeginFile(s, PEER, SHARE);
    assert NextBytes(OpenFile(BYTES, 0)) == BYTES;
    assert SendNextChunk(begun, PEER, SHARE) == SendChunk(begun, PEER);
  }

  lemma SendsEmpty(s: Server)
    requires Valid(s) && s.peers == map[PEER := Asking([EMPTY])] && s.sent[PEER] == [] && PEER in s.sent
    ensures BeginAndSend(s, PEER, SHARE).sent[PEER] == [Header(EMPTY)]
  {
    var p := Asking([EMPTY]);
    var open := p.(currentFile := Some(OpenFile([], 0)), nextFileIndex := 1);
    assert BeginNextFile(p, SHARE) == Begun(open, true, [Header(EMPTY)]);
    var begun := BeginFile(s, PEER, SHARE);
    var closed := open.(currentFile := None);
    assert BeginNextFile(open, SHARE) == Begun(closed, false, []);
    var done := BeginFile(begun, PEER, SHARE);
    assert done.sent[PEER] == [Header(EMPTY)];
    assert done.peers == map[PEER := closed];
    NobodyWaits(done);
    assert SendNextChunk(begun, PEER, SHARE) == StartNextQueuedPeer(done, SHARE) == done;
  }

  lemma NobodyWaits(s: Server)
    requires Valid(s) && forall id | id in s.peers :: !IsWaiting(s.peers[id])
    ensures StartNextQueuedPeer(s, SHARE) == s
  {
    assert FirstWaiting(s.order, s.peers).None?;
  }

  lemma Answers(s: Server, names: seq<string>, answer: seq<Message>)
    requires Valid(s) && s.peers == map[PEER := NEW_PEER] && PEER in s.sent && s.sent[PEER] == []
    requires s.shared == SHARED && s.maxUploads == 4
    requires if names == ["e"] then answer == [Header(EMPTY)]
             else (names == ["f"] || names == ["f", "g"])
                  && answer == [Header(FIRST), ChunkMessage(BYTES, MUNGE_MODE_XOR)]
    ensures HandleFileList(s, PEER, names, Some(MUNGE_MODE_XOR), SHARE).sent[PEER] == answer
  {
    hide BeginAndSend, ChunkMessage;
    Resolving();
    var m := Recorded(s, PEER, names, Some(MUNGE_MODE_XOR));
    var files := Resolve(names, SHARED);
    assert m.peers == map[PEER := Asking(files)] == Unqueued(m, PEER).peers;
    assert ActiveIds(m.peers) == {PEER};
    if names == ["e"] {
      SendsEmpty(Unqueued(m, PEER));
    } else {
      SendsFirst(Unqueued(m, PEER), files);
    }
  }

  lemma Resolving()
    ensures Resolve(["f"], SHARED) == [FIRST] && Resolve(["f", "g"], SHARED) == [FIRST, SECOND]
    ensures Resolve(["e"], SHARED) == [EMPTY]
  {
    assert ["f", "g"][..1] == ["f"] && ["f"][..0] == [] && ["e"][..0] == [];
    assert Resolve(["f"], SHARED) == [] + [FIRST] && Resolve(["e"], SHARED) == [] + [EMPTY];
  }

  // ----- The download's side -----

  lemma HeaderOpens(d: Download, names: seq<string>, f: SharedFile)
    requires d.disk == map[] && !d.isOpen && d.completed == [] && IsConnected(d) && (f == FIRST || f == EMPTY)
    ensures var r := MessageReceived(Setup(names), d, Header(f), ROOMY);
      && r.state.Transferring? && r.isOpen && r.completed == [] && r.bytesDone == 0 && r.size == f.fileSize
      && r.currentName == f.fileName && r.disk == map[r.outputPath := []]
  {
    var name := f.fileName;
    SafeIffUnchanged(name);
    ChosenPathFailsOnlyWhenExhausted("/d", false, name, "", {});
    assert Candidate(TargetDirectory("/d", false, ""), name, PLAIN_ATTEMPT) !in {};
    hide ChosenPath;
    assert d.disk.Keys + ROOMY.directories == {};
    assert FinishCurrentFile(d) == d;
  }

  lemma ChunkCompletes(d: Download, names: seq<string>)
    requires d.state.Transferring? && d.isOpen && d.completed == [] && d.bytesDone == 0 && d.size == 1
    requires d.outputPath in d.disk
    ensures var r := MessageReceived(Setup(names), d, ChunkMessage(BYTES, MUNGE_MODE_XOR), ROOMY);
      r.state.Transferring? && !r.isOpen && |r.completed| == 1
  {
    ChunkAccepted(BYTES, MUNGE_MODE_XOR);
    hide Checksum, ApplyMunge;
  }

  // ----- Runs -----

  ghost predicate Reaches(actions: seq<Action>, y: System) {
    SharesAgree();
    After(SHARED, SHARE, 4, actions) == y
  }

  lemma SharesAgree()
    ensures ShareAgrees(SHARED, SHARE)
  {
  }

  lemma Onward(actions: seq<Action>, y: System, a: Action) returns (next: seq<Action>)
    requires Reaches(actions, y)
    ensures Valid(y.run.server) && forall id | id in y.clients :: HandleIsBacked(y.clients[id].download)
    ensures Reaches(next, Step(y, a))
  {
    SharesAgree();
    next := actions + [a];
    assert next[..|actions|] == actions;
    HandlesBacked(y);
  }

  /** The download is up, has asked for these names, and this is the server's answer, of
      which it has received so much. */
  ghost predicate Stands(y: System, names: seq<string>, answer: seq<Message>, received: nat, d: Download) {
    && y.run.server.shared == SHARED && y.share == SHARE
    && PEER in y.clients && LogOf(y.run.server, PEER) == answer
    && y.clients[PEER].config == Setup(names) && y.clients[PEER].received == received
    && y.clients[PEER].download == d
  }

  function AtStart(): Server { Server([], map[], SHARED, 4, map[], map[]) }

  function Accepted(): Server { Server([PEER], map[PEER := NEW_PEER], SHARED, 4, map[PEER := []], map[PEER := 0]) }

  function Joined(names: seq<string>): Client {
    Client(Setup(names), map[], Fresh(map[]).(state := Connecting), false, [], 0)
  }

  function Linked(names: seq<string>, toServer: seq<Message>): Client {
    Client(Setup(names), map[], Fresh(map[]).(state := Requesting), true, toServer, 0)
  }

  lemma Connects(names: seq<string>) returns (actions: seq<Action>)
    requires names != []
    ensures Reaches(actions, System(Admission.Run(Accepted(), map[PEER := 0]), SHARE,
                                    map[PEER := Linked(names, [FileList(names, Some(MUNGE_MODE_XOR))])]))
  {
    hide Reaches;
    var run0 := Admission.Run(AtStart(), map[]);
    var run := Admission.Run(Accepted(), map[PEER := 0]);
    actions := Nothing();
    actions := Onward(actions, System(run0, SHARE, map[]), Join(PEER, Setup(names), map[]));
    assert map[][PEER := Joined(names)] == map[PEER := Joined(names)];
    actions := Onward(actions, System(run0, SHARE, map[PEER := Joined(names)]), Accept(PEER));
    assert Admission.Step(run0, Admission.Accepted(PEER)) == run by {
      assert [] + [PEER] == [PEER];
    }
    actions := Onward(actions, System(run, SHARE, map[PEER := Joined(names)]), LinkUp(PEER));
    var greeting := Greeting(Setup(names));
    assert map[PEER := Joined(names)][PEER := Linked(names, greeting)] == map[PEER := Linked(names, greeting)];
    actions := Onward(actions, System(run, SHARE, map[PEER := Linked(names, greeting)]), ToServer(PEER));
    assert greeting[0].PeerId? && greeting[1..] == [FileList(names, Some(MUNGE_MODE_XOR))];
    var left := Linked(names, greeting[1..]);
    assert map[PEER := Linked(names, greeting)][PEER := left] == map[PEER := left];
  }

  lemma Nothing() returns (actions: seq<Action>)
    ensures Reaches(actions, System(Admission.Run(AtStart(), map[]), SHARE, map[]))
  {
    SharesAgree();
    actions := [];
  }

  lemma Asks(names: seq<string>, answer: seq<Message>) returns (actions: seq<Action>, y: System)
    requires if names == ["e"] then answer == [Header(EMPTY)]
             else (names == ["f"] || names == ["f", "g"])
                  && answer == [Header(FIRST), ChunkMessage(BYTES, MUNGE_MODE_XOR)]
    ensures Reaches(actions, y) && Stands(y, names, answer, 0, Fresh(map[]).(state := Requesting))
  {
    hide Reaches, HandleFileList, ChunkMessage;
    var list := FileList(names, Some(MUNGE_MODE_XOR));
    var before := System(Admission.Run(Accepted(), map[PEER := 0]), SHARE, map[PEER := Linked(names, [list])]);
    actions := Connects(names);
    actions := Onward(actions, before, ToServer(PEER));
    y := Step(before, ToServer(PEER));
    Answers(Accepted(), names, answer);
    assert y.run.server == HandleFileList(Accepted(), PEER, names, Some(MUNGE_MODE_XOR), SHARE);
    KeyStays(Accepted(), names);
  }

  lemma KeyStays(s: Server, names: seq<string>)
    requires Valid(s) && PEER in s.peers
    ensures PEER in HandleFileList(s, PEER, names, Some(MUNGE_MODE_XOR), SHARE).sent
  {
    var t := HandleFileList(s, PEER, names, Some(MUNGE_MODE_XOR), SHARE);
    Admission.ListEffect(s, PEER, names, Some(MUNGE_MODE_XOR), SHARE);
    assert PEER in t.peers;
  }

  lemma Receives(actions: seq<Action>, y: System, names: seq<string>, answer: seq<Message>, k: nat, d: Download)
    returns (next: seq<Action>, z: System)
    requires Reaches(actions, y) && Stands(y, names, answer, k, d) && k < |answer| && IsConnected(d)
    ensures HandleIsBacked(d)
    ensures Reaches(next, z) && Stands(z, names, answer, k + 1, MessageReceived(Setup(names), d, answer[k], ROOMY))
  {
    hide Reaches, MessageReceived;
    next := Onward(actions, y, ToClient(PEER, ROOMY));
    z := Step(y, ToClient(PEER, ROOMY));
  }

  // ----- The three endings -----

  /** A run that a hang-up ends: in which state, with how many files complete out of how
      many that could be had, and whether everything to be sent had arrived before it. */
  ghost predicate EndsAs(actions: seq<Action>, state: DownloadState, complete: nat, obtainable: nat, whole: bool) {
    SharesAgree();
    var y, z := After(SHARED, SHARE, 4, actions), After(SHARED, SHARE, 4, actions + [HangUp(PEER)]);
    && PEER in y.clients && IsConnected(y.clients[PEER].download)
    && |Obtainable(y, y.clients[PEER])| == obtainable && (WholeScriptReceived(y, PEER) <==> whole)
    && PEER in z.clients && z.clients[PEER].download.state == state
    && |z.clients[PEER].download.completed| == complete
  }

  lemma HangUpStep(y: System)
    requires Valid(y.run.server) && forall id | id in y.clients :: HandleIsBacked(y.clients[id].download)
    requires PEER in y.clients && IsConnected(y.clients[PEER].download)
    ensures var z := Step(y, HangUp(PEER));
      PEER in z.clients && z.clients[PEER].download == SessionDisconnected(y.clients[PEER].download)
  {
    hide SessionDisconnected;
  }

  lemma Concludes(actions: seq<Action>, y: System, names: seq<string>, answer: seq<Message>, k: nat, d: Download)
    requires Reaches(actions, y) && Stands(y, names, answer, k, d) && IsConnected(d) && HandleIsBacked(d)
    ensures var r := SessionDisconnected(d);
      EndsAs(actions, r.state, |r.completed|, |Obtainable(y, y.clients[PEER])|, WholeScriptReceived(y, PEER))
  {
    hide After, SessionDisconnected, Step, Obtainable, WholeScriptReceived, LogOf;
    OnwardIs(actions, y, HangUp(PEER));
    HangUpStep(y);
  }

  lemma OnwardIs(actions: seq<Action>, y: System, a: Action)
    requires Reaches(actions, y)
    ensures Valid(y.run.server) && forall id | id in y.clients :: HandleIsBacked(y.clients[id].download)
    ensures (SharesAgree(); After(SHARED, SHARE, 4, actions + [a])) == Step(y, a)
  {
    SharesAgree();
    assert (actions + [a])[..|actions|] == actions;
    HandlesBacked(y);
  }

  lemma WhatCanBeHad(y: System, names: seq<string>, answer: seq<Message>, k: nat, d: Download)
    requires Stands(y, names, answer, k, d)
    ensures names == ["f"] ==> Obtainable(y, y.clients[PEER]) == [FIRST]
    ensures names == ["f", "g"] ==> Obtainable(y, y.clients[PEER]) == [FIRST, SECOND]
    ensures names == ["e"] ==> Obtainable(y, y.clients[PEER]) == [EMPTY]
  {
    Resolving();
    hide Resolve;
    assert [FIRST, SECOND][1..] == [SECOND] && [FIRST][1..] == [] && [SECOND][1..] == [] && [EMPTY][1..] == [];
    assert Openable([SECOND], SHARE) == [SECOND];
  }

  /** One file of one byte: header and chunk have arrived, and it is complete. */
  lemma FirstFileArrives(names: seq<string>) returns (actions: seq<Action>, y: System, d: Download)
    requires names == ["f"] || names == ["f", "g"]
    ensures Reaches(actions, y)
    ensures Stands(y, names, [Header(FIRST), ChunkMessage(BYTES, MUNGE_MODE_XOR)], 2, d)
    ensures IsConnected(d) && !d.isOpen && |d.completed| == 1
  {
    hide Reaches, Stands, MessageReceived, ChunkMessage;
    var answer := [Header(FIRST), ChunkMessage(BYTES, MUNGE_MODE_XOR)];
    actions, y := Asks(names, answer);
    d := Fresh(map[]).(state := Requesting);
    HeaderOpens(d, names, FIRST);
    actions, y := Receives(actions, y, names, answer, 0, d);
    d := MessageReceived(Setup(names), d, answer[0], ROOMY);
    ChunkCompletes(d, names);
    actions, y := Receives(actions, y, names, answer, 1, d);
    d := MessageReceived(Setup(names), d, answer[1], ROOMY);
  }

  const ANSWER := [Header(FIRST), ChunkMessage(BYTES, MUNGE_MODE_XOR)]

  lemma OutcomeAt(actions: seq<Action>, y: System)
    requires Reaches(actions, y) && PEER in y.clients && IsConnected(y.clients[PEER].download) && y.share == SHARE
    ensures var d, all := y.clients[PEER].download, Obtainable(y, y.clients[PEER]);
      !d.isOpen && d.completed != [] ==>
        (|d.completed| == |all| <==> WholeScriptReceived(y, PEER) && !EndsEmpty(all, SHARE))
  {
    hide After, Obtainable, WholeScriptReceived, Matches, EndsEmpty;
    SharesAgree();
    HangUpOutcome(SHARED, SHARE, 4, actions, PEER);
  }

  lemma Settles(actions: seq<Action>, y: System, names: seq<string>, d: Download)
    requires names == ["f"] || names == ["f", "g"]
    requires Reaches(actions, y) && Stands(y, names, ANSWER, 2, d)
    requires IsConnected(d) && !d.isOpen && |d.completed| == 1
    ensures EndsAs(actions, Finished, 1, |names|, |names| == 1)
  {
    hide Reaches, After, ChunkMessage, Obtainable, WholeScriptReceived, Matches, EndsAs;
    var r := SessionDisconnected(d);
    Concludes(actions, y, names, ANSWER, 2, d);
    WhatCanBeHad(y, names, ANSWER, 2, d);
    OutcomeAt(actions, y);
    assert |SHARE["/f"]| == 1 && |SHARE["/g"]| == 1;
  }

  /** Everything asked for is complete, and the hang-up says so. */
  lemma FinishedWithEverything()
    ensures exists actions :: EndsAs(actions, Finished, 1, 1, true)
  {
    hide Reaches, Stands, EndsAs;
    var actions, y, d := FirstFileArrives(["f"]);
    Settles(actions, y, ["f"], d);
  }

  /** The peer hangs up after the first of two files: finished, with one of them missing. */
  lemma FinishedWithAFileMissing()
    ensures exists actions :: EndsAs(actions, Finished, 1, 2, false)
  {
    hide Reaches, Stands, EndsAs;
    var actions, y, d := FirstFileArrives(["f", "g"]);
    Settles(actions, y, ["f", "g"], d);
  }

  /** The one file is empty. Everything there is to send has arrived, but the file is still
      open, and the hang-up discards it and fails the download. */
  lemma TrailingEmptyFileIsLost()
    ensures exists actions :: EndsAs(actions, Failed, 0, 1, true)
  {
    hide Reaches, Stands, EndsAs, MessageReceived, WholeScriptReceived, Obtainable;
    var answer := [Header(EMPTY)];
    var actions, y := Asks(["e"], answer);
    var d := Fresh(map[]).(state := Requesting);
    HeaderOpens(d, ["e"], EMPTY);
    actions, y := Receives(actions, y, ["e"], answer, 0, d);
    d := MessageReceived(Setup(["e"]), d, Header(EMPTY), ROOMY);
    WhatCanBeHad(y, ["e"], answer, 1, d);
    EmptyScript(y, d);
    Concludes(actions, y, ["e"], answer, 1, d);
  }

  lemma EmptyScript(y: System, d: Download)
    requires Stands(y, ["e"], [Header(EMPTY)], 1, d) && IsConnected(d)
    ensures WholeScriptReceived(y, PEER)
  {
    Resolving();
    hide Resolve;
    assert [EMPTY][1..] == [] && [Header(EMPTY)][..1] == [Header(EMPTY)];
    assert Script([EMPTY], SHARE, MUNGE_MODE_XOR) == FileScript(EMPTY, SHARE, MUNGE_MODE_XOR) + [] == [Header(EMPTY)];
  }
}
