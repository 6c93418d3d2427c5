// Any number of downloads of one manager on one disk, in every interleaving of their
// events. Each is begun at most once: the manager's queue holds it once, and its turn
// takes it off the queue. Nothing else writes to the paths of this disk.

module SharedDirectory {

  import opened Prelude
  import opened ChunkIntegrity
  import opened OutputPath
  import opened TransferProtocol
  import opened DownloadSession
  import opened DiskSafety

  type Disk = map<string, seq<Byte>>

  /** One event at one of the downloads. */
  datatype Move = Move(who: nat, event: Event)

  /** The disk is common to all: a download's own record of it is brought up to date before
      each of its steps. */
  datatype Shared = Shared(disk: Disk, downloads: seq<Download>, begun: set<nat>)

  function Seen(y: Shared, i: nat): Download
    requires i < |y.downloads|
  {
    y.downloads[i].(disk := y.disk)
  }

  predicate Takes(y: Shared, m: Move) {
    m.who < |y.downloads| && (m.event.Begun? ==> m.who !in y.begun)
  }

  function Moved(configs: seq<Config>, y: Shared, m: Move): Shared
    requires |configs| == |y.downloads|
    requires m.who < |y.downloads| ==> HandleIsBacked(Seen(y, m.who))
  {
    if !Takes(y, m) then y
    else
      var d := Step(configs[m.who], Seen(y, m.who), m.event);
      Shared(d.disk, y.downloads[m.who := d], if m.event.Begun? then y.begun + {m.who} else y.begun)
  }

  /** The files a download has completed, and the one it is writing. */
  function Owned(d: Download): set<string> {
    CompletedPaths(d.completed) + PathBeingWritten(d)
  }

  function AllOwned(y: Shared): set<string> {
    set i, p | 0 <= i < |y.downloads| && p in Owned(y.downloads[i]) :: p
  }

  // ----- One download -----

  /** A download that is over may keep the path of the file it gave up, which may by now
      be somebody else's; but once begun it never acts again. */
  predicate Retired(d: Download, begun: bool) { begun && IsFinished(d) }

  ghost predicate Sound(disk: Disk, d: Download, begun: bool) {
    && Owned(d) <= disk.Keys
    && (forall i, j | 0 <= i < j < |d.completed| :: d.completed[i].path != d.completed[j].path)
    && (d.isOpen ==>
          && IsConnected(d) && d.outputPath != "" && d.outputPath !in CompletedPaths(d.completed)
          && |disk[d.outputPath]| == d.bytesDone)
    && (!d.isOpen && !Retired(d, begun) ==> d.outputPath == "")
    && (!begun ==> d.state.Idle? || IsFinished(d))
  }

  /** As far as one download can see, everybody else's files were there before it. */
  lemma SoundIsClean(disk: Disk, d: Download, begun: bool)
    requires Sound(disk, d, begun) && !Retired(d, begun)
    ensures CleanDisk(disk - Owned(d), d.(disk := disk))
  {
    forall c | c in d.completed ensures c.path !in disk - Owned(d) {
      assert c.path in CompletedPaths(d.completed);
    }
  }

  lemma CleanIsSound(base: Disk, d: Download, begun: bool)
    requires CleanDisk(base, d)
    requires !d.isOpen && !Retired(d, begun) ==> d.outputPath == ""
    requires !begun ==> d.state.Idle? || IsFinished(d)
    ensures Sound(d.disk, d, begun) && Owned(d) !! base.Keys
    ensures d.disk.Keys == base.Keys + Owned(d)
  {
    forall p | p in CompletedPaths(d.completed) ensures p !in base {
      var c :| c in d.completed && c.path == p;
    }
  }

  /** A path is given up together with the file, unless the download is over. */
  lemma NoStalePath(config: Config, d: Download, e: Event)
    requires HandleIsBacked(d) && (d.isOpen ==> IsConnected(d)) && (!d.isOpen ==> d.outputPath == "")
    ensures var r := Step(config, d, e);
      !r.isOpen && !IsFinished(r) ==> r.outputPath == ""
  {
    hide ChosenPath, Checksum, ApplyMunge, ChecksumAccepts;
  }

  lemma UnbegunStays(config: Config, d: Download, e: Event)
    requires HandleIsBacked(d) && (d.state.Idle? || IsFinished(d)) && !d.isOpen && d.outputPath == "" && !e.Begun?
    ensures var r := Step(config, d, e);
      (r.state.Idle? || IsFinished(r)) && !r.isOpen && r.outputPath == ""
  {
  }

  lemma RetiredStays(config: Config, d: Download, e: Event)
    requires HandleIsBacked(d) && IsFinished(d) && !e.Begun?
    ensures Step(config, d, e) == d
  {
  }

  /** What one event does to the disk, seen from outside: the files that are not this
      download's stay as they are, and whatever it holds afterwards is not among them. */
  lemma OneMoves(config: Config, d: Download, begun: bool, e: Event)
    requires Sound(d.disk, d, begun) && (e.Begun? ==> !begun)
    ensures HandleIsBacked(d)
    ensures var base, r := d.disk - Owned(d), Step(config, d, e);
      && Sound(r.disk, r, begun || e.Begun?) && KeepsCompleted(d, r)
      && (forall p | p in base :: p in r.disk && r.disk[p] == base[p])
      && Owned(r) !! base.Keys && r.disk.Keys == base.Keys + Owned(r)
      && (Placed(config, d) ==> Placed(config, r))
  {
    hide Step, Placed;
    if Retired(d, begun) {
      RetiredStays(config, d, e);
      CompletedAreOwned(d);
    } else {
      var base := d.disk - Owned(d);
      SoundIsClean(d.disk, d, begun);
      StepKeepsClean(config, base, d, e);
      if Placed(config, d) {
        StepKeepsPlaced(config, base, d, e);
      }
      NoStalePath(config, d, e);
      if !begun && !e.Begun? {
        UnbegunStays(config, d, e);
      }
      CleanIsSound(base, Step(config, d, e), begun || e.Begun?);
    }
  }

  lemma CompletedAreOwned(d: Download)
    ensures forall c | c in d.completed :: c.path in Owned(d)
  {
    assert forall c | c in d.completed :: c.path in CompletedPaths(d.completed);
  }

  // ----- All of them -----

  ghost predicate Inv(before: Disk, y: Shared) {
    && (forall p | p in before :: p in y.disk && y.disk[p] == before[p])
    && y.disk.Keys == before.Keys + AllOwned(y)
    && (forall i | 0 <= i < |y.downloads| ::
          Sound(y.disk, y.downloads[i], i in y.begun) && Owned(y.downloads[i]) !! before.Keys)
    && (forall i, j | 0 <= i < j < |y.downloads| :: Owned(y.downloads[i]) !! Owned(y.downloads[j]))
  }

  lemma InvBacks(before: Disk, y: Shared)
    requires Inv(before, y)
    ensures forall i | 0 <= i < |y.downloads| :: HandleIsBacked(Seen(y, i))
  {
    forall i | 0 <= i < |y.downloads| ensures HandleIsBacked(Seen(y, i)) {
      assert Sound(y.disk, y.downloads[i], i in y.begun);
    }
  }

  /** The files of the others stay theirs, and stay as they are. */
  lemma OthersStay(configs: seq<Config>, before: Disk, y: Shared, m: Move, j: nat)
    requires Inv(before, y) && |configs| == |y.downloads| && Takes(y, m)
    requires j < |y.downloads| && j != m.who
    ensures HandleIsBacked(Seen(y, m.who))
    ensures var r := Moved(configs, y, m);
      && r.downloads[j] == y.downloads[j] && (j in r.begun <==> j in y.begun)
      && (forall p | p in Owned(y.downloads[j]) :: p in y.disk && p in r.disk && r.disk[p] == y.disk[p])
      && Sound(r.disk, r.downloads[j], j in r.begun)
      && Owned(r.downloads[j]) !! Owned(r.downloads[m.who])
  {
    hide Step, Placed, KeepsCompleted;
    var i := m.who;
    assert Sound(y.disk, y.downloads[i], i in y.begun) && Sound(y.disk, y.downloads[j], j in y.begun);
    assert Owned(y.downloads[i]) !! Owned(y.downloads[j]);
    OneMoves(configs[i], Seen(y, i), i in y.begun, m.event);
  }

  lemma ActorMoves(configs: seq<Config>, before: Disk, y: Shared, m: Move)
    requires Inv(before, y) && |configs| == |y.downloads| && Takes(y, m)
    ensures HandleIsBacked(Seen(y, m.who))
    ensures var r := Moved(configs, y, m);
      && (forall p | p in before :: p in r.disk && r.disk[p] == before[p])
      && r.disk.Keys == (y.disk.Keys - Owned(y.downloads[m.who])) + Owned(r.downloads[m.who])
      && Sound(r.disk, r.downloads[m.who], m.who in r.begun) && Owned(r.downloads[m.who]) !! before.Keys
  {
    hide Step, KeepsCompleted;
    var i := m.who;
    assert Sound(y.disk, y.downloads[i], i in y.begun) && Owned(y.downloads[i]) !! before.Keys;
    OneMoves(configs[i], Seen(y, i), i in y.begun, m.event);
  }

  lemma MoveKeepsInv(configs: seq<Config>, before: Disk, y: Shared, m: Move)
    requires Inv(before, y) && |configs| == |y.downloads|
    ensures m.who < |y.downloads| ==> HandleIsBacked(Seen(y, m.who))
    ensures Inv(before, Moved(configs, y, m))
  {
    hide Step, Sound, KeepsCompleted, Owned, AllOwned;
    InvBacks(before, y);
    if Takes(y, m) {
      var i, r := m.who, Moved(configs, y, m);
      ActorMoves(configs, before, y, m);
      forall j | 0 <= j < |y.downloads| && j != i
        ensures Sound(r.disk, r.downloads[j], j in r.begun) && Owned(r.downloads[j]) !! Owned(r.downloads[i])
      {
        OthersStay(configs, before, y, m, j);
      }
      AllButOne(y, r, i);
    }
  }

  lemma AllButOne(y: Shared, r: Shared, i: nat)
    requires i < |y.downloads| == |r.downloads|
    requires forall j | 0 <= j < |y.downloads| && j != i :: r.downloads[j] == y.downloads[j]
    requires forall j | 0 <= j < |y.downloads| && j != i :: Owned(y.downloads[i]) !! Owned(y.downloads[j])
    ensures AllOwned(r) == (AllOwned(y) - Owned(y.downloads[i])) + Owned(r.downloads[i])
  {
    hide Owned;
  }

  /** All downloads after a run of moves on a disk. */
  ghost function After(configs: seq<Config>, before: Disk, moves: seq<Move>): (y: Shared)
    ensures |y.downloads| == |configs| && Inv(before, y)
  {
    if moves == [] then
      Shared(before, seq(|configs|, i => Fresh(before)), {})
    else
      var last := |moves| - 1;
      var y := After(configs, before, moves[..last]);
      MoveKeepsInv(configs, before, y, moves[last]);
      Moved(configs, y, moves[last])
  }

  lemma AfterSnoc(configs: seq<Config>, before: Disk, moves: seq<Move>, m: Move)
    ensures m.who < |configs| ==> HandleIsBacked(Seen(After(configs, before, moves), m.who))
    ensures After(configs, before, moves + [m]) == Moved(configs, After(configs, before, moves), m)
  {
    assert (moves + [m])[..|moves|] == moves;
    InvBacks(before, After(configs, before, moves));
  }

  lemma {:induction false} RunKeepsPlaced(configs: seq<Config>, before: Disk, moves: seq<Move>)
    ensures forall i | 0 <= i < |configs| :: Placed(configs[i], After(configs, before, moves).downloads[i])
  {
    hide Step, KeepsCompleted;
    if moves != [] {
      var last := |moves| - 1;
      var y, m := After(configs, before, moves[..last]), moves[last];
      RunKeepsPlaced(configs, before, moves[..last]);
      if Takes(y, m) {
        assert Sound(y.disk, y.downloads[m.who], m.who in y.begun);
        OneMoves(configs[m.who], Seen(y, m.who), m.who in y.begun, m.event);
      }
    }
  }

  ghost predicate HoldsItsOwn(config: Config, before: Disk, disk: Disk, d: Download) {
    && Owned(d) !! before.Keys
    && (forall p | p in Owned(d) :: LiesUnder(config.directory, p))
    && (d.isOpen ==> d.outputPath in disk && |disk[d.outputPath]| == d.bytesDone)
    && (IsFinished(d) ==> Owned(d) == CompletedPaths(d.completed))
  }

  lemma SoundHoldsItsOwn(config: Config, before: Disk, disk: Disk, d: Download, begun: bool)
    requires Sound(disk, d, begun) && Placed(config, d) && Owned(d) !! before.Keys
    ensures HoldsItsOwn(config, before, disk, d)
  {
    hide LiesUnder;
    forall p | p in CompletedPaths(d.completed) ensures LiesUnder(config.directory, p) {
      var c :| c in d.completed && c.path == p;
    }
  }

  /** Whatever the peers send and in whatever order the downloads get to act: files that
      were there before are untouched; the new ones are exactly those the downloads have
      completed or are writing, each in the directory of its own download; no two downloads
      share a path; an open file is as long as its own download has counted; and a download
      that is over leaves nothing but completed files. */
  lemma DownloadsShareTheDisk(configs: seq<Config>, before: Disk, moves: seq<Move>)
    ensures var y := After(configs, before, moves);
      && (forall p | p in before :: p in y.disk && y.disk[p] == before[p])
      && y.disk.Keys == before.Keys + AllOwned(y)
      && (forall i, j | 0 <= i < j < |configs| :: Owned(y.downloads[i]) !! Owned(y.downloads[j]))
      && (forall i | 0 <= i < |configs| :: HoldsItsOwn(configs[i], before, y.disk, y.downloads[i]))
  {
    hide Owned, After;
    var y := After(configs, before, moves);
    RunKeepsPlaced(configs, before, moves);
    forall i | 0 <= i < |configs| ensures HoldsItsOwn(configs[i], before, y.disk, y.downloads[i]) {
      assert Sound(y.disk, y.downloads[i], i in y.begun) && Owned(y.downloads[i]) !! before.Keys;
      SoundHoldsItsOwn(configs[i], before, y.disk, y.downloads[i], i in y.begun);
    }
  }

  /** In every run, a move of one download leaves another's record alone, and the files it
      has completed or is writing on the disk and unchanged. */
  lemma NobodyDisturbsAnother(configs: seq<Config>, before: Disk, moves: seq<Move>, m: Move, j: nat)
    ensures var y, r := After(configs, before, moves), After(configs, before, moves + [m]);
      j < |configs| && j != m.who ==>
        && r.downloads[j] == y.downloads[j]
        && forall p | p in Owned(y.downloads[j]) :: p in y.disk && p in r.disk && r.disk[p] == y.disk[p]
  {
    hide Owned;
    var y := After(configs, before, moves);
    AfterSnoc(configs, before, moves, m);
    if j < |configs| && j != m.who {
      if Takes(y, m) {
        OthersStay(configs, before, y, m, j);
      } else {
        OwnedOnDisk(before, y, j);
      }
    }
  }

  lemma OwnedOnDisk(before: Disk, y: Shared, j: nat)
    requires Inv(before, y) && j < |y.downloads|
    ensures Owned(y.downloads[j]) <= y.disk.Keys
  {
    assert Sound(y.disk, y.downloads[j], j in y.begun);
  }

  /** A file that one download has completed stays on the disk unchanged, whatever any of
      them does later. */
  lemma {:induction false} CompletedStayComplete(configs: seq<Config>, before: Disk, moves: seq<Move>,
                                                 more: seq<Move>, j: nat)
    ensures var y, r := After(configs, before, moves), After(configs, before, moves + more);
      j < |configs| ==>
        && y.downloads[j].completed <= r.downloads[j].completed
        && forall c | c in y.downloads[j].completed ::
             c.path in y.disk && c.path in r.disk && r.disk[c.path] == y.disk[c.path]
  {
    hide After, Owned;
    var y := After(configs, before, moves);
    if j < |configs| {
      CompletedAreOwned(y.downloads[j]);
      if more == [] {
        assert moves + more == moves;
        OwnedOnDisk(before, y, j);
      } else {
        var last := |more| - 1;
        CompletedStayComplete(configs, before, moves, more[..last], j);
        assert moves + more == (moves + more[..last]) + [more[last]];
        LastMoveKeeps(configs, before, moves + more[..last], more[last], j);
      }
    }
  }

  lemma LastMoveKeeps(configs: seq<Config>, before: Disk, moves: seq<Move>, m: Move, j: nat)
    requires j < |configs|
    ensures var y, r := After(configs, before, moves), After(configs, before, moves + [m]);
      && y.downloads[j].completed <= r.downloads[j].completed
      && forall c | c in y.downloads[j].completed ::
           c.path in y.disk && c.path in r.disk && r.disk[c.path] == y.disk[c.path]
  {
    hide After, Step;
    var y := After(configs, before, moves);
    CompletedAreOwned(y.downloads[j]);
    OwnedOnDisk(before, y, j);
    AfterSnoc(configs, before, moves, m);
    if j != m.who {
      NobodyDisturbsAnother(configs, before, moves, m, j);
    } else if Takes(y, m) {
      assert Sound(y.disk, y.downloads[j], j in y.begun);
      OneMoves(configs[j], Seen(y, j), j in y.begun, m.event);
    }
  }
}
