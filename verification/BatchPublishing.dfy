// Publishing the shared files on a server, up to fifty nodes to a message.

module BatchPublishing {

  import opened ShareScan

  const SHARED_FILE_BATCH_SIZE: nat := 50

  /** The messages PublishSharedFiles sends: full ones while there is enough left. */
  function Batches(files: seq<ScannedFile>): seq<seq<ScannedFile>> {
    if files == [] then []
    else if |files| <= SHARED_FILE_BATCH_SIZE then [files]
    else [files[..SHARED_FILE_BATCH_SIZE]] + Batches(files[SHARED_FILE_BATCH_SIZE..])
  }

  function Flatten(batches: seq<seq<ScannedFile>>): seq<ScannedFile> {
    if batches == [] then [] else batches[0] + Flatten(batches[1..])
  }

  /** The messages carry the list in order; every one but the last is full, none is empty,
      and there are no more of them than it takes. */
  lemma {:induction false} BatchesCarryAll(files: seq<ScannedFile>)
    ensures var batches := Batches(files);
      && Flatten(batches) == files
      && (forall i | 0 <= i < |batches| - 1 :: |batches[i]| == SHARED_FILE_BATCH_SIZE)
      && (forall i | 0 <= i < |batches| :: 0 < |batches[i]| <= SHARED_FILE_BATCH_SIZE)
      && |batches| == (|files| + SHARED_FILE_BATCH_SIZE - 1) / SHARED_FILE_BATCH_SIZE
  {
    if files == [] {
    } else if |files| <= SHARED_FILE_BATCH_SIZE {
      assert Flatten([files]) == files + Flatten([]);
    } else {
      var first, rest := files[..SHARED_FILE_BATCH_SIZE], files[SHARED_FILE_BATCH_SIZE..];
      BatchesCarryAll(rest);
      assert ([first] + Batches(rest))[1..] == Batches(rest);
    }
  }

  // ----- What the server makes of it -----

  type Nodes = map<string, ScannedFile>

  /** A message holds its nodes as fields; under a repeated name the server finds the first. */
  function Fields(batch: seq<ScannedFile>): Nodes {
    if batch == [] then map[]
    else
      var f := batch[|batch| - 1];
      var before := Fields(batch[..|batch| - 1]);
      if f.fileName in before then before else before[f.fileName := f]
  }

  function Received(nodes: Nodes, batches: seq<seq<ScannedFile>>): Nodes
    decreases |batches|
  {
    if batches == [] then nodes else Received(nodes + Fields(batches[0]), batches[1..])
  }

  lemma {:induction false} FieldsWhenDistinct(nodes: Nodes, batch: seq<ScannedFile>)
    requires NamesDiffer(batch)
    ensures Fields(batch).Keys == Names(batch)
    ensures nodes + Fields(batch) == Publish(nodes, batch)
  {
    hide Names;
    if batch == [] {
      NoNames();
    } else {
      var last := |batch| - 1;
      var before, f := batch[..last], batch[last];
      assert batch == before + [f];
      FieldsWhenDistinct(nodes, before);
      NamesSnoc(before, f);
      NewName(before, f);
      assert (nodes + Fields(before))[f.fileName := f] == nodes + Fields(before)[f.fileName := f];
    }
  }

  lemma NewName(files: seq<ScannedFile>, f: ScannedFile)
    requires NamesDiffer(files + [f])
    ensures f.fileName !in Names(files)
  {
    var all := files + [f];
    assert forall i | 0 <= i < |files| :: all[i] == files[i] && all[i].fileName != all[|files|].fileName;
  }

  lemma PartsDiffer(a: seq<ScannedFile>, b: seq<ScannedFile>)
    requires NamesDiffer(a + b)
    ensures NamesDiffer(a) && NamesDiffer(b)
  {
    var all := a + b;
    assert forall i | 0 <= i < |a| :: a[i] == all[i];
    assert forall i | 0 <= i < |b| :: b[i] == all[|a| + i];
  }

  lemma {:induction false} ReceivedOneByOne(nodes: Nodes, batches: seq<seq<ScannedFile>>)
    requires NamesDiffer(Flatten(batches))
    ensures Received(nodes, batches) == Publish(nodes, Flatten(batches))
    decreases |batches|
  {
    hide Publish, Fields, NamesDiffer;
    if batches == [] {
      NothingPublished(nodes);
    } else {
      var all := Flatten(batches);
      var first, rest := batches[0], Flatten(batches[1..]);
      PartsDiffer(first, rest);
      FieldsWhenDistinct(nodes, first);
      ReceivedOneByOne(nodes + Fields(first), batches[1..]);
      PublishAppend(nodes, first, rest);
    }
  }

  /** With distinct names the batches leave the server with the very nodes that publishing
      the files one at a time would. */
  lemma BatchingIsTransparent(nodes: Nodes, files: seq<ScannedFile>)
    requires NamesDiffer(files)
    ensures Received(nodes, Batches(files)) == Publish(nodes, files)
  {
    BatchesCarryAll(files);
    ReceivedOneByOne(nodes, Batches(files));
  }

  /** Whatever the interleaving of the scan, the files one look takes have distinct names. */
  lemma EveryTakePublishesDistinctNames(actions: seq<Action>)
    ensures NamesDiffer(After(actions).pending)
  {
    var y := After(actions);
    ScanConserves(actions);
    PendingDiffers(y.taken, y.pending, InFlight(y));
  }

  // ----- The loop -----

  /** While the batch being filled is full or the list is done, it is the next message. */
  lemma {:induction false} BatchesSnoc(files: seq<ScannedFile>, done: nat, i: nat)
    requires done < i <= |files| && done % SHARED_FILE_BATCH_SIZE == 0 && i - done <= SHARED_FILE_BATCH_SIZE
    ensures Batches(files[..i]) == Batches(files[..done]) + [files[done..i]]
    decreases done
  {
    if done == 0 {
      assert files[..i] == files[0..i];
    } else {
      var rest := files[SHARED_FILE_BATCH_SIZE..];
      BatchesSnoc(rest, done - SHARED_FILE_BATCH_SIZE, i - SHARED_FILE_BATCH_SIZE);
      HeadBatch(files, i);
      HeadBatch(files, done);
      assert rest[done - SHARED_FILE_BATCH_SIZE..i - SHARED_FILE_BATCH_SIZE] == files[done..i];
    }
  }

  lemma HeadBatch(files: seq<ScannedFile>, i: nat)
    requires SHARED_FILE_BATCH_SIZE <= i <= |files|
    ensures Batches(files[..i])
         == [files[..SHARED_FILE_BATCH_SIZE]] + Batches(files[SHARED_FILE_BATCH_SIZE..][..i - SHARED_FILE_BATCH_SIZE])
  {
    var prefix := files[..i];
    assert prefix[..SHARED_FILE_BATCH_SIZE] == files[..SHARED_FILE_BATCH_SIZE];
    assert prefix[SHARED_FILE_BATCH_SIZE..] == files[SHARED_FILE_BATCH_SIZE..][..i - SHARED_FILE_BATCH_SIZE];
  }

  class Publisher {
    var isConnected: bool
    var publishedFileCount: nat
    var sent: seq<seq<ScannedFile>>

    constructor (isConnected: bool)
      ensures this.isConnected == isConnected && publishedFileCount == 0 && sent == []
    {
      this.isConnected, publishedFileCount, sent := isConnected, 0, [];
    }

    method PublishSharedFiles(files: seq<ScannedFile>)
      modifies this
      ensures isConnected == old(isConnected)
      ensures isConnected ==> sent == old(sent) + Batches(files)
      ensures isConnected ==> publishedFileCount == old(publishedFileCount) + |files|
      ensures !isConnected ==> sent == old(sent) && publishedFileCount == old(publishedFileCount)
    {
      if !isConnected || files == [] {
        return;
      }
      var batch: seq<ScannedFile> := [];
      ghost var done := 0;
      assert files[..0] == [] && Batches([]) == [];
      for i := 0 to |files|
        invariant isConnected && done <= i && done % SHARED_FILE_BATCH_SIZE == 0
        invariant batch == files[done..i] && |batch| < SHARED_FILE_BATCH_SIZE
        invariant sent == old(sent) + Batches(files[..done])
        invariant publishedFileCount == old(publishedFileCount) + i
      {
        hide Batches;
        assert files[done..i + 1] == files[done..i] + [files[i]];
        batch := batch + [files[i]];
        publishedFileCount := publishedFileCount + 1;
        if |batch| >= SHARED_FILE_BATCH_SIZE {
          BatchesSnoc(files, done, i + 1);
          sent := sent + [batch];
          batch := [];
          done := i + 1;
        }
      }
      assert files[..|files|] == files;
      if batch != [] {
        BatchesSnoc(files, done, |files|);
        sent := sent + [batch];
      }
    }
  }
}
