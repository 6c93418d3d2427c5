// Messages of a peer-to-peer transfer session. Display-only fields (session names,
// MIME kinds) carry no behaviour and are not part of the model.

module TransferProtocol {

  import opened Prelude
  import opened ChunkIntegrity

  const MUNGE_MODE_NONE: int := 0
  const MUNGE_MODE_XOR: int := 1

  const UPLOAD_CHUNK_SIZE: nat := 32 * 1024

  datatype Message =
    | PeerId
    | FileList(names: seq<string>, mungeMode: Option<int>)
    | FileHeader(name: Option<string>, size: Option<int>, path: string)
    | FileData(data: Option<seq<Byte>>, checksum: Option<Int32>, mungeMode: Option<int>)
    | NotifyQueued
    | Rejected

  /** The munge mode a message states; an absent field means none. */
  function ModeOf(mungeMode: Option<int>): int {
    if mungeMode.Some? then mungeMode.value else MUNGE_MODE_NONE
  }

  /** Applies or undoes the munging of a mode: XOR is its own inverse. */
  function ApplyMunge(bytes: seq<Byte>, mungeMode: int): (r: seq<Byte>)
    ensures |r| == |bytes|
  {
    if mungeMode == MUNGE_MODE_XOR then Munged(bytes) else bytes
  }

  lemma ApplyMungeTwice(bytes: seq<Byte>, mungeMode: int)
    ensures ApplyMunge(ApplyMunge(bytes, mungeMode), mungeMode) == bytes
  {
    MungedTwice(bytes);
  }
}
