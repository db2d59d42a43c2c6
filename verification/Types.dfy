/** Values shared by every part of the model. */
module Types {

  type Byte = x: int | 0 <= x < 256
  type Bytes = seq<Byte>

  /** A SHA-256 value: 32 bytes (section 6.2 of FIPS 180-4). */
  type Digest = d: Bytes | |d| == 32 witness seq(32, _ => 0)

  /** The digest an index entry holds until somebody writes it. */
  function Zero(): Digest {
    seq(32, _ => 0)
  }

  /** A digest function. Nothing is assumed of it except where a lemma says that
      the chunks at hand do not collide. */
  type Hash = Bytes -> Digest

  datatype Option<+T> = None | Some(value: T)

  /** The content of an error is only compared with itself. */
  datatype Error =
    | UploadFailed(chunk: nat, code: nat)
    | AssignFailed
    | CloseFailed
    | ManifestFailed
    | FinishFailed
    | BytesPending
    | NotInPreviousIndex
    | ReadFailed(code: nat)
    | RequestFailed(code: nat)

  /** What ended a chunk in the walk. */
  datatype Cut = Natural | Suggested | Forced | Last

  /** One chunk of a stream, as the walk hands it over: data to be hashed and sent,
      or a chunk of the previous index reused without its data. */
  datatype Chunk =
    | Fresh(data: Bytes, cut: Cut)
    | Reused(digest: Digest, len: nat)
  {
    function Size(): nat {
      match this
      case Fresh(data, _) => |data|
      case Reused(_, len) => len
    }

    /** The digest the chunk is published under. */
    function Name(hash: Hash): Digest {
      match this
      case Fresh(data, _) => hash(data)
      case Reused(digest, _) => digest
    }
  }

  function Total(chunks: seq<Chunk>): nat {
    if chunks == [] then 0 else Total(chunks[..|chunks| - 1]) + chunks[|chunks| - 1].Size()
  }

  lemma TotalAppend(chunks: seq<Chunk>, c: Chunk)
    ensures Total(chunks + [c]) == Total(chunks) + c.Size()
  {
    assert (chunks + [c])[..|chunks|] == chunks;
  }
}
