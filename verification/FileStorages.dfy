/** The storage of the configured disks: streaming an upload onto a disk, measured and
    digested on the way, and taking it out again. */
module FileStorages {
  import opened Common
  import Text

  type Bytes = seq<bv8>

  type HexDigit = c: char | '0' <= c <= '9' || 'a' <= c <= 'f' witness '0'

  /** The digest of some bytes; nothing is assumed about how it is computed. */
  type Digest = Bytes -> seq<HexDigit>

  function Checksum(digest: Digest, content: Bytes): string {
    "sha256:" + digest(content)
  }

  lemma {:induction false} ChecksumIsTrimmed(digest: Digest, content: Bytes)
    ensures Text.Trim(Checksum(digest, content)) == Checksum(digest, content)
  {
    var checksum := Checksum(digest, content);
    assert checksum[0] == 's';
    if digest(content) == [] {
      assert checksum[|checksum| - 1] == ':';
    } else {
      assert checksum[|checksum| - 1] == digest(content)[|digest(content)| - 1];
    }
  }

  /** The names the settings can configure a disk under. */
  const KNOWN_DISKS := {"local", "gcp", "aws", "sftp"}

  const CHUNK_SIZE := 65536

  function Concat(chunks: seq<Bytes>): Bytes {
    if chunks == [] then [] else Concat(chunks[..|chunks| - 1]) + chunks[|chunks| - 1]
  }

  lemma {:induction false} OneMoreChunk(chunks: seq<Bytes>, chunk: Bytes)
    ensures Concat(chunks + [chunk]) == Concat(chunks) + chunk
  {
    assert (chunks + [chunk])[..|chunks|] == chunks;
  }

  lemma {:induction false} PrefixIsShorter(chunks: seq<Bytes>, n: nat)
    requires n <= |chunks|
    ensures |Concat(chunks[..n])| <= |Concat(chunks)|
  {
    if n < |chunks| {
      PrefixIsShorter(chunks[..|chunks| - 1], n);
      assert chunks[..|chunks| - 1][..n] == chunks[..n];
    } else {
      assert chunks[..n] == chunks;
    }
  }

  /** An upload as it arrives: its chunks, and whether the client broke off after them. */
  datatype Stream = Stream(chunks: seq<Bytes>, broken: bool)

  /** How a backend takes a write: whole, or refused - perhaps leaving something. */
  datatype WriteOutcome = Written | WriteRefused(left: Option<Bytes>)

  datatype StorageError = UnknownDisk | FileTooLarge | StreamBroken | BackendUnavailable

  datatype StoredObject = StoredObject(size: nat, checksum: string)

  /** A disk and a key on it. */
  datatype Address = Address(disk: string, key: string)

  type Objects = map<Address, Bytes>

  /** What a `put` answers, given only the bytes in total. */
  function PutAnswer(known: bool, max: nat, digest: Digest, total: Bytes, broken: bool, write: WriteOutcome)
    : Result<StoredObject, StorageError> {
    if !known then Err(UnknownDisk)
    else if |total| > max then Err(FileTooLarge)
    else if broken then Err(StreamBroken)
    else if write.WriteRefused? then Err(BackendUnavailable)
    else Ok(StoredObject(|total|, Checksum(digest, total)))
  }

  /** What it leaves on the disks: the whole upload, or what a refused write left, or
      nothing new - and never a change to any other object. */
  function PutLeaves(objects: Objects, known: bool, max: nat, at: Address, total: Bytes, broken: bool,
                     write: WriteOutcome): Objects {
    if !known || |total| > max || broken then objects
    else match write
      case Written => objects[at := total]
      case WriteRefused(Some(left)) => objects[at := left]
      case WriteRefused(None) => objects
  }

  /** A `put` is refused for an unknown disk, for more bytes than the ceiling, for a broken
      upload and by a refusing backend, in this order and for nothing else. Accepted, it
      answers how many bytes there were and their digest, and they are what is stored. */
  lemma {:induction false} PutsExactly(objects: Objects, known: bool, max: nat, digest: Digest, at: Address,
                                       total: Bytes, broken: bool, write: WriteOutcome)
    ensures var r := PutAnswer(known, max, digest, total, broken, write);
            var after := PutLeaves(objects, known, max, at, total, broken, write);
            (r == Err(UnknownDisk) <==> !known) &&
            (known ==> (r == Err(FileTooLarge) <==> |total| > max)) &&
            (known && |total| <= max ==> (r == Err(StreamBroken) <==> broken)) &&
            (known && |total| <= max && !broken ==> (r == Err(BackendUnavailable) <==> write != Written)) &&
            (r.Ok? <==> known && |total| <= max && !broken && write == Written) &&
            (r.Ok? ==> r.value.size == |total| && r.value.checksum == "sha256:" + digest(total) &&
                       at in after && after[at] == total) &&
            (r.Err? && r != Err(BackendUnavailable) ==> after == objects) &&
            (forall other :: other in objects && other != at ==> other in after && after[other] == objects[other]) &&
            after.Keys <= objects.Keys + {at}
  {
  }

  class FileStorage {
    const disks: set<string>
    const maxUploadBytes: nat
    const digest: Digest
    var objects: Objects

    constructor (disks: set<string>, maxUploadBytes: nat, digest: Digest)
      ensures this.disks == disks && this.maxUploadBytes == maxUploadBytes && this.digest == digest && objects == map[]
    {
      this.disks, this.maxUploadBytes, this.digest := disks, maxUploadBytes, digest;
      objects := map[];
    }

    /** Spools the stream, measures it, then writes it. The answer and the disks depend
        on the bytes in total, not on how they were cut into chunks; a stream over the
        ceiling is refused exactly when its total is, and then nothing is written. */
    method Put(disk: string, key: string, stream: Stream, write: WriteOutcome)
      returns (r: Result<StoredObject, StorageError>)
      modifies this
      ensures r == PutAnswer(disk in disks, maxUploadBytes, digest, Concat(stream.chunks), stream.broken, write)
      ensures objects == PutLeaves(old(objects), disk in disks, maxUploadBytes, Address(disk, key),
                                   Concat(stream.chunks), stream.broken, write)
    {
      if disk !in disks {
        return Err(UnknownDisk);
      }
      var digested: Bytes, spool: Bytes, size: nat := [], [], 0;
      for i := 0 to |stream.chunks|
        invariant size == |spool| && size <= maxUploadBytes
        invariant spool == Concat(stream.chunks[..i]) && digested == spool
        invariant objects == old(objects)
      {
        var chunk := stream.chunks[i];
        TakeOneMore(stream.chunks, i);
        OneMoreChunk(stream.chunks[..i], chunk);
        size := size + |chunk|;
        if size > maxUploadBytes {
          PrefixIsShorter(stream.chunks, i + 1);
          return Err(FileTooLarge);
        }
        digested := digested + chunk;
        spool := spool + chunk;
      }
      assert stream.chunks[..|stream.chunks|] == stream.chunks;
      if stream.broken {
        return Err(StreamBroken);
      }
      match write {
        case Written =>
          objects := objects[Address(disk, key) := spool];
        case WriteRefused(left) =>
          if left.Some? {
            objects := objects[Address(disk, key) := left.value];
          }
          return Err(BackendUnavailable);
      }
      return Ok(StoredObject(size, "sha256:" + digest(digested)));
    }

    method Exists(disk: string, key: string, fails: bool) returns (r: Result<bool, StorageError>)
      ensures r == if disk !in disks then Err(UnknownDisk)
                   else if fails then Err(BackendUnavailable) else Ok(Address(disk, key) in objects)
    {
      if disk !in disks {
        return Err(UnknownDisk);
      }
      if fails {
        return Err(BackendUnavailable);
      }
      return Ok(Address(disk, key) in objects);
    }

    /** Tolerates an object that is not there. */
    method Delete(disk: string, key: string, fails: bool) returns (error: Option<StorageError>)
      modifies this
      ensures error == if disk !in disks then Some(UnknownDisk) else if fails then Some(BackendUnavailable) else None
      ensures objects == if error.Some? then old(objects) else old(objects) - {Address(disk, key)}
    {
      if disk !in disks {
        return Some(UnknownDisk);
      }
      if fails {
        return Some(BackendUnavailable);
      }
      if Address(disk, key) in objects {
        objects := objects - {Address(disk, key)};
      }
      return None;
    }
  }

  /** The upload cut into chunks of bounded size, which together are the upload again. */
  method ReadInChunks(upload: Bytes) returns (chunks: seq<Bytes>)
    ensures Concat(chunks) == upload
    ensures forall i :: 0 <= i < |chunks| ==> 1 <= |chunks[i]| <= CHUNK_SIZE
  {
    chunks := [];
    var read := 0;
    while read < |upload|
      invariant read <= |upload| && Concat(chunks) == upload[..read]
      invariant forall i :: 0 <= i < |chunks| ==> 1 <= |chunks[i]| <= CHUNK_SIZE
    {
      var next := if |upload| - read < CHUNK_SIZE then |upload| else read + CHUNK_SIZE;
      OneMoreChunk(chunks, upload[read..next]);
      assert upload[..next] == upload[..read] + upload[read..next];
      chunks := chunks + [upload[read..next]];
      read := next;
    }
    assert upload[..read] == upload;
  }
}
