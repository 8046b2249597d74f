/** The frames of the directory transfer protocol, and the streams that transfer one directory. */
module DirFrames {
  import opened ByteStrings
  import opened Crc64

  const PROTOCOL_VERSION: nat := 1
  const MAX_FILE_NAME_BYTES: nat := 255
  const MAX_CHUNK_SIZE: nat := 8 * 1024 * 1024

  const DOT: bv8 := 0x2E
  const SLASH: bv8 := 0x2F
  const BACKSLASH: bv8 := 0x5C
  const NUL: bv8 := 0

  /** A flat directory: file names and contents. */
  type Dir = map<Bytes, Bytes>

  class Directory {
    var files: Dir
  }

  datatype ManifestEntry = ManifestEntry(name: Bytes, size: nat)

  datatype Manifest = Manifest(version: nat, files: seq<ManifestEntry>)

  datatype Frame =
    | ManifestFrame(manifest: Manifest)
    | FileStart(name: Bytes)
    | Chunk(data: Bytes)
    | FileEnd(checksum: bv64)
    | End

  function Min(a: nat, b: nat): nat {
    if a < b then a else b
  }

  predicate ValidName(name: Bytes) {
    && 0 < |name| <= MAX_FILE_NAME_BYTES
    && name != [DOT] && name != [DOT, DOT]
    && SLASH !in name && BACKSLASH !in name && NUL !in name
  }

  predicate Distinct(files: seq<ManifestEntry>) {
    forall i, j :: 0 <= i < j < |files| ==> files[i].name != files[j].name
  }

  predicate ValidManifest(m: Manifest) {
    && m.version == PROTOCOL_VERSION
    && (forall i :: 0 <= i < |m.files| ==> ValidName(m.files[i].name))
    && Distinct(m.files)
  }

  function Joined(chunks: seq<Bytes>): Bytes {
    if chunks == [] then [] else Joined(chunks[..|chunks| - 1]) + chunks[|chunks| - 1]
  }

  function ChunkFrames(chunks: seq<Bytes>): (r: seq<Frame>)
    ensures |r| == |chunks|
  {
    seq(|chunks|, i requires 0 <= i < |chunks| => Chunk(chunks[i]))
  }

  predicate ChunkSizesAllowed(chunks: seq<Bytes>) {
    forall i :: 0 <= i < |chunks| ==> 1 <= |chunks[i]| <= MAX_CHUNK_SIZE
  }

  /** The frames of one file, cut into these chunks. */
  function FileFrames(name: Bytes, chunks: seq<Bytes>): seq<Frame> {
    [FileStart(name)] + ChunkFrames(chunks) + [FileEnd(Checksum(Joined(chunks)))]
  }

  /** The chunks are a legal way to send these files: one chunking per file, adding up to its size. */
  predicate Fits(files: seq<ManifestEntry>, chunked: seq<seq<Bytes>>) {
    && |chunked| == |files|
    && forall i :: 0 <= i < |files| ==>
         ChunkSizesAllowed(chunked[i]) && |Joined(chunked[i])| == files[i].size
  }

  function BodyFrames(files: seq<ManifestEntry>, chunked: seq<seq<Bytes>>): seq<Frame>
    requires |chunked| == |files|
  {
    if files == [] then []
    else
      var n := |files| - 1;
      BodyFrames(files[..n], chunked[..n]) + FileFrames(files[n].name, chunked[n])
  }

  /** The directory that the chunks describe. */
  function Contents(files: seq<ManifestEntry>, chunked: seq<seq<Bytes>>): Dir
    requires |chunked| == |files|
  {
    if files == [] then map[]
    else
      var n := |files| - 1;
      Contents(files[..n], chunked[..n])[files[n].name := Joined(chunked[n])]
  }

  /** A complete valid stream: the manifest, every file in manifest order, the end. */
  ghost predicate IsStreamOf(frames: seq<Frame>, m: Manifest, chunked: seq<seq<Bytes>>) {
    && ValidManifest(m)
    && Fits(m.files, chunked)
    && frames == [ManifestFrame(m)] + BodyFrames(m.files, chunked) + [End]
  }

  ghost predicate IsStream(frames: seq<Frame>) {
    exists m, chunked :: IsStreamOf(frames, m, chunked)
  }

  lemma {:induction false} ContentsAt(files: seq<ManifestEntry>, chunked: seq<seq<Bytes>>, i: nat)
    requires |chunked| == |files| && Distinct(files) && i < |files|
    ensures files[i].name in Contents(files, chunked)
    ensures Contents(files, chunked)[files[i].name] == Joined(chunked[i])
  {
    hide Joined;
    var n := |files| - 1;
    if i < n {
      ContentsAt(files[..n], chunked[..n], i);
    }
  }

  lemma {:induction false} ContentsOnly(files: seq<ManifestEntry>, chunked: seq<seq<Bytes>>)
    requires |chunked| == |files|
    ensures Contents(files, chunked).Keys == set i | 0 <= i < |files| :: files[i].name
  {
    hide Joined;
    if files != [] {
      var n := |files| - 1;
      ContentsOnly(files[..n], chunked[..n]);
      assert (set i | 0 <= i < |files| :: files[i].name) ==
        (set i | 0 <= i < n :: files[..n][i].name) + {files[n].name};
    }
  }

  lemma JoinedSnoc(chunks: seq<Bytes>, data: Bytes)
    ensures Joined(chunks + [data]) == Joined(chunks) + data
    ensures ChunkFrames(chunks + [data]) == ChunkFrames(chunks) + [Chunk(data)]
  {
    assert (chunks + [data])[..|chunks|] == chunks;
  }
}
