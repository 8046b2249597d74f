/** The sending end of a directory transfer. */
module FrameProducers {
  import opened RaftTypes
  import opened ByteStrings
  import opened Crc64
  import opened DirFrames

  datatype Stage =
    | EmitManifest
    | StartFile(index: nat)
    | ReadFile(index: nat, digest: bv64, bytesRead: nat)
    | EmitEnd
    | Finished
    | Broken

  datatype Producer = Producer(chunkSize: nat, manifest: Manifest, stage: Stage)

  /** One entry of a directory listing; a name that is not UTF-8 is `None`. */
  datatype DirEntry = DirEntry(isFile: bool, name: Option<Bytes>, size: nat)

  predicate Usable(e: DirEntry) {
    e.isFile && e.name.Some? && ValidName(e.name.value)
  }

  function EntryOf(e: DirEntry): ManifestEntry
    requires Usable(e)
  {
    ManifestEntry(e.name.value, e.size)
  }

  function EntriesOf(listing: seq<DirEntry>): (r: seq<ManifestEntry>)
    requires forall i :: 0 <= i < |listing| ==> Usable(listing[i])
    ensures |r| == |listing|
  {
    seq(|listing|, i requires 0 <= i < |listing| => EntryOf(listing[i]))
  }

  // Sorting by name.

  predicate NamesAscend(files: seq<ManifestEntry>) {
    forall i, j :: 0 <= i < j < |files| ==> !Less(files[j].name, files[i].name)
  }

  /** Put an entry behind every entry whose name is not greater. */
  function InsertByName(e: ManifestEntry, files: seq<ManifestEntry>): (r: seq<ManifestEntry>)
    requires NamesAscend(files)
    ensures multiset(r) == multiset(files) + multiset{e}
    ensures NamesAscend(r)
  {
    if files == [] then [e]
    else
      var n := |files| - 1;
      assert files == files[..n] + [files[n]];
      if Less(e.name, files[n].name)
      then
        InsertKeepsOrder(files[..n], e, files[n]);
        InsertByName(e, files[..n]) + [files[n]]
      else
        AppendKeepsOrder(files, e);
        files + [e]
  }

  lemma AppendKeepsOrder(files: seq<ManifestEntry>, e: ManifestEntry)
    requires NamesAscend(files) && files != [] && !Less(e.name, files[|files| - 1].name)
    ensures NamesAscend(files + [e])
  {
    var last := files[|files| - 1];
    forall i | 0 <= i < |files|
      ensures !Less(e.name, files[i].name)
    {
      if Less(e.name, files[i].name) {
        LessTotal(last.name, e.name);
        LessTotal(last.name, files[i].name);
        if Less(last.name, e.name) {
          LessTransitive(last.name, e.name, files[i].name);
        }
      }
    }
  }

  lemma InsertKeepsOrder(files: seq<ManifestEntry>, e: ManifestEntry, last: ManifestEntry)
    requires NamesAscend(files + [last]) && Less(e.name, last.name)
    ensures NamesAscend(files)
    ensures forall r: seq<ManifestEntry> ::
              NamesAscend(r) && multiset(r) == multiset(files) + multiset{e} ==> NamesAscend(r + [last])
  {
    var all := files + [last];
    assert forall i :: 0 <= i < |files| ==> all[i] == files[i];
    forall r: seq<ManifestEntry> | NamesAscend(r) && multiset(r) == multiset(files) + multiset{e}
      ensures NamesAscend(r + [last])
    {
      forall i | 0 <= i < |r|
        ensures !Less(last.name, r[i].name)
      {
        assert r[i] in multiset(r);
        if r[i] == e {
          if Less(last.name, e.name) {
            LessTransitive(last.name, e.name, last.name);
            LessIrreflexive(last.name);
          }
        } else {
          assert r[i] in files;
          var j :| 0 <= j < |files| && files[j] == r[i];
          assert !Less(all[|files|].name, all[j].name);
        }
      }
    }
  }

  function SortByName(files: seq<ManifestEntry>): (r: seq<ManifestEntry>)
    ensures multiset(r) == multiset(files)
    ensures NamesAscend(r)
  {
    if files == [] then []
    else
      var n := |files| - 1;
      assert files == files[..n] + [files[n]];
      InsertByName(files[n], SortByName(files[..n]))
  }

  /** The producer for a directory listing, unless the chunk size or an entry is refused. */
  function Opened(listing: seq<DirEntry>, chunkSize: nat): Option<Producer> {
    if 1 <= chunkSize <= MAX_CHUNK_SIZE && forall i :: 0 <= i < |listing| ==> Usable(listing[i])
    then Some(Producer(chunkSize, Manifest(PROTOCOL_VERSION, SortByName(EntriesOf(listing))), EmitManifest))
    else None
  }

  // Producing frames.

  predicate WellFormed(p: Producer) {
    && 1 <= p.chunkSize <= MAX_CHUNK_SIZE
    && match p.stage
       case StartFile(i) => i < |p.manifest.files|
       case ReadFile(i, _, n) => i < |p.manifest.files| && n <= p.manifest.files[i].size
       case _ => true
  }

  function NextFile(p: Producer, index: nat): Stage {
    if index < |p.manifest.files| then StartFile(index) else EmitEnd
  }

  /** The bytes of a file from `pos` on, at most `count` of them. */
  function Window(content: Bytes, pos: nat, count: nat): Bytes {
    content[Min(pos, |content|)..Min(pos + count, |content|)]
  }

  /** One call: the producer after it, and the frame, the end of the stream (`None`) or an error. */
  datatype Pulled = Pulled(next: Producer, frame: Option<Frame>, ok: bool)

  function Failure(p: Producer): Pulled {
    Pulled(p.(stage := Broken), None, false)
  }

  function NextOfFile(p: Producer, content: Bytes): (r: Pulled)
    requires WellFormed(p) && p.stage.ReadFile?
    ensures WellFormed(r.next)
  {
    var ReadFile(i, digest, n) := p.stage;
    var size := p.manifest.files[i].size;
    var data := Window(content, n, p.chunkSize);
    if data == [] then
      if n != size then Failure(p)
      else Pulled(p.(stage := NextFile(p, i + 1)), Some(FileEnd(Finalize(digest))), true)
    else if n + |data| > size then Failure(p)
    else Pulled(p.(stage := ReadFile(i, Update(digest, data), n + |data|)), Some(Chunk(data)), true)
  }

  /** The next frame, when the directory now holds `dir`. A file that cannot be read is missing from it. */
  function Next(p: Producer, dir: Dir): (r: Pulled)
    requires WellFormed(p)
    ensures WellFormed(r.next)
  {
    match p.stage
    case EmitManifest => Pulled(p.(stage := NextFile(p, 0)), Some(ManifestFrame(p.manifest)), true)
    case StartFile(i) =>
      var name := p.manifest.files[i].name;
      if name in dir then Pulled(p.(stage := ReadFile(i, ONES, 0)), Some(FileStart(name)), true) else Failure(p)
    case ReadFile(i, _, _) =>
      var name := p.manifest.files[i].name;
      if name in dir then NextOfFile(p, dir[name]) else Failure(p)
    case EmitEnd => Pulled(p.(stage := Finished), Some(End), true)
    case Finished => Pulled(p, None, true)
    case Broken => Pulled(p, None, false)
  }

  /** A read loop over a file whose `read` may return any part of what was asked for. */
  method ReadChunk(content: Bytes, pos: nat, chunkSize: nat) returns (data: Bytes)
    ensures data == Window(content, pos, chunkSize)
  {
    var buffer := new bv8[chunkSize](_ => 0);
    var filled := 0;
    while filled < chunkSize
      invariant 0 <= filled <= chunkSize
      invariant filled > 0 ==> pos + filled <= |content|
      invariant forall k :: 0 <= k < filled ==> buffer[k] == content[pos + k]
    {
      var available := if pos + filled < |content| then |content| - (pos + filled) else 0;
      var n: nat :| n <= available && n <= chunkSize - filled && (n == 0 <==> available == 0);
      if n == 0 {
        break;
      }
      forall k | 0 <= k < n {
        buffer[filled + k] := content[pos + filled + k];
      }
      filled := filled + n;
    }
    data := buffer[..filled];
  }

  class DirFrameProducer {
    const dir: Directory
    const chunkSize: nat
    const manifest: Manifest
    var stage: Stage

    function State(): Producer
      reads this
    {
      Producer(chunkSize, manifest, stage)
    }

    constructor Init(dir: Directory, chunkSize: nat, files: seq<ManifestEntry>)
      ensures this.dir == dir
      ensures State() == Producer(chunkSize, Manifest(PROTOCOL_VERSION, files), EmitManifest)
    {
      this.dir := dir;
      this.chunkSize := chunkSize;
      this.manifest := Manifest(PROTOCOL_VERSION, files);
      this.stage := EmitManifest;
    }

    /** Enumerate a directory whose entries are listed in any order. */
    static method New(dir: Directory, listing: seq<DirEntry>, chunkSize: nat) returns (r: Option<DirFrameProducer>)
      ensures r.Some? <==> Opened(listing, chunkSize).Some?
      ensures r.Some? ==> fresh(r.value) && r.value.dir == dir && r.value.State() == Opened(listing, chunkSize).value
    {
      if chunkSize == 0 || chunkSize > MAX_CHUNK_SIZE {
        return None;
      }
      var files := [];
      for i := 0 to |listing|
        invariant forall j :: 0 <= j < i ==> Usable(listing[j])
        invariant files == EntriesOf(listing[..i])
      {
        var e := listing[i];
        if !e.isFile || e.name.None? || !ValidName(e.name.value) {
          assert !Usable(listing[i]);
          return None;
        }
        files := files + [ManifestEntry(e.name.value, e.size)];
      }
      assert listing[..|listing|] == listing;
      var producer := new DirFrameProducer.Init(dir, chunkSize, SortByName(files));
      r := Some(producer);
    }

    method NextFrame() returns (frame: Option<Frame>, ok: bool)
      requires WellFormed(State())
      modifies this
      ensures Next(old(State()), dir.files) == Pulled(State(), frame, ok)
    {
      var was := stage;
      stage := Broken;
      frame, ok := None, true;
      match was {
        case EmitManifest =>
          stage := NextFile(State(), 0);
          frame := Some(ManifestFrame(manifest));
        case StartFile(index) =>
          var name := manifest.files[index].name;
          if name !in dir.files {
            return None, false;
          }
          stage := ReadFile(index, ONES, 0);
          frame := Some(FileStart(name));
        case ReadFile(index, digest, bytesRead) =>
          if manifest.files[index].name !in dir.files {
            return None, false;
          }
          frame := NextFileFrame(index, digest, bytesRead);
          ok := frame.Some?;
        case EmitEnd =>
          stage := Finished;
          frame := Some(End);
        case Finished =>
          stage := Finished;
        case Broken =>
          ok := false;
      }
    }

    method NextFileFrame(index: nat, digest: bv64, bytesRead: nat) returns (frame: Option<Frame>)
      requires stage.Broken? && index < |manifest.files| && manifest.files[index].name in dir.files
      requires WellFormed(State().(stage := ReadFile(index, digest, bytesRead)))
      modifies this
      ensures var r := NextOfFile(old(State()).(stage := ReadFile(index, digest, bytesRead)),
                                  dir.files[manifest.files[index].name]);
              r == Pulled(State(), frame, frame.Some?)
    {
      var data := ReadChunk(dir.files[manifest.files[index].name], bytesRead, chunkSize);
      var size := manifest.files[index].size;
      if data == [] {
        if bytesRead != size {
          return None;
        }
        stage := NextFile(State(), index + 1);
        return Some(FileEnd(Finalize(digest)));
      }
      var total := bytesRead + |data|;
      if total > size {
        return None;
      }
      stage := ReadFile(index, Update(digest, data), total);
      frame := Some(Chunk(data));
    }
  }
}
