/** Which frame sequences a writer accepts, and what it leaves in its directory. */
module DirWriterRuns {
  import opened RaftTypes
  import opened ByteStrings
  import opened Crc64
  import opened DirFrames
  import opened DirWriters

  function Feed(w: Writer, ds: seq<Delivery>): (r: Writer)
    requires WellFormed(w)
    ensures WellFormed(r)
  {
    if ds == [] then w
    else
      var n := |ds| - 1;
      Written(Feed(w, ds[..n]), ds[n].frame, ds[n].fault)
  }

  function FramesOf(ds: seq<Delivery>): (r: seq<Frame>)
    ensures |r| == |ds|
  {
    seq(|ds|, i requires 0 <= i < |ds| => ds[i].frame)
  }

  /** The disk operation of this frame failed. Only the file frames touch the disk. */
  predicate DiskFailed(d: Delivery) {
    d.fault.Some? && !d.frame.ManifestFrame? && !d.frame.End?
  }

  predicate DiskWorked(ds: seq<Delivery>) {
    forall i :: 0 <= i < |ds| ==> !DiskFailed(ds[i])
  }

  lemma {:induction false} FeedInParts(w: Writer, first: seq<Delivery>, second: seq<Delivery>)
    requires WellFormed(w)
    ensures Feed(w, first + second) == Feed(Feed(w, first), second)
    decreases |second|
  {
    hide Written;
    if second == [] {
      assert first + second == first;
    } else {
      var n := |second| - 1;
      assert (first + second)[..|first| + n] == first + second[..n];
      FeedInParts(w, first, second[..n]);
    }
  }

  /** Once a frame was refused, every later frame is refused and the directory stays as it is. */
  lemma {:induction false} RefusalIsFinal(w: Writer, more: seq<Delivery>)
    requires WellFormed(w) && w.stage.Failed?
    ensures Feed(w, more) == w
  {
    if more != [] {
      RefusalIsFinal(w, more[..|more| - 1]);
    }
  }

  // What an unfailed writer has seen.

  /** Files `0..i` arrived complete, cut into `chunked`. */
  ghost predicate FilesDone(frames: seq<Frame>, dir: Dir, m: Manifest, i: nat, chunked: seq<seq<Bytes>>) {
    && ValidManifest(m)
    && i <= |m.files|
    && Fits(m.files[..i], chunked)
    && frames == [ManifestFrame(m)] + BodyFrames(m.files[..i], chunked)
    && dir == Contents(m.files[..i], chunked)
  }

  /** And file `i` is under way: `chunks` of it arrived. */
  ghost predicate FileOpen(frames: seq<Frame>, w: Writer, before: seq<Frame>, dir: Dir,
                           chunked: seq<seq<Bytes>>, chunks: seq<Bytes>)
    requires w.stage.InFile?
  {
    var InFile(i, digest, written) := w.stage;
    && i < |w.manifest.files|
    && FilesDone(before, dir, w.manifest, i, chunked)
    && ChunkSizesAllowed(chunks)
    && frames == before + [FileStart(w.manifest.files[i].name)] + ChunkFrames(chunks)
    && w.dir == dir[w.manifest.files[i].name := Joined(chunks)]
    && digest == Update(ONES, Joined(chunks))
    && written == |Joined(chunks)| <= w.manifest.files[i].size
  }

  ghost predicate Explained(frames: seq<Frame>, w: Writer) {
    match w.stage
    case ExpectManifest => frames == [] && w == NEW_WRITER
    case ExpectFileStart(i) => i < |w.manifest.files|
      && exists chunked :: FilesDone(frames, w.dir, w.manifest, i, chunked)
    case InFile(i, _, _) => exists before, dir, chunked, chunks :: FileOpen(frames, w, before, dir, chunked, chunks)
    case ExpectEnd => exists chunked :: FilesDone(frames, w.dir, w.manifest, |w.manifest.files|, chunked)
    case Done => exists before, chunked ::
                   FilesDone(before, w.dir, w.manifest, |w.manifest.files|, chunked) && frames == before + [End]
    case Failed => true
  }

  lemma ManifestExplained(w: Writer, m: Manifest)
    requires w == NEW_WRITER && ValidManifest(m)
    ensures Explained([ManifestFrame(m)], w.(manifest := m, stage := NextFile(m, 0)))
  {
    assert FilesDone([ManifestFrame(m)], map[], m, 0, []);
  }

  lemma StartExplained(frames: seq<Frame>, w: Writer, name: Bytes)
    requires w.stage.ExpectFileStart? && WellFormed(w) && Explained(frames, w)
    requires name == w.manifest.files[w.stage.index].name
    ensures Explained(frames + [FileStart(name)], Started(w, w.stage.index, name, None))
  {
    var chunked :| FilesDone(frames, w.dir, w.manifest, w.stage.index, chunked);
    var r := Started(w, w.stage.index, name, None);
    assert FileOpen(frames + [FileStart(name)], r, frames, w.dir, chunked, []);
  }

  lemma ChunkExplained(frames: seq<Frame>, w: Writer, data: Bytes)
    requires w.stage.InFile? && WellFormed(w) && Explained(frames, w)
    requires !Appended(w, data, None).stage.Failed?
    ensures Explained(frames + [Chunk(data)], Appended(w, data, None))
  {
    hide FilesDone, Update, ChunkFrames, Joined;
    var before, dir, chunked, chunks :| FileOpen(frames, w, before, dir, chunked, chunks);
    var r := Appended(w, data, None);
    JoinedSnoc(chunks, data);
    UpdateInParts(ONES, Joined(chunks), data);
    var start := before + [FileStart(w.manifest.files[w.stage.index].name)];
    assert start + ChunkFrames(chunks) + [Chunk(data)] == start + ChunkFrames(chunks + [data]);
    assert FileOpen(frames + [Chunk(data)], r, before, dir, chunked, chunks + [data]);
  }

  lemma FileExtends(before: seq<Frame>, dir: Dir, m: Manifest, i: nat, chunked: seq<seq<Bytes>>, chunks: seq<Bytes>)
    requires i < |m.files| && FilesDone(before, dir, m, i, chunked)
    requires ChunkSizesAllowed(chunks) && |Joined(chunks)| == m.files[i].size
    ensures FilesDone(before + FileFrames(m.files[i].name, chunks), dir[m.files[i].name := Joined(chunks)],
                      m, i + 1, chunked + [chunks])
  {
    hide FileFrames, Joined, ChunkSizesAllowed, ValidManifest;
    var all := chunked + [chunks];
    assert m.files[..i + 1][..i] == m.files[..i];
    assert all[..i] == chunked;
  }

  lemma EndExplained(frames: seq<Frame>, w: Writer, checksum: bv64)
    requires w.stage.InFile? && WellFormed(w) && Explained(frames, w)
    requires !Closed(w, checksum, None).stage.Failed?
    ensures Explained(frames + [FileEnd(checksum)], Closed(w, checksum, None))
  {
    hide FilesDone, Update, ChunkFrames, Joined;
    var before, dir, chunked, chunks :| FileOpen(frames, w, before, dir, chunked, chunks);
    var i := w.stage.index;
    var name := w.manifest.files[i].name;
    FileExtends(before, dir, w.manifest, i, chunked, chunks);
    assert before + FileFrames(name, chunks) == frames + [FileEnd(checksum)];
    assert FilesDone(frames + [FileEnd(checksum)], w.dir, w.manifest, i + 1, chunked + [chunks]);
    assert i + 1 <= |w.manifest.files|;
  }

  lemma FrameExplained(frames: seq<Frame>, w: Writer, d: Delivery)
    requires WellFormed(w) && Explained(frames, w)
    ensures Explained(frames + [d.frame], Written(w, d.frame, d.fault))
  {
    hide FilesDone, FileOpen, ValidManifest;
    var r := Written(w, d.frame, d.fault);
    if !r.stage.Failed? {
      match w.stage {
        case ExpectManifest =>
          ManifestExplained(w, d.frame.manifest);
          assert frames + [d.frame] == [d.frame];
        case ExpectFileStart(_) => StartExplained(frames, w, d.frame.name);
        case InFile(_, _, _) =>
          if d.frame.Chunk? {
            ChunkExplained(frames, w, d.frame.data);
          } else {
            EndExplained(frames, w, d.frame.checksum);
          }
        case ExpectEnd =>
          var chunked :| FilesDone(frames, w.dir, w.manifest, |w.manifest.files|, chunked);
          assert FilesDone(frames, r.dir, r.manifest, |r.manifest.files|, chunked);
      }
    }
  }

  lemma {:induction false} RunExplained(ds: seq<Delivery>)
    ensures Explained(FramesOf(ds), Feed(NEW_WRITER, ds))
  {
    hide Written, Explained;
    if ds == [] {
      assert Explained([], NEW_WRITER) by { NewExplained(); }
    } else {
      var n := |ds| - 1;
      RunExplained(ds[..n]);
      FrameExplained(FramesOf(ds[..n]), Feed(NEW_WRITER, ds[..n]), ds[n]);
      assert FramesOf(ds) == FramesOf(ds[..n]) + [ds[n].frame];
    }
  }

  lemma NewExplained()
    ensures Explained([], NEW_WRITER)
  {
  }

  // Every valid stream is accepted.

  lemma SliceFrames(ds: seq<Delivery>, from: nat, to: nat)
    requires from <= to <= |ds|
    ensures FramesOf(ds[from..to]) == FramesOf(ds)[from..to]
  {
  }

  lemma LastChunk(ds: seq<Delivery>, chunks: seq<Bytes>)
    requires chunks != [] && FramesOf(ds) == ChunkFrames(chunks) && DiskWorked(ds)
    ensures var n := |chunks| - 1;
            && |ds| == n + 1 && ds[n] == Delivery(Chunk(chunks[n]), None)
            && FramesOf(ds[..n]) == ChunkFrames(chunks[..n])
            && Joined(chunks) == Joined(chunks[..n]) + chunks[n]
  {
    var n := |chunks| - 1;
    assert |ds| == |FramesOf(ds)| == |ChunkFrames(chunks)| == n + 1;
    assert ds[n].frame == FramesOf(ds)[n] == ChunkFrames(chunks)[n] == Chunk(chunks[n]);
    assert FramesOf(ds[..n]) == FramesOf(ds)[..n] == ChunkFrames(chunks)[..n] == ChunkFrames(chunks[..n]);
  }

  /** The writer once the bytes `content` of its current file arrived. */
  function Holding(w: Writer, content: Bytes): Writer
    requires WellFormed(w) && w.stage.InFile?
  {
    var i := w.stage.index;
    w.(dir := w.dir[w.manifest.files[i].name := content], stage := InFile(i, Update(ONES, content), |content|))
  }

  lemma AppendHeld(w: Writer, content: Bytes, data: Bytes)
    requires WellFormed(w) && w.stage.InFile?
    requires 1 <= |data| <= MAX_CHUNK_SIZE && |content + data| <= w.manifest.files[w.stage.index].size
    ensures Written(Holding(w, content), Chunk(data), None) == Holding(w, content + data)
  {
    hide Update;
    UpdateInParts(ONES, content, data);
  }

  lemma FeedNone(w: Writer)
    requires WellFormed(w)
    ensures Feed(w, []) == w && Joined([]) == []
  {
  }

  lemma FeedLast(w: Writer, ds: seq<Delivery>, n: nat)
    requires WellFormed(w) && |ds| == n + 1
    ensures Feed(w, ds) == Written(Feed(w, ds[..n]), ds[n].frame, ds[n].fault)
  {
  }

  lemma {:induction false} ChunksAccepted(w: Writer, ds: seq<Delivery>, chunks: seq<Bytes>)
    requires WellFormed(w) && w.stage.InFile? && w == Holding(w, [])
    requires FramesOf(ds) == ChunkFrames(chunks) && DiskWorked(ds) && ChunkSizesAllowed(chunks)
    requires |Joined(chunks)| <= w.manifest.files[w.stage.index].size
    ensures Feed(w, ds) == Holding(w, Joined(chunks))
    decreases |chunks|
  {
    hide Holding, Written, ChunkFrames, FramesOf, Joined, Feed, WellFormed;
    assert |ds| == |FramesOf(ds)| == |ChunkFrames(chunks)| == |chunks|;
    if chunks == [] {
      assert Feed(w, []) == w && Joined([]) == [] by { FeedNone(w); }
    } else {
      LastChunk(ds, chunks);
      var n := |chunks| - 1;
      ChunksAccepted(w, ds[..n], chunks[..n]);
      AppendHeld(w, Joined(chunks[..n]), chunks[n]);
      FeedLast(w, ds, n);
    }
  }

  lemma FileSplits(ds: seq<Delivery>, name: Bytes, chunks: seq<Bytes>)
    requires FramesOf(ds) == FileFrames(name, chunks) && DiskWorked(ds)
    ensures var n := |chunks|;
            && |ds| == n + 2
            && ds[0] == Delivery(FileStart(name), None)
            && FramesOf(ds[1..n + 1]) == ChunkFrames(chunks)
            && ds[n + 1] == Delivery(FileEnd(Checksum(Joined(chunks))), None)
            && ds[..n + 1] == [ds[0]] + ds[1..n + 1]
  {
    hide Joined, Checksum, ChunkFrames;
    var n := |chunks|;
    var frames := FramesOf(ds);
    assert |ds| == |frames| == n + 2;
    assert ds[0].frame == frames[0] && ds[n + 1].frame == frames[n + 1];
    SliceFrames(ds, 1, n + 1);
    assert frames[1..n + 1] == ChunkFrames(chunks);
  }

  lemma StartHeld(w: Writer, name: Bytes)
    requires WellFormed(w) && w.stage.ExpectFileStart? && name == w.manifest.files[w.stage.index].name
    ensures var r := Written(w, FileStart(name), None);
            && r == w.(dir := w.dir[name := []], stage := InFile(w.stage.index, ONES, 0))
            && Holding(r, []) == r
  {
  }

  lemma CloseHeld(w: Writer, content: Bytes)
    requires WellFormed(w) && w.stage.InFile? && |content| == w.manifest.files[w.stage.index].size
    ensures Written(Holding(w, content), FileEnd(Checksum(content)), None)
         == Holding(w, content).(stage := NextFile(w.manifest, w.stage.index + 1))
  {
    hide Update;
  }

  lemma FeedOne(w: Writer, d: Delivery)
    requires WellFormed(w)
    ensures Feed(w, [d]) == Written(w, d.frame, d.fault)
  {
    hide Written;
  }

  lemma FileAccepted(w: Writer, ds: seq<Delivery>, chunks: seq<Bytes>)
    requires WellFormed(w) && w.stage.ExpectFileStart?
    requires FramesOf(ds) == FileFrames(w.manifest.files[w.stage.index].name, chunks) && DiskWorked(ds)
    requires ChunkSizesAllowed(chunks) && |Joined(chunks)| == w.manifest.files[w.stage.index].size
    ensures Feed(w, ds) == w.(dir := w.dir[w.manifest.files[w.stage.index].name := Joined(chunks)],
                              stage := NextFile(w.manifest, w.stage.index + 1))
  {
    hide Joined, Update, ChunkFrames, FramesOf, ChunkSizesAllowed, FileFrames, Feed, Written, Finalize;
    var name := w.manifest.files[w.stage.index].name;
    var n := |chunks|;
    FileSplits(ds, name, chunks);
    StartHeld(w, name);
    var started := Written(w, FileStart(name), None);
    FeedOne(w, ds[0]);
    ChunksAccepted(started, ds[1..n + 1], chunks);
    FeedInParts(w, [ds[0]], ds[1..n + 1]);
    FeedLast(w, ds, n + 1);
    CloseHeld(started, Joined(chunks));
    assert started.dir[name := Joined(chunks)] == w.dir[name := Joined(chunks)];
  }

  /** The deliveries of the first `i` files end with those of file `i - 1`. */
  lemma BodySplits(ds: seq<Delivery>, m: Manifest, i: nat, chunked: seq<seq<Bytes>>) returns (k: nat)
    requires 0 < i <= |m.files| && |chunked| == i && DiskWorked(ds)
    requires FramesOf(ds) == [ManifestFrame(m)] + BodyFrames(m.files[..i], chunked)
    ensures k <= |ds| && DiskWorked(ds[..k]) && DiskWorked(ds[k..]) && ds == ds[..k] + ds[k..]
    ensures FramesOf(ds[..k]) == [ManifestFrame(m)] + BodyFrames(m.files[..i - 1], chunked[..i - 1])
    ensures FramesOf(ds[k..]) == FileFrames(m.files[i - 1].name, chunked[i - 1])
  {
    hide FileFrames;
    var n := i - 1;
    assert m.files[..i][..n] == m.files[..n];
    var body := BodyFrames(m.files[..n], chunked[..n]);
    var file := FileFrames(m.files[n].name, chunked[n]);
    assert FramesOf(ds) == [ManifestFrame(m)] + body + file;
    k := 1 + |body|;
    SliceFrames(ds, 0, k);
    SliceFrames(ds, k, |ds|);
    assert ds[0..k] == ds[..k] && ds[k..|ds|] == ds[k..];
  }

  lemma ContentsSplit(files: seq<ManifestEntry>, i: nat, chunked: seq<seq<Bytes>>)
    requires 0 < i <= |files| && Fits(files[..i], chunked)
    ensures Fits(files[..i - 1], chunked[..i - 1])
    ensures ChunkSizesAllowed(chunked[i - 1]) && |Joined(chunked[i - 1])| == files[i - 1].size
    ensures Contents(files[..i], chunked)
         == Contents(files[..i - 1], chunked[..i - 1])[files[i - 1].name := Joined(chunked[i - 1])]
  {
    hide Joined, ChunkSizesAllowed;
    assert files[..i][..i - 1] == files[..i - 1];
    assert files[..i][i - 1] == files[i - 1];
  }

  lemma {:induction false} FilesAccepted(ds: seq<Delivery>, m: Manifest, i: nat, chunked: seq<seq<Bytes>>)
    requires ValidManifest(m) && i <= |m.files| && Fits(m.files[..i], chunked) && DiskWorked(ds)
    requires FramesOf(ds) == [ManifestFrame(m)] + BodyFrames(m.files[..i], chunked)
    ensures Feed(NEW_WRITER, ds) == Writer(Contents(m.files[..i], chunked), m, NextFile(m, i))
    decreases i
  {
    if i == 0 {
      assert FramesOf(ds)[0] == ManifestFrame(m);
      assert ds == [ds[0]] && ds[..0] == [];
    } else {
      hide FileFrames, Joined, ChunkSizesAllowed, Written, FramesOf, ValidManifest, Contents, BodyFrames, DiskWorked,
        Feed;
      var n := i - 1;
      var k := BodySplits(ds, m, i, chunked);
      ContentsSplit(m.files, i, chunked);
      FilesAccepted(ds[..k], m, n, chunked[..n]);
      FileAccepted(Feed(NEW_WRITER, ds[..k]), ds[k..], chunked[n]);
      FeedInParts(NEW_WRITER, ds[..k], ds[k..]);
    }
  }

  lemma EndAccepted(w: Writer, d: Delivery)
    requires w.stage.ExpectEnd? && d.frame.End?
    ensures Written(w, d.frame, d.fault) == w.(stage := Done)
  {
  }

  lemma StreamAccepted(ds: seq<Delivery>, m: Manifest, chunked: seq<seq<Bytes>>)
    requires IsStreamOf(FramesOf(ds), m, chunked) && DiskWorked(ds)
    ensures Feed(NEW_WRITER, ds) == Writer(Contents(m.files, chunked), m, Done)
  {
    hide ValidManifest, BodyFrames, Contents, Written, Joined, ChunkSizesAllowed;
    var n := |ds| - 1;
    var frames := FramesOf(ds);
    assert m.files[..|m.files|] == m.files;
    SliceFrames(ds, 0, n);
    assert frames[0..n] == [ManifestFrame(m)] + BodyFrames(m.files, chunked);
    assert ds[0..n] == ds[..n];
    assert ds[n].frame == frames[n] == End;
    FilesAccepted(ds[..n], m, |m.files|, chunked);
    EndAccepted(Feed(NEW_WRITER, ds[..n]), ds[n]);
  }

  lemma FaultRefuses(w: Writer, d: Delivery)
    requires WellFormed(w)
    ensures w.stage.Failed? || DiskFailed(d) ==> Written(w, d.frame, d.fault).stage.Failed?
  {
  }

  lemma {:induction false} AcceptanceNeedsDisk(ds: seq<Delivery>)
    requires !Feed(NEW_WRITER, ds).stage.Failed?
    ensures DiskWorked(ds)
  {
    hide Written;
    if ds != [] {
      var n := |ds| - 1;
      FaultRefuses(Feed(NEW_WRITER, ds[..n]), ds[n]);
      AcceptanceNeedsDisk(ds[..n]);
    }
  }

  /**
    * The writer completes exactly on the valid streams (given a working disk), and then its directory
    * holds exactly the manifest's files with the chunks of each joined up.
    */
  lemma AcceptsExactlyTheStreams(ds: seq<Delivery>)
    ensures Feed(NEW_WRITER, ds).stage.Done? <==> IsStream(FramesOf(ds)) && DiskWorked(ds)
    ensures forall m, chunked :: IsStreamOf(FramesOf(ds), m, chunked) && DiskWorked(ds) ==>
              Feed(NEW_WRITER, ds).dir == Contents(m.files, chunked)
  {
    hide DiskWorked, FramesOf, Feed, ValidManifest;
    forall m, chunked | IsStreamOf(FramesOf(ds), m, chunked) && DiskWorked(ds)
      ensures Feed(NEW_WRITER, ds) == Writer(Contents(m.files, chunked), m, Done)
    {
      StreamAccepted(ds, m, chunked);
    }
    var w := Feed(NEW_WRITER, ds);
    if w.stage.Done? {
      AcceptanceNeedsDisk(ds);
      RunExplained(ds);
      CompletedIsStream(FramesOf(ds), w);
    }
  }

  lemma CompletedIsStream(frames: seq<Frame>, w: Writer)
    requires w.stage.Done? && Explained(frames, w)
    ensures IsStream(frames)
  {
    var before, chunked :|
      FilesDone(before, w.dir, w.manifest, |w.manifest.files|, chunked) && frames == before + [End];
    assert w.manifest.files[..|w.manifest.files|] == w.manifest.files;
    assert IsStreamOf(frames, w.manifest, chunked);
  }
}
