/** Whole transfer sessions: the producer's stream against the writer that receives it. */
module DirTransfers {
  import opened RaftTypes
  import opened ByteStrings
  import opened Crc64
  import opened DirFrames
  import opened P = FrameProducers
  import W = DirWriters
  import R = DirWriterRuns

  function Clean(frames: seq<Frame>): (r: seq<W.Delivery>)
    ensures |r| == |frames|
  {
    seq(|frames|, i requires 0 <= i < |frames| => W.Delivery(frames[i], None))
  }

  lemma CleanFrames(frames: seq<Frame>)
    ensures R.FramesOf(Clean(frames)) == frames && R.DiskWorked(Clean(frames))
  {
  }

  // A producer whose directory changes under it.

  datatype Session = Session(producer: Producer, frames: seq<Frame>)

  /** Call the producer once per element of `dirs`, each the directory at the time of that call. */
  function Pull(p: Producer, dirs: seq<Dir>): (s: Session)
    requires WellFormed(p)
    ensures WellFormed(s.producer)
  {
    if dirs == [] then Session(p, [])
    else
      var n := |dirs| - 1;
      var s := Pull(p, dirs[..n]);
      var r := Next(s.producer, dirs[n]);
      Session(r.next, s.frames + match r.frame case Some(f) => [f] case None => [])
  }

  /** A writer that received everything this producer sent. */
  predicate InStep(p: Producer, w: W.Writer) {
    && WellFormed(p) && W.WellFormed(w) && ValidManifest(p.manifest)
    && (if p.stage.EmitManifest? then w == W.NEW_WRITER else w.manifest == p.manifest)
    && match p.stage
       case EmitManifest => true
       case StartFile(i) => w.stage == W.ExpectFileStart(i)
       case ReadFile(i, digest, n) => w.stage == W.InFile(i, digest, n)
       case EmitEnd => w.stage == W.ExpectEnd
       case Finished => w.stage == W.Done
       case Broken => w.stage.ExpectFileStart? || w.stage.InFile?
  }

  lemma StaysInStep(p: Producer, dir: Dir, w: W.Writer)
    requires InStep(p, w)
    ensures var r := Next(p, dir);
            InStep(r.next, match r.frame case Some(f) => W.Written(w, f, None) case None => w)
  {
    hide Update, ValidManifest;
  }

  lemma {:induction false} PullInStep(p: Producer, dirs: seq<Dir>)
    requires WellFormed(p) && ValidManifest(p.manifest) && p.stage.EmitManifest?
    ensures InStep(Pull(p, dirs).producer, R.Feed(W.NEW_WRITER, Clean(Pull(p, dirs).frames)))
  {
    hide Next, W.Written, InStep;
    if dirs == [] {
      assert Clean([]) == [];
      assert InStep(p, W.NEW_WRITER) by { StartsInStep(p); }
    } else {
      var n := |dirs| - 1;
      PullInStep(p, dirs[..n]);
      var s := Pull(p, dirs[..n]);
      StaysInStep(s.producer, dirs[n], R.Feed(W.NEW_WRITER, Clean(s.frames)));
      var r := Next(s.producer, dirs[n]);
      if r.frame.Some? {
        var frames := s.frames + [r.frame.value];
        assert Clean(frames)[..|s.frames|] == Clean(s.frames);
      } else {
        assert s.frames + [] == s.frames;
      }
    }
  }

  lemma StartsInStep(p: Producer)
    requires WellFormed(p) && ValidManifest(p.manifest) && p.stage.EmitManifest?
    ensures InStep(p, W.NEW_WRITER)
  {
  }

  /**
    * However the directory changes between the calls, everything sent is accepted, and what was sent is a
    * complete valid stream exactly when the producer reached its end: a broken session never completes.
    */
  lemma DriftNeverCompletes(p: Producer, dirs: seq<Dir>)
    requires WellFormed(p) && ValidManifest(p.manifest) && p.stage.EmitManifest?
    ensures !R.Feed(W.NEW_WRITER, Clean(Pull(p, dirs).frames)).stage.Failed?
    ensures IsStream(Pull(p, dirs).frames) <==> Pull(p, dirs).producer.stage.Finished?
  {
    hide Pull, R.Feed, ValidManifest, R.FramesOf, R.DiskWorked;
    PullInStep(p, dirs);
    var frames := Pull(p, dirs).frames;
    R.AcceptsExactlyTheStreams(Clean(frames));
    CleanFrames(frames);
  }

  // A producer over an unchanging directory.

  function Remaining(files: seq<ManifestEntry>, i: nat): nat
    requires i <= |files|
    decreases |files| - i
  {
    if i == |files| then 0 else files[i].size + 2 + Remaining(files, i + 1)
  }

  function Fuel(p: Producer): nat
    requires WellFormed(p)
  {
    match p.stage
    case EmitManifest => Remaining(p.manifest.files, 0) + 2
    case StartFile(i) => Remaining(p.manifest.files, i) + 1
    case ReadFile(i, _, n) => (p.manifest.files[i].size - n) + 1 + Remaining(p.manifest.files, i + 1) + 1
    case EmitEnd => 1
    case Finished => 0
    case Broken => 0
  }

  /** Every frame brings the producer nearer to its end, whatever the directory does. */
  lemma FramesRunOut(p: Producer, dir: Dir)
    requires WellFormed(p)
    ensures Next(p, dir).frame.Some? ==> Fuel(Next(p, dir).next) < Fuel(p)
  {
    hide Update;
  }

  datatype Drained = Drained(frames: seq<Frame>, ok: bool)

  /** All frames up to the end of the stream or the first error. */
  function Drain(p: Producer, dir: Dir): Drained
    requires WellFormed(p)
    decreases Fuel(p)
  {
    FramesRunOut(p, dir);
    var r := Next(p, dir);
    match r.frame
    case None => Drained([], r.ok)
    case Some(f) =>
      var rest := Drain(r.next, dir);
      Drained([f] + rest.frames, rest.ok)
  }

  /** The directory holds the manifest's files at their sizes, from file `i` on. */
  ghost predicate Unchanged(dir: Dir, files: seq<ManifestEntry>, i: nat) {
    forall j :: i <= j < |files| ==> files[j].name in dir && |dir[files[j].name]| == files[j].size
  }

  ghost predicate ReadingSound(p: Producer, dir: Dir) {
    WellFormed(p) && (p.stage.ReadFile? ==>
      p.manifest.files[p.stage.index].name in dir && p.stage.bytesRead <= |dir[p.manifest.files[p.stage.index].name]|)
  }

  ghost predicate WillFinish(p: Producer, dir: Dir)
    requires WellFormed(p)
  {
    match p.stage
    case EmitManifest => Unchanged(dir, p.manifest.files, 0)
    case StartFile(i) => Unchanged(dir, p.manifest.files, i)
    case ReadFile(i, _, _) => Unchanged(dir, p.manifest.files, i)
    case EmitEnd => true
    case Finished => true
    case Broken => false
  }

  lemma NextKeepsOutcome(p: Producer, dir: Dir)
    requires ReadingSound(p, dir)
    ensures ReadingSound(Next(p, dir).next, dir)
    ensures WillFinish(Next(p, dir).next, dir) == WillFinish(p, dir)
    ensures Next(p, dir).frame.None? ==> Next(p, dir).ok == WillFinish(p, dir)
  {
    hide Update;
    if p.stage.ReadFile? {
      var ReadFile(i, _, n) := p.stage;
      var entry := p.manifest.files[i];
      var content := dir[entry.name];
      var data := Window(content, n, p.chunkSize);
      assert data == [] <==> n == |content|;
      assert WillFinish(p, dir) ==> |content| == entry.size;
      assert Unchanged(dir, p.manifest.files, i) <==>
             |content| == entry.size && Unchanged(dir, p.manifest.files, i + 1);
    }
  }

  lemma {:induction false} DrainOutcome(p: Producer, dir: Dir)
    requires ReadingSound(p, dir)
    ensures Drain(p, dir).ok <==> WillFinish(p, dir)
    decreases Fuel(p)
  {
    hide Next, WillFinish, ReadingSound;
    ReadingIsWellFormed(p, dir);
    FramesRunOut(p, dir);
    NextKeepsOutcome(p, dir);
    if Next(p, dir).frame.Some? {
      DrainOutcome(Next(p, dir).next, dir);
    }
  }

  lemma ReadingIsWellFormed(p: Producer, dir: Dir)
    requires ReadingSound(p, dir)
    ensures WellFormed(p)
  {
  }

  /** A session over an unchanging directory succeeds exactly when every listed file is there at its listed size. */
  lemma SucceedsExactlyWhenSizesHold(p: Producer, dir: Dir)
    requires WellFormed(p) && p.stage.EmitManifest?
    ensures Drain(p, dir).ok <==> Unchanged(dir, p.manifest.files, 0)
  {
    DrainOutcome(p, dir);
  }

  // What arrives.

  /** The writer's directory holds what the producer has sent so far of the files of `dir`. */
  ghost predicate Copied(p: Producer, dir: Dir, w: W.Writer) {
    var files := p.manifest.files;
    match p.stage
    case EmitManifest => w.dir == map[]
    case StartFile(i) => CopyOf(dir, files, i, w.dir)
    case ReadFile(i, _, n) =>
      && i < |files| && files[i].name in dir && n <= |dir[files[i].name]|
      && exists before: Dir :: CopyOf(dir, files, i, before)
           && w.dir == before[files[i].name := dir[files[i].name][..n]]
    case EmitEnd => CopyOf(dir, files, |files|, w.dir)
    case Finished => CopyOf(dir, files, |files|, w.dir)
    case Broken => true
  }

  /** `copy` holds exactly the first `i` files. */
  ghost predicate CopyOf(dir: Dir, files: seq<ManifestEntry>, i: nat, copy: Dir) {
    && i <= |files|
    && (forall j :: 0 <= j < i ==>
         files[j].name in dir && files[j].name in copy && copy[files[j].name] == dir[files[j].name])
    && forall name :: name in copy ==> exists j :: 0 <= j < i && files[j].name == name
  }

  lemma CopyExtends(dir: Dir, files: seq<ManifestEntry>, i: nat, before: Dir)
    requires i < |files| && files[i].name in dir && CopyOf(dir, files, i, before)
    ensures CopyOf(dir, files, i + 1, before[files[i].name := dir[files[i].name]])
  {
  }

  lemma StaysCopied(p: Producer, dir: Dir, w: W.Writer)
    requires InStep(p, w) && ReadingSound(p, dir) && Copied(p, dir, w)
    ensures var r := Next(p, dir);
            Copied(r.next, dir, match r.frame case Some(f) => W.Written(w, f, None) case None => w)
  {
    hide Update, ValidManifest, CopyOf;
    var files := p.manifest.files;
    match p.stage {
      case EmitManifest =>
        assert CopyOf(dir, files, 0, map[]) by { NothingCopied(dir, files); }
      case StartFile(i) =>
        if files[i].name in dir {
          assert dir[files[i].name][..0] == [];
        }
      case ReadFile(i, _, n) =>
        var content := dir[files[i].name];
        var before: Dir :| CopyOf(dir, files, i, before) && w.dir == before[files[i].name := content[..n]];
        var data := Window(content, n, p.chunkSize);
        if data == [] {
          assert content[..n] == content;
          CopyExtends(dir, files, i, before);
        } else {
          assert content[..n] + data == content[..n + |data|];
          assert w.dir[files[i].name := content[..n + |data|]] == before[files[i].name := content[..n + |data|]];
        }
      case EmitEnd =>
      case Finished =>
      case Broken =>
    }
  }

  lemma NothingCopied(dir: Dir, files: seq<ManifestEntry>)
    ensures CopyOf(dir, files, 0, map[])
  {
  }

  lemma LastIsDone(p: Producer, dir: Dir, w: W.Writer)
    requires InStep(p, w) && ReadingSound(p, dir) && Copied(p, dir, w)
    requires Next(p, dir).frame.None?
    ensures Next(p, dir).ok ==> w.stage.Done? && CopyOf(dir, p.manifest.files, |p.manifest.files|, w.dir)
  {
    hide CopyOf;
  }

  lemma ManifestStays(p: Producer, dir: Dir)
    requires WellFormed(p)
    ensures Next(p, dir).next.manifest == p.manifest
  {
    hide Update;
  }

  lemma {:induction false} DrainCopies(p: Producer, dir: Dir, w: W.Writer)
    requires InStep(p, w) && ReadingSound(p, dir) && Copied(p, dir, w)
    ensures var end := R.Feed(w, Clean(Drain(p, dir).frames));
            Drain(p, dir).ok ==> end.stage.Done? && CopyOf(dir, p.manifest.files, |p.manifest.files|, end.dir)
    decreases Fuel(p)
  {
    hide CopyOf, Next, W.Written;
    FramesRunOut(p, dir);
    NextKeepsOutcome(p, dir);
    StaysInStep(p, dir, w);
    StaysCopied(p, dir, w);
    ManifestStays(p, dir);
    var r := Next(p, dir);
    if r.frame.None? {
      LastIsDone(p, dir, w);
    } else {
      var f := r.frame.value;
      var rest := Drain(r.next, dir).frames;
      assert Clean([f] + rest) == [W.Delivery(f, None)] + Clean(rest);
      R.FeedOne(w, W.Delivery(f, None));
      R.FeedInParts(w, [W.Delivery(f, None)], Clean(rest));
      DrainCopies(r.next, dir, W.Written(w, f, None));
    }
  }

  // Listing a directory.

  /** Any listing of a flat directory of validly named regular files, in any order. */
  ghost predicate Lists(listing: seq<DirEntry>, dir: Dir) {
    && (forall i :: 0 <= i < |listing| ==>
          Usable(listing[i]) && listing[i].name.value in dir && listing[i].size == |dir[listing[i].name.value]|)
    && (forall i, j :: 0 <= i < j < |listing| ==> listing[i].name != listing[j].name)
    && forall name :: name in dir ==> exists i :: 0 <= i < |listing| && listing[i].name == Some(name)
  }

  /** The files of a directory, each once. */
  ghost predicate Covers(files: seq<ManifestEntry>, dir: Dir) {
    && Distinct(files)
    && forall e :: e in files <==> e.name in dir && ValidName(e.name) && e.size == |dir[e.name]|
  }

  lemma {:induction false} AtMostOnce(files: seq<ManifestEntry>, e: ManifestEntry)
    requires Distinct(files)
    ensures multiset(files)[e] <= 1
  {
    if files != [] {
      var n := |files| - 1;
      assert files == files[..n] + [files[n]];
      AtMostOnce(files[..n], e);
      if e == files[n] {
        assert e !in files[..n];
      }
    }
  }

  lemma SortKeepsDistinct(files: seq<ManifestEntry>, sorted: seq<ManifestEntry>)
    requires Distinct(files) && multiset(sorted) == multiset(files)
    ensures Distinct(sorted)
  {
    forall i, j | 0 <= i < j < |sorted|
      ensures sorted[i].name != sorted[j].name
    {
      var a, b := sorted[i], sorted[j];
      assert a in multiset(sorted) && b in multiset(sorted);
      assert a in files && b in files;
      assert sorted == sorted[..j] + sorted[j..];
      assert sorted[..j][i] == a && sorted[j..][0] == b;
      assert a in multiset(sorted[..j]) && b in multiset(sorted[j..]);
      AtMostOnce(files, a);
    }
  }

  lemma ManifestCovers(listing: seq<DirEntry>, dir: Dir)
    requires Lists(listing, dir)
    ensures Covers(SortByName(EntriesOf(listing)), dir)
  {
    var files := EntriesOf(listing);
    var sorted := SortByName(files);
    SortKeepsDistinct(files, sorted);
    forall e
      ensures e in sorted <==> e.name in dir && ValidName(e.name) && e.size == |dir[e.name]|
    {
      assert e in sorted <==> e in multiset(sorted) <==> e in multiset(files) <==> e in files;
      if e.name in dir && ValidName(e.name) && e.size == |dir[e.name]| {
        var i :| 0 <= i < |listing| && listing[i].name == Some(e.name);
        assert files[i] == e;
      }
    }
  }

  function Names(files: seq<ManifestEntry>): (r: seq<Bytes>)
    ensures |r| == |files|
  {
    seq(|files|, i requires 0 <= i < |files| => files[i].name)
  }

  lemma NamesSorted(files: seq<ManifestEntry>)
    requires NamesAscend(files) && Distinct(files)
    ensures Sorted(Names(files))
  {
    forall i, j | 0 <= i < j < |files|
      ensures Less(files[i].name, files[j].name)
    {
      LessTotal(files[i].name, files[j].name);
    }
  }

  lemma SortedFilesAreUnique(a: seq<ManifestEntry>, b: seq<ManifestEntry>, dir: Dir)
    requires NamesAscend(a) && NamesAscend(b) && Covers(a, dir) && Covers(b, dir)
    ensures a == b
  {
    NamesSorted(a);
    NamesSorted(b);
    forall name
      ensures name in Names(a) <==> name in Names(b)
    {
      SameNames(a, b, dir, name);
      SameNames(b, a, dir, name);
    }
    SortedIsUnique(Names(a), Names(b));
    assert |a| == |Names(a)| == |Names(b)| == |b|;
    forall i | 0 <= i < |a|
      ensures a[i] == b[i]
    {
      assert a[i].name == Names(a)[i] == Names(b)[i] == b[i].name;
      assert a[i] in a && b[i] in b;
    }
  }

  lemma SameNames(a: seq<ManifestEntry>, b: seq<ManifestEntry>, dir: Dir, name: Bytes)
    requires Covers(a, dir) && Covers(b, dir)
    ensures name in Names(a) ==> name in Names(b)
  {
    if name in Names(a) {
      var i :| 0 <= i < |a| && a[i].name == name;
      assert a[i] in a;
      var j :| 0 <= j < |b| && b[j] == a[i];
      assert Names(b)[j] == name;
    }
  }

  /** The frames do not depend on the order in which the directory was enumerated. */
  lemma EnumerationOrderDoesNotMatter(a: seq<DirEntry>, b: seq<DirEntry>, dir: Dir, chunkSize: nat)
    requires Lists(a, dir) && Lists(b, dir)
    ensures Opened(a, chunkSize) == Opened(b, chunkSize)
  {
    ManifestCovers(a, dir);
    ManifestCovers(b, dir);
    SortedFilesAreUnique(SortByName(EntriesOf(a)), SortByName(EntriesOf(b)), dir);
  }

  /**
    * Transferring any directory, listed in any order and cut into chunks of any allowed size, gives a valid
    * stream whose receiver completes with exactly the same directory.
    */
  lemma TransferCopiesDirectory(listing: seq<DirEntry>, dir: Dir, chunkSize: nat)
    requires Lists(listing, dir) && 1 <= chunkSize <= MAX_CHUNK_SIZE
    ensures Opened(listing, chunkSize).Some?
    ensures var sent := Drain(Opened(listing, chunkSize).value, dir);
            && sent.ok
            && IsStream(sent.frames)
            && var end := R.Feed(W.NEW_WRITER, Clean(sent.frames));
               end.stage.Done? && end.dir == dir
  {
    hide NamesAscend, Drain, R.Feed, Unchanged;
    var p := Opened(listing, chunkSize).value;
    var files := p.manifest.files;
    ManifestCovers(listing, dir);
    assert Unchanged(dir, files, 0) by { CoveredIsUnchanged(files, dir); }
    SucceedsExactlyWhenSizesHold(p, dir);
    CoveredIsValid(p.manifest, dir);
    StartsInStep(p);
    DrainCopies(p, dir, W.NEW_WRITER);
    var sent := Drain(p, dir);
    var end := R.Feed(W.NEW_WRITER, Clean(sent.frames));
    CompleteCopy(files, dir, end.dir, listing);
    R.AcceptsExactlyTheStreams(Clean(sent.frames));
    CleanFrames(sent.frames);
  }

  lemma CoveredIsUnchanged(files: seq<ManifestEntry>, dir: Dir)
    requires Covers(files, dir)
    ensures Unchanged(dir, files, 0)
  {
    assert forall j :: 0 <= j < |files| ==> files[j] in files;
  }

  lemma CoveredIsValid(m: Manifest, dir: Dir)
    requires m.version == PROTOCOL_VERSION && Covers(m.files, dir)
    ensures ValidManifest(m)
  {
    hide ValidName;
    assert forall j :: 0 <= j < |m.files| ==> m.files[j] in m.files;
  }

  lemma CompleteCopy(files: seq<ManifestEntry>, dir: Dir, copy: Dir, listing: seq<DirEntry>)
    requires Lists(listing, dir) && Covers(files, dir) && CopyOf(dir, files, |files|, copy)
    ensures copy == dir
  {
    forall name | name in dir
      ensures name in copy && copy[name] == dir[name]
    {
      var i :| 0 <= i < |listing| && listing[i].name == Some(name);
      var e := EntryOf(listing[i]);
      assert e in files;
      var j :| 0 <= j < |files| && files[j] == e;
    }
  }

  // Where the files are cut.

  /** Chunks carry 1 to `size` bytes, and only the last chunk of a file fewer than `size`. */
  ghost predicate CutEvenly(frames: seq<Frame>, size: nat) {
    forall i :: 0 <= i < |frames| && frames[i].Chunk? ==>
      && 1 <= |frames[i].data| <= size
      && (i + 1 < |frames| && frames[i + 1].Chunk? ==> |frames[i].data| == size)
  }

  lemma {:induction false} ChunksAreCutEvenly(p: Producer, dir: Dir)
    requires ReadingSound(p, dir)
    ensures CutEvenly(Drain(p, dir).frames, p.chunkSize)
    decreases Fuel(p)
  {
    hide Update;
    FramesRunOut(p, dir);
    NextKeepsOutcome(p, dir);
    var r := Next(p, dir);
    if r.frame.Some? {
      ChunksAreCutEvenly(r.next, dir);
      var rest := Drain(r.next, dir).frames;
      if rest != [] {
        FramesRunOut(r.next, dir);
        assert rest[0] == Next(r.next, dir).frame.value;
        ShortChunkIsLast(p, dir);
      }
      CutEvenlyCons(r.frame.value, rest, p.chunkSize);
    }
  }

  lemma ShortChunkIsLast(p: Producer, dir: Dir)
    requires ReadingSound(p, dir) && Next(p, dir).frame.Some?
    ensures var r := Next(p, dir);
            r.next.chunkSize == p.chunkSize && (r.frame.value.Chunk? ==>
              && 1 <= |r.frame.value.data| <= p.chunkSize
              && (|r.frame.value.data| < p.chunkSize ==>
                   Next(r.next, dir).frame.Some? ==> !Next(r.next, dir).frame.value.Chunk?))
  {
    hide Update;
  }

  lemma CutEvenlyCons(f: Frame, rest: seq<Frame>, size: nat)
    requires CutEvenly(rest, size)
    requires f.Chunk? ==> 1 <= |f.data| <= size && (rest != [] && rest[0].Chunk? ==> |f.data| == size)
    ensures CutEvenly([f] + rest, size)
  {
    var all := [f] + rest;
    forall i | 0 <= i < |all| && all[i].Chunk?
      ensures 1 <= |all[i].data| <= size && (i + 1 < |all| && all[i + 1].Chunk? ==> |all[i].data| == size)
    {
      if i > 0 {
        assert all[i] == rest[i - 1];
        assert i + 1 < |all| ==> all[i + 1] == rest[i];
      }
    }
  }
}
