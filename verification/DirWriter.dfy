/** The receiving end of a directory transfer. */
module DirWriters {
  import opened RaftTypes
  import opened ByteStrings
  import opened Crc64
  import opened DirFrames

  datatype Stage =
    | ExpectManifest
    | ExpectFileStart(index: nat)
    | InFile(index: nat, digest: bv64, written: nat)
    | ExpectEnd
    | Done
    | Failed

  datatype Writer = Writer(dir: Dir, manifest: Manifest, stage: Stage)

  /** A frame as it meets the writer; `fault` is the number of bytes a failing disk operation still got done. */
  datatype Delivery = Delivery(frame: Frame, fault: Option<nat>)

  const NEW_WRITER := Writer(map[], Manifest(PROTOCOL_VERSION, []), ExpectManifest)

  predicate WellFormed(w: Writer) {
    match w.stage
    case ExpectFileStart(i) => i < |w.manifest.files|
    case InFile(i, _, _) => i < |w.manifest.files| && w.manifest.files[i].name in w.dir
    case _ => true
  }

  function NextFile(m: Manifest, index: nat): Stage {
    if index < |m.files| then ExpectFileStart(index) else ExpectEnd
  }

  function Started(w: Writer, index: nat, name: Bytes, fault: Option<nat>): (r: Writer)
    requires index < |w.manifest.files|
    ensures WellFormed(r)
  {
    if name != w.manifest.files[index].name then w.(stage := Failed)
    else
      match fault
      case None => w.(dir := w.dir[name := []], stage := InFile(index, ONES, 0))
      case Some(done) => w.(dir := if done == 0 then w.dir else w.dir[name := []], stage := Failed)
  }

  function Appended(w: Writer, data: Bytes, fault: Option<nat>): (r: Writer)
    requires w.stage.InFile? && WellFormed(w)
    ensures WellFormed(r)
  {
    var InFile(index, digest, written) := w.stage;
    var ManifestEntry(name, size) := w.manifest.files[index];
    if data == [] || |data| > MAX_CHUNK_SIZE || written + |data| > size then w.(stage := Failed)
    else
      match fault
      case None =>
        w.(dir := w.dir[name := w.dir[name] + data], stage := InFile(index, Update(digest, data), written + |data|))
      case Some(done) =>
        w.(dir := w.dir[name := w.dir[name] + data[..Min(done, |data|)]], stage := Failed)
  }

  function Closed(w: Writer, checksum: bv64, fault: Option<nat>): (r: Writer)
    requires w.stage.InFile? && WellFormed(w)
    ensures WellFormed(r)
  {
    var InFile(index, digest, written) := w.stage;
    if written == w.manifest.files[index].size && Finalize(digest) == checksum && fault.None?
    then w.(stage := NextFile(w.manifest, index + 1))
    else w.(stage := Failed)
  }

  /** The writer after one frame; a frame it refuses leaves it failed. */
  function Written(w: Writer, frame: Frame, fault: Option<nat>): (r: Writer)
    requires WellFormed(w)
    ensures WellFormed(r)
  {
    match (w.stage, frame)
    case (ExpectManifest, ManifestFrame(m)) =>
      if ValidManifest(m) then w.(manifest := m, stage := NextFile(m, 0)) else w.(stage := Failed)
    case (ExpectFileStart(index), FileStart(name)) => Started(w, index, name, fault)
    case (InFile(_, _, _), Chunk(data)) => Appended(w, data, fault)
    case (InFile(_, _, _), FileEnd(checksum)) => Closed(w, checksum, fault)
    case (ExpectEnd, End) => w.(stage := Done)
    case _ => w.(stage := Failed)
  }

  class DirWriter {
    const target: Directory
    var manifest: Manifest
    var stage: Stage

    ghost function State(): Writer
      reads this, target
    {
      Writer(target.files, manifest, stage)
    }

    constructor (target: Directory)
      requires target.files == map[]
      ensures this.target == target && State() == NEW_WRITER
    {
      this.target := target;
      manifest := Manifest(PROTOCOL_VERSION, []);
      stage := ExpectManifest;
    }

    method WriteFrame(frame: Frame, fault: Option<nat>) returns (ok: bool)
      requires WellFormed(State())
      modifies this, target
      ensures State() == Written(old(State()), frame, fault)
      ensures ok == !stage.Failed?
    {
      var was := stage;
      stage := Failed;
      ok := false;
      match was {
        case ExpectManifest =>
          if frame.ManifestFrame? {
            ok := AcceptManifest(frame.manifest);
          }
        case ExpectFileStart(index) =>
          if frame.FileStart? {
            ok := StartFile(index, frame.name, fault);
          }
        case InFile(index, digest, written) =>
          if frame.Chunk? {
            ok := WriteChunk(index, digest, written, frame.data, fault);
          } else if frame.FileEnd? {
            ok := FinishFile(index, digest, written, frame.checksum, fault);
          }
        case ExpectEnd =>
          if frame.End? {
            stage := Done;
            ok := true;
          }
        case Done =>
        case Failed =>
      }
    }

    /** Succeeds exactly after the last frame of a stream was accepted and the directory could be synchronised. */
    method Finish(syncFails: bool) returns (ok: bool)
      ensures ok <==> stage.Done? && !syncFails
    {
      ok := stage.Done? && !syncFails;
    }

    method AcceptManifest(m: Manifest) returns (ok: bool)
      requires stage.Failed?
      modifies this
      ensures ok <==> ValidManifest(m)
      ensures manifest == if ok then m else old(manifest)
      ensures stage == if ok then NextFile(m, 0) else Failed
    {
      if m.version != PROTOCOL_VERSION {
        return false;
      }
      var names := {};
      for i := 0 to |m.files|
        invariant manifest == old(manifest) && stage == Failed
        invariant names == set j | 0 <= j < i :: m.files[j].name
        invariant forall j :: 0 <= j < i ==> ValidName(m.files[j].name)
        invariant Distinct(m.files[..i])
      {
        var name := m.files[i].name;
        if !ValidName(name) {
          return false;
        }
        if name in names {
          ghost var j :| 0 <= j < i && m.files[j].name == name;
          return false;
        }
        names := names + {name};
      }
      assert m.files[..|m.files|] == m.files;
      manifest := m;
      stage := NextFile(m, 0);
      ok := true;
    }

    method StartFile(index: nat, name: Bytes, fault: Option<nat>) returns (ok: bool)
      requires stage.Failed? && index < |manifest.files|
      modifies this`stage, target
      ensures State() == Started(old(State()), index, name, fault)
      ensures ok == !stage.Failed?
    {
      if name != manifest.files[index].name {
        return false;
      }
      if fault.Some? {
        if fault.value > 0 {
          target.files := target.files[name := []];
        }
        return false;
      }
      target.files := target.files[name := []];
      stage := InFile(index, ONES, 0);
      ok := true;
    }

    method WriteChunk(index: nat, digest: bv64, written: nat, data: Bytes, fault: Option<nat>) returns (ok: bool)
      requires stage.Failed? && index < |manifest.files| && manifest.files[index].name in target.files
      modifies this`stage, target
      ensures State() == Appended(old(State()).(stage := InFile(index, digest, written)), data, fault)
      ensures ok == !stage.Failed?
    {
      if data == [] {
        return false;
      }
      if |data| > MAX_CHUNK_SIZE {
        return false;
      }
      var ManifestEntry(name, size) := manifest.files[index];
      var total := written + |data|;
      if total > size {
        return false;
      }
      if fault.Some? {
        target.files := target.files[name := target.files[name] + data[..Min(fault.value, |data|)]];
        return false;
      }
      target.files := target.files[name := target.files[name] + data];
      stage := InFile(index, Update(digest, data), total);
      ok := true;
    }

    method FinishFile(index: nat, digest: bv64, written: nat, checksum: bv64, fault: Option<nat>) returns (ok: bool)
      requires stage.Failed? && index < |manifest.files| && manifest.files[index].name in target.files
      modifies this`stage
      ensures State() == Closed(old(State()).(stage := InFile(index, digest, written)), checksum, fault)
      ensures ok == !stage.Failed?
    {
      if written != manifest.files[index].size {
        return false;
      }
      if Finalize(digest) != checksum {
        return false;
      }
      if fault.Some? {
        return false;
      }
      stage := NextFile(manifest, index + 1);
      ok := true;
    }
  }
}
