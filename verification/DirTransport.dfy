/** Driving a transfer over a transport. */
module DirTransports {
  import opened RaftTypes
  import opened DirFrames
  import opened DirTransfers
  import P = FrameProducers
  import W = DirWriters
  import R = DirWriterRuns

  /** An in-order transport; with `capacity` set, the peer goes away after that many more frames. */
  class QueueTransport {
    var frames: seq<Frame>
    var capacity: Option<nat>

    constructor (frames: seq<Frame>, capacity: Option<nat>)
      ensures this.frames == frames && this.capacity == capacity
    {
      this.frames := frames;
      this.capacity := capacity;
    }

    method SendFrame(frame: Frame) returns (ok: bool)
      modifies this
      ensures ok == (old(capacity) != Some(0))
      ensures frames == if ok then old(frames) + [frame] else old(frames)
      ensures capacity == if ok && old(capacity).Some? then Some(old(capacity).value - 1) else old(capacity)
    {
      if capacity == Some(0) {
        return false;
      }
      if capacity.Some? {
        capacity := Some(capacity.value - 1);
      }
      frames := frames + [frame];
      ok := true;
    }

    method RecvFrame() returns (frame: Option<Frame>)
      modifies this`frames
      ensures frame == if old(frames) == [] then None else Some(old(frames)[0])
      ensures frames == if old(frames) == [] then [] else old(frames)[1..]
    {
      if frames == [] {
        return None;
      }
      frame := Some(frames[0]);
      frames := frames[1..];
    }
  }

  /** How many of `n` frames a transport takes. */
  function Taken(n: nat, capacity: Option<nat>): nat {
    match capacity
    case None => n
    case Some(c) => if c < n then c else n
  }

  lemma DrainStep(p: P.Producer, dir: Dir)
    requires P.WellFormed(p)
    ensures var r := P.Next(p, dir);
            match r.frame
            case None => Drain(p, dir) == Drained([], r.ok)
            case Some(f) =>
              && Fuel(r.next) < Fuel(p)
              && Drain(p, dir) == Drained([f] + Drain(r.next, dir).frames, Drain(r.next, dir).ok)
  {
    FramesRunOut(p, dir);
  }

  /**
    * Sends the producer's frames in order, as far as the transport takes them; succeeds exactly when the
    * stream came to its end and all of it was taken.
    */
  method SendDir(producer: P.DirFrameProducer, sink: QueueTransport) returns (ok: bool)
    requires P.WellFormed(producer.State())
    modifies producer, sink
    ensures var sent := Drain(old(producer.State()), producer.dir.files);
            var taken := Taken(|sent.frames|, old(sink.capacity));
            && sink.frames == old(sink.frames) + sent.frames[..taken]
            && (ok <==> sent.ok && taken == |sent.frames|)
  {
    hide P.Next, Drain, Fuel, P.WellFormed;
    ghost var dir := producer.dir.files;
    ghost var all := Drain(producer.State(), dir);
    ghost var done: nat := 0;
    while true
      invariant producer.dir.files == dir && P.WellFormed(producer.State())
      invariant done <= |all.frames| && Drain(producer.State(), dir) == Drained(all.frames[done..], all.ok)
      invariant sink.frames == old(sink.frames) + all.frames[..done]
      invariant match old(sink.capacity)
                case None => sink.capacity == None
                case Some(c) => done <= c && sink.capacity == Some(c - done)
      decreases Fuel(producer.State())
    {
      ghost var was := producer.State();
      DrainStep(was, dir);
      var frame, good := producer.NextFrame();
      if frame.None? {
        return good;
      }
      assert all.frames[done] == all.frames[done..][0] == frame.value;
      assert all.frames[done + 1..] == all.frames[done..][1..] == Drain(producer.State(), dir).frames;
      var taken := sink.SendFrame(frame.value);
      if !taken {
        return false;
      }
      assert all.frames[..done] + [all.frames[done]] == all.frames[..done + 1];
      done := done + 1;
    }
  }

  // Receiving.

  datatype Reception = Reception(writer: W.Writer, taken: nat, ok: bool)

  /** Take frames until the end frame, the first refusal or the end of the input. */
  function Receive(w: W.Writer, ds: seq<W.Delivery>): (r: Reception)
    requires W.WellFormed(w)
    ensures r.taken <= |ds|
    decreases |ds|
  {
    if ds == [] then Reception(w, 0, false)
    else
      var next := W.Written(w, ds[0].frame, ds[0].fault);
      if next.stage.Failed? || ds[0].frame.End? then Reception(next, 1, next.stage.Done?)
      else
        var rest := Receive(next, ds[1..]);
        rest.(taken := rest.taken + 1)
  }

  function Deliveries(frames: seq<Frame>, faults: seq<Option<nat>>): (r: seq<W.Delivery>)
    requires |frames| <= |faults|
    ensures |r| == |frames|
  {
    seq(|frames|, i requires 0 <= i < |frames| => W.Delivery(frames[i], faults[i]))
  }

  /** `faults` says, frame by frame, what the disk will do; `syncFails` whether the final synchronisation fails. */
  method RecvDir(source: QueueTransport, writer: W.DirWriter, faults: seq<Option<nat>>, syncFails: bool)
    returns (ok: bool)
    requires W.WellFormed(writer.State()) && |source.frames| <= |faults|
    modifies source, writer, writer.target
    ensures var r := Receive(old(writer.State()), old(Deliveries(source.frames, faults)));
            && writer.State() == r.writer
            && source.frames == old(source.frames)[r.taken..]
            && (ok <==> r.ok && !syncFails)
  {
    ghost var start := source.frames;
    ghost var ds := Deliveries(start, faults);
    ghost var all := Receive(writer.State(), ds);
    var n: nat := 0;
    while true
      invariant n <= |start| && source.frames == start[n..] && W.WellFormed(writer.State())
      invariant var r := Receive(writer.State(), ds[n..]); all == r.(taken := r.taken + n)
      decreases |start| - n
    {
      var frame := source.RecvFrame();
      if frame.None? {
        return false;
      }
      assert ds[n..][0] == W.Delivery(frame.value, faults[n]);
      assert ds[n..][1..] == ds[n + 1..];
      var good := writer.WriteFrame(frame.value, faults[n]);
      if !good {
        return false;
      }
      n := n + 1;
      if frame.value.End? {
        ok := writer.Finish(syncFails);
        return;
      }
    }
  }

  lemma EndEndsIt(w: W.Writer, d: W.Delivery)
    requires W.WellFormed(w) && !w.stage.Done?
    ensures var next := W.Written(w, d.frame, d.fault);
            && (next.stage.Done? ==> d.frame.End?)
            && (d.frame.End? ==> next.stage.Done? || next.stage.Failed?)
  {
  }

  lemma AfterTheEnd(w: W.Writer, ds: seq<W.Delivery>)
    requires W.WellFormed(w) && (w.stage.Done? || w.stage.Failed?) && R.Feed(w, ds).stage.Done?
    ensures ds == []
  {
    if ds != [] {
      assert ds == [ds[0]] + ds[1..];
      R.FeedInParts(w, [ds[0]], ds[1..]);
      R.FeedOne(w, ds[0]);
      R.RefusalIsFinal(W.Written(w, ds[0].frame, ds[0].fault), ds[1..]);
    }
  }

  lemma {:induction false} ReceiveIsFeed(w: W.Writer, ds: seq<W.Delivery>)
    requires W.WellFormed(w) && !w.stage.Done?
    ensures var r := Receive(w, ds);
            r.writer == R.Feed(w, ds[..r.taken]) && (r.ok <==> r.writer.stage.Done?)
    decreases |ds|
  {
    hide W.Written;
    if ds != [] {
      EndEndsIt(w, ds[0]);
      var next := W.Written(w, ds[0].frame, ds[0].fault);
      var r := Receive(w, ds);
      R.FeedOne(w, ds[0]);
      if next.stage.Failed? || ds[0].frame.End? {
        assert ds[..1] == [ds[0]];
      } else {
        ReceiveIsFeed(next, ds[1..]);
        R.FeedInParts(w, [ds[0]], ds[1..][..r.taken - 1]);
        assert ds[..r.taken] == [ds[0]] + ds[1..][..r.taken - 1];
      }
    }
  }

  lemma {:induction false} ReceiveFindsTheEnd(w: W.Writer, ds: seq<W.Delivery>, k: nat)
    requires W.WellFormed(w) && !w.stage.Done? && k <= |ds| && R.Feed(w, ds[..k]).stage.Done?
    ensures Receive(w, ds).ok && Receive(w, ds).taken == k
    decreases k
  {
    hide W.Written;
    assert ds[..0] == [];
    if k > 0 {
      EndEndsIt(w, ds[0]);
      var next := W.Written(w, ds[0].frame, ds[0].fault);
      R.FeedOne(w, ds[0]);
      assert ds[..k] == [ds[0]] + ds[1..][..k - 1];
      R.FeedInParts(w, [ds[0]], ds[1..][..k - 1]);
      if next.stage.Failed? || next.stage.Done? {
        AfterTheEnd(next, ds[1..][..k - 1]);
      } else {
        ReceiveFindsTheEnd(next, ds[1..], k - 1);
      }
    }
  }

  /**
    * Receiving succeeds exactly when the input begins with a valid stream (and the disk works); it takes that
    * stream off the transport and not one frame more, and builds the directory the stream describes.
    */
  lemma ReceivesExactlyOneStream(ds: seq<W.Delivery>)
    ensures Receive(W.NEW_WRITER, ds).ok <==>
              exists k: nat :: k <= |ds| && IsStream(R.FramesOf(ds[..k])) && R.DiskWorked(ds[..k])
    ensures forall k: nat :: k <= |ds| && IsStream(R.FramesOf(ds[..k])) && R.DiskWorked(ds[..k]) ==>
              Receive(W.NEW_WRITER, ds).taken == k && Receive(W.NEW_WRITER, ds).writer == R.Feed(W.NEW_WRITER, ds[..k])
  {
    hide R.Feed, R.FramesOf, R.DiskWorked, IsStream, Receive;
    var r := Receive(W.NEW_WRITER, ds);
    ReceiveIsFeed(W.NEW_WRITER, ds);
    R.AcceptsExactlyTheStreams(ds[..r.taken]);
    forall k: nat | k <= |ds| && IsStream(R.FramesOf(ds[..k])) && R.DiskWorked(ds[..k])
      ensures r.ok && r.taken == k
    {
      R.AcceptsExactlyTheStreams(ds[..k]);
      ReceiveFindsTheEnd(W.NEW_WRITER, ds, k);
    }
  }

  /**
    * Over a transport that carries further traffic, the receiver rebuilds the sender's directory and leaves the rest.
    */
  lemma SessionRoundTrip(listing: seq<P.DirEntry>, dir: Dir, chunkSize: nat, later: seq<W.Delivery>)
    requires Lists(listing, dir) && 1 <= chunkSize <= MAX_CHUNK_SIZE
    ensures P.Opened(listing, chunkSize).Some?
    ensures var sent := Drain(P.Opened(listing, chunkSize).value, dir);
            var r := Receive(W.NEW_WRITER, Clean(sent.frames) + later);
            && sent.ok && r.ok
            && r.writer.dir == dir
            && (Clean(sent.frames) + later)[r.taken..] == later
  {
    hide Lists, Drain, R.Feed, Receive;
    TransferCopiesDirectory(listing, dir, chunkSize);
    var ds := Clean(Drain(P.Opened(listing, chunkSize).value, dir).frames);
    var all := ds + later;
    assert all[..|ds|] == ds && all[|ds|..] == later;
    ReceiveFindsTheEnd(W.NEW_WRITER, all, |ds|);
    ReceiveIsFeed(W.NEW_WRITER, all);
  }
}
