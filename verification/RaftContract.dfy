/**
  * The disk of a Raft node under the storage contract: submitting, waiting for a write, the progress of the disk and a
  * crash are each a step of the contract, on the same writes.
  */
module RaftContract {
  import opened RaftStorage
  import opened RaftEngine
  import opened StorageContract

  /** The disk is made of the durable writes, on top of `base`; the other writes are pending. */
  ghost predicate Mirrors(c: Contract<Write>, base: Disk, st: Store) {
    && c.durable <= |c.history|
    && st.disk == Replayed(base, Writes(c.history)[..c.durable])
    && st.pending == Writes(c.history)[c.durable..]
  }

  lemma {:induction false} ReplayedConcat(disk: Disk, a: seq<Write>, b: seq<Write>)
    ensures Replayed(Replayed(disk, a), b) == Replayed(disk, a + b)
  {
    hide Written;
    if b == [] {
      assert a + b == a;
    } else {
      var n := |b| - 1;
      ReplayedConcat(disk, a, b[..n]);
      assert a + b == a + b[..n] + [b[n]];
      ReplayedSnoc(disk, a + b[..n], b[n]);
    }
  }

  /** The contract after one more write was submitted. */
  function WithWrite(c: Contract<Write>, token: nat, w: Write): Contract<Write> {
    c.(history := c.history + [Submission(token, w)])
  }

  lemma SubmitIsWork(c: Contract<Write>, base: Disk, st: Store, token: nat, w: Write)
    requires Mirrors(c, base, st)
    ensures Work(c, WithWrite(c, token, w)) && Mirrors(WithWrite(c, token, w), base, Submitted(st, w))
  {
    hide Replayed;
    var all := Writes(WithWrite(c, token, w).history);
    assert all == Writes(c.history) + [w];
    assert all[..c.durable] == Writes(c.history)[..c.durable];
    assert all[c.durable..] == Writes(c.history)[c.durable..] + [w];
  }

  lemma PersistIsWork(c: Contract<Write>, base: Disk, st: Store)
    requires Mirrors(c, base, st) && st.pending != []
    ensures Work(c, c.(durable := c.durable + 1)) && Mirrors(c.(durable := c.durable + 1), base, Persisted(st))
  {
    hide Written, IoOf, Accepted, Replayed;
    var all, k := Writes(c.history), c.durable;
    ReplayedSnoc(base, all[..k], all[k]);
    assert all[..k + 1] == all[..k] + [all[k]];
    assert st.pending[0] == all[k] && st.pending[1..] == all[k + 1..];
  }

  /** Waiting for a write makes it durable, and all before it. */
  lemma SyncIsWork(c: Contract<Write>, base: Disk, st: Store, token: nat, w: Write)
    requires Mirrors(c, base, st)
    ensures var d := WithWrite(c, token, w).(durable := |c.history| + 1);
            Work(c, d) && Mirrors(d, base, Synced(st, w))
  {
    hide Replayed, Installed;
    SubmitIsWork(c, base, st, token, w);
    var all := Writes(WithWrite(c, token, w).history);
    ReplayedConcat(base, all[..c.durable], all[c.durable..]);
    assert all[..c.durable] + all[c.durable..] == all == all[..|all|];
  }

  /** A crash of the node may keep exactly what the contract lets a crash keep, and that is what startup finds. */
  lemma CrashKeepsAsContract(c: Contract<Write>, base: Disk, n: Node, kept: int)
    requires Mirrors(c, base, n.store)
    ensures (exists d :: CrashKeeps(c, d, kept)) <==> 0 <= kept - c.durable <= |n.store.pending|
    ensures forall d :: CrashKeeps(c, d, kept) ==>
              Mirrors(d, base, n.store.(disk := Kept(n, kept - c.durable), pending := []))
  {
    hide Replayed;
    if c.durable <= kept <= |c.history| {
      assert CrashKeeps(c, Contract(c.history[..kept], kept, c.told), kept);
      var k := kept - c.durable;
      var all := Writes(c.history);
      assert Writes(c.history[..kept]) == all[..kept];
      assert all[..c.durable] + all[c.durable..][..k] == all[..kept];
      ReplayedConcat(base, all[..c.durable], all[c.durable..][..k]);
      assert all[..kept][..kept] == all[..kept] && all[..kept][kept..] == [];
    }
  }
}
