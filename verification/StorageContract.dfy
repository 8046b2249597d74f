/**
 * What the engine may rely on: log writes become durable in submission order, a crash keeps a prefix that covers
 * everything durable, and only durable writes are ever reported.
 */
module StorageContract {
  /** One submitted write; the token tells submissions apart. */
  datatype Submission<W> = Submission(token: nat, write: W)

  /** The writes that survive so far, how many of them are durable, and the tokens reported durable. */
  datatype Contract<W> = Contract(history: seq<Submission<W>>, durable: nat, told: set<nat>)

  function Untouched<W>(): Contract<W> {
    Contract([], 0, {})
  }

  function Writes<W>(history: seq<Submission<W>>): seq<W> {
    seq(|history|, i requires 0 <= i < |history| => history[i].write)
  }

  ghost predicate DurableAt<W>(c: Contract<W>, i: int, token: nat) {
    0 <= i < c.durable <= |c.history| && c.history[i].token == token
  }

  ghost predicate IsDurable<W>(c: Contract<W>, token: nat) {
    exists i :: DurableAt(c, i, token)
  }

  ghost predicate WellFormed<W>(c: Contract<W>) {
    c.durable <= |c.history| && forall token :: token in c.told ==> IsDurable(c, token)
  }

  /** Writes are submitted, some become durable, and some durable ones are reported. */
  ghost predicate Work<W>(c: Contract<W>, d: Contract<W>) {
    && c.history <= d.history
    && c.durable <= d.durable <= |d.history|
    && c.told <= d.told
    && forall token :: token in d.told ==> token in c.told || IsDurable(d, token)
  }

  /** A crash keeps the first `kept` writes, among them every durable one. */
  ghost predicate CrashKeeps<W>(c: Contract<W>, d: Contract<W>, kept: int) {
    c.durable <= kept <= |c.history| && d == Contract(c.history[..kept], kept, c.told)
  }

  ghost predicate Next<W>(c: Contract<W>, d: Contract<W>) {
    Work(c, d) || exists kept :: CrashKeeps(c, d, kept)
  }

  ghost predicate IsRun<W>(run: seq<Contract<W>>) {
    |run| > 0 && WellFormed(run[0]) && forall i :: 0 < i < |run| ==> Next(run[i - 1], run[i])
  }

  lemma NextKeepsDurable<W>(c: Contract<W>, d: Contract<W>)
    requires WellFormed(c) && Next(c, d)
    ensures WellFormed(d)
    ensures c.durable <= d.durable && d.history[..c.durable] == c.history[..c.durable]
    ensures c.told <= d.told
  {
    forall token | token in d.told
      ensures IsDurable(d, token)
    {
      if token in c.told {
        var i :| DurableAt(c, i, token);
        assert DurableAt(d, i, token);
      }
    }
  }

  /** In every run, a reported write and all writes before it stay where they are, durable. */
  lemma {:induction false} ReportedStaysDurable<W>(run: seq<Contract<W>>, token: nat)
    requires IsRun(run) && token in run[0].told
    ensures exists i ::
              && DurableAt(run[0], i, token)
              && DurableAt(run[|run| - 1], i, token)
              && run[|run| - 1].history[..i + 1] == run[0].history[..i + 1]
  {
    DurablePrefixGrows(run);
    var i :| DurableAt(run[0], i, token);
    var first, last := run[0], run[|run| - 1];
    assert last.history[..first.durable][..i + 1] == last.history[..i + 1];
    assert first.history[..first.durable][..i + 1] == first.history[..i + 1];
    assert last.history[..i + 1][i] == first.history[..i + 1][i];
    assert DurableAt(last, i, token);
  }

  lemma {:induction false} DurablePrefixGrows<W>(run: seq<Contract<W>>)
    requires IsRun(run)
    ensures forall i :: 0 <= i < |run| ==> WellFormed(run[i])
    ensures run[0].durable <= run[|run| - 1].durable <= |run[|run| - 1].history|
    ensures run[|run| - 1].history[..run[0].durable] == run[0].history[..run[0].durable]
  {
    var n := |run| - 1;
    if n > 0 {
      var before := run[..n];
      DurablePrefixGrows(before);
      var mid := before[n - 1];
      assert mid == run[n - 1] && before[0] == run[0];
      NextKeepsDurable(mid, run[n]);
      assert run[n].history[..run[0].durable] == run[n].history[..mid.durable][..run[0].durable];
      assert mid.history[..run[0].durable] == mid.history[..mid.durable][..run[0].durable];
      assert forall i :: 0 <= i < n ==> run[i] == before[i];
    }
  }
}
