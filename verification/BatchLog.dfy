/** The log of several batches, one after the other: nothing begins before all earlier batches are over. */
module BatchLog {
  import opened Launcher

  /** Whatever began in an earlier batch than b has ended. */
  ghost predicate Closed(log: seq<Event>, b: nat) {
    forall e :: e in log && e.Begin? && e.batch < b ==> End(e.batch, e.n) in log
  }

  /** Batches do not mix, and no entry begins before the earlier batches are closed. */
  ghost predicate Barrier(log: seq<Event>) {
    log == [] ||
    var front, last := log[..|log| - 1], log[|log| - 1];
    && Barrier(front)
    && (forall e :: e in front ==> e.batch <= last.batch)
    && (last.Begin? ==> Closed(front, last.batch))
  }

  ghost predicate LogShape(log: seq<Event>, k: nat) {
    && Barrier(log)
    && Closed(log, k)
    && forall e :: e in log ==> e.batch <= k
  }

  lemma AppendKeepsShape(log: seq<Event>, e: Event, k: nat)
    requires LogShape(log, k) && e.batch == k
    ensures LogShape(log + [e], k)
  {
    var u := log + [e];
    assert u[..|log|] == log && u[|log|] == e;
    forall f | f in u && f.Begin? && f.batch < k ensures End(f.batch, f.n) in u {
      assert f in log;
    }
  }

  /** A closed log is the log of the next batch, which has not written to it yet. */
  lemma NextShape(log: seq<Event>, k: nat)
    requires LogShape(log, k) && Closed(log, k + 1)
    ensures LogShape(log, k + 1) && forall e :: e in log ==> e.batch != k + 1
  {
  }

  lemma {:induction false} BarrierMeans(log: seq<Event>, q: nat)
    requires Barrier(log) && q < |log| && log[q].Begin?
    ensures Closed(log[..q], log[q].batch)
    ensures forall e :: e in log && e.batch < log[q].batch ==> e in log[..q]
  {
    var front := log[..|log| - 1];
    if q < |front| {
      BarrierMeans(front, q);
      assert front[..q] == log[..q] && front[q] in front;
    } else {
      assert front == log[..q];
    }
  }
}
