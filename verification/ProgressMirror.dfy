/**
 The throttled mirror of a download's progress: every tick of a transfer is
 reported to the caller, but only some are written to the ledger on disk.
 */
module ProgressMirror {
  import opened Runs
  import opened Wrappers

  const STEP: nat := 8 * 1024 * 1024

  datatype Tick = Tick(downloaded: nat, total: Option<nat>)

  /** What the ledger shows, what was seen last, and how often the ledger was written. */
  datatype Mirror = Mirror(written: nat, total: Option<nat>, seen: Tick, writes: nat)

  const FRESH: Mirror := Mirror(0, None, Tick(0, None), 0)

  /** Progress went back, as when a fallback starts over, or the announced size changed. */
  predicate Resets(m: Mirror, t: Tick) {
    t.downloaded < m.written || t.total != m.total
  }

  function Advance(m: Mirror, t: Tick): Mirror {
    if Resets(m, t) || t.downloaded >= m.written + STEP
    then Mirror(t.downloaded, t.total, t, m.writes + 1)
    else m.(seen := t)
  }

  class LedgerProgress {
    var lastWritten: nat
    var lastTotal: Option<nat>
    var lastSeen: Tick
    var ledger: seq<Tick>   // the progress rows written for this transfer
    var reported: seq<Tick> // the calls of the caller's own progress callback

    function State(): Mirror
      reads this
    {
      Mirror(lastWritten, lastTotal, lastSeen, |ledger|)
    }

    /** The last ledger row is what the mirror takes the ledger to show. */
    predicate Valid()
      reads this
    {
      if ledger == [] then lastWritten == 0 && lastTotal == None
      else ledger[|ledger| - 1] == Tick(lastWritten, lastTotal)
    }

    constructor ()
      ensures Valid() && State() == FRESH && reported == []
    {
      lastWritten, lastTotal, lastSeen, ledger, reported := 0, None, Tick(0, None), [], [];
    }

    method OnProgress(downloaded: nat, total: Option<nat>)
      requires Valid()
      modifies this
      ensures Valid()
      ensures State() == Advance(old(State()), Tick(downloaded, total))
      ensures lastTotal == total && lastWritten <= downloaded < lastWritten + STEP
      ensures reported == old(reported) + [Tick(downloaded, total)]
      ensures old(ledger) <= ledger
    {
      lastSeen := Tick(downloaded, total);
      var regressed := downloaded < lastWritten;
      var totalChanged := total != lastTotal;
      var ahead := if downloaded < lastWritten then 0 else downloaded - lastWritten;
      if regressed || totalChanged || ahead >= STEP {
        lastWritten := downloaded;
        lastTotal := total;
        ledger := ledger + [Tick(downloaded, total)];
      }
      reported := reported + [Tick(downloaded, total)];
    }
  }

  /** The ticks that found the progress behind the ledger or a new size. */
  function ResetCount(m: Mirror, ticks: seq<Tick>): nat {
    if ticks == [] then 0
    else
      var front := ticks[..|ticks| - 1];
      ResetCount(m, front) + (if Resets(Run(Advance, m, front), ticks[|ticks| - 1]) then 1 else 0)
  }

  /** The bytes that went by, counting again what is fetched again. */
  function Forward(from: nat, ticks: seq<Tick>): nat {
    if ticks == [] then 0
    else
      var front := ticks[..|ticks| - 1];
      var before := if front == [] then from else front[|front| - 1].downloaded;
      var now := ticks[|ticks| - 1].downloaded;
      Forward(from, front) + (if now > before then now - before else 0)
  }

  /** Writes that are not resets are paid for by bytes; the credit is what the ledger lags behind. */
  lemma {:induction false} WritesArePaid(ticks: seq<Tick>)
    ensures var m := Run(Advance, FRESH, ticks);
      && m.written <= m.seen.downloaded
      && m.seen.downloaded == (if ticks == [] then 0 else ticks[|ticks| - 1].downloaded)
      && STEP * m.writes + (m.seen.downloaded - m.written) <= STEP * ResetCount(FRESH, ticks) + Forward(0, ticks)
  {
    if ticks != [] {
      WritesArePaid(ticks[..|ticks| - 1]);
    }
  }

  /** The amortised bound, for any progress: one write per reset and one per step of bytes. */
  lemma WriteBound(ticks: seq<Tick>)
    ensures Run(Advance, FRESH, ticks).writes <= ResetCount(FRESH, ticks) + Forward(0, ticks) / STEP
  {
    WritesArePaid(ticks);
    InSteps(Run(Advance, FRESH, ticks).writes, ResetCount(FRESH, ticks), Forward(0, ticks));
  }

  lemma InSteps(writes: nat, resets: nat, bytes: nat)
    requires STEP * writes <= STEP * resets + bytes
    ensures writes <= resets + bytes / STEP
  {
    var q, rest := bytes / STEP, bytes % STEP;
    assert bytes == STEP * q + rest && rest < STEP;
    assert STEP * writes < STEP * (resets + q + 1);
  }

  predicate Steady(ticks: seq<Tick>, total: Option<nat>) {
    && (forall i :: 0 <= i < |ticks| ==> ticks[i].total == total)
    && (forall i :: 0 < i < |ticks| ==> ticks[i - 1].downloaded <= ticks[i].downloaded)
  }

  lemma {:induction false} SteadyResets(ticks: seq<Tick>, total: Option<nat>)
    requires Steady(ticks, total)
    ensures ResetCount(FRESH, ticks) <= if total == None then 0 else 1
    ensures ticks != [] ==> Run(Advance, FRESH, ticks).total == total
    ensures ticks == [] ==> ResetCount(FRESH, ticks) == 0
    ensures Run(Advance, FRESH, ticks).written <= (if ticks == [] then 0 else ticks[|ticks| - 1].downloaded)
    ensures Forward(0, ticks) == if ticks == [] then 0 else ticks[|ticks| - 1].downloaded
  {
    if ticks != [] {
      var front := ticks[..|ticks| - 1];
      SteadyResets(front, total);
      if front != [] {
        assert ticks[|ticks| - 2].downloaded <= ticks[|ticks| - 1].downloaded;
      }
    }
  }

  /** A transfer that only grows and keeps its announced size: at most one write and one per step. */
  lemma SteadyWriteBound(ticks: seq<Tick>, total: Option<nat>)
    requires ticks != [] && Steady(ticks, total)
    ensures Run(Advance, FRESH, ticks).writes <= 1 + ticks[|ticks| - 1].downloaded / STEP
  {
    SteadyResets(ticks, total);
    WriteBound(ticks);
  }
}
