/** The protocol the three worker services share, reduced to what decides whether an attempt runs: the
    high-water sequence number, the attempt in progress and the (ghost) list of attempts ever started.
    PreviewService, PartRenderService and AnalysisService each map their own state onto this one. */
module Ledger {
  import opened Options
  import Sorting

  datatype Ledger = Ledger(highwater: nat, active: Option<nat>, executed: seq<nat>)

  /** A run is accepted: only above the high-water mark, and only when nothing is active. */
  ghost predicate Starts(l: Ledger, l': Ledger) {
    && l.active.None?
    && l'.highwater > l.highwater
    && l'.active == Some(l'.highwater)
    && l'.executed == l.executed + [l'.highwater]
  }

  /** A cancel of a sequence never seen: it can never start any more. */
  ghost predicate Tombstones(l: Ledger, l': Ledger) {
    l'.highwater > l.highwater && l' == l.(highwater := l'.highwater)
  }

  /** The handler of the active run has resumed. */
  ghost predicate Clears(l: Ledger, l': Ledger) {
    l.active.Some? && l' == l.(active := None)
  }

  ghost predicate Next(l: Ledger, l': Ledger) {
    l' == l || Starts(l, l') || Tombstones(l, l') || Clears(l, l')
  }

  ghost predicate Safe(l: Ledger) {
    && Sorting.Increasing(l.executed)
    && (forall i | 0 <= i < |l.executed| :: l.executed[i] <= l.highwater)
    && (l.active.Some? ==> l.active.value in l.executed)
  }

  /** From l to l': nothing that started is rewritten, attempts start in strictly increasing order (so none twice),
      and whatever starts in between lies above every sequence seen before. */
  ghost predicate Evolves(l: Ledger, l': Ledger) {
    && Safe(l')
    && l.highwater <= l'.highwater
    && l.executed <= l'.executed
    && forall k | |l.executed| <= k < |l'.executed| :: l'.executed[k] > l.highwater
  }

  lemma NextEvolves(l: Ledger, l': Ledger)
    requires Safe(l) && Next(l, l')
    ensures Evolves(l, l')
  {
  }

  lemma EvolvesTransitive(l: Ledger, m: Ledger, n: Ledger)
    requires Evolves(l, m) && Evolves(m, n)
    ensures Evolves(l, n)
  {
  }
}
