/**
 * The mission state machine: PENDING -> ACCEPTED -> IN_PROGRESS -> COMPLETED,
 * with CANCELLED reachable from every status but COMPLETED (an already
 * cancelled mission can be cancelled again). COMPLETED and CANCELLED are
 * never left.
 */
module Lifecycle {
  import opened Records

  predicate Terminal(s: MissionStatus) {
    s == Completed || s == Cancelled
  }

  /** A pending mission has no provider; an accepted, started or completed one has one. */
  predicate AssignmentMatchesStatus(m: Mission) {
    && (m.status == Pending ==> m.providerId.None?)
    && (m.status == Accepted || m.status == InProgress || m.status == Completed ==> m.providerId.Some?)
  }

  /** One transition a service can make: accept, start, complete or cancel. */
  predicate Step(a: MissionStatus, b: MissionStatus) {
    || (a == Pending && b == Accepted)
    || (a == Accepted && b == InProgress)
    || (a == InProgress && b == Completed)
    || (a != Completed && b == Cancelled)
  }

  function Rank(s: MissionStatus): nat {
    match s
    case Pending => 0
    case Accepted => 1
    case InProgress => 2
    case Completed => 3
    case Cancelled => 4
  }

  /** The statuses a mission in status a can reach, stated without runs. */
  predicate Reachable(a: MissionStatus, b: MissionStatus) {
    || a == b
    || (b == Cancelled && a != Completed)
    || (a != Cancelled && b != Cancelled && Rank(a) <= Rank(b))
  }

  /** A run of the state machine: consecutive statuses are single steps. */
  predicate IsRun(p: seq<MissionStatus>) {
    |p| >= 1 && forall i :: 0 <= i < |p| - 1 ==> Step(p[i], p[i + 1])
  }

  /** Every run ends in a status Reachable from its start. */
  lemma {:induction false} RunEndsReachable(p: seq<MissionStatus>)
    requires IsRun(p)
    ensures Reachable(p[0], p[|p| - 1])
  {
    if |p| > 1 {
      var q := p[..|p| - 1];
      assert IsRun(q) by {
        forall i | 0 <= i < |q| - 1 ensures Step(q[i], q[i + 1]) {
          assert q[i] == p[i] && q[i + 1] == p[i + 1];
        }
      }
      RunEndsReachable(q);
      assert Step(p[|p| - 2], p[|p| - 1]);
    }
  }

  /** Every Reachable status is the end of some run, so Reachable is exactly what the transitions allow. */
  lemma ReachableHasRun(a: MissionStatus, b: MissionStatus)
    requires Reachable(a, b)
    ensures exists p :: IsRun(p) && p[0] == a && p[|p| - 1] == b
  {
    var p: seq<MissionStatus>;
    if a == b {
      p := [a];
    } else if b == Cancelled {
      p := [a, b];
    } else if a == Pending && b == Accepted {
      p := [Pending, Accepted];
    } else if a == Pending && b == InProgress {
      p := [Pending, Accepted, InProgress];
    } else if a == Pending {
      p := [Pending, Accepted, InProgress, Completed];
    } else if a == Accepted && b == InProgress {
      p := [Accepted, InProgress];
    } else if a == Accepted {
      p := [Accepted, InProgress, Completed];
    } else {
      p := [InProgress, Completed];
    }
    assert IsRun(p) && p[0] == a && p[|p| - 1] == b;
  }

  /** COMPLETED and CANCELLED are never left. */
  lemma TerminalIsFinal(a: MissionStatus, b: MissionStatus)
    requires Terminal(a) && Reachable(a, b)
    ensures b == a
  {
  }

  lemma ReachableTransitive(a: MissionStatus, b: MissionStatus, c: MissionStatus)
    requires Reachable(a, b) && Reachable(b, c)
    ensures Reachable(a, c)
  {
  }

  /**
   * How one mission record may change between two states of the store:
   * its status moves along the state machine, its client, price and fee
   * split never change, and an assigned provider is kept.
   */
  predicate MissionEvolves(x: Mission, y: Mission) {
    && Reachable(x.status, y.status)
    && y.clientId == x.clientId
    && y.clientPrice == x.clientPrice
    && y.platformFee == x.platformFee
    && y.providerEarning == x.providerEarning
    && (x.providerId.Some? ==> y.providerId == x.providerId)
  }

  /** How the mission table may change: missions are only added, and each one evolves. */
  predicate Evolves(before: seq<Mission>, after: seq<Mission>) {
    && |before| <= |after|
    && forall i :: 0 <= i < |before| ==> MissionEvolves(before[i], after[i])
  }

  /** Evolves composes, so no sequence of operations ever leaves a terminal status. */
  lemma EvolvesTransitive(a: seq<Mission>, b: seq<Mission>, c: seq<Mission>)
    requires Evolves(a, b) && Evolves(b, c)
    ensures Evolves(a, c)
  {
    forall i | 0 <= i < |a| ensures MissionEvolves(a[i], c[i]) {
      assert MissionEvolves(a[i], b[i]) && MissionEvolves(b[i], c[i]);
      ReachableTransitive(a[i].status, b[i].status, c[i].status);
    }
  }

  /** A mission that is completed or cancelled in one state of the table still is, unchanged in status, in any later one. */
  lemma EvolvesKeepsTerminal(before: seq<Mission>, after: seq<Mission>, i: nat)
    requires Evolves(before, after) && i < |before| && Terminal(before[i].status)
    ensures after[i].status == before[i].status
  {
    assert MissionEvolves(before[i], after[i]);
    TerminalIsFinal(before[i].status, after[i].status);
  }
}
