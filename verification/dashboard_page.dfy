/** The Dashboard page: the administrator's counters and recent elections,
    and the voter's lists of available and upcoming elections. All of it is
    computed from the stored status of each election. */
module DashboardPage {
  import opened Seqs
  import opened DataService

  /** `elections.filter(e => e.status === status)`, in stored order. */
  function WithStatus(es: seq<Election>, status: ElectionStatus): (r: seq<Election>)
    ensures forall i :: 0 <= i < |r| ==> r[i] in es && r[i].status == status
    ensures forall i :: 0 <= i < |es| && es[i].status == status ==> es[i] in r
  {
    Filter(es, (e: Election) => e.status == status)
  }

  /** Each election is counted under exactly one status. */
  lemma {:induction false} StatusCountsPartition(es: seq<Election>)
    ensures |WithStatus(es, Upcoming)| + |WithStatus(es, ElectionStatus.Active)| + |WithStatus(es, Completed)| == |es|
  {
    if es != [] {
      StatusCountsPartition(es[1..]);
    }
  }

  /** Filtering by status keeps stored order. */
  lemma WithStatusKeepsOrder(a: seq<Election>, b: seq<Election>, status: ElectionStatus)
    ensures WithStatus(a + b, status) == WithStatus(a, status) + WithStatus(b, status)
  {
    FilterAppend(a, b, (e: Election) => e.status == status);
  }

  /** The three counters on the administrator's dashboard. */
  datatype Counters = Counters(total: nat, active: nat, upcoming: nat)

  function AdminCounters(es: seq<Election>): (r: Counters)
    ensures r.total == |es|
    ensures r.active == |WithStatus(es, ElectionStatus.Active)|
    ensures r.upcoming == |WithStatus(es, Upcoming)|
    ensures r.active + r.upcoming == r.total - |WithStatus(es, Completed)|
  {
    StatusCountsPartition(es);
    Counters(|es|, |WithStatus(es, ElectionStatus.Active)|, |WithStatus(es, Upcoming)|)
  }

  /** "Recent Elections": `elections.slice(0, 3)`. */
  function Recent(es: seq<Election>): (r: seq<Election>)
    ensures |r| == if |es| < 3 then |es| else 3
    ensures r == es[..|r|]
  {
    es[..if |es| < 3 then |es| else 3]
  }

  /** "Recent" shows the first elections stored: once there are three, a newly
      created election (appended at the end) never appears there. */
  lemma RecentIgnoresNewElections(es: seq<Election>, e: Election)
    requires |es| >= 3
    ensures Recent(es + [e]) == Recent(es)
  {
    assert (es + [e])[..3] == es[..3];
  }

  /** The voter's "Available Elections". */
  function Available(es: seq<Election>): (r: seq<Election>)
    ensures forall i :: 0 <= i < |r| ==> r[i] in es && r[i].status == ElectionStatus.Active
    ensures forall i :: 0 <= i < |es| && es[i].status == ElectionStatus.Active ==> es[i] in r
  {
    WithStatus(es, ElectionStatus.Active)
  }

  /** The voter's "Upcoming Elections". */
  function UpcomingList(es: seq<Election>): (r: seq<Election>)
    ensures forall i :: 0 <= i < |r| ==> r[i] in es && r[i].status == Upcoming
    ensures forall i :: 0 <= i < |es| && es[i].status == Upcoming ==> es[i] in r
  {
    WithStatus(es, Upcoming)
  }

  /** No election is in both voter lists, and completed ones are in neither. */
  lemma VoterListsSeparate(es: seq<Election>)
    ensures forall e :: e in Available(es) ==> e !in UpcomingList(es)
    ensures forall i :: 0 <= i < |es| && es[i].status == Completed ==>
      es[i] !in Available(es) && es[i] !in UpcomingList(es)
  {
    var av, up := Available(es), UpcomingList(es);
    assert forall e :: e in av ==> e.status == ElectionStatus.Active by {
      forall e | e in av ensures e.status == ElectionStatus.Active {
        var i :| 0 <= i < |av| && av[i] == e;
      }
    }
    assert forall e :: e in up ==> e.status == Upcoming by {
      forall e | e in up ensures e.status == Upcoming {
        var i :| 0 <= i < |up| && up[i] == e;
      }
    }
  }
}
