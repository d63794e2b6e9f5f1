/** The administrator's Participant Requests page: keeping its list in step
    with the store after a decision, the search box, the actions offered per
    request and the status badge. */
module ParticipantRequestsPage {
  import opened Seqs
  import opened Text
  import opened DataService

  /** `participants.map(p => p.id === id ? updated : p)`. */
  function ReplaceById(ps: seq<Participant>, id: Id, updated: Participant): (r: seq<Participant>)
    ensures |r| == |ps|
  {
    seq(|ps|, i requires 0 <= i < |ps| => if ps[i].id == id then updated else ps[i])
  }

  /** `handleUpdateStatus`: the page's list after the store answered a decision on `id`. */
  function AfterUpdate(ps: seq<Participant>, id: Id, outcome: Result<Participant>): (r: seq<Participant>)
    ensures |r| == |ps|
    ensures outcome.Err? ==> r == ps
    ensures outcome.Ok? ==> forall i :: 0 <= i < |ps| && ps[i].id != id ==> r[i] == ps[i]
    ensures outcome.Ok? ==> forall i :: 0 <= i < |ps| && ps[i].id == id ==> r[i] == outcome.value
  {
    if outcome.Ok? then ReplaceById(ps, id, outcome.value) else ps
  }

  /** A page whose list was a copy of the store's table still shows the
      store's table after a decision, whether the store accepted it or not. */
  lemma PageStaysInSync(table: seq<Participant>, id: Id, status: Decision)
    requires KeysDistinct(table, ParticipantId)
    ensures
      var (table', outcome) := UpdateStatus(table, id, status);
      AfterUpdate(table, id, outcome) == table'
  {
    var (table', outcome) := UpdateStatus(table, id, status);
    if outcome.Ok? {
      var k := IndexOf(table, ParticipantId, id);
      forall i | 0 <= i < |table| && i != k
        ensures table[i].id != id
      {
        if i < k {
          assert ParticipantId(table[i]) != ParticipantId(table[k]);
        } else {
          assert ParticipantId(table[k]) != ParticipantId(table[i]);
        }
      }
    }
  }

  /** The search test: the lower-cased term occurs in the user's name or the election's title. */
  predicate MatchesSearch(p: Participant, term: string) {
    Includes(Lower(p.userName), Lower(term)) || Includes(Lower(p.electionTitle), Lower(term))
  }

  /** `filteredParticipants`: the requests the search term matches, in list order. */
  function SearchRequests(ps: seq<Participant>, term: string): (r: seq<Participant>)
    ensures forall i :: 0 <= i < |r| ==> r[i] in ps && MatchesSearch(r[i], term)
    ensures forall i :: 0 <= i < |ps| && MatchesSearch(ps[i], term) ==> ps[i] in r
  {
    Filter(ps, p => MatchesSearch(p, term))
  }

  /** The search keeps list order. */
  lemma SearchRequestsKeepsOrder(a: seq<Participant>, b: seq<Participant>, term: string)
    ensures SearchRequests(a + b, term) == SearchRequests(a, term) + SearchRequests(b, term)
  {
    FilterAppend(a, b, p => MatchesSearch(p, term));
  }

  /** An empty search term keeps every request. */
  lemma EmptyRequestSearchKeepsAll(ps: seq<Participant>)
    ensures SearchRequests(ps, "") == ps
  {
    forall i | 0 <= i < |ps|
      ensures MatchesSearch(ps[i], "")
    {
      IncludesEmpty(Lower(ps[i].userName));
    }
    FilterKeepsAll(ps, p => MatchesSearch(p, ""));
  }

  datatype Action = Approve | Deny

  /** The buttons shown in a request's Actions cell. */
  function ActionsFor(p: Participant): (r: seq<Action>)
    ensures r != [] <==> p.status == Pending
    ensures r != [] ==> r == [Approve, Deny]
  {
    if p.status == Pending then [Approve, Deny] else []
  }

  /** The status a button asks the store to set. */
  function DecisionOf(a: Action): (d: Decision)
    ensures d == Approved <==> a == Approve
  {
    match a
    case Approve => Approved
    case Deny => Rejected
  }

  datatype BadgeVariant = Default | Destructive | Outline

  /** The status badge's variant. */
  function Badge(s: RequestStatus): (b: BadgeVariant)
    ensures b == Default <==> s == Approved
    ensures b == Destructive <==> s == Rejected
    ensures b == Outline <==> s == Pending
  {
    match s
    case Approved => Default
    case Rejected => Destructive
    case Pending => Outline
  }

  /** Through the page, a request is decided at most once: a button is only
      offered on a pending request, the store then gives it the button's
      status, and the decided request offers no further button. */
  lemma PageDecidesOnlyPending(table: seq<Participant>, k: int, a: Action)
    requires KeysDistinct(table, ParticipantId)
    requires 0 <= k < |table| && a in ActionsFor(table[k])
    ensures table[k].status == Pending
    ensures
      var (table', outcome) := UpdateStatus(table, table[k].id, DecisionOf(a));
      && outcome == Ok(table[k].(status := DecisionOf(a)))
      && table'[k] == outcome.value
      && ActionsFor(table'[k]) == []
  {
    IndexOfDistinct(table, ParticipantId, k);
  }

  /** The store itself does not insist on a pending request: whatever status
      a request has, deciding it again overwrites that status. Only the page's
      buttons prevent that. */
  lemma StoreOverwritesDecision(table: seq<Participant>, k: int, status: Decision)
    requires KeysDistinct(table, ParticipantId)
    requires 0 <= k < |table|
    ensures
      var (table', outcome) := UpdateStatus(table, table[k].id, status);
      && outcome == Ok(table[k].(status := status))
      && table'[k].status == status
  {
    IndexOfDistinct(table, ParticipantId, k);
  }
}
