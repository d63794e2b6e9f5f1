/** The administrator's Elections page: the status an election gets when it
    is created, the form handler that creates it, and the search box. */
module ElectionsPage {
  import opened Seqs
  import opened Text
  import opened DataService
  import DashboardPage

  /** The status given to a new election from its dates and the current time. */
  function DeriveStatus(start: Date, end: Date, now: Date): (r: ElectionStatus)
    ensures r == ElectionStatus.Active <==> start <= now <= end
    ensures r == Completed <==> end < now
    ensures r == Upcoming <==> now < start && now <= end
  {
    if start <= now && end >= now then ElectionStatus.Active
    else if end < now then Completed
    else Upcoming
  }

  /** Position of a status in the order upcoming, active, completed. */
  function Phase(s: ElectionStatus): nat {
    match s
    case Upcoming => 0
    case Active => 1
    case Completed => 2
  }

  /** For a well-formed window, an election is upcoming exactly before its start. */
  lemma UpcomingBeforeStart(start: Date, end: Date, now: Date)
    requires start <= end
    ensures DeriveStatus(start, end, now) == Upcoming <==> now < start
  {
  }

  /** For a well-formed window, a later clock never gives an earlier phase. */
  lemma StatusMonotonic(start: Date, end: Date, now: Date, later: Date)
    requires start <= end && now <= later
    ensures Phase(DeriveStatus(start, end, now)) <= Phase(DeriveStatus(start, end, later))
  {
  }

  /** The status is worked out once, when the election is created, and is
      stored: an election created while running is listed among the active
      ones by every page that reads the stored status, even at a time after
      its end date, when the rule would give `completed`. */
  lemma StatusFixedAtCreation(es: seq<Election>, id: Id, title: string, description: string,
                              start: Date, end: Date, created: Date, later: Date)
    requires start <= created <= end < later
    ensures
      var e := Election(id, title, description, start, end, DeriveStatus(start, end, created));
      && e.status == ElectionStatus.Active
      && e in DashboardPage.Available(es + [e])
      && DeriveStatus(start, end, later) == Completed
  {
    var e := Election(id, title, description, start, end, DeriveStatus(start, end, created));
    assert (es + [e])[|es|] == e;
  }

  /** The search test: the lower-cased term occurs in the lower-cased title or description. */
  predicate MatchesSearch(e: Election, term: string) {
    Includes(Lower(e.title), Lower(term)) || Includes(Lower(e.description), Lower(term))
  }

  /** `filteredElections`: the elections the search term matches, in stored order. */
  function SearchElections(es: seq<Election>, term: string): (r: seq<Election>)
    ensures forall i :: 0 <= i < |r| ==> r[i] in es && MatchesSearch(r[i], term)
    ensures forall i :: 0 <= i < |es| && MatchesSearch(es[i], term) ==> es[i] in r
  {
    Filter(es, e => MatchesSearch(e, term))
  }

  /** The search keeps stored order: searching a concatenation is concatenating the searches. */
  lemma SearchKeepsOrder(a: seq<Election>, b: seq<Election>, term: string)
    ensures SearchElections(a + b, term) == SearchElections(a, term) + SearchElections(b, term)
  {
    FilterAppend(a, b, e => MatchesSearch(e, term));
  }

  /** An empty search term keeps every election. */
  lemma EmptySearchKeepsAll(es: seq<Election>)
    ensures SearchElections(es, "") == es
  {
    forall i | 0 <= i < |es|
      ensures MatchesSearch(es[i], "")
    {
      IncludesEmpty(Lower(es[i].title));
    }
    FilterKeepsAll(es, e => MatchesSearch(e, ""));
  }

  /** Terms that differ only in letter case give the same result. */
  lemma SearchIgnoresTermCase(es: seq<Election>, term: string, other: string)
    requires Lower(term) == Lower(other)
    ensures SearchElections(es, term) == SearchElections(es, other)
  {
    FilterSameTest(es, e => MatchesSearch(e, term), e => MatchesSearch(e, other));
  }

  /** In particular, upper-casing the term changes nothing. */
  lemma SearchUpperTerm(es: seq<Election>, term: string)
    ensures SearchElections(es, Upper(term)) == SearchElections(es, term)
  {
    LowerOfUpper(term);
    SearchIgnoresTermCase(es, Upper(term), term);
  }

  datatype CreateOutcome = MissingDates | Created(election: Election)

  /** The page's state: its copy of the elections list, the search term and the creation form. */
  class Page {
    var elections: seq<Election>
    var searchTerm: string
    var dialogOpen: bool
    var title: string
    var description: string
    var startDate: Option<Date>
    var endDate: Option<Date>

    constructor ()
      ensures elections == [] && searchTerm == "" && !dialogOpen
      ensures title == "" && description == "" && startDate == None && endDate == None
    {
      elections, searchTerm, dialogOpen := [], "", false;
      title, description, startDate, endDate := "", "", None, None;
    }

    /** `fetchElections`: the page takes a copy of the store's elections. */
    method FetchElections(store: Store)
      modifies this`elections
      ensures elections == store.elections
    {
      elections := store.GetElections();
    }

    /** `resetForm`: empties the creation form and touches nothing else. */
    method ResetForm()
      modifies this`title, this`description, this`startDate, this`endDate
      ensures title == "" && description == "" && startDate == None && endDate == None
    {
      title := "";
      description := "";
      startDate := None;
      endDate := None;
    }

    /** `handleCreateElection`: without both dates nothing changes; otherwise the
        election is created in the store with the derived status, appended to
        the page's list, the dialog closes and the form is reset. */
    method HandleCreateElection(store: Store, now: Date, newId: Id) returns (outcome: CreateOutcome)
      requires forall i :: 0 <= i < |store.elections| ==> store.elections[i].id != newId
      modifies this, store`elections
      ensures old(startDate).None? || old(endDate).None? ==>
        outcome == MissingDates && unchanged(this) && store.elections == old(store.elections)
      ensures old(startDate).Some? && old(endDate).Some? ==>
        var e := Election(newId, old(title), old(description), old(startDate).value, old(endDate).value,
                          DeriveStatus(old(startDate).value, old(endDate).value, now));
        && outcome == Created(e)
        && store.elections == old(store.elections) + [e]
        && elections == old(elections) + [e]
        && !dialogOpen && searchTerm == old(searchTerm)
        && title == "" && description == "" && startDate == None && endDate == None
    {
      if startDate.None? || endDate.None? {
        return MissingDates;
      }
      var status := DeriveStatus(startDate.value, endDate.value, now);
      var e := store.CreateElection(ElectionDraft(title, description, startDate.value, endDate.value, status), newId);
      elections := elections + [e];
      dialogOpen := false;
      ResetForm();
      outcome := Created(e);
    }
  }
}
