/** The in-memory data service: three tables (elections, participation
    requests, users) and the operations over them. Each operation is given
    twice: as a function from the old tables to the new tables and the
    outcome of the returned promise, and as a method of `Store` that updates
    the tables in place and is proved to agree with that function. */
module DataService {
  import opened Seqs

  type Id = string

  /** An instant, as an integer timestamp; a larger value is later. */
  type Date = int

  datatype ElectionStatus = Upcoming | Active | Completed

  datatype RequestStatus = Pending | Approved | Rejected

  /** The two statuses an administrator may give a request. */
  type Decision = s: RequestStatus | s != Pending witness Approved

  datatype Role = Admin | Voter

  datatype UserStatus = Active | Blocked

  datatype Election = Election(
    id: Id,
    title: string,
    description: string,
    startDate: Date,
    endDate: Date,
    status: ElectionStatus)

  /** An election before it has an id (`Omit<Election, 'id'>`). */
  datatype ElectionDraft = ElectionDraft(
    title: string,
    description: string,
    startDate: Date,
    endDate: Date,
    status: ElectionStatus)
  {
    function WithId(id: Id): Election {
      Election(id, title, description, startDate, endDate, status)
    }
  }

  /** A request to stand as a candidate, with the user's name and email and
      the election's title copied in when it was made. */
  datatype Participant = Participant(
    id: Id,
    userId: Id,
    userName: string,
    userEmail: string,
    electionId: Id,
    electionTitle: string,
    status: RequestStatus,
    requestDate: Date)

  datatype User = User(
    id: Id,
    name: string,
    email: string,
    role: Role,
    status: UserStatus)

  /** Outcome of an operation's promise: resolved with a value or rejected with an error message. */
  datatype Result<T> = Ok(value: T) | Err(message: string)

  const ParticipantNotFound: string := "Participant not found"
  const UserNotFound: string := "User not found"
  const UserOrElectionNotFound: string := "User or Election not found"

  function ElectionId(e: Election): Id { e.id }
  function ParticipantId(p: Participant): Id { p.id }
  function UserId(u: User): Id { u.id }

  /** Every table holds each id at most once. */
  ghost predicate TablesValid(es: seq<Election>, ps: seq<Participant>, us: seq<User>) {
    KeysDistinct(es, ElectionId) && KeysDistinct(ps, ParticipantId) && KeysDistinct(us, UserId)
  }

  /** `updateParticipantStatus` on a table: the first request with the id
      gets the new status; an unknown id changes nothing and is an error. */
  function UpdateStatus(ps: seq<Participant>, id: Id, status: Decision): (r: (seq<Participant>, Result<Participant>))
    ensures |r.0| == |ps|
    ensures r.1.Err? <==> forall i :: 0 <= i < |ps| ==> ps[i].id != id
    ensures r.1.Err? ==> r.1.message == ParticipantNotFound && r.0 == ps
    ensures r.1.Ok? ==>
      var k := IndexOf(ps, ParticipantId, id);
      && 0 <= k
      && r.1.value == ps[k].(status := status)
      && r.0[k] == r.1.value
      && forall i :: 0 <= i < |ps| && i != k ==> r.0[i] == ps[i]
  {
    var k := IndexOf(ps, ParticipantId, id);
    if k == -1 then (ps, Err(ParticipantNotFound))
    else
      var updated := ps[k].(status := status);
      (ps[k := updated], Ok(updated))
  }

  /** The other access status. */
  function Toggled(s: UserStatus): (r: UserStatus)
    ensures r != s
  {
    if s == UserStatus.Active then Blocked else UserStatus.Active
  }

  /** `toggleUserStatus` on a table: the first user with the id flips
      between active and blocked; an unknown id changes nothing and is an error. */
  function ToggleIn(us: seq<User>, id: Id): (r: (seq<User>, Result<User>))
    ensures |r.0| == |us|
    ensures r.1.Err? <==> forall i :: 0 <= i < |us| ==> us[i].id != id
    ensures r.1.Err? ==> r.1.message == UserNotFound && r.0 == us
    ensures r.1.Ok? ==>
      var k := IndexOf(us, UserId, id);
      && 0 <= k
      && r.1.value == us[k].(status := Toggled(us[k].status))
      && r.1.value.status != us[k].status
      && r.0[k] == r.1.value
      && forall i :: 0 <= i < |us| && i != k ==> r.0[i] == us[i]
  {
    var k := IndexOf(us, UserId, id);
    if k == -1 then (us, Err(UserNotFound))
    else
      var updated := us[k].(status := Toggled(us[k].status));
      (us[k := updated], Ok(updated))
  }

  /** `requestToBeContestant` on the tables: with a known user and a known
      election, a new pending request is appended under the fresh id `newId`
      and stamped `now`; otherwise nothing changes and it is an error. */
  function RequestIn(ps: seq<Participant>, us: seq<User>, es: seq<Election>,
                     userId: Id, electionId: Id, newId: Id, now: Date): (r: (seq<Participant>, Result<Participant>))
    ensures r.1.Err? <==>
      (forall i :: 0 <= i < |us| ==> us[i].id != userId) || (forall i :: 0 <= i < |es| ==> es[i].id != electionId)
    ensures r.1.Err? ==> r.1.message == UserOrElectionNotFound && r.0 == ps
    ensures r.1.Ok? ==>
      var u := IndexOf(us, UserId, userId);
      var e := IndexOf(es, ElectionId, electionId);
      && 0 <= u && 0 <= e
      && r.0 == ps + [r.1.value]
      && r.1.value == Participant(newId, userId, us[u].name, us[u].email, electionId, es[e].title, Pending, now)
  {
    var user := Find(us, UserId, userId);
    var election := Find(es, ElectionId, electionId);
    if user.None? || election.None? then (ps, Err(UserOrElectionNotFound))
    else
      var p := Participant(newId, userId, user.value.name, user.value.email,
                           electionId, election.value.title, Pending, now);
      (ps + [p], Ok(p))
  }

  /** Toggling the same user twice gives back the original table. */
  lemma ToggleTwiceRestores(us: seq<User>, id: Id)
    ensures ToggleIn(ToggleIn(us, id).0, id).0 == us
  {
    var once := ToggleIn(us, id).0;
    if once != us {
      IndexOfSameKeys(us, once, UserId, id);
    }
  }

  /** An election created under a fresh id is what a lookup of that id returns. */
  lemma {:induction false} LookupAfterCreate(es: seq<Election>, d: ElectionDraft, newId: Id)
    requires forall i :: 0 <= i < |es| ==> es[i].id != newId
    ensures Find(es + [d.WithId(newId)], ElectionId, newId) == Some(d.WithId(newId))
  {
    IndexOfAppendFresh(es, d.WithId(newId), ElectionId);
  }

  /** Status updates and toggles never touch ids; appending under a fresh id
      keeps them distinct: so every operation keeps the tables valid. */
  lemma UpdateStatusKeepsIds(ps: seq<Participant>, id: Id, status: Decision)
    requires KeysDistinct(ps, ParticipantId)
    ensures KeysDistinct(UpdateStatus(ps, id, status).0, ParticipantId)
  {
    var ps' := UpdateStatus(ps, id, status).0;
    assert forall i :: 0 <= i < |ps| ==> ps'[i].id == ps[i].id;
  }

  lemma ToggleKeepsIds(us: seq<User>, id: Id)
    requires KeysDistinct(us, UserId)
    ensures KeysDistinct(ToggleIn(us, id).0, UserId)
  {
    var us' := ToggleIn(us, id).0;
    assert forall i :: 0 <= i < |us| ==> us'[i].id == us[i].id;
  }

  lemma RequestKeepsIds(ps: seq<Participant>, us: seq<User>, es: seq<Election>,
                        userId: Id, electionId: Id, newId: Id, now: Date)
    requires KeysDistinct(ps, ParticipantId)
    requires forall i :: 0 <= i < |ps| ==> ps[i].id != newId
    ensures KeysDistinct(RequestIn(ps, us, es, userId, electionId, newId, now).0, ParticipantId)
  {
    var r := RequestIn(ps, us, es, userId, electionId, newId, now);
    if r.1.Ok? {
      AppendFreshKeepsDistinct(ps, r.1.value, ParticipantId);
    }
  }

  /** The module-level tables of the data service. */
  class Store {
    var elections: seq<Election>
    var participants: seq<Participant>
    var users: seq<User>

    ghost predicate Valid()
      reads this
    {
      TablesValid(elections, participants, users)
    }

    /** The store starts from tables whose ids are distinct, as the seed
        records are; every method below keeps them so. */
    constructor (elections: seq<Election>, participants: seq<Participant>, users: seq<User>)
      requires TablesValid(elections, participants, users)
      ensures Valid()
      ensures this.elections == elections
      ensures this.participants == participants
      ensures this.users == users
    {
      this.elections := elections;
      this.participants := participants;
      this.users := users;
    }

    /** `getElections`: the elections table as it stands. */
    method GetElections() returns (r: seq<Election>)
      ensures r == elections
    {
      r := elections;
    }

    /** `getElection`: the first election with the id, or none. */
    method GetElection(id: Id) returns (r: Option<Election>)
      ensures r.None? <==> forall i :: 0 <= i < |elections| ==> elections[i].id != id
      ensures r.Some? ==> r.value.id == id && r.value == elections[IndexOf(elections, ElectionId, id)]
    {
      r := Find(elections, ElectionId, id);
    }

    /** `createElection`: appends the draft under a fresh id and returns it. */
    method CreateElection(draft: ElectionDraft, newId: Id) returns (e: Election)
      requires forall i :: 0 <= i < |elections| ==> elections[i].id != newId
      modifies this`elections
      ensures e == draft.WithId(newId)
      ensures elections == old(elections) + [e]
      ensures old(Valid()) ==> Valid()
    {
      e := draft.WithId(newId);
      if Valid() {
        AppendFreshKeepsDistinct(elections, e, ElectionId);
      }
      elections := elections + [e];
    }

    /** `getParticipantRequests`: the requests table as it stands. */
    method GetParticipantRequests() returns (r: seq<Participant>)
      ensures r == participants
    {
      r := participants;
    }

    /** `updateParticipantStatus`: sets the status of the first request with the id. */
    method UpdateParticipantStatus(id: Id, status: Decision) returns (r: Result<Participant>)
      modifies this`participants
      ensures (participants, r) == UpdateStatus(old(participants), id, status)
      ensures old(Valid()) ==> Valid()
    {
      if Valid() {
        UpdateStatusKeepsIds(participants, id, status);
      }
      var index := IndexOf(participants, ParticipantId, id);
      if index != -1 {
        participants := participants[index := participants[index].(status := status)];
        return Ok(participants[index]);
      }
      return Err(ParticipantNotFound);
    }

    /** `getUsers`: the users table as it stands. */
    method GetUsers() returns (r: seq<User>)
      ensures r == users
    {
      r := users;
    }

    /** `toggleUserStatus`: flips the first user with the id between active and blocked. */
    method ToggleUserStatus(id: Id) returns (r: Result<User>)
      modifies this`users
      ensures (users, r) == ToggleIn(old(users), id)
      ensures old(Valid()) ==> Valid()
    {
      if Valid() {
        ToggleKeepsIds(users, id);
      }
      var index := IndexOf(users, UserId, id);
      if index != -1 {
        users := users[index := users[index].(status := if users[index].status == UserStatus.Active then Blocked else UserStatus.Active)];
        return Ok(users[index]);
      }
      return Err(UserNotFound);
    }

    /** `requestToBeContestant`: appends a pending request for a known user and election. */
    method RequestToBeContestant(userId: Id, electionId: Id, newId: Id, now: Date) returns (r: Result<Participant>)
      requires forall i :: 0 <= i < |participants| ==> participants[i].id != newId
      modifies this`participants
      ensures (participants, r) == RequestIn(old(participants), users, elections, userId, electionId, newId, now)
      ensures old(Valid()) ==> Valid()
    {
      if Valid() {
        RequestKeepsIds(participants, users, elections, userId, electionId, newId, now);
      }
      var user := Find(users, UserId, userId);
      var election := Find(elections, ElectionId, electionId);
      if user.None? || election.None? {
        return Err(UserOrElectionNotFound);
      }
      var p := Participant(newId, userId, user.value.name, user.value.email,
                           electionId, election.value.title, Pending, now);
      participants := participants + [p];
      return Ok(p);
    }
  }
}
