/**
  SynchronousUserService.getFact, the cache-aside lookup of a fact about a
  user, as a pure transition over the two repositories. The user and fact
  clients are total functions supplied with the service; every call made to
  them is recorded in the outcome, so "the client is not called" is a
  statement about that record.
*/
module UserService {
  import opened Functors
  import opened FactFinder

  /** The contents of the user repository and of the fact repository. */
  datatype State = State(users: map<UserId, User>, facts: map<UserId, Fact>)

  /** A call made to one of the two clients. */
  datatype Call = UserClientCall(id: UserId) | FactClientCall(user: User)

  /** What getFact returns, the repositories afterwards, and the client calls made on the way. */
  datatype Outcome = Outcome(fact: Fact, state: State, calls: seq<Call>)

  /** The service's two clients. */
  datatype Service = Service(userClient: UserId -> User, factClient: User -> Fact)

  /** The service built on MockUserClient and MockFactClient. */
  function MockService(): Service
  {
    Service(MockUserClient, MockFactClient)
  }

  /** The private getFact(user): fetch a fact from the fact client, save it and return it. */
  function FetchFact(svc: Service, st: State, user: User): (r: Outcome)
    ensures r.calls == [FactClientCall(user)]
    ensures r.fact == svc.factClient(user)
    ensures r.state.users == st.users
    ensures GetFactByUserId(r.state.facts, FactKey(r.fact)) == Some(r.fact)
    ensures forall id :: id != FactKey(r.fact) ==> GetFactByUserId(r.state.facts, id) == GetFactByUserId(st.facts, id)
  {
    var fact := svc.factClient(user);
    Outcome(fact, State(st.users, SaveFact(st.facts, fact)), [FactClientCall(user)])
  }

  /**
    getFact(id): on a user miss, fetch the user, save it and start again with
    the fetched user's id; on a hit, return the cached fact about that user or
    fetch and save a new one. The restart finds the user just saved, so the
    recursion is at most one level deep.
  */
  function GetFact(svc: Service, st: State, id: UserId): (r: Outcome)
    // at most one user-client call, first, and only on a miss; at most one fact-client call, last
    ensures |r.calls| <= 2
    ensures forall k :: 0 <= k < |r.calls| && r.calls[k].UserClientCall? ==>
              k == 0 && r.calls[k].id == id && id !in st.users
    ensures forall k :: 0 <= k < |r.calls| && r.calls[k].FactClientCall? ==> k == |r.calls| - 1
    // the user repository changes only by saving the fetched user, on a miss
    ensures id in st.users ==> r.state.users == st.users
    ensures id !in st.users ==> r.state.users == SaveUser(st.users, svc.userClient(id)).0
    // the fact repository changes only by saving the fact the fact client returned
    ensures |r.calls| == 0 || r.calls[|r.calls| - 1].UserClientCall? ==> r.state.facts == st.facts
    ensures |r.calls| > 0 && r.calls[|r.calls| - 1].FactClientCall? ==>
              && r.fact == svc.factClient(r.calls[|r.calls| - 1].user)
              && r.state.facts == SaveFact(st.facts, r.fact)
    decreases if id in st.users then 0 else 1
  {
    match GetUserById(st.users, id)
    case None =>
      var fetched := svc.userClient(id);
      var (users, _) := SaveUser(st.users, fetched);
      var rest := GetFact(svc, State(users, st.facts), fetched.userId);
      Outcome(rest.fact, rest.state, [UserClientCall(id)] + rest.calls)
    case Some(user) =>
      match GetFactByUserId(st.facts, user.userId)
      case Some(cached) => Outcome(cached, st, [])
      case None => FetchFact(svc, st, user)
  }

  /** A user hit with a cached fact returns that fact, calls no client and changes nothing. */
  lemma GetFactCachedHit(svc: Service, st: State, id: UserId)
    requires id in st.users && st.users[id].userId in st.facts
    ensures GetFact(svc, st, id) == Outcome(st.facts[st.users[id].userId], st, [])
  {
  }

  /** A user hit without a cached fact calls the fact client once, saves its fact and returns it. */
  lemma GetFactUncachedHit(svc: Service, st: State, id: UserId)
    requires id in st.users && st.users[id].userId !in st.facts
    ensures var r := GetFact(svc, st, id);
            && r.calls == [FactClientCall(st.users[id])]
            && r.fact == svc.factClient(st.users[id])
            && r.state == State(st.users, SaveFact(st.facts, r.fact))
  {
  }

  /**
    A user miss calls the user client once, saves the user, and then behaves as
    getFact on the fetched user's id, which is now a hit.
  */
  lemma GetFactMiss(svc: Service, st: State, id: UserId)
    requires id !in st.users
    ensures var fetched := svc.userClient(id);
            var st' := State(SaveUser(st.users, fetched).0, st.facts);
            var rest := GetFact(svc, st', fetched.userId);
            && fetched.userId in st'.users
            && GetFact(svc, st, id) == Outcome(rest.fact, rest.state, [UserClientCall(id)] + rest.calls)
            && forall k :: 0 <= k < |rest.calls| ==> rest.calls[k].FactClientCall?
  {
  }

  /**
    For any clients, asking again for the same id returns the same fact and
    leaves both repositories as the first call left them; the second call may
    still call a client again (see RenamingUserClientRefetches).
  */
  lemma GetFactResultIdempotent(svc: Service, st: State, id: UserId)
    ensures var first := GetFact(svc, st, id);
            var second := GetFact(svc, first.state, id);
            second.fact == first.fact && second.state == first.state
  {
  }

  /** The user client keeps the requested id. */
  ghost predicate KeepsUserId(svc: Service)
  {
    forall id :: svc.userClient(id).userId == id
  }

  /** The fact client returns facts that are stored under the id of the user they were fetched for. */
  ghost predicate StoresUnderUser(svc: Service)
  {
    forall u :: FactKey(svc.factClient(u)) == u.userId
  }

  /**
    With a user client that keeps ids and a fact client whose facts are stored
    under their user, the second call also calls no client at all.
  */
  lemma GetFactIdempotent(svc: Service, st: State, id: UserId)
    requires KeepsUserId(svc) && StoresUnderUser(svc)
    ensures var first := GetFact(svc, st, id);
            GetFact(svc, first.state, id) == Outcome(first.fact, first.state, [])
  {
  }

  /** The mock service satisfies both conditions, so getFact over the mocks is idempotent. */
  lemma MockGetFactIdempotent(st: State, id: UserId)
    ensures var first := GetFact(MockService(), st, id);
            GetFact(MockService(), first.state, id) == Outcome(first.fact, first.state, [])
  {
  }

  /**
    Calling no client on the second call needs a user client that keeps ids: a
    client that answers id 0 with user 1 leaves id 0 unsaved, so a second
    getFact(0) calls it again.
  */
  lemma RenamingUserClientRefetches()
    ensures var svc := Service((id: UserId) => MockUserClient(id + 1), MockFactClient);
            var first := GetFact(svc, State(map[], map[]), 0);
            GetFact(svc, first.state, 0).calls[0] == UserClientCall(0)
  {
  }

  /**
    Starting from empty repositories, the mock service fetches the user and a
    fact about it and returns that fact, stored under the requested id.
  */
  lemma MockGetFactFromEmpty(id: UserId)
    ensures var r := GetFact(MockService(), State(map[], map[]), id);
            && r.calls == [UserClientCall(id), FactClientCall(MockUserClient(id))]
            && r.fact == MockFactClient(MockUserClient(id))
            && r.state == State(map[id := MockUserClient(id)], map[id := r.fact])
  {
  }
}
