/**
  The domain of the fact finder: genders, users and facts, the gender parser,
  the mock user and fact clients, and the mock repositories. The Kotlin mock
  repositories use hash maps; here they are immutable finite maps, and saving
  returns the updated map.
*/
module FactFinder {
  import opened Functors

  datatype Gender = MALE | FEMALE

  /** User ids are Kotlin `Int`s; no arithmetic is done on them, so no wrap-around arises. */
  type UserId = int

  datatype User = User(userId: UserId, firstname: string, lastname: string, gender: Gender)

  /** A fact; `user` models Kotlin's nullable `User?`, absent by default. */
  datatype Fact = Fact(id: int, value: string, user: Option<User>)

  // Gender.valueOfIgnoreCase

  /** The enum constant's name, as `Enum.name` spells it. */
  function Name(g: Gender): string
  {
    match g
    case MALE => "MALE"
    case FEMALE => "FEMALE"
  }

  /** Upper-casing of one character; only the ASCII letters a..z change. */
  function UpperChar(c: char): char
  {
    if 'a' <= c <= 'z' then (c as int - 32) as char else c
  }

  /** Lower-casing of one character; only the ASCII letters A..Z change. */
  function LowerChar(c: char): char
  {
    if 'A' <= c <= 'Z' then (c as int + 32) as char else c
  }

  function ToUpper(s: string): (r: string)
    ensures |r| == |s|
    ensures forall i :: 0 <= i < |s| ==> r[i] == UpperChar(s[i])
  {
    if s == [] then [] else [UpperChar(s[0])] + ToUpper(s[1..])
  }

  function ToLower(s: string): (r: string)
    ensures |r| == |s|
    ensures forall i :: 0 <= i < |s| ==> r[i] == LowerChar(s[i])
  {
    if s == [] then [] else [LowerChar(s[0])] + ToLower(s[1..])
  }

  /** Two strings are equal up to the case of their letters, compared character by character. */
  predicate EqualsIgnoreCase(a: string, b: string)
  {
    |a| == |b| && forall i :: 0 <= i < |a| ==> UpperChar(a[i]) == UpperChar(b[i])
  }

  /** `Enum.valueOf` either finds the constant or throws IllegalArgumentException (the error case). */
  datatype ParsedGender = Parsed(gender: Gender) | NoEnumConstant(name: string)

  /** Gender.valueOfIgnoreCase: `valueOf(name.toUpperCase())`. */
  function ValueOfIgnoreCase(name: string): (r: ParsedGender)
    ensures r.Parsed? ==> EqualsIgnoreCase(name, Name(r.gender))
    ensures r.NoEnumConstant? ==> forall g: Gender :: !EqualsIgnoreCase(name, Name(g))
  {
    var upper := ToUpper(name);
    EqualsIgnoreCaseIsUpperEquality(name, "MALE");
    EqualsIgnoreCaseIsUpperEquality(name, "FEMALE");
    if upper == "MALE" then Parsed(MALE)
    else if upper == "FEMALE" then Parsed(FEMALE)
    else NoEnumConstant(upper)
  }

  /** Comparing ignoring case is comparing the upper-cased strings, when `b` is upper case. */
  lemma EqualsIgnoreCaseIsUpperEquality(a: string, b: string)
    requires forall i :: 0 <= i < |b| ==> UpperChar(b[i]) == b[i]
    ensures EqualsIgnoreCase(a, b) <==> ToUpper(a) == b
  {
  }

  /** Any letter-casing of "male" parses to MALE and any letter-casing of "female" to FEMALE. */
  lemma ValueOfIgnoreCaseAccepts(name: string)
    ensures ValueOfIgnoreCase(name) == Parsed(MALE) <==> EqualsIgnoreCase(name, "male")
    ensures ValueOfIgnoreCase(name) == Parsed(FEMALE) <==> EqualsIgnoreCase(name, "female")
    ensures ValueOfIgnoreCase(name).NoEnumConstant? <==>
              !EqualsIgnoreCase(name, "male") && !EqualsIgnoreCase(name, "female")
  {
  }

  /** A gender's own name parses back to it, in upper and in lower case. */
  lemma ValueOfIgnoreCaseRoundTrip(g: Gender)
    ensures ValueOfIgnoreCase(Name(g)) == Parsed(g)
    ensures ValueOfIgnoreCase(ToLower(Name(g))) == Parsed(g)
  {
  }

  // The mock clients

  /** MockUserClient.getUser: a fixed female user carrying the requested id. */
  function MockUserClient(id: UserId): (u: User)
    ensures u.userId == id
  {
    User(id, "FakeMockFirstname", "FakeMockLastname", FEMALE)
  }

  /** MockFactClient.getFact: a fact about the user, numbered with the user's id. */
  function MockFactClient(user: User): (f: Fact)
    ensures f.id == user.userId
    ensures f.user == Some(user)
  {
    Fact(user.userId, "FACT 4 " + user.firstname + " " + user.lastname, Some(user))
  }

  // The mock repositories

  /** MockUserRepository.getUserById. */
  function GetUserById(users: map<UserId, User>, id: UserId): (r: Option<User>)
    ensures r.Some? <==> id in users
    ensures r.Some? ==> r.value == users[id]
  {
    if id in users then Some(users[id]) else None
  }

  /** MockUserRepository.saveUser: store under the user's own id; the status is always 0. */
  function SaveUser(users: map<UserId, User>, user: User): (r: (map<UserId, User>, int))
    ensures r.1 == 0
    ensures r.0.Keys == users.Keys + {user.userId}
    ensures r.0[user.userId] == user
    ensures forall id :: id in users && id != user.userId ==> r.0[id] == users[id]
  {
    (users[user.userId := user], 0)
  }

  /** The key a fact is stored under: its user's id, or 0 for a fact without a user. */
  function FactKey(fact: Fact): UserId
  {
    match fact.user
    case Some(u) => u.userId
    case None => 0
  }

  /** MockFactRepository.getFactByUserId. */
  function GetFactByUserId(facts: map<UserId, Fact>, id: UserId): (r: Option<Fact>)
    ensures r.Some? <==> id in facts
    ensures r.Some? ==> r.value == facts[id]
  {
    if id in facts then Some(facts[id]) else None
  }

  /** MockFactRepository.saveFact. */
  function SaveFact(facts: map<UserId, Fact>, fact: Fact): (r: map<UserId, Fact>)
    ensures r.Keys == facts.Keys + {FactKey(fact)}
    ensures r[FactKey(fact)] == fact
    ensures forall id :: id in facts && id != FactKey(fact) ==> r[id] == facts[id]
  {
    facts[FactKey(fact) := fact]
  }

  /** Reading a user back after saving: the saved user under its id, every other id as before. */
  lemma GetUserAfterSave(users: map<UserId, User>, user: User, id: UserId)
    ensures GetUserById(SaveUser(users, user).0, id) ==
              if id == user.userId then Some(user) else GetUserById(users, id)
  {
  }

  /** Reading a fact back after saving: the fact under its key, every other id as before. */
  lemma GetFactAfterSave(facts: map<UserId, Fact>, fact: Fact, id: UserId)
    ensures GetFactByUserId(SaveFact(facts, fact), id) ==
              if id == FactKey(fact) then Some(fact) else GetFactByUserId(facts, id)
  {
  }

  /** A mock fact is stored under the id of the user it is about. */
  lemma MockFactKey(user: User)
    ensures FactKey(MockFactClient(user)) == user.userId
  {
  }
}
