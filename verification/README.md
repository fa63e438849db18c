# Functors, applicatives and a cache-aside fact service, in Dafny

This project models the two self-contained pieces of logic in the
`de.amirrocker.functional` teaching snippets:

- **Option, function map and List applicative** (`HaveSomeFun.kt`). This covers
  the sealed `Option` (`None | Some(value)`), its `map`, `flatMap` and
  `mapWithFlatMap`, the `map` over functions (composition), the product-price
  lookup built on `flatMap`, the two nested-bind forms of `lookieHere`, and
  `List.ap`. It is set against the element-major `flatMap { functions.map }`
  form the snippet contrasts it with. Module `Functors` is in `functors.dfy`;
  module `ListApplicative` is in `list_applicative.dfy`.
- **The synchronous fact service** (`SpringBootClientFactFinder.kt`). This
  covers `Gender.valueOfIgnoreCase`, `User` and `Fact`, the mock user and fact
  clients, and the map-backed mock repositories (module `FactFinder`,
  `fact_finder.dfy`). It also covers `SynchronousUserService.getFact` in both
  overloads (module `UserService`, `user_service.dfy`). `getFact` is modelled
  as a pure transition over the two repositories. The clients are total
  functions held by a `Service` value. The result records every call made to
  a client, so the absence of a call is something the model can state.

The laws proved include:
- the functor laws (identity, and composition through the function `map`);
- the monad laws;
- `mapWithFlatMap` agrees with `map`, and the two forms of `lookieHere` agree;
- the function-major layout of `ap`, and that it is a permutation of the
  element-major form;
- `valueOfIgnoreCase` accepts any letter-casing of a gender name and rejects
  everything else;
- read-your-write for both repositories;
- `getFact` makes at most one extra recursive step and changes nothing but the
  saved user and the saved fact;
- for any clients, a repeated `getFact` returns the same fact and leaves the
  repositories as they were; with clients that keep ids, as the mocks do, it
  also calls no client.

## Model

| member | source | states |
|---|---|---|
| `Functors.Map` | src/main/kotlin/de/amirrocker/functional/HaveSomeFun.kt:90-94 | `None` maps to `None`; `Some(v)` maps to `Some(transform(v))` |
| `Functors.MapFn` | src/main/kotlin/de/amirrocker/functional/HaveSomeFun.kt:100 | the function `f.map(transform)` is, at every argument `a`, `transform(f(a))` |
| `Functors.MapFnAssociative` | src/main/kotlin/de/amirrocker/functional/HaveSomeFun.kt:100 | the function map is associative: `f.map(g).map(h)` and `f.map(g.map(h))` agree at every argument |
| `Functors.Add3AndMulBy2Example` | src/main/kotlin/de/amirrocker/functional/HaveSomeFun.kt:108-109 | `{x+3}.map{x*2}` applied to 3 gives 12 |
| `Functors.MapIdentity` | src/main/kotlin/de/amirrocker/functional/HaveSomeFun.kt:90-94 | functor identity law: mapping the identity leaves every Option unchanged |
| `Functors.MapComposition` | src/main/kotlin/de/amirrocker/functional/HaveSomeFun.kt:90-100 | functor composition law: mapping `f` then `g` equals mapping the function `f.map(g)` |
| `Functors.FlatMap` | src/main/kotlin/de/amirrocker/functional/HaveSomeFun.kt:131-135 | `flatMap` of `None` is `None`; `flatMap(fm)` of `Some(v)` is exactly `fm(v)` |
| `Functors.FlatMapLeftIdentity` | src/main/kotlin/de/amirrocker/functional/HaveSomeFun.kt:131-135 | monad left identity: binding `Some(v)` to `fm` gives `fm(v)` |
| `Functors.FlatMapRightIdentity` | src/main/kotlin/de/amirrocker/functional/HaveSomeFun.kt:131-135 | monad right identity: binding to `Some` leaves every Option unchanged |
| `Functors.FlatMapAssociative` | src/main/kotlin/de/amirrocker/functional/HaveSomeFun.kt:131-135 | monad associativity: two binds in sequence equal one bind of the nested bind |
| `Functors.MapWithFlatMap` | src/main/kotlin/de/amirrocker/functional/HaveSomeFun.kt:141-142 | `mapWithFlatMap(f)` equals `map(f)` for every Option and every `f` |
| `Functors.CalculateProductPrice` | src/main/kotlin/de/amirrocker/functional/HaveSomeFun.kt:148-157 | price is `Some(50.0)` exactly for `Some("productA")` and `Some(100.0)` exactly for `Some("productB")`; it is `None` exactly for `None` and for every other name |
| `Functors.ProductPriceExample` | src/main/kotlin/de/amirrocker/functional/HaveSomeFun.kt:148-157 | the driver's `calculateProductPrice(Some("productA"))` is `Some(50.0)`; an unknown product and `None` give `None` |
| `Functors.CombineWithFlatMaps` | src/main/kotlin/de/amirrocker/functional/HaveSomeFun.kt:163-168 | flatMap nested in flatMap is `Some` exactly when both inputs are, and then holds the combination of the two values |
| `Functors.CombineWithMap` | src/main/kotlin/de/amirrocker/functional/HaveSomeFun.kt:171-175 | map nested in flatMap is `Some` exactly when both inputs are, and then holds the combination of the two values |
| `Functors.CombineFormsAgree` | src/main/kotlin/de/amirrocker/functional/HaveSomeFun.kt:163-175 | the flatMap/flatMap and flatMap/map forms agree on all inputs |
| `Functors.LookieHereExample` | src/main/kotlin/de/amirrocker/functional/HaveSomeFun.kt:160-175 | both forms over `Some(40)` and `Some(20)` with multiplication give `Some(800)` |
| `ListApplicative.ListMap` | src/main/kotlin/de/amirrocker/functional/HaveSomeFun.kt:223 | the list `map` used by `ap`: the same length, and element `i` is `f` of input element `i` |
| `ListApplicative.ListFlatMap` | src/main/kotlin/de/amirrocker/functional/HaveSomeFun.kt:120-125 | the list `flatMap` that `ap`, `whatIsAMonad` and the element-major form use: over no elements it is empty, and over one element it is that element's list. Every item of every element's list is in the result, and every item of the result comes from some element's list |
| `ListApplicative.ListFlatMapAppend` | src/main/kotlin/de/amirrocker/functional/HaveSomeFun.kt:120-125 | `flatMap` over `s + t` is `flatMap` over `s` followed by `flatMap` over `t`. With the empty and one-element cases this fixes the result: each element's list, in input order, with multiplicity |
| `ListApplicative.Ap` | src/main/kotlin/de/amirrocker/functional/HaveSomeFun.kt:221-224 | `list.ap(fns)` has `\|fns\| * \|list\|` elements |
| `ListApplicative.ApAt` | src/main/kotlin/de/amirrocker/functional/HaveSomeFun.kt:221-224 | element `i * \|list\| + j` of `list.ap(fns)` is `fns[i](list[j])`: the order is function-major |
| `ListApplicative.ApplyAll` | src/main/kotlin/de/amirrocker/functional/HaveSomeFun.kt:231-233 | `functions.map { it(x) }` holds each function applied to `x`, in the order of the functions |
| `ListApplicative.ElementMajor` | src/main/kotlin/de/amirrocker/functional/HaveSomeFun.kt:230-234 | `list.flatMap { functions.map }` has `\|list\| * \|fns\|` elements |
| `ListApplicative.ElementMajorAt` | src/main/kotlin/de/amirrocker/functional/HaveSomeFun.kt:230-234 | element `j * \|fns\| + i` of the element-major form is `fns[i](list[j])`: the order is element-major |
| `ListApplicative.ApIsPermutationOfElementMajor` | src/main/kotlin/de/amirrocker/functional/HaveSomeFun.kt:237-243 | `ap` and the element-major form hold the same multiset of results, only in a different order |
| `ListApplicative.WhatIsAMonadExample` | src/main/kotlin/de/amirrocker/functional/HaveSomeFun.kt:120-125 | `listOf(1,2,3,4).flatMap { listOf(it*2, it*it) }` is 2, 1, 4, 4, 6, 9, 8, 16 |
| `ListApplicative.AnAppliedApplicativeExample` | src/main/kotlin/de/amirrocker/functional/HaveSomeFun.kt:226-246 | over 1..9 and three functions, `ap` has 27 results starting 2, 4, while the element-major form starts 2, 1, 1, so the two lists differ |
| `FactFinder.ToUpper` | src/main/kotlin/de/amirrocker/functional/SpringBootClientFactFinder.kt:24 | `toUpperCase` keeps the length and upper-cases each character |
| `FactFinder.ValueOfIgnoreCase` | src/main/kotlin/de/amirrocker/functional/SpringBootClientFactFinder.kt:20-25 | a parsed gender's name equals the input ignoring case; on the error path no gender's name equals the input ignoring case |
| `FactFinder.ValueOfIgnoreCaseAccepts` | src/main/kotlin/de/amirrocker/functional/SpringBootClientFactFinder.kt:20-25 | the result is `MALE` exactly for the letter-casings of "male" and `FEMALE` exactly for those of "female"; every other string fails |
| `FactFinder.ValueOfIgnoreCaseRoundTrip` | src/main/kotlin/de/amirrocker/functional/SpringBootClientFactFinder.kt:20-25 | each gender's name parses back to that gender, in upper and in lower case |
| `FactFinder.MockUserClient` | src/main/kotlin/de/amirrocker/functional/SpringBootClientFactFinder.kt:125-130 | the mock user has the requested `userId` |
| `FactFinder.MockFactClient` | src/main/kotlin/de/amirrocker/functional/SpringBootClientFactFinder.kt:132-136 | the mock fact has `id == user.userId` and refers to the given user |
| `FactFinder.MockFactKey` | src/main/kotlin/de/amirrocker/functional/SpringBootClientFactFinder.kt:132-136 | a mock fact is stored under the id of the user it was fetched for |
| `FactFinder.GetUserById` | src/main/kotlin/de/amirrocker/functional/SpringBootClientFactFinder.kt:288-292 | a user is found exactly when the id is a key of the repository, and the user found is the one stored under that id |
| `FactFinder.SaveUser` | src/main/kotlin/de/amirrocker/functional/SpringBootClientFactFinder.kt:294-299 | status is always 0; the user is stored under its own `userId`; the keys grow by that id only; every other id keeps its user |
| `FactFinder.GetUserAfterSave` | src/main/kotlin/de/amirrocker/functional/SpringBootClientFactFinder.kt:285-299 | after `saveUser(u)`, looking up `u.userId` returns `u`, and every other id returns what it returned before |
| `FactFinder.GetFactByUserId` | src/main/kotlin/de/amirrocker/functional/SpringBootClientFactFinder.kt:306-310 | a fact is found exactly when the id is a key of the repository, and the fact found is the one stored under that id |
| `FactFinder.SaveFact` | src/main/kotlin/de/amirrocker/functional/SpringBootClientFactFinder.kt:312-316 | the fact is stored under its key: its user's id, or 0 without a user. The keys grow by that key only, and every other key keeps its fact |
| `FactFinder.GetFactAfterSave` | src/main/kotlin/de/amirrocker/functional/SpringBootClientFactFinder.kt:303-316 | after `saveFact(f)`, looking up `f`'s key returns `f`, and every other id returns what it returned before |
| `UserService.FetchFact` | src/main/kotlin/de/amirrocker/functional/SpringBootClientFactFinder.kt:345-349 | the private `getFact(user)` calls the fact client once and returns its fact. That fact can then be read back under its key, and nothing else changes |
| `UserService.GetFact` | src/main/kotlin/de/amirrocker/functional/SpringBootClientFactFinder.kt:334-343 | terminates; at most two client calls are made, a user-client call only first and only on a miss, a fact-client call only last. The users change only by saving the fetched user on a miss. The facts change only by saving the fact the fact client returned, which is the result |
| `UserService.GetFactCachedHit` | src/main/kotlin/de/amirrocker/functional/SpringBootClientFactFinder.kt:340-341 | a hit with a cached fact returns that fact, calls no client and leaves both repositories unchanged |
| `UserService.GetFactUncachedHit` | src/main/kotlin/de/amirrocker/functional/SpringBootClientFactFinder.kt:341-349 | a hit without a cached fact calls the fact client once, saves its fact and returns it |
| `UserService.GetFactMiss` | src/main/kotlin/de/amirrocker/functional/SpringBootClientFactFinder.kt:336-339 | a miss saves the client's user and then behaves as `getFact(fetched.userId)`, which is a hit and calls no user client: one extra step at most |
| `UserService.GetFactResultIdempotent` | src/main/kotlin/de/amirrocker/functional/SpringBootClientFactFinder.kt:327-350 | for any clients, a second `getFact(id)` on the repositories the first call left returns the same fact and leaves the repositories unchanged |
| `UserService.GetFactIdempotent` | src/main/kotlin/de/amirrocker/functional/SpringBootClientFactFinder.kt:327-350 | if the user client keeps ids and facts are stored under their user's id, a second `getFact(id)` returns the same fact, calls no client and changes no state |
| `UserService.MockGetFactIdempotent` | src/main/kotlin/de/amirrocker/functional/SpringBootClientFactFinder.kt:327-350 | over the mock clients, from any repository contents, a second `getFact(id)` returns the same fact, calls no client and changes no state |
| `UserService.RenamingUserClientRefetches` | src/main/kotlin/de/amirrocker/functional/SpringBootClientFactFinder.kt:336-339 | calling no client on the second call needs a user client that keeps ids: if the client answers id 0 with user 1, a second `getFact(0)` calls the user client again |
| `UserService.MockGetFactFromEmpty` | src/main/kotlin/de/amirrocker/functional/SpringBootClientFactFinder.kt:334-349 | from empty repositories, the mocks fetch the user, then a fact about it. Both are saved under the requested id and the fact is returned |

## Left out

- The reactive-stream snippets (IntroBackpressure.kt, ConnectableFlowable.kt, OperatorsAndDataStructures.kt, CombineData.kt, SubjectsAsATopic.kt, ProcessorsAsATopic.kt) are left out. They only configure and call RxJava, so backpressure, multicast, buffering, windowing and debouncing are the library's behaviour, not the repository's. They also depend on schedulers, delays and random sleeps. No demand or overflow engine exists in the repository, so none is modelled.
- `WebClient`, `Http4kUserClient` and `Http4kFactClient` are left out: they are network I/O and Gson deserialisation. The service takes its clients as abstract total functions instead.
- The JDBC repositories, `JdbcRepository.toNullable` and `initJdbcTemplate` are left out: they are database I/O through Spring. Only the map-backed mock repositories are modelled.
- `Thread.sleep` and `println` in the mocks are left out, and so is the `println` inside `lookieHere`'s inner lambda (HaveSomeFun.kt line 165). They have no effect on the repositories or the results.
- The `main` driver, `testExtensionFunction`'s string-to-double example and the empty `mainSynchronous` are left out. They are printing drivers, and string-to-double parsing is floating-point text conversion.
- `Option.Companion.pure` is left out: it is an unfinished placeholder in a comment.
- The lazy `userEntity`/`factEntity` table names are left out: only the JDBC code uses them.
- Delegation.kt, KotlinPattern.kt, happy_map_sandbox.kt, SubjectClient.kt and DomainLayer.kt are left out. They are property-observer printing, a non-compiling constant hierarchy, a logging map wrapper, annotations and a duplicated entity.
- `calculateProductPrice` returns the `Double` constants 50.0 and 100.0. These are modelled as exact `real`s, since no floating-point arithmetic is done on them.
- User ids are Kotlin 32-bit `Int`s. They are modelled as unbounded integers because the service does no arithmetic on them.
- ToUpper: upper-cases only the ASCII letters a..z. Kotlin's `toUpperCase` applies the default locale's full Unicode case mapping, and non-ASCII input is not modelled beyond being left unchanged. `ValueOfIgnoreCase` and `ValueOfIgnoreCaseAccepts` inherit this.
- `Gender.valueOf`'s `IllegalArgumentException` becomes the `NoEnumConstant` result, which carries the upper-cased name. The exception's message text is not modelled.
