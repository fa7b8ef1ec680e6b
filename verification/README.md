# Election store model

A Dafny model of the VoteByte front end's election store
(`VotingSystem/frontend/src/store/electionStore.js`). The store is a small
state container with two fields:

- `elections`: election lists by category (`active`, `upcoming`, `past`),
  all empty at start;
- `pendingCandidates`: the candidate applications submitted so far, newest first.

It has four operations. `fetchElections` replaces the elections with the
bundled fixture. `getElectionById(type, id)` returns the first election with
that id in the store's list for the category. If that list is empty or
missing, it searches the fixture instead. `submitCandidateApplication` builds
an application with a default id, election id, `"pending"` status and
timestamp; the caller's payload overrides any of them. It puts the
application in front of the pending list and returns its id. Building the
default id prints the election id with a template literal. That throws a
TypeError for a plain object with its own `toString` property, or an array
holding one; the call then throws and the store stays as it was.
`getPendingCandidates` returns the pending list as it is.

Layout:

- `js_value.dfy` (module `JsValue`) holds the JavaScript values the store
  handles. Plain objects are maps from property names to values. Numbers are
  safe integers. On primitives, Dafny's `==` is `===`. It also defines the
  conversion a template literal applies (`String(v)`, with arrays joined by
  `,`) and the decimal numerals of `Date.now()` with their inverse.
- `election_store.dfy` (module `ElectionStore`) holds the rest:
  - the store state as a value (`StoreState`);
  - the lookup (`Find`, `Lookup`) and the application builder (`NewApplication`);
  - the two state transitions (`Fetched`, `Submitted`) and runs of calls (`Run`);
  - the class `Store`, whose methods update its two fields in place and are
    specified by those transitions;
  - lemmas about the transitions and about the default id.

The fixture `../data/elections.json` is the constructor's parameter. The two
clock readings (`Date.now()` for the id, `new Date().toISOString()` for
`submittedAt`) are parameters of the submit call. They are separate readings
in the source, so the model does not assume they agree.

## Model

| member | source | states |
|---|---|---|
| `JsValue.NatToDecimal` | VotingSystem/frontend/src/store/electionStore.js:19 | the printed timestamp is a non-empty string of decimal digits with no leading zero |
| `JsValue.DecimalRoundTrip` | VotingSystem/frontend/src/store/electionStore.js:19 | reading the printed timestamp back gives the timestamp |
| `JsValue.DecimalCanonical` | VotingSystem/frontend/src/store/electionStore.js:19 | every numeral without a leading zero is the printed form of the number it denotes (the other direction of the round trip) |
| `ElectionStore.Initial` | VotingSystem/frontend/src/store/electionStore.js:5-6 | a new store has exactly the categories `active`, `upcoming` and `past`, each empty, and no pending applications |
| `ElectionStore.FirstMatch` | VotingSystem/frontend/src/store/electionStore.js:14 | the index found has the id and no earlier element has it; when no element has it, the index is the list's length |
| `ElectionStore.Find` | VotingSystem/frontend/src/store/electionStore.js:14 | nothing is found exactly when no element's `id` is `===` the id; otherwise the result is the first element that matches |
| `ElectionStore.Lookup` | VotingSystem/frontend/src/store/electionStore.js:12-15 | searches the store's list when it is non-empty and otherwise the fixture's list; a category missing from the searched source gives nothing |
| `JsValue.IntToDecimal` | VotingSystem/frontend/src/store/electionStore.js:19 | a number prints as its decimal digits with no leading zero (at least one digit, so 0 prints as `0`), preceded by `-` when negative, and the digits read back to its magnitude |
| `JsValue.ToStr` | VotingSystem/frontend/src/store/electionStore.js:19 | `String(v)` as the template literal applies it, for every value that does not throw (`Printable`): `undefined`, `null`, `true` and `false` print as those words, a string as itself, a number as its canonical decimal numeral (no leading zero, `-` when negative), an empty array as `""`, a one-element array as its element (or `""` for `null`/`undefined`), an object as `[object Object]` |
| `JsValue.JoinShift` | VotingSystem/frontend/src/store/electionStore.js:19 | joining an array from index i on gives the same string as joining the array without its first element from index i-1 on |
| `JsValue.ArrayUnfold` | VotingSystem/frontend/src/store/electionStore.js:19 | a non-empty array prints as its first element followed by the join of the rest, each preceded by `,` |
| `JsValue.ArrayPrintsHeadCommaRest` | VotingSystem/frontend/src/store/electionStore.js:19 | an array of two or more elements prints as its first element, a `,`, and the printed array of the other elements; together with `ToStr` this fixes the printed form of every array |
| `ElectionStore.DefaultId` | VotingSystem/frontend/src/store/electionStore.js:19 | the default id is the printed election id, then `-`, then the canonical decimal digits (no leading zero) of the `Date.now()` reading, which read back to that reading; defined for every election id that prints without throwing |
| `ElectionStore.DefaultIdRoundTrip` | VotingSystem/frontend/src/store/electionStore.js:19 | the default id splits at its last `-` back into the printed election id and the timestamp |
| `ElectionStore.DefaultIdInjective` | VotingSystem/frontend/src/store/electionStore.js:19 | two default ids are equal if and only if the election ids print the same and the timestamps are equal |
| `ElectionStore.NewApplication` | VotingSystem/frontend/src/store/electionStore.js:18-24 | the application has the payload's keys plus the four defaults; every payload key overrides its default; each default (id `electionId-now`, the election id, `"pending"`, the timestamp) holds when the payload lacks that key; required: an election id that prints, since the id is built before the spread |
| `ElectionStore.Fetched` | VotingSystem/frontend/src/store/electionStore.js:8-10 | after a fetch the elections are the fixture and the pending list is unchanged |
| `ElectionStore.Submitted` | VotingSystem/frontend/src/store/electionStore.js:25 | after a submit the pending list is the application followed by the old list, one longer, and the elections are unchanged |
| `ElectionStore.FetchIdempotent` | VotingSystem/frontend/src/store/electionStore.js:8-10 | fetching twice gives the same state as fetching once |
| `ElectionStore.RunPending` | VotingSystem/frontend/src/store/electionStore.js:25 | after any sequence of calls, the pending list is every application built by a submit that did not throw, newest first, in front of the earlier list; none is filtered by status or dropped |
| `ElectionStore.RunElections` | VotingSystem/frontend/src/store/electionStore.js:8-10 | after any sequence of calls, the elections are the fixture if some call was a fetch, and are unchanged otherwise |
| `ElectionStore.LookupAfterRun` | VotingSystem/frontend/src/store/electionStore.js:12-15 | from a new store, after any sequence of calls, `getElectionById` returns the first match in the fixture's list, whether or not a fetch happened |
| `ElectionStore.Store.constructor` | VotingSystem/frontend/src/store/electionStore.js:4-6 | the store holds the fixture and starts in the initial state |
| `ElectionStore.Store.FetchElections` | VotingSystem/frontend/src/store/electionStore.js:8-10 | the store's new state is the fetched state of the old one |
| `ElectionStore.Store.GetElectionById` | VotingSystem/frontend/src/store/electionStore.js:12-15 | answers from the current fields without changing anything: the first match in the store's list when that list is non-empty, otherwise the first match in the fixture's list for the category |
| `ElectionStore.Store.SubmitCandidateApplication` | VotingSystem/frontend/src/store/electionStore.js:17-27 | the call throws (result `None`) exactly when the election id cannot be printed, and then the store is unchanged; otherwise the new state is the old one with the built application prepended, and the returned id is the payload's `id` if it has one and the default id otherwise, equal to the `id` of the new head of the pending list |
| `ElectionStore.Store.GetPendingCandidates` | VotingSystem/frontend/src/store/electionStore.js:29-31 | returns the current pending list itself, unfiltered, without changing state |

## Left out

- The zustand machinery (`create`, `set`, `get`, subscriptions and re-rendering of components): the store is a class whose methods assign its fields directly.
- The pages that use the store (`ElectionCandidates.jsx`, `CandidateApprovals.jsx`): rendering, animation, modal state and date formatting are UI.
- The server side: candidacy approval and rejection, candidate counters, and vote tally, turnout and winner aggregation. None of these is in the store.
- The clock: `Date.now()` and `new Date().toISOString()` are parameters. The ISO-8601 formatting of the timestamp is not modelled.
- The fixture `elections.json`: its content is a parameter. It is assumed to have the store's shape, an object whose categories hold lists of objects. Other shapes are not modelled. In the source, a category holding `null` or `undefined` gives `undefined` through the optional chaining at line 14, as a missing category does. A category holding a non-list value other than those raises a TypeError. A list element that is `null` or `undefined` raises a TypeError when `find` reaches it, that is when no earlier element matches. Categories that only exist on the object prototype (such as `constructor`) are not modelled either.
- Negative clock readings: `Date.now()` is taken as a non-negative number of milliseconds. A clock set before 1970 would print a `-` sign in the default id. That sign would become the id's last dash, so `DefaultIdRoundTrip` and `DefaultIdInjective` do not cover that case.
- Numbers: only safe integers are modelled. Fractional numbers, `NaN`, `-0` and integers past 2^53 (printed in exponent form from 10^21 on) are left out.
- Property order: objects are maps, so the key order of the built application is not modelled.
- References: `fetchElections` stores the fixture object itself, and the pending list returned is the store's own array. The model has values only, so it does not capture this aliasing. Ids are compared only against primitives. An array or object as the looked-up id, which JavaScript compares by reference, is not modelled.
- Errors are modelled only for the template literal at line 19: the model returns `None` and leaves the store unchanged. The exception itself, and how callers catch it, are not modelled.
- Payloads that are not plain objects are not modelled. A `null` or `undefined` payload spreads nothing, like an empty map. A string payload spreads its characters.
