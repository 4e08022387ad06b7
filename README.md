# U2F sample server: session state machine and client helpers

This project models, in Dafny, the two pieces of logic that the U2F sample
relying-party server (kitsook/u2f-sample-server) implements itself:

* **The per-session enrolment/authentication state machine** of `index.js`.
  Four route handlers read and write four session slots: `challenge` (the
  outstanding registration request), `registration` (the list of completed
  registrations), `startAuthen` (the outstanding sign request) and `devReg`
  (the registration being authenticated). The handlers are modelled twice.
  `Server.Session` is a class whose methods assign the fields in place, as
  the handlers do. Beside it are pure transition functions over a
  `SessionState` value (`BeginEnrollStep`, `FinishEnrollStep`,
  `BeginAuthenStep`, `FinishAuthenStep`). Each method's postcondition
  equates its new state and reply with the matching transition. Lemmas over
  whole sequences of requests (`Run`) state what the handlers keep and
  change. The four node-u2flib-server calls are oracles: the fields of a
  `Library` value, applied to exactly the arguments the handler passes.
* **The client helpers of `js/util.js`**. `timeStamp` is a method over the
  fields of a `Date`, proved against a specification `Stamp`. A parser
  `Read` reads a stamp back, and the stamp of every valid time reads back as
  its fields (`StampReadsBack`). `isU2fError` is a function over a small
  model of JavaScript values. The `ready` handler's loop that inverts
  `u2f.ErrorCodes` into `u2ferrors` is a method with loop invariants.

`text.dfy` holds the string conversions the JavaScript performs implicitly:
decimal rendering of numbers and `Array.prototype.join`. It also holds
their inverses, `DecimalValue` and `Split`, with the round-trip lemmas.

Where the code and the U2F design it follows disagree, the model follows the
code:
* A failed finish-enrolment or finish-authentication leaves its challenge
  stored. The design clears a challenge after either outcome.
* The counter returned by finishAuthentication is only sent back to the
  client. It is never written into the stored registration.
* A finish handler called with no outstanding challenge is not rejected by
  the handler. It hands `undefined` or `null` to the library (`None` in the
  model): the slot is `null` after a successful finish.
* Only one begin-authentication failure is the handler's own: a missing
  registration list, which throws a TypeError before any slot is written.

## Model

| member | source | states |
|---|---|---|
| `Util.Suffix` | js/util.js:46 | the suffix is "AM" exactly when the 24-hour value is below 12, and "PM" otherwise |
| `Util.Hour12` | js/util.js:49-52 | for a 24-hour value the shown hour is in 1..12, agrees with it modulo 12, and together with the suffix gives the 24-hour value back |
| `Util.Pad2` | js/util.js:55-59 | minutes and seconds below 100 are shown as exactly two digits denoting the value; from 10 on they are shown unchanged |
| `Util.Pad3` | js/util.js:62-66 | milliseconds below 1000 are shown as exactly three digits denoting the value; from 100 on they are shown unchanged |
| `Util.TimeStamp` | js/util.js:33-70 | the method's result, built with in-place padding of the time array, is the stamp `Stamp` of the given time |
| `Util.DateReadsBack` | js/util.js:38 | the date part reads back as the 1-based month, the day and the year, in that order, separated by "/" |
| `Util.ClockReadsBack` | js/util.js:41-66 | the clock part reads back as the unpadded 12-hour hour, two-digit minutes and seconds, and three-digit milliseconds after "." |
| `Util.ReadWords` | js/util.js:69 | a line "[" date " " clock " " suffix "]" splits back into exactly those three words |
| `Util.StampReadsBack` | js/util.js:33-70 | the stamp of any valid time reads back as month+1, day, year, 12-hour hour, minutes, seconds, milliseconds, and PM exactly from noon on |
| `Util.StampInjective` | js/util.js:33-70 | two valid times with the same stamp are equal: the format loses no field |
| `Util.IsU2fError` | js/util.js:76-81 | true exactly for an object whose errorCode is truthy; false for undefined, a primitive, an absent errorCode or errorCode 0; a TypeError exactly for null |
| `Util.StandardCodesAreErrors` | js/util.js:76-81 | of the standard U2F error codes, every code except OK makes a response an error |
| `Util.InvertErrorCodes` | js/util.js:21-28 | the loop, starting from the empty object and storing `u2ferrors[code] = key` entry by entry, yields `Inverted` of the table |
| `Util.InvertedInverts` | js/util.js:25-27 | the keys of the inverted table are exactly the codes of the table, and each code maps to the last name in iteration order carrying it |
| `Util.InvertedRoundTrip` | js/util.js:25-27 | when no two names share a code, `u2ferrors[ErrorCodes[k]] == k` for every name k |
| `Util.StandardCodesInvert` | js/util.js:25-27 | for the standard U2F table, every code maps back to its own name |
| `Text.NatToStringValue` | js/util.js:69 | a number converted to a string denotes that number |
| `Text.NatToStringCanonical` | js/util.js:52 | only 0 is rendered with a leading zero, so the 12-hour hour is never padded |
| `Text.SplitJoin` | js/util.js:69 | splitting a joined array on the separator gives the array back when no element contains the separator |
| `Server.Matching` | index.js:100-102 | the filter keeps every stored registration whose key handle equals the requested one, and nothing else |
| `Server.FirstMatchIsFirst` | index.js:100-106 | `devReg[0]` is the registration at the lowest index with the requested key handle, and is undefined exactly when none has it |
| `Server.FirstMatchAppend` | index.js:100-106 | appending a registration keeps an earlier match as the first match; otherwise the new one is the first match when it matches |
| `Server.BeginEnrollStep` | index.js:49-55 | the request issued by startRegistration(APP_ID) replaces the stored challenge and is returned; the other slots are unchanged |
| `Server.FinishEnrollStep` | index.js:57-91 | on success: challenge cleared, the returned registration appended to the list (created if absent), code 0 with that registration; on failure: every slot unchanged, code is the error, registration `{}` |
| `Server.BeginAuthenStep` | index.js:93-110 | throws with nothing changed when no list exists or the library throws; otherwise succeeds exactly when startAuthentication(APP_ID, first match) does, returning and storing its sign request in startAuthen and the first match in devReg, and reports its error as a library error when it throws; never touches challenge or registration |
| `Server.FinishAuthenStep` | index.js:112-143 | code 0 exactly on success; on success startAuthen and devReg are cleared and the library's result is returned; on failure every slot stays; challenge and registration never change |
| `Server.RegistrationsOnlyGrow` | index.js:75-78 | over any sequence of requests the stored list is a prefix of the later list, a created list never disappears, and it grows by at most one per finish-enrolment |
| `Server.AuthenticationLeavesEnrolment` | index.js:93-143 | any sequence of authentication requests leaves challenge and the registration list as they were, so no new counter is persisted |
| `Server.DevRegStaysStored` | index.js:100-106 | over any sequence of requests, devReg when set is one of the stored registrations |
| `Server.EnrolThenAuthenticate` | index.js:69-106 | after a successful enrolment, authenticating with its key handle selects the new registration unless an earlier one has the same key handle |
| `Server.Session.constructor` | index.js:35 | a new session has all four slots unset |
| `Server.Session.BeginEnroll` | index.js:49-55 | the handler's field updates and reply are those of BeginEnrollStep |
| `Server.Session.FinishEnroll` | index.js:57-91 | the handler's field updates, including the in-place creation and push of the list, and reply are those of FinishEnrollStep |
| `Server.Session.BeginAuthen` | index.js:93-110 | the handler's field updates and outcome are those of BeginAuthenStep |
| `Server.Session.FinishAuthen` | index.js:112-143 | the handler's field updates and reply are those of FinishAuthenStep |

## Left out

- HTTPS server creation, the TLS key and certificate reads and `listen` (index.js:30-32, 164-172): I/O.
- Express setup, static routes, session middleware and the `/demo` and `/loop` pages (index.js:34-39, 145-161): framework plumbing. Sessions start empty, as `saveUninitialized` gives them.
- Parsing of the URL and query string into the device response (index.js:59-60, 115-116): the parsed query is an opaque `DeviceResponse`.
- `console.log` output and `JSON.stringify` of replies: the replies are modelled as values, not as their JSON text.
- Everything inside node-u2flib-server: challenge generation, attestation and signature checks, origin, challenge and counter checks. The library calls are oracles, and the model claims none of these checks.
- Concurrent requests on one session: requests are applied one after another.
- `logMsg`, `logErr`, `logU2FError` and `logU2FResponse` (js/util.js:83-107): jQuery DOM manipulation and scrolling.
- Reading the wall clock with `new Date()` (js/util.js:35): the date fields are a parameter.
- The u2f.ErrorCodes table (`Util.U2F_ERROR_CODES`) is defined in u2f-api.js (the FIDO U2F JavaScript API), which is not part of this model; its standard values OK=0 to TIMEOUT=5 are written out so that `StandardCodesAreErrors` and `StandardCodesInvert` can state what the helpers do with them.
- `Util.IsU2fError`: JavaScript numbers are modelled as integers, so NaN and fractional error codes are not covered, and an object is reduced to its `errorCode` property.
- `Util.InvertErrorCodes`: for-in order is taken as the order of the given table (true for the non-numeric names of u2f.ErrorCodes); the `u2ferrors` global is modelled as the map the loop returns, starting empty.
- `Util.TimeStamp`: years and other date fields are non-negative integers; `StampReadsBack` assumes the ranges a `Date` guarantees.
- `Server.Matching`: the query parameter `keyHandle` is a string or absent; an array-valued query parameter is not modelled.
