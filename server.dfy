/**
 * The route handlers of index.js that drive the U2F exchange. Each request
 * reads and writes four slots of its session: `challenge` (the outstanding
 * registration request), `registration` (the list of completed
 * registrations), `startAuthen` (the outstanding sign request) and `devReg`
 * (the registration being authenticated). The node-u2flib-server calls are
 * oracles supplied by the caller as a `Library`.
 */
module Server {
  import opened Wrappers
  import Text

  const HOSTNAME: string := "localhost"
  const PORT_NUM: nat := 4430
  const APP_ID: string := "https://" + HOSTNAME + ":" + Text.NatToString(PORT_NUM)

  // ---------------------------------------------------------------------------
  // Values exchanged with the library. Only `keyHandle` of a registration is
  // read by the handlers; the other fields are carried along untouched.
  // ---------------------------------------------------------------------------

  /** What startRegistration issues and begin-enrolment stores in `challenge`. */
  datatype RegisterRequest = RegisterRequest(appId: string, version: string, challenge: string)

  /** What finishRegistration returns on success. */
  datatype Registration = Registration(keyHandle: string, publicKey: string, certificate: string)

  /** What startAuthentication issues and begin-authentication stores in `startAuthen`. */
  datatype SignRequest = SignRequest(appId: string, version: string, challenge: string, keyHandle: string)

  /** What finishAuthentication returns on success, including the token's new counter. */
  datatype Authentication = Authentication(keyHandle: string, userPresence: int, counter: int)

  /** The device response: the request's parsed query string. */
  datatype DeviceResponse = DeviceResponse(query: map<string, string>)

  /** An error thrown by the library. */
  datatype U2fError = U2fError(message: string)

  /**
   * The four calls into node-u2flib-server, each given the values the handler
   * passes it. `None` stands for an `undefined` or `null` argument.
   */
  datatype Library = Library(
    startRegistration: string -> RegisterRequest,
    finishRegistration: (Option<RegisterRequest>, DeviceResponse) -> Result<Registration, U2fError>,
    startAuthentication: (string, Option<Registration>) -> Result<SignRequest, U2fError>,
    finishAuthentication: (Option<SignRequest>, DeviceResponse, Option<Registration>) -> Result<Authentication, U2fError>)

  // ---------------------------------------------------------------------------
  // Session slots and replies
  // ---------------------------------------------------------------------------

  /** The four session slots; `None` is an unset (undefined or null) slot. */
  datatype SessionState = SessionState(
    challenge: Option<RegisterRequest>,
    registration: Option<seq<Registration>>,
    startAuthen: Option<SignRequest>,
    devReg: Option<Registration>)

  /** A session no handler has touched yet. */
  const NewSession := SessionState(None, None, None, None)

  /** The stored registrations; an absent list holds none. */
  function Stored(s: SessionState): seq<Registration> {
    if s.registration.Some? then s.registration.value else []
  }

  /** The `code` of a finish reply: 0, or the error caught. */
  datatype ReturnCode = Zero | Thrown(err: U2fError)

  /** `{ code, registration }`; `registration` is `{}` (None) on failure. */
  datatype EnrollReply = EnrollReply(code: ReturnCode, registration: Option<Registration>)

  /** `{ code, authentication }`; `authentication` is `{}` (None) on failure. */
  datatype AuthenReply = AuthenReply(code: ReturnCode, authentication: Option<Authentication>)

  /** Why begin-authentication throws instead of answering. */
  datatype BeginAuthenError =
    | NoRegistrationList           // `req.session.registration` is undefined: TypeError on `.filter`
    | LibraryError(err: U2fError)  // startAuthentication threw

  // ---------------------------------------------------------------------------
  // The key-handle filter
  // ---------------------------------------------------------------------------

  /**
   * `reg.keyHandle == req.query.keyHandle`. A missing query parameter matches
   * nothing, because every modelled registration carries a string key handle
   * (in JavaScript, `undefined == undefined` would match a registration without one).
   */
  predicate Matches(reg: Registration, keyHandle: Option<string>) {
    keyHandle.Some? && reg.keyHandle == keyHandle.value
  }

  /** `registration.filter(...)`: the matching registrations, in list order. */
  function Matching(regs: seq<Registration>, keyHandle: Option<string>): (r: seq<Registration>)
    ensures forall x :: x in r ==> x in regs && Matches(x, keyHandle)
    ensures forall i :: 0 <= i < |regs| && Matches(regs[i], keyHandle) ==> regs[i] in r
  {
    if regs == [] then []
    else (if Matches(regs[0], keyHandle) then [regs[0]] else []) + Matching(regs[1..], keyHandle)
  }

  /** `devReg[0]`: the first match, or undefined. */
  function FirstMatch(regs: seq<Registration>, keyHandle: Option<string>): Option<Registration> {
    var m := Matching(regs, keyHandle);
    if |m| == 0 then None else Some(m[0])
  }

  /**
   * The first match is the registration at the lowest index whose key handle
   * equals the requested one; there is none exactly when no index matches.
   */
  lemma {:induction false} FirstMatchIsFirst(regs: seq<Registration>, keyHandle: Option<string>)
    ensures FirstMatch(regs, keyHandle).None? <==> forall i :: 0 <= i < |regs| ==> !Matches(regs[i], keyHandle)
    ensures FirstMatch(regs, keyHandle).Some? ==>
      exists i :: 0 <= i < |regs| && regs[i] == FirstMatch(regs, keyHandle).value && Matches(regs[i], keyHandle)
        && forall j :: 0 <= j < i ==> !Matches(regs[j], keyHandle)
    decreases |regs|
  {
    if regs != [] && !Matches(regs[0], keyHandle) {
      FirstMatchIsFirst(regs[1..], keyHandle);
      assert Matching(regs, keyHandle) == Matching(regs[1..], keyHandle);
      if FirstMatch(regs, keyHandle).Some? {
        var i :| 0 <= i < |regs| - 1 && regs[1..][i] == FirstMatch(regs, keyHandle).value
          && Matches(regs[1..][i], keyHandle) && forall j :: 0 <= j < i ==> !Matches(regs[1..][j], keyHandle);
        assert forall j :: 0 <= j < i + 1 ==> !Matches(regs[j], keyHandle) by {
          forall j | 0 <= j < i + 1 ensures !Matches(regs[j], keyHandle) {
            if j > 0 { assert regs[j] == regs[1..][j - 1]; }
          }
        }
      } else {
        forall i | 0 <= i < |regs| ensures !Matches(regs[i], keyHandle) {
          if i > 0 { assert regs[i] == regs[1..][i - 1]; }
        }
      }
    } else if regs != [] {
      assert Matching(regs, keyHandle)[0] == regs[0];
    }
  }

  /** Appending a registration leaves the first match of an earlier one in place. */
  lemma {:induction false} FirstMatchAppend(regs: seq<Registration>, reg: Registration, keyHandle: Option<string>)
    ensures FirstMatch(regs + [reg], keyHandle) ==
      if FirstMatch(regs, keyHandle).Some? then FirstMatch(regs, keyHandle)
      else if Matches(reg, keyHandle) then Some(reg)
      else None
    decreases |regs|
  {
    if regs == [] {
      assert Matching([reg], keyHandle) == (if Matches(reg, keyHandle) then [reg] else []) + Matching([], keyHandle);
    } else {
      assert (regs + [reg])[1..] == regs[1..] + [reg];
      FirstMatchAppend(regs[1..], reg, keyHandle);
    }
  }

  // ---------------------------------------------------------------------------
  // The four handlers as transitions of the session slots
  // ---------------------------------------------------------------------------

  /** BEGIN_ENROLL_ADDR: issue a registration request and keep it as the challenge. */
  function BeginEnrollStep(s: SessionState, lib: Library): (r: (SessionState, RegisterRequest))
    ensures r.1 == lib.startRegistration(APP_ID)
    ensures r.0.challenge == Some(r.1)
    ensures r.0.registration == s.registration && r.0.startAuthen == s.startAuthen && r.0.devReg == s.devReg
  {
    var challenge := lib.startRegistration(APP_ID);
    (s.(challenge := Some(challenge)), challenge)
  }

  /**
   * FINISH_ENROLL_ADDR: hand the stored challenge and the device response to
   * finishRegistration. On success the challenge is cleared and the new
   * registration appended; on failure nothing changes.
   */
  function FinishEnrollStep(s: SessionState, lib: Library, response: DeviceResponse): (r: (SessionState, EnrollReply))
    ensures r.0.startAuthen == s.startAuthen && r.0.devReg == s.devReg
    ensures r.1.code == Zero <==> lib.finishRegistration(s.challenge, response).Success?
    ensures r.1.code == Zero ==>
      && r.0.challenge == None
      && r.1.registration.Some?
      && r.0.registration == Some(Stored(s) + [r.1.registration.value])
      && r.1.registration == Some(lib.finishRegistration(s.challenge, response).value)
    ensures r.1.code != Zero ==>
      && r.0 == s && r.1.registration == None
      && r.1.code == Thrown(lib.finishRegistration(s.challenge, response).error)
  {
    match lib.finishRegistration(s.challenge, response)
    case Success(reg) =>
      (s.(challenge := None, registration := Some(Stored(s) + [reg])), EnrollReply(Zero, Some(reg)))
    case Failure(err) =>
      (s, EnrollReply(Thrown(err), None))
  }

  /**
   * BEGIN_AUTHEN_ADDR: pick the first stored registration with the requested
   * key handle and ask startAuthentication for a sign request for it. Throws,
   * changing nothing, when there is no registration list or the library throws.
   */
  function BeginAuthenStep(s: SessionState, lib: Library, keyHandle: Option<string>)
    : (r: (SessionState, Result<SignRequest, BeginAuthenError>))
    ensures r.0.challenge == s.challenge && r.0.registration == s.registration
    ensures s.registration.None? ==> r == (s, Failure(NoRegistrationList))
    ensures r.1.Failure? ==> r.0 == s
    ensures r.1.Success? ==>
      && r.0.startAuthen == Some(r.1.value)
      && r.0.devReg == FirstMatch(s.registration.value, keyHandle)
    ensures s.registration.Some? ==>
      var issued := lib.startAuthentication(APP_ID, FirstMatch(s.registration.value, keyHandle));
      && (r.1.Success? <==> issued.Success?)
      && (issued.Success? ==> r.1.value == issued.value)
      && (issued.Failure? ==> r.1 == Failure(LibraryError(issued.error)))
  {
    if s.registration.None? then (s, Failure(NoRegistrationList))
    else
      var devReg := FirstMatch(s.registration.value, keyHandle);
      match lib.startAuthentication(APP_ID, devReg)
      case Success(startAuthen) => (s.(startAuthen := Some(startAuthen), devReg := devReg), Success(startAuthen))
      case Failure(err) => (s, Failure(LibraryError(err)))
  }

  /**
   * FINISH_AUTHEN_ADDR: hand the stored sign request, the device response and
   * the stored registration to finishAuthentication. On success both
   * authentication slots are cleared; on failure they stay. The returned
   * counter is only sent back: the registrations are never updated.
   */
  function FinishAuthenStep(s: SessionState, lib: Library, response: DeviceResponse): (r: (SessionState, AuthenReply))
    ensures r.0.challenge == s.challenge && r.0.registration == s.registration
    ensures r.1.code == Zero <==> lib.finishAuthentication(s.startAuthen, response, s.devReg).Success?
    ensures r.1.code == Zero ==>
      && r.0.startAuthen == None && r.0.devReg == None
      && r.1.authentication == Some(lib.finishAuthentication(s.startAuthen, response, s.devReg).value)
    ensures r.1.code != Zero ==>
      && r.0 == s && r.1.authentication == None
      && r.1.code == Thrown(lib.finishAuthentication(s.startAuthen, response, s.devReg).error)
  {
    match lib.finishAuthentication(s.startAuthen, response, s.devReg)
    case Success(authentication) =>
      (s.(startAuthen := None, devReg := None), AuthenReply(Zero, Some(authentication)))
    case Failure(err) =>
      (s, AuthenReply(Thrown(err), None))
  }

  // ---------------------------------------------------------------------------
  // Sequences of requests on one session
  // ---------------------------------------------------------------------------

  /** One request to one of the four routes, with the library's behaviour for that call. */
  datatype Request =
    | BeginEnroll(lib: Library)
    | FinishEnroll(lib: Library, response: DeviceResponse)
    | BeginAuthen(lib: Library, keyHandle: Option<string>)
    | FinishAuthen(lib: Library, response: DeviceResponse)

  function Step(s: SessionState, req: Request): SessionState {
    match req
    case BeginEnroll(lib) => BeginEnrollStep(s, lib).0
    case FinishEnroll(lib, response) => FinishEnrollStep(s, lib, response).0
    case BeginAuthen(lib, keyHandle) => BeginAuthenStep(s, lib, keyHandle).0
    case FinishAuthen(lib, response) => FinishAuthenStep(s, lib, response).0
  }

  /** The session after the requests, one after the other. */
  function Run(s: SessionState, reqs: seq<Request>): SessionState
    decreases |reqs|
  {
    if reqs == [] then s else Run(Step(s, reqs[0]), reqs[1..])
  }

  function EnrollFinishes(reqs: seq<Request>): nat
    decreases |reqs|
  {
    if reqs == [] then 0 else (if reqs[0].FinishEnroll? then 1 else 0) + EnrollFinishes(reqs[1..])
  }

  predicate IsAuthentication(req: Request) {
    req.BeginAuthen? || req.FinishAuthen?
  }

  /**
   * The registration list only grows at its end: whatever was stored stays,
   * in order, a list once created is never removed, and each request adds at
   * most one entry, and only a finish-enrolment adds any.
   */
  lemma {:induction false} RegistrationsOnlyGrow(s: SessionState, reqs: seq<Request>)
    ensures Stored(s) <= Stored(Run(s, reqs))
    ensures s.registration.Some? ==> Run(s, reqs).registration.Some?
    ensures |Stored(Run(s, reqs))| <= |Stored(s)| + EnrollFinishes(reqs)
    decreases |reqs|
  {
    if reqs != [] {
      var next := Step(s, reqs[0]);
      assert Stored(s) <= Stored(next);
      RegistrationsOnlyGrow(next, reqs[1..]);
    }
  }

  /**
   * Authentication requests never touch the enrolment slots: the challenge
   * and the registration list come out as they went in.
   */
  lemma {:induction false} AuthenticationLeavesEnrolment(s: SessionState, reqs: seq<Request>)
    requires forall k :: 0 <= k < |reqs| ==> IsAuthentication(reqs[k])
    ensures Run(s, reqs).challenge == s.challenge
    ensures Run(s, reqs).registration == s.registration
    decreases |reqs|
  {
    if reqs != [] {
      AuthenticationLeavesEnrolment(Step(s, reqs[0]), reqs[1..]);
    }
  }

  /** `devReg`, when set, names a registration that is stored in the session. */
  predicate DevRegStored(s: SessionState) {
    s.devReg.Some? ==> s.devReg.value in Stored(s)
  }

  /** Every request keeps `devReg` pointing into the stored list. */
  lemma {:induction false} DevRegStaysStored(s: SessionState, reqs: seq<Request>)
    requires DevRegStored(s)
    ensures DevRegStored(Run(s, reqs))
    decreases |reqs|
  {
    if reqs != [] {
      var next := Step(s, reqs[0]);
      if reqs[0].BeginAuthen? && BeginAuthenStep(s, reqs[0].lib, reqs[0].keyHandle).1.Success? {
        FirstMatchIsFirst(s.registration.value, reqs[0].keyHandle);
      }
      assert DevRegStored(next);
      DevRegStaysStored(next, reqs[1..]);
    }
  }

  /**
   * Enrol, then authenticate with the new key handle: the registration chosen
   * for authentication is the new one, unless an earlier registration already
   * had that key handle, in which case the earlier one wins.
   */
  lemma EnrolThenAuthenticate(s: SessionState, lib1: Library, response: DeviceResponse, lib2: Library)
    requires lib1.finishRegistration(s.challenge, response).Success?
    requires lib2.startAuthentication(APP_ID, FirstMatch(Stored(s) + [lib1.finishRegistration(s.challenge, response).value],
      Some(lib1.finishRegistration(s.challenge, response).value.keyHandle))).Success?
    ensures var reg := lib1.finishRegistration(s.challenge, response).value;
      var s1 := FinishEnrollStep(s, lib1, response).0;
      var s2 := BeginAuthenStep(s1, lib2, Some(reg.keyHandle)).0;
      s2.devReg == (if FirstMatch(Stored(s), Some(reg.keyHandle)).Some? then FirstMatch(Stored(s), Some(reg.keyHandle)) else Some(reg))
  {
    var reg := lib1.finishRegistration(s.challenge, response).value;
    FirstMatchAppend(Stored(s), reg, Some(reg.keyHandle));
  }

  // ---------------------------------------------------------------------------
  // The session object the handlers mutate
  // ---------------------------------------------------------------------------

  /** `req.session`: its four slots are fields the handlers assign in place. */
  class Session {
    var challenge: Option<RegisterRequest>
    var registration: Option<seq<Registration>>
    var startAuthen: Option<SignRequest>
    var devReg: Option<Registration>

    function State(): SessionState
      reads this
    {
      SessionState(challenge, registration, startAuthen, devReg)
    }

    /** A fresh session: every slot unset. */
    constructor ()
      ensures State() == NewSession
    {
      challenge, registration, startAuthen, devReg := None, None, None, None;
    }

    /** GET BEGIN_ENROLL_ADDR. */
    method BeginEnroll(lib: Library) returns (reply: RegisterRequest)
      modifies this
      ensures (State(), reply) == BeginEnrollStep(old(State()), lib)
    {
      var issued := lib.startRegistration(APP_ID);
      challenge := Some(issued);
      reply := issued;
    }

    /** GET FINISH_ENROLL_ADDR. */
    method FinishEnroll(lib: Library, response: DeviceResponse) returns (reply: EnrollReply)
      modifies this
      ensures (State(), reply) == FinishEnrollStep(old(State()), lib, response)
    {
      var registered: Option<Registration> := None;
      var returnCode := Zero;
      var outcome := lib.finishRegistration(challenge, response);
      match outcome {
        case Success(reg) =>
          registered := Some(reg);
          challenge := None;
          if registration.None? {
            registration := Some([]);
          }
          registration := Some(registration.value + [reg]);
        case Failure(err) =>
          returnCode := Thrown(err);
      }
      reply := EnrollReply(returnCode, registered);
    }

    /** GET BEGIN_AUTHEN_ADDR with query parameter `keyHandle`. */
    method BeginAuthen(lib: Library, keyHandle: Option<string>) returns (reply: Result<SignRequest, BeginAuthenError>)
      modifies this
      ensures (State(), reply) == BeginAuthenStep(old(State()), lib, keyHandle)
    {
      if registration.None? {
        return Failure(NoRegistrationList);
      }
      var matching := Matching(registration.value, keyHandle);
      var first := if |matching| == 0 then None else Some(matching[0]);
      var started := lib.startAuthentication(APP_ID, first);
      if started.Failure? {
        return Failure(LibraryError(started.error));
      }
      startAuthen := Some(started.value);
      devReg := first;
      reply := Success(started.value);
    }

    /** GET FINISH_AUTHEN_ADDR. */
    method FinishAuthen(lib: Library, response: DeviceResponse) returns (reply: AuthenReply)
      modifies this
      ensures (State(), reply) == FinishAuthenStep(old(State()), lib, response)
    {
      var authentication: Option<Authentication> := None;
      var returnCode := Zero;
      var outcome := lib.finishAuthentication(startAuthen, response, devReg);
      match outcome {
        case Success(result) =>
          authentication := Some(result);
          startAuthen := None;
          devReg := None;
        case Failure(err) =>
          returnCode := Thrown(err);
      }
      reply := AuthenReply(returnCode, authentication);
    }
  }
}
