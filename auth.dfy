/** The authentication context (`src/context/AuthContext.tsx`): the device credential and the
    session id held in memory, mirrored into storage, and the calls that obtain a session. The
    React state is modelled as the fields of one object whose methods run one at a time. */
module Auth {
  import opened Wrappers
  import opened Storage
  import opened Api
  import opened Ids

  const MissingCredentials: string := "Missing device credentials"

  /** What a successful enrollment returns. */
  datatype Enrollment = Enrollment(deviceId: string, pin: string, sessionId: string)

  class AuthContext {
    var deviceId: Option<string>
    var pin: Option<string>
    var sessionId: Option<string>
    const storage: CredentialStore
    const platform: Platform

    /** `isAuthenticated`: both halves of the credential are non-empty strings. */
    function IsAuthenticated(): (r: bool)
      reads this
      ensures r <==> deviceId.Some? && deviceId.value != "" && pin.Some? && pin.value != ""
    {
      Truthy(deviceId) && Truthy(pin)
    }

    /** Memory and storage agree, up to JavaScript truthiness: a credential is in memory
        exactly when one can be loaded from storage, and so is a session id. */
    predicate Consistent()
      reads this, storage
    {
      && CredentialsIn(storage.items) == (if IsAuthenticated() then Some(Credentials(deviceId.value, pin.value)) else None)
      && Truthy(SessionIn(storage.items)) == Truthy(sessionId)
      && (Truthy(sessionId) ==> SessionIn(storage.items) == sessionId)
    }

    /** The initial load: the credential and the session id are read from storage. */
    constructor (storage: CredentialStore, platform: Platform)
      ensures this.storage == storage && this.platform == platform
      ensures CredentialsIn(storage.items).Some? ==>
        deviceId == Some(CredentialsIn(storage.items).value.deviceId) && pin == Some(CredentialsIn(storage.items).value.pin)
      ensures CredentialsIn(storage.items).None? ==> deviceId == None && pin == None
      ensures IsAuthenticated() <==> CredentialsIn(storage.items).Some?
      ensures sessionId == SessionIn(storage.items)
      ensures Consistent()
    {
      this.storage := storage;
      this.platform := platform;
      var existing := storage.LoadCredentials();
      var existingSessionId := storage.LoadSessionId();
      if existing.Some? {
        deviceId := Some(existing.value.deviceId);
        pin := Some(existing.value.pin);
      } else {
        deviceId := None;
        pin := None;
      }
      sessionId := existingSessionId;
    }

    /** `setSessionId`: a non-empty id is saved, anything else clears the stored slot; memory
        takes the argument as it is. */
    method SetSessionId(next: Option<string>)
      modifies this, storage
      ensures sessionId == next
      ensures Truthy(next) ==> storage.items == WithSession(old(storage.items), next.value)
      ensures !Truthy(next) ==> storage.items == WithoutSession(old(storage.items))
      ensures deviceId == old(deviceId) && pin == old(pin)
      ensures old(Consistent()) ==> Consistent()
    {
      if Truthy(next) {
        storage.SaveSessionId(next.value);
      } else {
        storage.ClearSessionId();
      }
      sessionId := next;
      SessionOpsKeepCredentials(old(storage.items), if next.Some? then next.value else "");
    }

    /** `setCredentials`: saves both halves, then holds them in memory. */
    method SetCredentials(nextDeviceId: string, nextPin: string)
      modifies this, storage
      ensures storage.items == WithCredentials(old(storage.items), nextDeviceId, nextPin)
      ensures deviceId == Some(nextDeviceId) && pin == Some(nextPin) && sessionId == old(sessionId)
      ensures IsAuthenticated() <==> nextDeviceId != "" && nextPin != ""
      ensures old(Consistent()) ==> Consistent()
    {
      storage.SaveCredentials(nextDeviceId, nextPin);
      deviceId := Some(nextDeviceId);
      pin := Some(nextPin);
      CredentialsSavedAreLoaded(old(storage.items), nextDeviceId, nextPin);
      CredentialOpsKeepSession(old(storage.items), nextDeviceId, nextPin);
    }

    /** `clearCredentials`: the credential and the session go, in memory and in storage. */
    method ClearCredentials()
      modifies this, storage
      ensures storage.items == WithoutSession(WithoutCredentials(old(storage.items)))
      ensures deviceId == None && pin == None && sessionId == None
      ensures !IsAuthenticated()
      ensures CredentialsIn(storage.items) == None && SessionIn(storage.items) == None
      ensures Consistent()
    {
      storage.ClearCredentials();
      deviceId := None;
      pin := None;
      SetSessionId(None);
      SessionOpsKeepCredentials(WithoutCredentials(old(storage.items)), "");
      ClearThenLoadCredentials(old(storage.items));
    }

    /** The authentication shared by `ensureSessionId` and `refreshSessionId`, once the
        credential is known to be present: one `authenticatePin` request, whose session id
        then goes through `setSessionId`. */
    method Authenticate() returns (r: Result<string, string>)
      requires IsAuthenticated()
      modifies this, storage, platform
      ensures deviceId == old(deviceId) && pin == old(pin)
      ensures platform.calls == old(platform.calls) + [AuthenticatePinCall(deviceId.value, pin.value)]
      ensures
        var reply := platform.authenticatePinReply(|old(platform.calls)|, deviceId.value, pin.value);
        match reply
        case Value(s) =>
          && r == Ok(s) && sessionId == Some(s)
          && storage.items == (if s != "" then WithSession(old(storage.items), s) else WithoutSession(old(storage.items)))
        case Thrown(m) =>
          r == Err(m) && sessionId == old(sessionId) && storage.items == old(storage.items)
      ensures old(Consistent()) ==> Consistent()
    {
      var reply := platform.AuthenticatePin(deviceId.value, pin.value);
      match reply
      case Thrown(m) =>
        return Err(m);
      case Value(newSession) =>
        SetSessionId(Some(newSession));
        return Ok(newSession);
    }

    /** `ensureSessionId`: the session in memory if there is one; else the stored one, adopted
        into memory; else a new one from `authenticatePin`, which needs the credential. */
    method EnsureSessionId() returns (r: Result<string, string>)
      modifies this, storage, platform
      ensures deviceId == old(deviceId) && pin == old(pin)
      // a session in memory is returned as it is, without a request
      ensures Truthy(old(sessionId)) ==>
        && r == Ok(old(sessionId).value) && sessionId == old(sessionId)
        && storage.items == old(storage.items) && platform.calls == old(platform.calls)
      // otherwise a stored session is adopted, without a request
      ensures !Truthy(old(sessionId)) && Truthy(old(SessionIn(storage.items))) ==>
        && r == Ok(old(SessionIn(storage.items)).value) && sessionId == old(SessionIn(storage.items))
        && storage.items == old(storage.items) && platform.calls == old(platform.calls)
      // otherwise, without a credential, the call fails without a request
      ensures !Truthy(old(sessionId)) && !Truthy(old(SessionIn(storage.items))) && !IsAuthenticated() ==>
        && r == Err(MissingCredentials) && sessionId == old(sessionId)
        && storage.items == old(storage.items) && platform.calls == old(platform.calls)
      // otherwise exactly one authentication request is made
      ensures !Truthy(old(sessionId)) && !Truthy(old(SessionIn(storage.items))) && IsAuthenticated() ==>
        && platform.calls == old(platform.calls) + [AuthenticatePinCall(deviceId.value, pin.value)]
        && var reply := platform.authenticatePinReply(|old(platform.calls)|, deviceId.value, pin.value);
           match reply
           case Value(s) =>
             && r == Ok(s) && sessionId == Some(s)
             && storage.items == (if s != "" then WithSession(old(storage.items), s) else WithoutSession(old(storage.items)))
           case Thrown(m) =>
             r == Err(m) && sessionId == old(sessionId) && storage.items == old(storage.items)
      ensures old(Consistent()) ==> Consistent()
      // a successful call always leaves the returned id in memory
      ensures r.Ok? ==> sessionId == Some(r.value)
    {
      if Truthy(sessionId) {
        return Ok(sessionId.value);
      }
      var maybeStored := storage.LoadSessionId();
      if Truthy(maybeStored) {
        sessionId := maybeStored;
        return Ok(maybeStored.value);
      }
      if !Truthy(deviceId) || !Truthy(pin) {
        return Err(MissingCredentials);
      }
      r := Authenticate();
    }

    /** `refreshSessionId`: always a new session from `authenticatePin`, which needs the
        credential. */
    method RefreshSessionId() returns (r: Result<string, string>)
      modifies this, storage, platform
      ensures deviceId == old(deviceId) && pin == old(pin)
      ensures !IsAuthenticated() ==>
        && r == Err(MissingCredentials) && sessionId == old(sessionId)
        && storage.items == old(storage.items) && platform.calls == old(platform.calls)
      ensures IsAuthenticated() ==>
        && platform.calls == old(platform.calls) + [AuthenticatePinCall(deviceId.value, pin.value)]
        && var reply := platform.authenticatePinReply(|old(platform.calls)|, deviceId.value, pin.value);
           match reply
           case Value(s) =>
             && r == Ok(s) && sessionId == Some(s)
             && storage.items == (if s != "" then WithSession(old(storage.items), s) else WithoutSession(old(storage.items)))
           case Thrown(m) =>
             r == Err(m) && sessionId == old(sessionId) && storage.items == old(storage.items)
      ensures old(Consistent()) ==> Consistent()
      ensures r.Ok? ==> sessionId == Some(r.value)
    {
      if !Truthy(deviceId) || !Truthy(pin) {
        return Err(MissingCredentials);
      }
      r := Authenticate();
    }

    /** `createCredentialsWithValidatorSession`: a fresh device id (from the 16 random bytes
        `randomBytes`) and PIN (from the random draw `pinDraw`) are registered with `createPin`
        under the validator session; only if that does not throw are they persisted and held in
        memory, and then a session is obtained with them. */
    method CreateCredentialsWithValidatorSession(validatorSessionId: string, randomBytes: seq<bv8>, pinDraw: nat)
      returns (r: Result<Enrollment, string>)
      requires |randomBytes| == 16
      modifies this, storage, platform
      ensures EnrollmentOutcome(
        FormatUuid(Masked(randomBytes)), GeneratePin4(pinDraw), validatorSessionId, old(platform.calls),
        old(storage.items), old(deviceId), old(pin), old(sessionId), r)
      ensures old(Consistent()) ==> Consistent()
    {
      // the identifier `GenerateUuidV4` produces from a buffer holding `randomBytes`
      var newDeviceId := FormatUuid(Masked(randomBytes));
      var newPin := GeneratePin4(pinDraw);
      r := Enroll(newDeviceId, newPin, validatorSessionId);
    }

    /** What the enrollment of a given device id and PIN does: `createPin` first; a credential
        it accepted without throwing is persisted and held in memory before `authenticatePin`
        is asked for a session. */
    predicate EnrollmentOutcome(
      newDeviceId: string, newPin: string, validatorSessionId: string, calls0: seq<Call>,
      items0: map<string, string>, deviceId0: Option<string>, pin0: Option<string>, sessionId0: Option<string>,
      r: Result<Enrollment, string>)
      reads this, storage, platform
    {
      var created := platform.createPinReply(|calls0|, newDeviceId, newPin, validatorSessionId);
      var saved := WithCredentials(items0, newDeviceId, newPin);
      match created
      // createPin threw: no credential is stored or held, and no authentication happens
      case Thrown(m) =>
        && r == Err(m)
        && platform.calls == calls0 + [CreatePinCall(newDeviceId, newPin, validatorSessionId)]
        && storage.items == items0
        && deviceId == deviceId0 && pin == pin0 && sessionId == sessionId0
      case Value(_) =>
        && platform.calls == calls0
             + [CreatePinCall(newDeviceId, newPin, validatorSessionId), AuthenticatePinCall(newDeviceId, newPin)]
        && deviceId == Some(newDeviceId) && pin == Some(newPin)
        && var authenticated := platform.authenticatePinReply(|calls0| + 1, newDeviceId, newPin);
           match authenticated
           // the credential stays persisted although no session was obtained
           case Thrown(m) =>
             r == Err(m) && storage.items == saved && sessionId == sessionId0
           case Value(s) =>
             && r == Ok(Enrollment(newDeviceId, newPin, s))
             && sessionId == Some(s)
             && storage.items == (if s != "" then WithSession(saved, s) else WithoutSession(saved))
    }

    /** Everything after the identifiers are drawn. */
    method Enroll(newDeviceId: string, newPin: string, validatorSessionId: string)
      returns (r: Result<Enrollment, string>)
      modifies this, storage, platform
      ensures EnrollmentOutcome(
        newDeviceId, newPin, validatorSessionId, old(platform.calls),
        old(storage.items), old(deviceId), old(pin), old(sessionId), r)
      ensures old(Consistent()) ==> Consistent()
    {
      var created := platform.CreatePin(newDeviceId, newPin, validatorSessionId);
      if created.Thrown? {
        return Err(created.message);
      }
      storage.SaveCredentials(newDeviceId, newPin);
      deviceId := Some(newDeviceId);
      pin := Some(newPin);
      CredentialsSavedAreLoaded(old(storage.items), newDeviceId, newPin);
      CredentialOpsKeepSession(old(storage.items), newDeviceId, newPin);
      var authenticated := platform.AuthenticatePin(newDeviceId, newPin);
      if authenticated.Thrown? {
        return Err(authenticated.message);
      }
      SetSessionId(Some(authenticated.value));
      return Ok(Enrollment(newDeviceId, newPin, authenticated.value));
    }
  }

  // The session calls as functions of the state before them.

  /** What `setSessionId` leaves in the store for a session id returned by `authenticatePin`. */
  function SavedSession(items: map<string, string>, s: string): (r: map<string, string>)
    ensures SessionIn(r) == (if s != "" then Some(s) else None)
    ensures CredentialsIn(r) == CredentialsIn(items)
  {
    SessionOpsKeepCredentials(items, s);
    if s != "" then WithSession(items, s) else WithoutSession(items)
  }

  /** What obtaining a session amounts to: the answer, the requests sent, and the session held in
      memory and the store afterwards. */
  datatype SessionEffect = SessionEffect(
    answer: Result<string, string>, requests: seq<Call>, held: Option<string>, items: map<string, string>)

  /** One `authenticatePin` request at log position `at`; a returned id goes through
      `setSessionId`, a thrown error changes nothing. */
  function AuthenticateEffect(platform: Platform, deviceId: string, pin: string, at: nat,
                              held: Option<string>, items: map<string, string>): (e: SessionEffect)
    ensures e.requests == [AuthenticatePinCall(deviceId, pin)]
    ensures e.answer.Ok? ==> e.held == Some(e.answer.value) && e.items == SavedSession(items, e.answer.value)
    ensures e.answer.Err? ==> e.held == held && e.items == items
  {
    match platform.authenticatePinReply(at, deviceId, pin)
    case Value(s) => SessionEffect(Ok(s), [AuthenticatePinCall(deviceId, pin)], Some(s), SavedSession(items, s))
    case Thrown(m) => SessionEffect(Err(m), [AuthenticatePinCall(deviceId, pin)], held, items)
  }

  /** `ensureSessionId` from a state holding `held` in memory and `items` in storage. */
  function EnsureEffect(platform: Platform, held: Option<string>, items: map<string, string>,
                        deviceId: Option<string>, pin: Option<string>, at: nat): (e: SessionEffect)
    ensures e.requests == [] <==> Truthy(held) || Truthy(SessionIn(items)) || !Truthy(deviceId) || !Truthy(pin)
    ensures e.requests != [] ==> e.requests == [AuthenticatePinCall(deviceId.value, pin.value)]
    ensures e.requests == [] ==> e.items == items
    ensures e.answer.Ok? ==> e.held == Some(e.answer.value)
    ensures e.answer.Err? ==> e.held == held && e.items == items
  {
    if Truthy(held) then SessionEffect(Ok(held.value), [], held, items)
    else if Truthy(SessionIn(items)) then SessionEffect(Ok(SessionIn(items).value), [], SessionIn(items), items)
    else if !Truthy(deviceId) || !Truthy(pin) then SessionEffect(Err(MissingCredentials), [], held, items)
    else AuthenticateEffect(platform, deviceId.value, pin.value, at, held, items)
  }

  /** `refreshSessionId` from a state holding `held` in memory and `items` in storage. */
  function RefreshEffect(platform: Platform, held: Option<string>, items: map<string, string>,
                         deviceId: Option<string>, pin: Option<string>, at: nat): (e: SessionEffect)
    ensures e.requests == (if Truthy(deviceId) && Truthy(pin) then [AuthenticatePinCall(deviceId.value, pin.value)] else [])
    ensures !Truthy(deviceId) || !Truthy(pin) ==> e.answer == Err(MissingCredentials)
    ensures e.answer.Ok? ==> e.held == Some(e.answer.value) && e.items == SavedSession(items, e.answer.value)
    ensures e.answer.Err? ==> e.held == held && e.items == items
  {
    if !Truthy(deviceId) || !Truthy(pin) then SessionEffect(Err(MissingCredentials), [], held, items)
    else AuthenticateEffect(platform, deviceId.value, pin.value, at, held, items)
  }

  /** Saving a credential makes it the one loaded, or none when either half is empty. */
  lemma CredentialsSavedAreLoaded(items: map<string, string>, deviceId: string, pin: string)
    ensures CredentialsIn(WithCredentials(items, deviceId, pin)) ==
      (if deviceId != "" && pin != "" then Some(Credentials(deviceId, pin)) else None)
  {
    if deviceId != "" && pin != "" {
      SaveThenLoadCredentials(items, deviceId, pin);
    } else {
      assert DeviceIdKey != PinKey by { assert |DeviceIdKey| != |PinKey|; }
    }
  }
}
