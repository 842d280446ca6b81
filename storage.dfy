/** Persistence of the credential and the session id (`src/lib/storage.ts`): three string slots
    of the browser's `localStorage`, which is modelled as a map from key to value. */
module Storage {
  import opened Wrappers

  const DeviceIdKey: string := "cdw_deviceId"
  const PinKey: string := "cdw_pin"
  const SessionIdKey: string := "cdw_sessionId"

  datatype Credentials = Credentials(deviceId: string, pin: string)

  /** `localStorage.getItem(key)`: the stored value, or `null` for an absent key. */
  function GetItem(items: map<string, string>, key: string): Option<string>
  {
    if key in items then Some(items[key]) else None
  }

  /** What `loadCredentials` finds in a store: both slots must hold a non-empty string. */
  function CredentialsIn(items: map<string, string>): Option<Credentials>
  {
    var deviceId := GetItem(items, DeviceIdKey);
    var pin := GetItem(items, PinKey);
    if !Truthy(deviceId) || !Truthy(pin) then None
    else Some(Credentials(deviceId.value, pin.value))
  }

  /** What `loadSessionId` finds in a store. */
  function SessionIn(items: map<string, string>): Option<string>
  {
    GetItem(items, SessionIdKey)
  }

  /** The store as `saveCredentials`, `clearCredentials`, `saveSessionId` and `clearSessionId`
      leave it. */
  function WithCredentials(items: map<string, string>, deviceId: string, pin: string): map<string, string>
  {
    items[DeviceIdKey := deviceId][PinKey := pin]
  }

  function WithoutCredentials(items: map<string, string>): map<string, string>
  {
    items - {DeviceIdKey, PinKey}
  }

  function WithSession(items: map<string, string>, sessionId: string): map<string, string>
  {
    items[SessionIdKey := sessionId]
  }

  function WithoutSession(items: map<string, string>): map<string, string>
  {
    items - {SessionIdKey}
  }

  /** The browser's key-value store. Keys other than the three slots belong to other code and
      are never touched here. */
  class CredentialStore {
    var items: map<string, string>

    constructor (initial: map<string, string>)
      ensures items == initial
    {
      items := initial;
    }

    method SaveCredentials(deviceId: string, pin: string)
      modifies this
      ensures items == WithCredentials(old(items), deviceId, pin)
    {
      items := items[DeviceIdKey := deviceId];
      items := items[PinKey := pin];
    }

    method LoadCredentials() returns (r: Option<Credentials>)
      ensures r == CredentialsIn(items)
      ensures r.Some? ==> r.value.deviceId != "" && r.value.pin != ""
    {
      var deviceId := GetItem(items, DeviceIdKey);
      var pin := GetItem(items, PinKey);
      if !Truthy(deviceId) || !Truthy(pin) {
        return None;
      }
      return Some(Credentials(deviceId.value, pin.value));
    }

    method ClearCredentials()
      modifies this
      ensures items == WithoutCredentials(old(items))
    {
      items := items - {DeviceIdKey};
      items := items - {PinKey};
    }

    method SaveSessionId(sessionId: string)
      modifies this
      ensures items == WithSession(old(items), sessionId)
    {
      items := items[SessionIdKey := sessionId];
    }

    method LoadSessionId() returns (r: Option<string>)
      ensures r == SessionIn(items)
    {
      r := GetItem(items, SessionIdKey);
    }

    method ClearSessionId()
      modifies this
      ensures items == WithoutSession(old(items))
    {
      items := items - {SessionIdKey};
    }
  }

  // Round trips and independence of the slots.

  /** Saving a non-empty credential and loading it returns that credential. */
  lemma SaveThenLoadCredentials(items: map<string, string>, deviceId: string, pin: string)
    requires deviceId != "" && pin != ""
    ensures CredentialsIn(WithCredentials(items, deviceId, pin)) == Some(Credentials(deviceId, pin))
  {
    assert DeviceIdKey != PinKey by { assert |DeviceIdKey| != |PinKey|; }
  }

  /** Loading finds nothing when either slot is absent or holds the empty string. */
  lemma LoadCredentialsNeedsBothSlots(items: map<string, string>)
    ensures CredentialsIn(items).None? <==>
      (DeviceIdKey !in items || items[DeviceIdKey] == "" || PinKey !in items || items[PinKey] == "")
  {
  }

  /** After clearing, no credential is found. */
  lemma ClearThenLoadCredentials(items: map<string, string>)
    ensures CredentialsIn(WithoutCredentials(items)) == None
  {
  }

  lemma SaveThenLoadSession(items: map<string, string>, sessionId: string)
    ensures SessionIn(WithSession(items, sessionId)) == Some(sessionId)
  {
  }

  lemma ClearThenLoadSession(items: map<string, string>)
    ensures SessionIn(WithoutSession(items)) == None
  {
  }

  /** The credential operations leave the session slot alone. */
  lemma CredentialOpsKeepSession(items: map<string, string>, deviceId: string, pin: string)
    ensures SessionIn(WithCredentials(items, deviceId, pin)) == SessionIn(items)
    ensures SessionIn(WithoutCredentials(items)) == SessionIn(items)
  {
    assert SessionIdKey != DeviceIdKey by { assert |SessionIdKey| != |DeviceIdKey|; }
    assert SessionIdKey != PinKey by { assert |SessionIdKey| != |PinKey|; }
  }

  /** The session operations leave the credential slots alone. */
  lemma SessionOpsKeepCredentials(items: map<string, string>, sessionId: string)
    ensures CredentialsIn(WithSession(items, sessionId)) == CredentialsIn(items)
    ensures CredentialsIn(WithoutSession(items)) == CredentialsIn(items)
  {
    assert SessionIdKey != DeviceIdKey by { assert |SessionIdKey| != |DeviceIdKey|; }
    assert SessionIdKey != PinKey by { assert |SessionIdKey| != |PinKey|; }
    assert GetItem(WithSession(items, sessionId), DeviceIdKey) == GetItem(items, DeviceIdKey);
    assert GetItem(WithSession(items, sessionId), PinKey) == GetItem(items, PinKey);
    assert GetItem(WithoutSession(items), DeviceIdKey) == GetItem(items, DeviceIdKey);
    assert GetItem(WithoutSession(items), PinKey) == GetItem(items, PinKey);
  }
}
