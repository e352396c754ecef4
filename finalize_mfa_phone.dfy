/**
 * The request payload sent to the authentication backend to finalize enrolment or
 * sign-in with a phone second factor: an optional session token and an optional
 * one-time verification code, serialised into a string-keyed dictionary in which a
 * field appears only when it is set.
 */
module FinalizeMFAPhone {
  import opened Wrappers

  /** Key under which the session token is sent. */
  const SessionInfoKey: string := "sessionInfo"
  /** Key under which the verification code is sent (not "verificationCode"). */
  const CodeKey: string := "code"

  /** Every key the payload can ever hold. */
  const PayloadKeys: set<string> := {SessionInfoKey, CodeKey}

  /** The single-entry dictionary for one optional field: empty when the field is unset. */
  function Entry(key: string, field: Option<string>): (m: map<string, string>)
    ensures key in m <==> field.Some?
    ensures m.Keys <= {key}
    ensures field.Some? ==> m[key] == field.value
  {
    if field.Some? then map[key := field.value] else map[]
  }

  /**
   * The payload of a request whose fields are `sessionInfo` and `code`: the union of
   * one entry per set field. Presence is decided by `Some`/`None` alone, so a set
   * but empty string is still sent.
   */
  function Serialize(sessionInfo: Option<string>, code: Option<string>): (m: map<string, string>)
    ensures SessionInfoKey in m <==> sessionInfo.Some?
    ensures sessionInfo.Some? ==> m[SessionInfoKey] == sessionInfo.value
    ensures CodeKey in m <==> code.Some?
    ensures code.Some? ==> m[CodeKey] == code.value
    ensures m.Keys <= PayloadKeys
  {
    Entry(SessionInfoKey, sessionInfo) + Entry(CodeKey, code)
  }

  /** 1 for a set field, 0 for an unset one. */
  function Presence(field: Option<string>): nat {
    if field.Some? then 1 else 0
  }

  /**
   * Reads the two fields back out of a payload: the value under a key when the key is
   * present, `None` otherwise. This is a specification device only; the class itself
   * refuses to be built from a dictionary.
   */
  ghost function ReadBack(m: map<string, string>): (fields: (Option<string>, Option<string>))
  {
    (if SessionInfoKey in m then Some(m[SessionInfoKey]) else None,
     if CodeKey in m then Some(m[CodeKey]) else None)
  }

  /** The payload has exactly one key per set field. */
  lemma PayloadSize(sessionInfo: Option<string>, code: Option<string>)
    ensures |Serialize(sessionInfo, code)| == Presence(sessionInfo) + Presence(code)
  {
  }

  /** With neither field set the payload is empty. */
  lemma EmptyWhenUnset()
    ensures Serialize(None, None) == map[]
  {
  }

  /** Serialising loses nothing: both fields are recovered from the payload. */
  lemma ReadBackSerialize(sessionInfo: Option<string>, code: Option<string>)
    ensures ReadBack(Serialize(sessionInfo, code)) == (sessionInfo, code)
  {
  }

  /** Every dictionary over the two payload keys is the payload of exactly the fields read back from it. */
  lemma SerializeReadBack(m: map<string, string>)
    requires m.Keys <= PayloadKeys
    ensures Serialize(ReadBack(m).0, ReadBack(m).1) == m
  {
  }

  /**
   * The payloads are exactly the dictionaries whose keys lie within the two payload
   * keys: no other key is ever produced, and every such dictionary is produced.
   */
  lemma PayloadImage(m: map<string, string>)
    ensures m.Keys <= PayloadKeys <==> exists s, c :: Serialize(s, c) == m
  {
    if m.Keys <= PayloadKeys {
      SerializeReadBack(m);
      var (s, c) := ReadBack(m);
      assert Serialize(s, c) == m;
    }
  }

  /** Distinct field pairs give distinct payloads. */
  lemma SerializeInjective(s1: Option<string>, c1: Option<string>, s2: Option<string>, c2: Option<string>)
    requires Serialize(s1, c1) == Serialize(s2, c2)
    ensures s1 == s2 && c1 == c2
  {
  }

  /** The payload shapes a caller sees for typical and edge-case inputs. */
  lemma ConcretePayloads()
    ensures Serialize(Some("abc123"), Some("654321")) == map[SessionInfoKey := "abc123", CodeKey := "654321"]
    ensures Serialize(Some("abc123"), None) == map[SessionInfoKey := "abc123"]
    ensures Serialize(None, Some("")) == map[CodeKey := ""]
  {
  }

  /** The error raised when the request is asked to build itself from a dictionary. */
  datatype ConstructionError = UnsupportedConstruction

  /** An outbound request to finalize a phone second factor. */
  class AuthProtoFinalizeMFAPhoneRequestInfo {
    var sessionInfo: Option<string>
    var code: Option<string>

    /** Stores both arguments as given; the verification code goes into `code`. */
    constructor (sessionInfo: Option<string>, verificationCode: Option<string>)
      ensures this.sessionInfo == sessionInfo
      ensures code == verificationCode
    {
      this.sessionInfo := sessionInfo;
      code := verificationCode;
    }

    /**
     * Building the request from a dictionary is not supported for this outbound-only
     * type: for every input the attempt fails and no instance is produced.
     */
    static method FromDictionary(dictionary: map<string, string>)
      returns (r: Result<AuthProtoFinalizeMFAPhoneRequestInfo, ConstructionError>)
      ensures r == Failure(UnsupportedConstruction)
    {
      r := Failure(UnsupportedConstruction);
    }

    /**
     * Builds the payload by starting from an empty dictionary and inserting each set
     * field under its key. Changes no field of the request.
     */
    method Dictionary() returns (dict: map<string, string>)
      ensures dict == Serialize(sessionInfo, code)
    {
      dict := map[];
      if sessionInfo.Some? {
        dict := dict[SessionInfoKey := sessionInfo.value];
      }
      if code.Some? {
        dict := dict[CodeKey := code.value];
      }
    }
  }

  /**
   * What a caller of the backend sends: the payload of a freshly constructed request
   * is the serialisation of the constructor's arguments, with the verification code
   * under the `code` key, and asking for it twice gives the same dictionary.
   */
  method FinalizePayload(sessionInfo: Option<string>, verificationCode: Option<string>)
    returns (payload: map<string, string>)
    ensures payload == Serialize(sessionInfo, verificationCode)
    ensures |payload| == Presence(sessionInfo) + Presence(verificationCode)
  {
    var request := new AuthProtoFinalizeMFAPhoneRequestInfo(sessionInfo, verificationCode);
    payload := request.Dictionary();
    var again := request.Dictionary();
    assert again == payload;
    PayloadSize(sessionInfo, verificationCode);
  }
}
