# Finalize-MFA-phone request payload

A Dafny model of `AuthProtoFinalizeMFAPhoneRequestInfo` from Firebase Auth's Swift
backend layer: the outbound request that finalizes a phone second factor. The request
holds two optional strings, a session token (`sessionInfo`) and the one-time code the
user typed (`code`, filled from the initializer's `verificationCode` argument). Its only
behaviour is to serialise itself into a string-keyed dictionary in which a field
appears, under its own key, exactly when it is set; an unset field is represented by
the absence of its key.

Files:

- `wrappers.dfy` — module `Wrappers`: `Option` (Swift's `String?`) and `Result`.
- `finalize_mfa_phone.dfy` — module `FinalizeMFAPhone`:
  - the pure specification `Serialize`, the union of one entry per set field;
  - the class `AuthProtoFinalizeMFAPhoneRequestInfo`, with mutable fields `sessionInfo`
    and `code`, its constructor, the always-failing `FromDictionary`, and `Dictionary`,
    which builds the map step by step as the Swift getter does and is proved equal
    to `Serialize`;
  - lemmas about `Serialize`: size, the empty case, round trips with the read-back
    function `ReadBack` in both directions, the exact set of dictionaries that can be
    produced, injectivity, and the concrete payloads for typical inputs.

`Dictionary` has no `modifies` clause, so it provably leaves the request's fields
unchanged, and its result is determined by those fields, so two calls return equal
maps. `FinalizePayload` puts construction and serialisation together, as a caller does.

## Model

| member | source | states |
|---|---|---|
| `FinalizeMFAPhone.Entry` | FirebaseAuth/Sources/Swift/Backend/RPC/Proto/Phone/AuthProtoFinalizeMFAPhoneRequestInfo.swift:33-38 | one field's entry holds its key iff the field is set, maps it to the field's value verbatim, and holds no other key |
| `FinalizeMFAPhone.Serialize` | FirebaseAuth/Sources/Swift/Backend/RPC/Proto/Phone/AuthProtoFinalizeMFAPhoneRequestInfo.swift:31-40 | the payload holds `"sessionInfo"` iff the session token is set and `"code"` iff the code is set, each mapped to exactly the stored string (an empty string included), and no key outside those two |
| `FinalizeMFAPhone.PayloadSize` | FirebaseAuth/Sources/Swift/Backend/RPC/Proto/Phone/AuthProtoFinalizeMFAPhoneRequestInfo.swift:32-39 | the number of entries equals the number of set fields |
| `FinalizeMFAPhone.EmptyWhenUnset` | FirebaseAuth/Sources/Swift/Backend/RPC/Proto/Phone/AuthProtoFinalizeMFAPhoneRequestInfo.swift:32-39 | with both fields unset the payload is the empty dictionary |
| `FinalizeMFAPhone.ReadBackSerialize` | FirebaseAuth/Sources/Swift/Backend/RPC/Proto/Phone/AuthProtoFinalizeMFAPhoneRequestInfo.swift:33-38 | looking the two keys up in the payload recovers both fields exactly, set or unset |
| `FinalizeMFAPhone.SerializeReadBack` | FirebaseAuth/Sources/Swift/Backend/RPC/Proto/Phone/AuthProtoFinalizeMFAPhoneRequestInfo.swift:31-40 | any dictionary whose keys lie within `"sessionInfo"` and `"code"` is the payload of the fields read back from it |
| `FinalizeMFAPhone.PayloadImage` | FirebaseAuth/Sources/Swift/Backend/RPC/Proto/Phone/AuthProtoFinalizeMFAPhoneRequestInfo.swift:32-39 | a dictionary is the payload of some request iff its keys lie within `"sessionInfo"` and `"code"` |
| `FinalizeMFAPhone.SerializeInjective` | FirebaseAuth/Sources/Swift/Backend/RPC/Proto/Phone/AuthProtoFinalizeMFAPhoneRequestInfo.swift:33-38 | two requests with equal payloads have equal fields |
| `FinalizeMFAPhone.ConcretePayloads` | FirebaseAuth/Sources/Swift/Backend/RPC/Proto/Phone/AuthProtoFinalizeMFAPhoneRequestInfo.swift:31-40 | both fields set gives `{"sessionInfo": "abc123", "code": "654321"}`; an unset code gives no `"code"` key at all; a set empty code is still sent as `""` |
| `FinalizeMFAPhone.AuthProtoFinalizeMFAPhoneRequestInfo.constructor` | FirebaseAuth/Sources/Swift/Backend/RPC/Proto/Phone/AuthProtoFinalizeMFAPhoneRequestInfo.swift:26-29 | stores the session token verbatim in `sessionInfo` and the verification code verbatim in `code`, with no validation |
| `FinalizeMFAPhone.AuthProtoFinalizeMFAPhoneRequestInfo.FromDictionary` | FirebaseAuth/Sources/Swift/Backend/RPC/Proto/Phone/AuthProtoFinalizeMFAPhoneRequestInfo.swift:20-22 | for every input dictionary, construction fails and no instance is produced |
| `FinalizeMFAPhone.AuthProtoFinalizeMFAPhoneRequestInfo.Dictionary` | FirebaseAuth/Sources/Swift/Backend/RPC/Proto/Phone/AuthProtoFinalizeMFAPhoneRequestInfo.swift:31-40 | inserting each set field into an initially empty dictionary yields exactly `Serialize` of the current fields; no field is changed |
| `FinalizeMFAPhone.FinalizePayload` | FirebaseAuth/Sources/Swift/Backend/RPC/Proto/Phone/AuthProtoFinalizeMFAPhoneRequestInfo.swift:26-40 | the payload of a request built from `sessionInfo` and `verificationCode` is their serialisation, the code under `"code"`, with one entry per set argument |

## Left out

- The `@objc` name, the `NSObject` superclass and the `AuthProto` protocol conformance: Objective-C bridging and protocol plumbing with no behaviour of their own.
- Dictionary values are `string` rather than `AnyHashable`: every value the getter inserts is a `String`.
- FromDictionary: models `fatalError()` as a `Failure(UnsupportedConstruction)` result rather than a process trap; what it captures is that no input ever yields an instance.
- The network transport, the backend endpoint and the callers that send the payload: they are I/O outside this class.
- The fields stay mutable `var`s, as in the source; no operation of the class changes them after construction, and the model makes no claim about direct assignment by other code beyond `Dictionary` reading whatever values the fields hold.
