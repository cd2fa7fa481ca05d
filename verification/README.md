# lila-push in Dafny

lila-push is a small HTTP service that sends one Web Push notification per
request. It takes a POST whose JSON body names one browser subscription, a
text payload and a TTL. It builds a VAPID signature for that subscription
and an `aesgcm`-encrypted message carrying the payload. It sends the message
with a 15-second timeout and answers `204 No Content`. When any step fails,
it answers with an HTTP error status chosen by the kind of library error,
and the error's short description is the body.

This project models two things in Dafny:

- **The error classification** (`PushErrors`). Every variant of the web-push
  library's `WebPushError` enum is an alternative of a datatype, and
  `StatusOf` maps each one to a status. The handler chooses the grouping;
  each status is a code registered in section 6 of RFC 7231 or section 3.1
  of RFC 7235.
  The groups are predicates over the variants: malformed input, upstream
  failure, and one group each for unauthorised, gone, not found, too large,
  not implemented and timed out. A `Group` datatype with its own status table
  is the reference the match is proved against. The proofs show that the
  groups are exact, and which groups are answered 4xx and which 5xx.
- **The request pipeline** (`PushHandler`). Each library step is an abstract,
  fallible function in an `Env` record: JSON decoding, `from_pem`,
  `WebPushMessageBuilder::new`, `signature.build`, `builder.build` and
  `send_with_timeout`. `Push` composes these steps the way the handler's `?`
  operators do. A run records the foreign calls it made. `ErrorOf` judges
  each recorded call independently, so the model can state what was called,
  in which order, with what arguments, and what decided the answer.

`Utf8` models `str::as_bytes`, which turns the payload into bytes. It is a
UTF-8 encoder, and a decoder is proved to be its exact inverse in both
directions. `HttpStatus` holds the status codes and status classes.
`Wrappers` holds `Option`, `Result` and `Outcome`.

Each request carries one subscription and gets one push. The outcome of a
request is reported through its HTTP status.

## Model

| member | source | states |
|---|---|---|
| PushErrors.StatusOf | src/main.rs:61-81 | Every reachable error gets a status. Each of these is an if-and-only-if: 401 exactly for `Unauthorized`, 410 exactly for `EndpointNotValid`, 404 exactly for `EndpointNotFound`, 413 exactly for `PayloadTooLarge`, 400 exactly for the five malformed-input errors, 502 exactly for the seven upstream/transport errors, 501 exactly for `NotImplemented`, and 504 exactly for `TimeoutError`. Every status is 4xx or 5xx. `InvalidPackageName` is excluded by the precondition. |
| PushErrors.StatusIsGroupStatus | src/main.rs:61-81 | The match equals the reference classification: take the error's group, then look up that group's status in the group-to-status table. |
| PushErrors.GroupStatusRoundTrip | src/main.rs:61-81 | The status of a group reads back to that group, so no two groups share a status. |
| PushErrors.SameStatusIffSameGroup | src/main.rs:61-81 | Two errors get the same status if and only if they are in the same group. |
| PushErrors.ClientErrorIffRequestSide | src/main.rs:62-79 | An error gets a 4xx status exactly when its group is one of the five groups answered 4xx (unauthorised, gone, not found, too large, malformed input), and a 5xx status exactly otherwise. |
| PushErrors.UpstreamNeverClientError | src/main.rs:71-77 | Every upstream or transport error is reachable, maps to 502, and never maps to a 4xx status. |
| PushErrors.From | src/main.rs:51-55 | Wrapping a library error loses nothing: destructuring the wrapper gives the same error back. |
| PushErrors.UnwrapWrap | src/main.rs:51-59 | Every handler error is the wrapping of the library error it holds, so wrapping and destructuring are inverse. |
| PushErrors.IntoResponse | src/main.rs:57-85 | The response body is the error's description. The status is the error's group status and is never a 2xx. |
| PushErrors.StatusIgnoresDescription | src/main.rs:83 | The response status depends on the error alone, never on its description. |
| PushHandler.Push | src/main.rs:87-103 | The first call is the body decode, and the calls follow the handler's order with each made at most once. Every call before the last succeeded. The run fails exactly when its last call failed, and fails with that call's error. A successful run made all six calls and returns 204. |
| PushHandler.Respond | src/main.rs:57-103 | The response is a success exactly when the run succeeded, and a successful run is answered 204 No Content with an empty body. On failure, the status is the classification of the failing call's error and the body is that error's description. |
| PushHandler.SuccessIffEveryCallSucceeds | src/main.rs:88-102 | A run succeeds if and only if all six calls were made and each one succeeded. |
| PushHandler.FirstFailureDecides | src/main.rs:88-101 | A failing call is always the last call made, and its error alone determines the response status and body. |
| PushHandler.UndecodableBodyIsBadRequest | src/main.rs:88 | A body that fails to decode is answered 400. The decode is the only call made, so no signature or message is constructed. |
| PushHandler.NothingSentUnlessBuilt | src/main.rs:91-101 | A send happens only as the sixth call. Before it, the decode, `from_pem`, the builder, signing and `build` all succeeded, and the message sent is exactly the message built. |
| PushHandler.RequestPassedThrough | src/main.rs:91-101 | Once the body has decoded, `from_pem` gets the app's PEM key and the request's subscription, and the message builder gets the request's subscription, whether or not those steps then fail. Once signing is reached, the builder signed is exactly what `from_pem` returned with the subject added as the `sub` claim. Once building is reached, the builder holds the request's subscription, its TTL, its payload as `aesgcm` UTF-8 bytes, and the signature that signing produced. A send always gets the 15-second timeout. |
| PushHandler.SignatureBuilder.AddClaim | src/main.rs:92 | Adding a claim sets that claim to the given value, keeps every other claim, adds no other claim, and keeps the key and subscription the builder was made for. |
| PushHandler.PayloadDecodesToRequestText | src/main.rs:96 | The payload bytes given to the message builder decode back to the request's text. |
| Utf8.EncodeChar | src/main.rs:96 | A character encodes to 1 to 4 bytes. It takes one byte, equal to its code, exactly when it is ASCII. All bytes after the first are continuation bytes. |
| Utf8.Encode | src/main.rs:96 | A string of n characters encodes to between n and 4n bytes. |
| Utf8.DecodeEncode | src/main.rs:96 | Decoding the bytes of any string gives back that string. |
| Utf8.EncodeDecode | src/main.rs:96 | Any byte sequence that decodes is the encoding of what it decodes to. |

## Left out

- Encryption and signing inside the web-push library are not modelled. That covers ECDH, HKDF and AES-GCM for `aesgcm`, and ECDSA/JWT for VAPID. The library's source is not part of this model, so `from_pem`, `signature.build`, `WebPushMessageBuilder::new` and `builder.build` are opaque steps that may fail.
- Sending over the network, async/await and the real timeout are not modelled. `send_with_timeout` is an opaque step that receives the timeout as a value and may fail with any library error, `TimeoutError` included.
- Each `Env` step is a deterministic function of its arguments. The fresh ephemeral keys of real encryption are hidden inside the `build` step.
- The JSON decoding of the body is an opaque `bodyJson` step, and its own error is discarded as in the source. A TTL outside `u32` is such a decode failure.
- The library's default TTL, used when none is set, is not modelled. The handler always sets the TTL, and an unset TTL is `None`.
- The exact text of `short_description()` is defined by the library, so it is a parameter `describe`.
- The success response is modelled as the status with an empty body. That is how the HTTP framework turns a bare status into a response.
- PushErrors.StatusOf and PushHandler.Respond: the source declares the `InvalidPackageName` arm unreachable (its comment names Firebase). The model takes that declaration as a precondition. The panic the source would hit if the library ever returned that error is not modelled, and the library code that would show whether it can is not part of this model.
- PushHandler.SignatureBuilder.AddClaim: `add_claim` belongs to the web-push library, which is not part of this model. It is assumed to be a map insert into the JWT claims that leaves the key and the subscription unchanged.
- `main` is not modelled: CLI parsing, the bind address, reading the PEM file, creating the client and routing (src/main.rs:105-118). These are process setup and I/O, and every failure there is a fatal `expect`.
