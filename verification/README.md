# service-serving-cert-signer: the pure core, in Dafny

This project models the parts of the OpenShift service serving-cert signer that are pure logic. It covers four pieces:

- the half-life test that decides when a CA certificate is due for rotation (`CertHalfwayExpired`);
- the controller step that injects the service CA bundle into service-account token secrets;
- the conversion of the operator's v1alpha1 status into the v1 `OperatorStatus`;
- the PEM and CA-rotation helpers of the end-to-end test: encoding certificates and keys, reading TLS credentials from a secret, the pod-prefix search, the random name suffix, the replacement-CA template and secret, and the two cross-signed intermediates.

Times are integer nanoseconds. The clock (`time.Now()`) and the random source (`rand.Intn`) are parameters. Go's truncating `/` and its saturating `Time.Sub` are written out (`GoInt.Quo`, `GoTime.Sub`), and so is the wrapping `time.Duration` multiplication (`GoInt.WrapInt64`). X.509 creation and parsing stay opaque. They are the functions of a `Crypto` value. Where a property needs them to behave, the assumption is stated per request as `X509.FaithfulOn`: a created certificate parses back to exactly one certificate, which carries the request's DER, subject, serial number, CA flags and key usage, the parent's subject as issuer, the requested public key and the signer's signature (`X509.Describes`). Validity times are not part of the assumption, because x509 writes them in whole seconds. PEM text is modelled as the sequence of `(type, payload)` blocks it concatenates. A nil `Data` map on a Secret is kept apart from an empty one as `Option` (`CoreV1.Secret`), because writing into it differs; other nil maps and slices become empty maps and sequences, and nil pointers become `Option`.

Files: `wrappers.dfy` (Option/Result), `core_v1.dfy` (the shared `Secret` and the lister's not-found error), `go_semantics.dfy` (modules `GoInt`, `GoTime`), `x509.dfy`, `pem.dfy`, `ca_expiry.dfy`, `sa_token_cabundle.dfy`, `operator_status.dfy`, `e2e_helpers.dfy`, `ca_rotation.dfy`.

The doc comment of `CertHalfwayExpired` (pkg/operator/util/ca_expiry.go:8) says the result is true once half of the validity period has elapsed. Line 13 compares with the strict `now.After(halfExpiration)`, so exactly at the half-life instant the certificate is not yet due, and one nanosecond later it is (`CaExpiry.HalfwayExpiredStrictAtMidpoint`).

## Model

| member | source | states |
|---|---|---|
| GoInt.Quo | pkg/operator/util/ca_expiry.go:11 | Go's `/` truncates toward zero: `q*b` is the multiple of `b` nearest zero with `|a - q*b| < |b|`, on the same side of zero as `a` |
| GoInt.QuoVersusEuclidean | pkg/operator/util/ca_expiry.go:11 | truncating and Euclidean division agree on non-negative dividends and differ by one on negative dividends not divisible by the divisor |
| GoTime.Sub | pkg/operator/util/ca_expiry.go:11 | `Time.Sub` is exact when the difference fits in a `time.Duration`; a larger difference gives the largest Duration and a smaller one the smallest; its sign always matches the true difference |
| CaExpiry.HalfExpiration | pkg/operator/util/ca_expiry.go:11-12 | the half-life instant lies inside the validity window, whichever way round its bounds are |
| CaExpiry.CertHalfwayExpired | pkg/operator/util/ca_expiry.go:9-14 | for a well-formed window that fits in a Duration, the certificate is due iff `2*now > NotBefore + NotAfter`, so truncating an odd length changes nothing because the comparison is strict; on every well-formed window it is never due at or before NotBefore and always due from NotAfter on (for a non-empty window) |
| CaExpiry.HalfwayExpiredStrictAtMidpoint | pkg/operator/util/ca_expiry.go:13 | exactly at `NotBefore + trunc(len/2)` the result is false; one nanosecond later it is true |
| CaExpiry.HalfwayExpiredMonotone | pkg/operator/util/ca_expiry.go:12-13 | once due at `now`, due at every later instant |
| CaExpiry.HalfwayExpiredDegenerateWindow | pkg/operator/util/ca_expiry.go:11-13 | with `NotAfter == NotBefore` the result is `now > NotBefore` |
| CaExpiry.ScenarioExpiredNow | pkg/operator/util/ca_expiry_test.go:14-20 | valid from a day ago until the clock reading of construction: due, for every order-respecting clock readings |
| CaExpiry.ScenarioTimeLeft | pkg/operator/util/ca_expiry_test.go:21-27 | one day before to two days after: not due while the test runs in under half a day |
| CaExpiry.ScenarioTimeUp | pkg/operator/util/ca_expiry_test.go:28-34 | two days before to one day after: due |
| CaExpiry.SaturatedWindowExpiresEarly | pkg/operator/util/ca_expiry.go:11 | on a 2e19 ns window the source turns due one nanosecond after `MaxInt64 / 2` (about 23% of the window) and is due at 5e18 ns (a quarter), while the midpoint is at 1e19 ns |
| CaExpiry.CertHalfwayExpiredExact | pkg/operator/util/ca_expiry.go:8-13 | the corrected test, with the length computed exactly, is "strictly past the midpoint" on every well-formed window, however long |
| CaExpiry.HalfwayExpiredAgreesWithExact | pkg/operator/util/ca_expiry.go:11-13 | the source and the corrected test agree whenever the window fits in a Duration |
| SaTokenCaBundle.Key | pkg/controller/configmapcainjector/controller/sa_token_cabundle_controller.go:45-47 | the cached secret when present, a not-found error for that namespace and name otherwise |
| SaTokenCaBundle.Sync | pkg/controller/configmapcainjector/controller/sa_token_cabundle_controller.go:49-67 | no write iff the data already holds the bundle byte for byte under the injection key; otherwise one update of a copy whose data has the bundle under that key, every other key with its old value, no new key, and the same namespace, name and type |
| SaTokenCaBundle.SyncNilData | pkg/controller/configmapcainjector/controller/sa_token_cabundle_controller.go:60-63 | a nil data map is written as exactly `{InjectionDataKey: ca}` |
| SaTokenCaBundle.SyncIdempotent | pkg/controller/configmapcainjector/controller/sa_token_cabundle_controller.go:53-63 | syncing the written secret writes nothing more |
| SaTokenCaBundle.SecretIsSAToken | pkg/controller/configmapcainjector/controller/sa_token_cabundle_controller.go:24-26 | true exactly for secrets of type `kubernetes.io/service-account-token` |
| SaTokenCaBundle.AddFilter | pkg/controller/configmapcainjector/controller/sa_token_cabundle_controller.go:37 | only secrets of the service-account-token type reach the queue on an add event |
| SaTokenCaBundle.UpdateFilter | pkg/controller/configmapcainjector/controller/sa_token_cabundle_controller.go:38-40 | an update event passes exactly when the new object would pass as an added one; the old object plays no part |
| SaTokenCaBundle.SyncedSecretStaysAdmitted | pkg/controller/configmapcainjector/controller/sa_token_cabundle_controller.go:36-67 | the update event of the controller's own write passes the filter exactly when the synced secret did, and the sync it triggers writes nothing |
| SaTokenCaBundle.Reconcile | pkg/controller/configmapcainjector/controller/sa_token_cabundle_controller_test.go:135-140 | a lookup followed by a sync yields at most one write action |
| SaTokenCaBundle.ReconcileActions | pkg/controller/configmapcainjector/controller/sa_token_cabundle_controller_test.go:29-120 | the test table for all inputs: missing secret or same bundle means no action; otherwise exactly one update holding the bundle |
| OperatorStatus.AvailabilityToGenerations | pkg/operator/starter.go:102-119 | nil availability gives no generations; otherwise same length and order, identifying fields and generation copied, hash empty |
| OperatorStatus.ConvertGenerations | pkg/operator/starter.go:108-117 | each history entry becomes one generation status with its fields copied and an empty hash |
| OperatorStatus.ConvertConditions | pkg/operator/starter.go:78-87 | conditions convert one to one in order, with type, status, transition time, reason and message copied |
| OperatorStatus.CurrentStatus | pkg/operator/starter.go:71-100 | a missing "instance" gives the zero status and the lister's not-found error for that cluster-scoped name; otherwise no error, generation copied, conditions and generations converted, and version and ready replicas from the current availability, or "" and 0 when it is nil |
| OperatorStatus.GenerationsRoundTrip | pkg/operator/starter.go:108-117 | reading the history back from the converted list gives the original list: the conversion loses nothing |
| OperatorStatus.ConditionsRoundTrip | pkg/operator/starter.go:78-87 | reading the v1alpha1 conditions back from the converted list gives the original list |
| Pem.EncodeCertificates | test/e2e/e2e_test.go:417-425 | one CERTIFICATE block per certificate, in order, holding its raw DER |
| Pem.DecodeEncodeCertificates | test/e2e/e2e_test.go:417-425 | decoding the encoded chain gives back every certificate's DER in order; empty input is exactly empty output |
| Pem.FirstBlock | test/e2e/e2e_test.go:273-292 | `pem.Decode` finds a block iff the text is non-empty, and the block found is the first one |
| Pem.EncodeKey | test/e2e/e2e_test.go:427-447 | an RSA key gives one `RSA PRIVATE KEY` block and an ECDSA key on a named curve one `EC PRIVATE KEY` block, each holding the key's DER; an ECDSA key on an unnamed curve is the unknown-curve error, and every other key type is the unrecognised-key error |
| Pem.DecodeEncodeKey | test/e2e/e2e_test.go:427-447 | decoding an encoded key recovers its algorithm and DER |
| E2eHelpers.GetTLSCredsFromSecret | test/e2e/e2e_test.go:91-111 | a fetch error passes through; success iff both keys are present with non-empty values, returning exactly the stored values; the checks run in source order, so the error is the first of: missing cert key, empty cert data, missing key key, empty key data |
| E2eHelpers.HasPrefixIsSequencePrefix | test/e2e/e2e_test.go:53 | `strings.HasPrefix` is sequence prefix |
| E2eHelpers.HasPodWithPrefixName | test/e2e/e2e_test.go:44-58 | false for a nil client, empty name or namespace, or failed list; otherwise true iff some pod name starts with the prefix |
| E2eHelpers.CharactersLayout | test/e2e/e2e_test.go:453 | the alphabet is the 26 lower-case letters followed by the 10 digits |
| E2eHelpers.CharactersAlphabet | test/e2e/e2e_test.go:453 | its 36 characters are distinct and are exactly the letters and digits |
| E2eHelpers.RandSeq | test/e2e/e2e_test.go:456-462 | `n` characters, the i-th being the alphabet character the i-th draw names, so every one is in the alphabet |
| GoInt.WrapInt64 | test/e2e/e2e_test.go:368 | a 64-bit result is in range, congruent to the exact value mod 2^64, and exact when the exact value fits |
| CaRotation.CreateOneCertificate | test/e2e/e2e_test.go:296-307 | success iff creation and parsing succeed and yield exactly one certificate, which is returned; a creation error, then a parse error, is returned as is; more or fewer certificates is the "Expected one certificate" error |
| CaRotation.CreateOneCertificateFaithful | test/e2e/e2e_test.go:296-307 | when x509 is faithful on the request, a created certificate passes the one-certificate check and is the one the request describes |
| CaRotation.ParseCA | test/e2e/e2e_test.go:273-292 | a CA loads iff its first cert block parses as a certificate and its first key block as a PKCS #1 key; the certificate's parse error is returned first, then the key's |
| CaRotation.CrossSignRequest | test/e2e/e2e_test.go:294-296 | the CA's own certificate, unchanged, is both template and parent, its public key is certified, and the other CA's key signs |
| CaRotation.CrossSign | test/e2e/e2e_test.go:294-357 | success iff both intermediates are created as exactly one certificate each; a failure of the first is returned before the second is tried, and a failure of the second is returned as is; each PEM written is one CERTIFICATE block of the matching certificate |
| CaRotation.CreateCrossSignedInterimCAs | test/e2e/e2e_test.go:263-358 | succeeds iff both secrets hold credentials, both CAs parse and both intermediates are made; a credential error on the current CA's secret is returned before one on the new CA's; with both credentials read, the current CA's parse error is returned as is, then the new CA's, and otherwise the result is the cross-signing result |
| CaRotation.CrossSignBridgesBothCAs | test/e2e/e2e_test.go:294-345 | when x509 is faithful on the two requests, the first intermediate has the current CA's subject, issuer name and public key under the new CA's signature; the second is the mirror image; each keeps its CA's serial number, CA flags and key usage |
| CaRotation.CrossSignRequestsMirror | test/e2e/e2e_test.go:333-334 | the second request is the first with the two CAs swapped |
| CaRotation.ReplacementCATemplate | test/e2e/e2e_test.go:362-374 | the template carries the given subject, serial 1, SHA-256 with RSA, and no raw bytes or keys |
| CaRotation.ReplacementTemplateIsFreshCA | test/e2e/e2e_test.go:362-374 | for 1..106751 days: a consistent CA template valid from now - 1s to now + days*24h, not due at creation, and due exactly once past the middle of that window, by both the as-written and the corrected half-life test |
| CaRotation.ReplacementTemplateWrapsPastMaxDays | test/e2e/e2e_test.go:368 | at 106752 days the Duration product wraps and NotAfter falls before NotBefore |
| CaRotation.ReplacementCASecret | test/e2e/e2e_test.go:360-415 | key-pair errors pass through, then the certificate-creation error, then the key-encoding error; success iff the self-signed certificate is created as exactly one certificate and the key encodes; the secret is `next-service-signer` of type `kubernetes.io/tls` whose data is exactly `tls.crt`, the PEM of the certificate created from the template with the pair's public key and signed by its private key, and `tls.key`, the encoded private key |
| CaRotation.ReplacementSecretIsLoadable | test/e2e/e2e_test.go:404-413 | when the key pair is good, the key encodes and the self-signed certificate is created, the secret is created, its data is exactly the certificate's one CERTIFICATE block and the encoded key, and it passes the credential check of the cross-signing step unchanged; when x509 is faithful on the self-signing request, its certificate is the self-signed CA (serial 1, CA flags, key-encipherment, digital-signature and cert-sign usage) for the given subject and key |

## Left out

- Informer, lister and client wiring, worker goroutines and `stopCh` handling (`RunOperator` and the starters): I/O and concurrency.
- The Update call's own error in `Sync` and the Create call's error in `createServiceSignerReplacementCASecret`: the model returns the object sent and stops there.
- Cobra command construction and `controllercmd.FromUnstructured`: CLI glue and a converter that is not part of this model.
- The file reads and the PEM sanity check in the injector starters: file I/O and `crypto/x509` parsing.
- `pem.Encode`/`pem.Decode` framing and base64, `x509.CreateCertificate`, the parsers and key generation: foreign crypto, kept opaque as `Crypto` and block sequences. Bytes that are not PEM at all fall outside the block abstraction. For such bytes the source's `pem.Decode` returns nil and `CreateCrossSignedInterimCAs` dereferences it.
- Pem.EncodeCertificates: the error result of `encodeCertificates` is not modelled, because `pem.Encode` into a `bytes.Buffer` cannot fail for header-less blocks. The same holds for the partial-bytes return on an encode failure in the ECDSA branch of `encodeKey`.
- The `fmt.Printf` output and the `/tmp/*.crt` writes of `CreateCrossSignedInterimCAs`: on success the written texts are returned in `CrossSigned`. When the second intermediate fails, the source has already printed and written `current.crt`, `new.crt` and `first.crt`; the model returns only the error and does not record those effects.
- `TestE2E` orchestration, namespace and service creation, `wait.PollImmediate` polling, `getSigningSubject`, and the `rand.Seed` call in `init`: cluster I/O.
- CaRotation.ReplacementCATemplate: the two separate `time.Now()` readings for NotBefore and NotAfter are taken as one `now`.
- GoTime.Sub: the monotonic-clock branch of `Time.Sub` and `Time.After` is not modelled. Go uses it only when both operands carry a monotonic reading. NotBefore never does: a parsed certificate has none, and the unit test builds it with `AddDate`, which drops it. The half-life instant is derived from NotBefore, so it has none either. That holds even in the "expired now" case, whose NotAfter is a bare `time.Now()` that keeps its reading. The overflow of `Time.Add` past int64 seconds is ignored too.
- CaExpiry scenario lemmas: `AddDate(0, 0, k)` is taken as k times 24 hours, as in UTC. A daylight-saving change in the local zone is not modelled.
- E2eHelpers.RandSeq: a negative `n` (a panic in `make`) is excluded by the precondition. The draws are assumed to lie in `[0, 36)`, as `rand.Intn(36)` promises.
- E2eHelpers.HasPodWithPrefixName: Go compares UTF-8 bytes and the model compares characters. The two agree on valid UTF-8, which is prefix-free.
- `api.InjectionDataKey` is declared in a package that is not part of this model. The model uses that package's value, `service-ca.crt`.
- The serving-cert issuance controller and any CA rotation state machine are not among the modelled files.

## Findings

| source | as written | input that shows it | evidently intended | confidence | as-written member | corrected member |
|---|---|---|---|---|---|---|
| pkg/operator/util/ca_expiry.go:11 | the window length comes from `NotAfter.Sub(NotBefore)`, which saturates at the largest `time.Duration` (about 292 years) | NotBefore = 0, NotAfter = 2e19 ns (about 634 years, like a certificate valid until 9999-12-31): reported due from `MaxInt64 / 2 + 1` ns (about 4.61e18 ns, 23% of the window), e.g. at now = 5e18 ns when only a quarter of the window has elapsed | due only once half of the validity period has elapsed, as the doc comment says | medium, not executed | CaExpiry.SaturatedWindowExpiresEarly | CaExpiry.CertHalfwayExpiredExact |
