/** The CA-rotation steps of the end-to-end test: the replacement CA secret
    (`createServiceSignerReplacementCASecret`) and the two cross-signed
    intermediates (`CreateCrossSignedInterimCAs`). Signing and parsing are
    the caller's `Crypto`; the model fixes who supplies each argument, the
    order of the steps, and the "exactly one certificate" checks. */
module CaRotation {
  import opened Wrappers
  import opened GoInt
  import opened GoTime
  import opened X509
  import opened Pem
  import opened E2eHelpers
  import opened CoreV1
  import CaExpiry

  const CertDataKey: string := "tls.crt"
  const KeyDataKey: string := "tls.key"
  const SignerNamespace: string := "openshift-service-cert-signer"
  const ReplacementSecretName: string := "next-service-signer"
  const TlsSecretType: string := "kubernetes.io/tls"

  /** The most days `time.Duration(days) * 24 * time.Hour` can hold without wrapping. */
  const MaxReplacementDays: int := 106751

  function LiftCrypto<T>(r: Result<T, X509Error>): (l: Result<T, Failure>)
    ensures l.Ok? <==> r.Ok?
    ensures l.Ok? ==> l.value == r.value
  {
    match r
    case Ok(v) => Ok(v)
    case Err(e) => Err(CryptoFailure(e.message))
  }

  function LiftKey<T>(r: Result<T, KeyError>): (l: Result<T, Failure>)
    ensures l.Ok? <==> r.Ok?
    ensures l.Ok? ==> l.value == r.value
  {
    match r
    case Ok(v) => Ok(v)
    case Err(UnrecognizedKeyType) => Err(UnrecognizedKey)
    case Err(UnknownEllipticCurve) => Err(CryptoFailure("x509: unknown elliptic curve"))
  }

  /** `x509.CreateCertificate` then `x509.ParseCertificates`, then the check
      that exactly one certificate came back. */
  function CreateOneCertificate(x: Crypto, req: CertRequest): (r: Result<Certificate, Failure>)
    ensures r.Ok? <==>
      && x.createCertificate(req).Ok?
      && x.parseCertificates(x.createCertificate(req).value).Ok?
      && |x.parseCertificates(x.createCertificate(req).value).value| == 1
    ensures r.Ok? ==> r.value == x.parseCertificates(x.createCertificate(req).value).value[0]
    ensures x.createCertificate(req).Err? ==> r == Err(CryptoFailure(x.createCertificate(req).error.message))
    ensures (&& x.createCertificate(req).Ok?
             && x.parseCertificates(x.createCertificate(req).value).Err?)
      ==> r == Err(CryptoFailure(x.parseCertificates(x.createCertificate(req).value).error.message))
    ensures (&& x.createCertificate(req).Ok?
             && x.parseCertificates(x.createCertificate(req).value).Ok?
             && |x.parseCertificates(x.createCertificate(req).value).value| != 1)
      ==> r == Err(ExpectedOneCertificate)
  {
    var der :- LiftCrypto(x.createCertificate(req));
    var certs :- LiftCrypto(x.parseCertificates(der));
    if |certs| != 1 then Err(ExpectedOneCertificate) else Ok(certs[0])
  }

  /** With `crypto/x509` faithful on the request, a created certificate passes
      the check and is the one the request describes. */
  lemma CreateOneCertificateFaithful(x: Crypto, req: CertRequest)
    requires FaithfulOn(x, req)
    requires x.createCertificate(req).Ok?
    ensures CreateOneCertificate(x, req).Ok?
    ensures Describes(req, x.createCertificate(req).value, CreateOneCertificate(x, req).value)
  {
  }

  // Cross-signing.

  /** A CA as read from its secret. */
  datatype LoadedCA = LoadedCA(cert: Certificate, key: PrivateKey)

  /** Parsing a CA's credentials: the first PEM block of the cert data as a
      certificate, then the first block of the key data as a PKCS #1 key. */
  function ParseCA(x: Crypto, certPem: PemText, keyPem: PemText): (r: Result<LoadedCA, Failure>)
    requires certPem != [] && keyPem != []
    ensures r.Ok? <==> x.parseCertificate(certPem[0].bytes).Ok? && x.parsePkcs1PrivateKey(keyPem[0].bytes).Ok?
    ensures r.Ok? ==> r.value == LoadedCA(x.parseCertificate(certPem[0].bytes).value, x.parsePkcs1PrivateKey(keyPem[0].bytes).value)
    ensures x.parseCertificate(certPem[0].bytes).Err? ==>
      r == Err(CryptoFailure(x.parseCertificate(certPem[0].bytes).error.message))
    ensures x.parseCertificate(certPem[0].bytes).Ok? && x.parsePkcs1PrivateKey(keyPem[0].bytes).Err? ==>
      r == Err(CryptoFailure(x.parsePkcs1PrivateKey(keyPem[0].bytes).error.message))
  {
    var cert :- LiftCrypto(x.parseCertificate(FirstBlock(certPem).value.bytes));
    var key :- LiftCrypto(x.parsePkcs1PrivateKey(FirstBlock(keyPem).value.bytes));
    Ok(LoadedCA(cert, key))
  }

  /** A certificate for `subjectCA`'s identity, signed by `signer`: the CA's
      own certificate is both template and parent, and its public key is the
      one certified. */
  function CrossSignRequest(subjectCA: Certificate, signer: PrivateKey): (req: CertRequest)
    ensures req.template == subjectCA && req.parent == subjectCA
    ensures req.publicKey == subjectCA.publicKey && req.signer == signer
  {
    CertRequest(subjectCA, subjectCA, subjectCA.publicKey, signer)
  }

  /** The certificates made and the PEM texts the test writes out. */
  datatype CrossSigned = CrossSigned(
    first: Certificate, second: Certificate,
    currentCAPem: PemText, newCAPem: PemText, firstPem: PemText, secondPem: PemText)

  /** The two requests in the order the source issues them: the current CA's
      identity signed by the new key, then the new CA's identity signed by the
      current key. */
  function FirstRequest(current: LoadedCA, next: LoadedCA): CertRequest {
    CrossSignRequest(current.cert, next.key)
  }

  function SecondRequest(current: LoadedCA, next: LoadedCA): CertRequest {
    CrossSignRequest(next.cert, current.key)
  }

  /** The cross-signing steps once both CAs are loaded. The first failure ends
      the run with its error. */
  function CrossSign(x: Crypto, current: LoadedCA, next: LoadedCA): (r: Result<CrossSigned, Failure>)
    ensures r.Ok? <==> CreateOneCertificate(x, FirstRequest(current, next)).Ok? && CreateOneCertificate(x, SecondRequest(current, next)).Ok?
    ensures CreateOneCertificate(x, FirstRequest(current, next)).Err? ==> r == Err(CreateOneCertificate(x, FirstRequest(current, next)).error)
    ensures (&& CreateOneCertificate(x, FirstRequest(current, next)).Ok?
             && CreateOneCertificate(x, SecondRequest(current, next)).Err?)
      ==> r == Err(CreateOneCertificate(x, SecondRequest(current, next)).error)
    ensures r.Ok? ==>
      && r.value.first == CreateOneCertificate(x, FirstRequest(current, next)).value
      && r.value.second == CreateOneCertificate(x, SecondRequest(current, next)).value
    ensures r.Ok? ==>
      && r.value.firstPem == [Block(CertificateType, r.value.first.raw)]
      && r.value.secondPem == [Block(CertificateType, r.value.second.raw)]
      && r.value.currentCAPem == [Block(CertificateType, current.cert.raw)]
      && r.value.newCAPem == [Block(CertificateType, next.cert.raw)]
  {
    var first :- CreateOneCertificate(x, FirstRequest(current, next));
    var firstPem := EncodeCertificates([first]);
    var currentPem := EncodeCertificates([current.cert]);
    var newPem := EncodeCertificates([next.cert]);
    var second :- CreateOneCertificate(x, SecondRequest(current, next));
    Ok(CrossSigned(first, second, currentPem, newPem, firstPem, EncodeCertificates([second])))
  }

  /** `CreateCrossSignedInterimCAs` after the two secrets were fetched: read
      both credential pairs, parse the current CA then the new one, and
      cross-sign. It succeeds exactly when every step does, and a credential
      error is reported for the current CA's secret before the new one's. */
  function CreateCrossSignedInterimCAs(x: Crypto, currentFetched: Result<Secret<Block>, Failure>, newFetched: Result<Secret<Block>, Failure>)
    : (r: Result<CrossSigned, Failure>)
    ensures GetTLSCredsFromSecret(currentFetched, CertDataKey, KeyDataKey).Err? ==>
      r == Err(GetTLSCredsFromSecret(currentFetched, CertDataKey, KeyDataKey).error)
    ensures (&& GetTLSCredsFromSecret(currentFetched, CertDataKey, KeyDataKey).Ok?
             && GetTLSCredsFromSecret(newFetched, CertDataKey, KeyDataKey).Err?)
      ==> r == Err(GetTLSCredsFromSecret(newFetched, CertDataKey, KeyDataKey).error)
    ensures r.Ok? <==>
      var currentCreds := GetTLSCredsFromSecret(currentFetched, CertDataKey, KeyDataKey);
      var newCreds := GetTLSCredsFromSecret(newFetched, CertDataKey, KeyDataKey);
      && currentCreds.Ok? && newCreds.Ok?
      && ParseCA(x, currentCreds.value.0, currentCreds.value.1).Ok?
      && ParseCA(x, newCreds.value.0, newCreds.value.1).Ok?
      && CrossSign(x, ParseCA(x, currentCreds.value.0, currentCreds.value.1).value,
                      ParseCA(x, newCreds.value.0, newCreds.value.1).value).Ok?
    ensures
      var currentCreds := GetTLSCredsFromSecret(currentFetched, CertDataKey, KeyDataKey);
      var newCreds := GetTLSCredsFromSecret(newFetched, CertDataKey, KeyDataKey);
      currentCreds.Ok? && newCreds.Ok? ==>
        var currentCA := ParseCA(x, currentCreds.value.0, currentCreds.value.1);
        var newCA := ParseCA(x, newCreds.value.0, newCreds.value.1);
        && (currentCA.Err? ==> r == Err(currentCA.error))
        && (currentCA.Ok? && newCA.Err? ==> r == Err(newCA.error))
        && (currentCA.Ok? && newCA.Ok? ==> r == CrossSign(x, currentCA.value, newCA.value))
  {
    var currentCreds :- GetTLSCredsFromSecret(currentFetched, CertDataKey, KeyDataKey);
    var newCreds :- GetTLSCredsFromSecret(newFetched, CertDataKey, KeyDataKey);
    var current :- ParseCA(x, currentCreds.0, currentCreds.1);
    var next :- ParseCA(x, newCreds.0, newCreds.1);
    CrossSign(x, current, next)
  }

  /** The bridging property: with `crypto/x509` faithful on the two requests,
      the first intermediate carries the current CA's subject and public key
      under the new CA's signature, and the second is its mirror image. Each
      keeps its CA's serial number, CA flags and key usage, so a bridge of a
      CA is itself a CA. */
  lemma CrossSignBridgesBothCAs(x: Crypto, current: LoadedCA, next: LoadedCA)
    requires FaithfulOn(x, FirstRequest(current, next)) && FaithfulOn(x, SecondRequest(current, next))
    requires CrossSign(x, current, next).Ok?
    ensures var out := CrossSign(x, current, next).value;
      && out.first.subject == current.cert.subject && out.first.issuer == current.cert.subject
      && out.first.publicKey == current.cert.publicKey && out.first.signedBy == next.key.Public()
      && out.second.subject == next.cert.subject && out.second.issuer == next.cert.subject
      && out.second.publicKey == next.cert.publicKey && out.second.signedBy == current.key.Public()
    ensures var out := CrossSign(x, current, next).value;
      && out.first.isCA == current.cert.isCA && out.first.basicConstraintsValid == current.cert.basicConstraintsValid
      && out.first.keyUsage == current.cert.keyUsage && out.first.serialNumber == current.cert.serialNumber
      && out.second.isCA == next.cert.isCA && out.second.basicConstraintsValid == next.cert.basicConstraintsValid
      && out.second.keyUsage == next.cert.keyUsage && out.second.serialNumber == next.cert.serialNumber
  {
  }

  /** Swapping the two CAs swaps the two requests. */
  lemma CrossSignRequestsMirror(current: LoadedCA, next: LoadedCA)
    ensures SecondRequest(current, next) == FirstRequest(next, current)
  {
  }

  // The replacement CA.

  /** The replacement CA's template: valid from one second before `now` for
      `days` days of 24 hours (the multiplication is `time.Duration`
      arithmetic and wraps), serial 1, a CA with key-encipherment,
      digital-signature and cert-sign usage. */
  function ReplacementCATemplate(subject: Name, now: Time, days: int): (t: Certificate)
    requires IsInt64(days)
    ensures t.subject == subject && t.serialNumber == 1 && t.signatureAlgorithm == SHA256WithRSA
    ensures t.raw == [] && t.publicKey.None? && t.signedBy.None?
  {
    Certificate(
      raw := [],
      subject := subject,
      issuer := Name([]),
      serialNumber := 1,
      notBefore := now - 1 * Second,
      notAfter := now + WrapInt64(WrapInt64(days * 24) * Hour),
      keyUsage := {KeyEncipherment, DigitalSignature, CertSign},
      basicConstraintsValid := true,
      isCA := true,
      signatureAlgorithm := SHA256WithRSA,
      publicKey := None,
      signedBy := None)
  }

  /** For any day count the duration can hold, the template is a consistent CA
      (CA bit with valid basic constraints and cert-sign usage) valid from one
      second before `now` until exactly `days` days after it; it is not due
      for rotation when made, and it becomes due exactly when the clock passes
      the middle of that window, where the source's test and the corrected
      exact test agree. */
  lemma ReplacementTemplateIsFreshCA(subject: Name, now: Time, days: int, later: Time)
    requires 1 <= days <= MaxReplacementDays
    ensures var t := ReplacementCATemplate(subject, now, days);
      && t.isCA && t.basicConstraintsValid
      && t.keyUsage == {KeyEncipherment, DigitalSignature, CertSign}
      && t.notBefore == now - Second && t.notAfter == now + days * Day
      && !CaExpiry.CertHalfwayExpired(t, now)
      && (CaExpiry.CertHalfwayExpired(t, later) <==> CaExpiry.PastMidpoint(now - Second, now + days * Day, later))
      && (CaExpiry.CertHalfwayExpired(t, later) <==> CaExpiry.CertHalfwayExpiredExact(t, later))
  {
  }

  /** One day more and the duration wraps: the template would expire before it
      becomes valid. */
  lemma ReplacementTemplateWrapsPastMaxDays(subject: Name, now: Time)
    ensures ReplacementCATemplate(subject, now, MaxReplacementDays + 1).notAfter
      < ReplacementCATemplate(subject, now, MaxReplacementDays + 1).notBefore
  {
  }

  /** `createServiceSignerReplacementCASecret` up to the create call: the
      secret it submits, or the first error. The key pair is the result of
      `cryptohelpers.NewKeyPair()`; the template is self-signed with it. */
  function ReplacementCASecret(x: Crypto, subject: Name, days: int, now: Time, keyPair: Result<(PublicKey, PrivateKey), Failure>)
    : (r: Result<Secret<Block>, Failure>)
    requires IsInt64(days)
    ensures keyPair.Err? ==> r == Err(keyPair.error)
    ensures keyPair.Ok? ==>
      var t := ReplacementCATemplate(subject, now, days);
      (r.Ok? <==> CreateOneCertificate(x, CertRequest(t, t, Some(keyPair.value.0), keyPair.value.1)).Ok?
                  && EncodeKey(keyPair.value.1).Ok?)
    ensures keyPair.Ok? ==>
      var t := ReplacementCATemplate(subject, now, days);
      var created := CreateOneCertificate(x, CertRequest(t, t, Some(keyPair.value.0), keyPair.value.1));
      && (created.Err? ==> r == Err(created.error))
      && (created.Ok? && EncodeKey(keyPair.value.1).Err? ==> r == Err(LiftKey(EncodeKey(keyPair.value.1)).error))
    ensures r.Ok? ==>
      var t := ReplacementCATemplate(subject, now, days);
      && r.value.namespace == SignerNamespace && r.value.name == ReplacementSecretName
      && r.value.secretType == TlsSecretType
      && r.value.data.Some?
      && DataOf(r.value).Keys == {CertDataKey, KeyDataKey}
      && DataOf(r.value)[KeyDataKey] == EncodeKey(keyPair.value.1).value
      && DataOf(r.value)[CertDataKey]
         == EncodeCertificates([CreateOneCertificate(x, CertRequest(t, t, Some(keyPair.value.0), keyPair.value.1)).value])
      && |DataOf(r.value)[CertDataKey]| == 1 && DataOf(r.value)[CertDataKey][0].blockType == CertificateType
  {
    var t := ReplacementCATemplate(subject, now, days);
    var pair :- keyPair;
    var cert :- CreateOneCertificate(x, CertRequest(t, t, Some(pair.0), pair.1));
    var caPem := EncodeCertificates([cert]);
    var caKey :- LiftKey(EncodeKey(pair.1));
    Ok(Secret(SignerNamespace, ReplacementSecretName, TlsSecretType, Some(map[CertDataKey := caPem, KeyDataKey := caKey])))
  }

  /** The replacement secret passes the credential check the cross-signing
      step applies to it, handing back exactly its certificate and key text;
      with `crypto/x509` faithful on the self-signing request its certificate
      is the self-signed CA for the requested subject and key. */
  lemma ReplacementSecretIsLoadable(x: Crypto, subject: Name, days: int, now: Time, keyPair: Result<(PublicKey, PrivateKey), Failure>)
    requires IsInt64(days)
    requires keyPair.Ok? && EncodeKey(keyPair.value.1).Ok?
    requires var t := ReplacementCATemplate(subject, now, days);
      CreateOneCertificate(x, CertRequest(t, t, Some(keyPair.value.0), keyPair.value.1)).Ok?
    ensures ReplacementCASecret(x, subject, days, now, keyPair).Ok?
    ensures var s := ReplacementCASecret(x, subject, days, now, keyPair).value;
      GetTLSCredsFromSecret(Ok(s), CertDataKey, KeyDataKey) == Ok((DataOf(s)[CertDataKey], DataOf(s)[KeyDataKey]))
    ensures
      var t := ReplacementCATemplate(subject, now, days);
      var cert := CreateOneCertificate(x, CertRequest(t, t, Some(keyPair.value.0), keyPair.value.1)).value;
      ReplacementCASecret(x, subject, days, now, keyPair).value.data
        == Some(map[CertDataKey := [Block(CertificateType, cert.raw)], KeyDataKey := EncodeKey(keyPair.value.1).value])
    ensures
      var t := ReplacementCATemplate(subject, now, days);
      var req := CertRequest(t, t, Some(keyPair.value.0), keyPair.value.1);
      var cert := CreateOneCertificate(x, req).value;
      FaithfulOn(x, req) ==>
        && cert.raw == x.createCertificate(req).value
        && cert.subject == subject && cert.issuer == subject
        && cert.publicKey == Some(keyPair.value.0) && cert.signedBy == keyPair.value.1.Public()
        && cert.isCA && cert.basicConstraintsValid && cert.serialNumber == 1
        && cert.keyUsage == {KeyEncipherment, DigitalSignature, CertSign}
  {
    var t := ReplacementCATemplate(subject, now, days);
    var req := CertRequest(t, t, Some(keyPair.value.0), keyPair.value.1);
    var caPem := EncodeCertificates([CreateOneCertificate(x, req).value]);
    assert caPem == [caPem[0]];
    if FaithfulOn(x, req) {
      CreateOneCertificateFaithful(x, req);
    }
  }
}
