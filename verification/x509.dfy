/** The parts of `crypto/x509` the helpers touch, kept opaque: certificates and
    keys are records of the fields the helpers read or set, and creation and
    parsing are functions supplied by the caller. */
module X509 {
  import opened Wrappers
  import opened GoInt
  import opened GoTime

  /** A distinguished name (`pkix.Name`), compared as a whole. */
  datatype Name = Name(attributes: seq<string>)

  /** The bits of `x509.KeyUsage`, in declaration order. */
  datatype KeyUsage =
    | DigitalSignature | ContentCommitment | KeyEncipherment | DataEncipherment
    | KeyAgreement | CertSign | CRLSign | EncipherOnly | DecipherOnly

  datatype SignatureAlgorithm = UnknownSignatureAlgorithm | SHA256WithRSA | OtherSignatureAlgorithm(name: string)

  /** The key algorithms the helpers know how to encode. */
  datatype KeyAlgorithm = RSA | ECDSA

  /** A public key: its algorithm and an opaque identity. */
  datatype PublicKey = PublicKey(algorithm: KeyAlgorithm, id: nat)

  /** The curves `x509.MarshalECPrivateKey` can name, and any other. */
  datatype Curve = P224 | P256 | P384 | P521 | UnnamedCurve

  /** A `crypto.PrivateKey` as a type switch sees it. `der` is the encoding the
      matching marshaller writes (SEC 1 for ECDSA, PKCS #1 for RSA). */
  datatype PrivateKey =
    | EcdsaKey(curve: Curve, der: Bytes, publicKey: PublicKey)
    | RsaKey(der: Bytes, publicKey: PublicKey)
    | OtherKey(algorithm: string)
  {
    /** The public half, when the key type has one the model knows. */
    function Public(): Option<PublicKey> {
      match this
      case EcdsaKey(_, _, p) => Some(p)
      case RsaKey(_, p) => Some(p)
      case OtherKey(_) => None
    }
  }

  /** An `x509.Certificate`. A template has empty `raw` and no keys; `signedBy`
      is the public key that verifies the signature of a created certificate. */
  datatype Certificate = Certificate(
    raw: Bytes,
    subject: Name,
    issuer: Name,
    serialNumber: int,
    notBefore: Time,
    notAfter: Time,
    keyUsage: set<KeyUsage>,
    basicConstraintsValid: bool,
    isCA: bool,
    signatureAlgorithm: SignatureAlgorithm,
    publicKey: Option<PublicKey>,
    signedBy: Option<PublicKey>)

  /** The arguments of `x509.CreateCertificate(rand, template, parent, pub, priv)`. */
  datatype CertRequest = CertRequest(template: Certificate, parent: Certificate, publicKey: Option<PublicKey>, signer: PrivateKey)

  datatype X509Error = X509Error(message: string)

  /** The foreign x509 calls: `CreateCertificate`, `ParseCertificates`,
      `ParseCertificate` and `ParsePKCS1PrivateKey`. */
  datatype Crypto = Crypto(
    createCertificate: CertRequest -> Result<Bytes, X509Error>,
    parseCertificates: Bytes -> Result<seq<Certificate>, X509Error>,
    parseCertificate: Bytes -> Result<Certificate, X509Error>,
    parsePkcs1PrivateKey: Bytes -> Result<PrivateKey, X509Error>)

  /** `c`, parsed from `der`, is the certificate `CreateCertificate` was
      asked for: the DER itself, the template's subject, serial number, CA
      flags and key usage, the parent's subject as issuer, the requested
      public key, and a signature that the signer's public key verifies.
      Validity times are left out: x509 writes them in whole seconds, so a
      template time with a sub-second part does not come back unchanged. */
  predicate Describes(req: CertRequest, der: Bytes, c: Certificate) {
    && c.raw == der
    && c.subject == req.template.subject && c.issuer == req.parent.subject
    && c.serialNumber == req.template.serialNumber
    && c.basicConstraintsValid == req.template.basicConstraintsValid && c.isCA == req.template.isCA
    && c.keyUsage == req.template.keyUsage
    && c.publicKey == req.publicKey && c.signedBy == req.signer.Public()
  }

  /** What the model assumes of `crypto/x509` for one request, where a
      property needs it: if the certificate is created, its DER parses back to
      exactly one certificate, and that certificate is the one the request
      describes on every field the encoding round-trips. */
  predicate FaithfulOn(x: Crypto, req: CertRequest) {
    x.createCertificate(req).Ok? ==>
      var der := x.createCertificate(req).value;
      && x.parseCertificates(der).Ok?
      && |x.parseCertificates(der).value| == 1
      && Describes(req, der, x.parseCertificates(der).value[0])
  }
}
