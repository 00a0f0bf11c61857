/** The JDK-facing vocabulary shared by the composite trust manager and the
    code that assembles it: certificates, the exceptions that can be thrown,
    the outcome of a trust check and the X509TrustManager capability itself.
    Real certificate-path validation lives in the JDK and is not modelled: a
    trust manager is an opaque function from a chain and an auth type to an
    outcome, together with the issuers it accepts. */
module TrustManagers {

  type byte = bv8

  /** An X.509 certificate, identified by its DER encoding. */
  datatype Certificate = Certificate(encoded: seq<byte>)

  /** The exceptions that can leave the modelled code. `CertificateException`
      stands for that class and all its subclasses (a PKIX path-building
      failure, an expired certificate, ...); `OtherException` for any
      throwable that is not one of the kinds listed here. */
  datatype Exception =
    | CertificateException(message: string)
    | IllegalArgumentException(message: string)
    | UnsupportedOperationException
    | NoSuchElementException(message: string)
    | ClassCastException
    | OtherException(message: string)

  /** How a call to a `Unit`-returning JVM method ends: it returns normally or
      it throws. */
  datatype Outcome = Returned | Threw(exception: Exception)

  /** The result of a JVM call that produces a value or throws. */
  datatype Result<+T> = Success(value: T) | Failure(error: Exception)

  /** An `X509TrustManager`: `checkServerTrusted(chain, authType)` and
      `getAcceptedIssuers()`. The client-side check of the members is never
      called by the modelled code and is left out. */
  datatype X509TrustManager = X509TrustManager(
    checkServerTrusted: (seq<Certificate>, string) -> Outcome,
    acceptedIssuers: seq<Certificate>)

  /** The member rejected the chain with a `CertificateException`, the one kind
      of failure the composite falls back on. */
  predicate RejectsChain(m: X509TrustManager, chain: seq<Certificate>, authType: string)
  {
    var o := m.checkServerTrusted(chain, authType);
    o.Threw? && o.exception.CertificateException?
  }
}
