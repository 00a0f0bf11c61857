# okhttp-system-keystore: a Dafny model of the trust-decision policy

The library makes an OkHttp client trust the operating system's certificate
store in addition to the JDK's default trust anchors. This project models its
three core files:

- **`MultiX509TrustManager`** (`multi_trust.dfy`, module `MultiTrust`): the
  composite trust manager. It holds a non-empty, ordered list of X509 trust
  managers. `checkServerTrusted` asks the members in order. The first member
  that returns normally makes the composite succeed. A `CertificateException`
  from any member except the last is swallowed. The last member's
  `CertificateException` is rethrown. Any other exception propagates
  immediately. `getAcceptedIssuers` concatenates the members' issuers, and
  `checkClientTrusted` always throws `UnsupportedOperationException`. The
  composite's list is never reassigned, so the composite is a datatype. Its
  `CheckServerTrusted` is a method with a while loop, proved against the
  specification function `Verdict`. `Verdict` gives the outcome of the first
  member that does not reject with a `CertificateException`; when every member
  rejects, it gives the last member's rejection.
- **`OperatingSystem`** (`operating_systems.dfy`, module `OperatingSystems`):
  classifies `os.name` as `Mac`, `Windows` or `Other`. It tests the prefix
  "mac" and then the prefix "windows", ignoring case. The companion's `current`
  value is a `const` that is set once.
- **`Extensions.kt`** (`extensions.dfy`, module `Extensions`): covers four
  things:
  - building a trust manager from a key store, including Kotlin's `single()`
    and the cast to `X509TrustManager`;
  - choosing the key store type for each platform (`"KeychainStore"`,
    `"Windows-ROOT"`, or none);
  - assembling the list `[default] + platform`;
  - installing the composite into an `SSLContext` and the client builder.

The JDK's `KeyStore.getInstance`/`load` and its `TrustManagerFactory` are
represented by the opaque `Jdk` value (two functions that may throw). A trust
manager is an opaque function from a chain and an auth type to an outcome,
together with its accepted issuers (`trust_managers.dfy`, module
`TrustManagers`). Exceptions are values of the `Exception` datatype. A call
that can throw returns a `Result` or an `Outcome`.

## Model

| member | source | states |
|---|---|---|
| `MultiTrust.NewMultiX509TrustManager` | src/main/kotlin/com/charleskorn/okhttp/systemkeystore/MultiX509TrustManager.kt:23-28 | construction succeeds exactly when the list is non-empty and keeps the list as given, as a `ValidMultiX509TrustManager` (the subset type of non-empty composites); an empty list fails with `IllegalArgumentException("Must provide at least one trust manager.")` |
| `MultiTrust.MultiX509TrustManager.CheckClientTrusted` | src/main/kotlin/com/charleskorn/okhttp/systemkeystore/MultiX509TrustManager.kt:30-32 | always throws `UnsupportedOperationException`, whatever the chain and auth type |
| `MultiTrust.MultiX509TrustManager.CheckServerTrusted` | src/main/kotlin/com/charleskorn/okhttp/systemkeystore/MultiX509TrustManager.kt:34-47 | the loop's outcome is `Verdict` of the members; it calls exactly the members 0, 1, ... up to the first one that does not reject with a `CertificateException` (all of them if none), in list order |
| `MultiTrust.FirstDecisive` | src/main/kotlin/com/charleskorn/okhttp/systemkeystore/MultiX509TrustManager.kt:35-45 | the index of the first member that does not reject the chain with a `CertificateException`: every earlier member rejects, the member at the index does not |
| `MultiTrust.AcceptedByEarliestMember` | src/main/kotlin/com/charleskorn/okhttp/systemkeystore/MultiX509TrustManager.kt:35-39 | a member that accepts, after members that all reject, makes the composite accept after k+1 calls, whatever the later members are |
| `MultiTrust.LaterMembersIrrelevant` | src/main/kotlin/com/charleskorn/okhttp/systemkeystore/MultiX509TrustManager.kt:35-39 | replacing the members after the first decisive one does not change the outcome (they are never consulted) |
| `MultiTrust.AnyAcceptanceSuffices` | src/main/kotlin/com/charleskorn/okhttp/systemkeystore/MultiX509TrustManager.kt:35-39 | if every member accepts or rejects with a `CertificateException` and some member accepts, the composite accepts, in any order |
| `MultiTrust.AllRejectSurfacesLast` | src/main/kotlin/com/charleskorn/okhttp/systemkeystore/MultiX509TrustManager.kt:40-44 | if every member rejects with a `CertificateException`, the composite throws exactly the last member's exception, after consulting all members |
| `MultiTrust.OtherExceptionPropagates` | src/main/kotlin/com/charleskorn/okhttp/systemkeystore/MultiX509TrustManager.kt:36-40 | an exception that is not a `CertificateException`, thrown by a member that is reached, is the composite's outcome unchanged, and no later member is consulted |
| `MultiTrust.TrustedIff` | src/main/kotlin/com/charleskorn/okhttp/systemkeystore/MultiX509TrustManager.kt:34-47 | for a non-empty list, the composite accepts if and only if some member accepts and every member before it rejects with a `CertificateException` |
| `MultiTrust.VerdictComesFromOneMember` | src/main/kotlin/com/charleskorn/okhttp/systemkeystore/MultiX509TrustManager.kt:34-47 | for a non-empty list the composite accepts or reports the outcome of one member, never an aggregate |
| `MultiTrust.SingleMemberIsTransparent` | src/main/kotlin/com/charleskorn/okhttp/systemkeystore/MultiX509TrustManager.kt:35-46 | a one-member composite behaves exactly as its member and calls it once |
| `MultiTrust.EmptyListTrustsEverything` | src/main/kotlin/com/charleskorn/okhttp/systemkeystore/MultiX509TrustManager.kt:24-28 | the loop over an empty list would return normally for any chain, and construction refuses that list |
| `MultiTrust.MultiX509TrustManager.GetAcceptedIssuers` | src/main/kotlin/com/charleskorn/okhttp/systemkeystore/MultiX509TrustManager.kt:49-51 | the result has as many issuers as the members together, and a certificate is in it exactly when some member accepts it as issuer |
| `MultiTrust.AcceptedIssuersLength` | src/main/kotlin/com/charleskorn/okhttp/systemkeystore/MultiX509TrustManager.kt:50 | the number of issuers is the sum of the members' counts (no deduplication) |
| `MultiTrust.AcceptedIssuersAppend` | src/main/kotlin/com/charleskorn/okhttp/systemkeystore/MultiX509TrustManager.kt:50 | the issuers of a concatenated member list are the concatenation of the two lists' issuers |
| `MultiTrust.AcceptedIssuersMembership` | src/main/kotlin/com/charleskorn/okhttp/systemkeystore/MultiX509TrustManager.kt:50 | a certificate is among the issuers if and only if some member lists it |
| `MultiTrust.AcceptedIssuersAt` | src/main/kotlin/com/charleskorn/okhttp/systemkeystore/MultiX509TrustManager.kt:50 | the i-th issuer of member j sits right after all issuers of the members before j: member order and duplicates are kept |
| `OperatingSystems.DetermineCurrentOperatingSystem` | src/main/kotlin/com/charleskorn/okhttp/systemkeystore/OperatingSystem.kt:27-35 | `Mac` exactly when the name starts with "mac" ignoring case; `Windows` exactly when it does not but starts with "windows"; `Other` exactly when it starts with neither |
| `OperatingSystems.Companion.constructor` | src/main/kotlin/com/charleskorn/okhttp/systemkeystore/OperatingSystem.kt:24-25 | `current` is the classification of the property value, fixed once (a `const`) |
| `OperatingSystems.CharEqualsIgnoreCase` | src/main/kotlin/com/charleskorn/okhttp/systemkeystore/OperatingSystem.kt:31-32 | the per-character test of `startsWith(..., ignoreCase = true)` (equal, equal upper-cased, or equal upper- then lower-cased) holds exactly when the characters are equal after ASCII lower-casing; only ASCII case folding is modelled |
| `OperatingSystems.StartsWithIgnoreCase` | src/main/kotlin/com/charleskorn/okhttp/systemkeystore/OperatingSystem.kt:31-32 | false when the prefix is longer than the name; otherwise true exactly when every prefix character equals the name's character at the same position after ASCII lower-casing |
| `OperatingSystems.SameLowerSamePrefix` | src/main/kotlin/com/charleskorn/okhttp/systemkeystore/OperatingSystem.kt:31-32 | two names equal up to ASCII case pass or fail every ignore-case prefix test together |
| `OperatingSystems.RecaseKeepsOperatingSystem` | src/main/kotlin/com/charleskorn/okhttp/systemkeystore/OperatingSystem.kt:30-34 | changing the ASCII case of any characters of the name does not change the classification |
| `OperatingSystems.MacExamples` | src/main/kotlin/com/charleskorn/okhttp/systemkeystore/OperatingSystem.kt:31 | "Mac OS X", "MAC" and "macwindows" classify as `Mac` |
| `OperatingSystems.WindowsExamples` | src/main/kotlin/com/charleskorn/okhttp/systemkeystore/OperatingSystem.kt:32 | "Windows 10" and mixed-case "wInDoWs Server 2019" classify as `Windows` |
| `OperatingSystems.OtherExamples` | src/main/kotlin/com/charleskorn/okhttp/systemkeystore/OperatingSystem.kt:33 | "Linux", the empty name and the too-short "ma" and "window" classify as `Other` |
| `Extensions.Single` | src/main/kotlin/com/charleskorn/okhttp/systemkeystore/Extensions.kt:60 | succeeds exactly on a one-element array, with that element; otherwise `NoSuchElementException("Array is empty.")` or `IllegalArgumentException("Array has more than one element.")` |
| `Extensions.BuildTrustManagerForKeyStore` | src/main/kotlin/com/charleskorn/okhttp/systemkeystore/Extensions.kt:56-61 | succeeds exactly when the initialised factory yields one trust manager and it is an X509 one, and returns that manager; factory exceptions propagate; zero or several managers fail as `single()` does; a lone non-X509 manager fails with `ClassCastException` |
| `Extensions.BuildTrustManagerForKeyStoreType` | src/main/kotlin/com/charleskorn/okhttp/systemkeystore/Extensions.kt:49-54 | succeeds exactly when the named store loads and the factory initialised with it yields one X509 manager, which is the result; a load failure propagates, and once the store loads every later failure propagates unchanged: the factory's exception, `NoSuchElementException` for an empty array, `IllegalArgumentException` for more than one element, `ClassCastException` for a single non-X509 element |
| `Extensions.GetDefaultTrustManager` | src/main/kotlin/com/charleskorn/okhttp/systemkeystore/Extensions.kt:36 | the sole X509 manager of the factory initialised with no key store; the factory's own exception propagates unchanged |
| `Extensions.BuildMacTrustManager` | src/main/kotlin/com/charleskorn/okhttp/systemkeystore/Extensions.kt:46 | succeeds exactly when the `"KeychainStore"` store is usable, with the sole manager built from it; a load failure propagates unchanged |
| `Extensions.BuildWindowsUserTrustManager` | src/main/kotlin/com/charleskorn/okhttp/systemkeystore/Extensions.kt:47 | succeeds exactly when the `"Windows-ROOT"` store is usable, with the sole manager built from it; a load failure propagates unchanged |
| `Extensions.GetOSTrustManagers` | src/main/kotlin/com/charleskorn/okhttp/systemkeystore/Extensions.kt:38-47 | on `Mac` exactly one manager built from `"KeychainStore"`, on `Windows` exactly one built from `"Windows-ROOT"`, each failing only when that store is unusable and then with that store's own exception; on `Other` always the empty list |
| `Extensions.TrustManagerList` | src/main/kotlin/com/charleskorn/okhttp/systemkeystore/Extensions.kt:27 | the default manager at index 0 followed by the platform managers, so length 1 on `Other` and 2 otherwise; the default manager's failure takes precedence, and otherwise the platform part's exception is the result |
| `Extensions.AssembledListIsAccepted` | src/main/kotlin/com/charleskorn/okhttp/systemkeystore/Extensions.kt:27-28 | the assembled list always passes the composite's non-empty check |
| `Extensions.AssembledCompositeDecision` | src/main/kotlin/com/charleskorn/okhttp/systemkeystore/Extensions.kt:27-28 | what the default store accepts is accepted; on `Other` the composite is the default store; on Mac and Windows a chain the default store rejects is decided by the platform store, whose rejection is the one reported |
| `Extensions.SSLContext.constructor` | src/main/kotlin/com/charleskorn/okhttp/systemkeystore/Extensions.kt:30 | a context for the given protocol with no trust managers yet |
| `Extensions.SSLContext.SocketFactory` | src/main/kotlin/com/charleskorn/okhttp/systemkeystore/Extensions.kt:33 | the socket factory carries the context's protocol and exactly the trust managers the context was initialised with |
| `Extensions.SSLContext.Init` | src/main/kotlin/com/charleskorn/okhttp/systemkeystore/Extensions.kt:31 | the context's trust managers become exactly the given ones |
| `Extensions.OkHttpClientBuilder.SetSslSocketFactory` | src/main/kotlin/com/charleskorn/okhttp/systemkeystore/Extensions.kt:33 | the builder records the socket factory and the trust manager and returns itself |
| `Extensions.UseOperatingSystemCertificateTrustStore` | src/main/kotlin/com/charleskorn/okhttp/systemkeystore/Extensions.kt:26-34 | succeeds exactly when the list can be assembled and returns the receiver. The composite holds that list. The same composite is the builder's trust manager and the only trust manager of the TLS context whose socket factory the builder receives. On failure the exception propagates and the builder is unchanged |

## Left out

- Certificate path validation inside the JDK trust managers. The loading of key stores and the initialisation of `TrustManagerFactory` are left out too. They are foreign JDK calls, represented by opaque functions (`X509TrustManager.checkServerTrusted`, `Jdk`).
- The members' own `checkClientTrusted` is never called by the composite and is not modelled.
- Null `chain` or `authType` arguments are passed to the members unchanged. They are not distinguished from other values.
- `DetermineCurrentOperatingSystem` takes the value of `os.name` as a parameter. The case where the property is missing (null, which would throw) is not modelled.
- `DetermineCurrentOperatingSystem` uses ASCII case folding only. The JDK's Unicode case mapping would also match a few non-ASCII letters, such as a dotless ı against "i".
- `OperatingSystems.Companion.constructor`: the process-wide one-time initialisation of the companion object is represented by a `const` set in a constructor that the caller runs once. Class-loading order is not modelled.
- `UseOperatingSystemCertificateTrustStore`: `SSLContext.getInstance("TLS")` and `SSLContext.init` are assumed to succeed. Their `NoSuchAlgorithmException` and `KeyManagementException` are not modelled. The socket factory is represented by the protocol and trust managers it was made from.
- `BuildTrustManagerForKeyStore`: a null element in the factory's array is not distinguished from a non-X509 element. For a null element the source throws `NullPointerException` (the Kotlin cast to a non-null type), where the model reports `ClassCastException`.
- `MultiTrust.MultiX509TrustManager.GetAcceptedIssuers`: the fresh array the source returns is represented by a sequence, so aliasing is not modelled.
- Concurrent calls of `checkServerTrusted` are not modelled. The model is sequential, and the composite's list is immutable.
- OkHttp client wiring beyond the builder's recorded socket factory and trust manager is not modelled. Neither are the test helpers (process spawning, keychain and `certutil` manipulation, mock servers) or the build files.
