/** The composite trust manager of MultiX509TrustManager.kt: an ordered,
    non-empty list of trust managers that trusts a server chain when any of
    its members does, falls back from one member to the next only on a
    `CertificateException`, and surfaces the last member's rejection when all
    of them reject. */
module MultiTrust {
  import opened TrustManagers

  const EmptyListMessage := "Must provide at least one trust manager."

  /* ---------- Specification of the server check ---------- */

  /** Index of the first member that does not reject the chain with a
      `CertificateException` (it accepts it, or throws something else), or
      `|ms|` when every member rejects it. */
  function FirstDecisive(ms: seq<X509TrustManager>, chain: seq<Certificate>, authType: string): (k: nat)
    ensures k <= |ms|
    ensures forall j :: 0 <= j < k ==> RejectsChain(ms[j], chain, authType)
    ensures k < |ms| ==> !RejectsChain(ms[k], chain, authType)
  {
    if ms == [] then 0
    else if RejectsChain(ms[0], chain, authType) then 1 + FirstDecisive(ms[1..], chain, authType)
    else 0
  }

  /** What the composite's `checkServerTrusted` does: the outcome of the first
      decisive member; when there is none, the last member's rejection; and for
      an empty list (which the constructor refuses) a normal return. */
  function Verdict(ms: seq<X509TrustManager>, chain: seq<Certificate>, authType: string): Outcome
  {
    var k := FirstDecisive(ms, chain, authType);
    if k < |ms| then ms[k].checkServerTrusted(chain, authType)
    else if ms == [] then Returned
    else ms[|ms| - 1].checkServerTrusted(chain, authType)
  }

  /** How many members `checkServerTrusted` calls: up to and including the
      first decisive one, or all of them. */
  function ConsultedCount(ms: seq<X509TrustManager>, chain: seq<Certificate>, authType: string): nat
  {
    var k := FirstDecisive(ms, chain, authType);
    if k < |ms| then k + 1 else |ms|
  }

  /* ---------- Accepted issuers ---------- */

  /** `managers.flatMap { it.acceptedIssuers.toList() }` */
  function AcceptedIssuers(ms: seq<X509TrustManager>): seq<Certificate>
  {
    if ms == [] then [] else ms[0].acceptedIssuers + AcceptedIssuers(ms[1..])
  }

  /** The sum of the members' issuer counts. */
  function IssuerCount(ms: seq<X509TrustManager>): nat
  {
    if ms == [] then 0 else |ms[0].acceptedIssuers| + IssuerCount(ms[1..])
  }

  /* ---------- The composite ---------- */

  /** A `MultiX509TrustManager`. Its list is a `private val` that nothing
      reassigns, so the composite is a value. The composites the code builds
      come from `NewMultiX509TrustManager` and have the subset type
      `ValidMultiX509TrustManager`. */
  datatype MultiX509TrustManager = MultiX509TrustManager(managers: seq<X509TrustManager>)
  {
    predicate Valid()
    {
      |managers| > 0
    }

    /** `checkClientTrusted`: not supported, whatever the arguments. */
    method CheckClientTrusted(chain: seq<Certificate>, authType: string) returns (r: Outcome)
      ensures r.Threw? && r.exception == UnsupportedOperationException
    {
      r := Threw(UnsupportedOperationException);
    }

    /** `checkServerTrusted`: consults the members in list order. The ghost
        `consulted` records the indices of the members called, in call order. */
    method CheckServerTrusted(chain: seq<Certificate>, authType: string)
      returns (r: Outcome, ghost consulted: seq<nat>)
      ensures r == Verdict(managers, chain, authType)
      ensures |consulted| == ConsultedCount(managers, chain, authType)
      ensures forall j :: 0 <= j < |consulted| ==> consulted[j] == j
    {
      consulted := [];
      var index := 0;
      while index < |managers|
        invariant index <= FirstDecisive(managers, chain, authType)
        invariant managers == [] || index < |managers|
        invariant |consulted| == index
        invariant forall j :: 0 <= j < index ==> consulted[j] == j
      {
        consulted := consulted + [index];
        var outcome := managers[index].checkServerTrusted(chain, authType);
        if outcome.Returned? {
          return Returned, consulted;
        }
        if !outcome.exception.CertificateException? {
          // not caught: any other exception propagates straight away
          return outcome, consulted;
        }
        if index == |managers| - 1 {
          // every member has rejected the chain: rethrow the last rejection
          return outcome, consulted;
        }
        index := index + 1;
      }
      r := Returned;
    }

    /** `getAcceptedIssuers`: the members' issuers, concatenated in member
        order, duplicates kept. */
    function GetAcceptedIssuers(): (r: seq<Certificate>)
      ensures |r| == IssuerCount(managers)
      ensures forall c :: c in r <==> exists j :: 0 <= j < |managers| && c in managers[j].acceptedIssuers
    {
      AcceptedIssuersLength(managers);
      AcceptedIssuersMembership(managers);
      AcceptedIssuers(managers)
    }
  }

  /** The composites that passed the `init` check: the type itself carries the
      non-empty invariant. */
  type ValidMultiX509TrustManager = m: MultiX509TrustManager | m.Valid()
    witness MultiX509TrustManager([X509TrustManager((chain, authType) => Returned, [])])

  /** The constructor with its `init` check: an empty list is refused with an
      `IllegalArgumentException`, any other list is kept as given. */
  function NewMultiX509TrustManager(managers: seq<X509TrustManager>): (r: Result<ValidMultiX509TrustManager>)
    ensures r.Success? <==> |managers| > 0
    ensures r.Success? ==> r.value.managers == managers && r.value.Valid()
    ensures r.Failure? ==> r.error == IllegalArgumentException(EmptyListMessage)
  {
    if |managers| == 0 then Failure(IllegalArgumentException(EmptyListMessage))
    else Success(MultiX509TrustManager(managers))
  }

  /* ---------- Properties of the server check ---------- */

  /** If some member accepts the chain and each member before it rejects it with
      a `CertificateException`, the composite accepts it, and it does so
      whatever the members after that one would have done. */
  lemma AcceptedByEarliestMember(ms: seq<X509TrustManager>, k: nat, tail: seq<X509TrustManager>,
                                 chain: seq<Certificate>, authType: string)
    requires k < |ms|
    requires ms[k].checkServerTrusted(chain, authType) == Returned
    requires forall j :: 0 <= j < k ==> RejectsChain(ms[j], chain, authType)
    ensures Verdict(ms, chain, authType) == Returned
    ensures Verdict(ms[..k + 1] + tail, chain, authType) == Returned
    ensures ConsultedCount(ms, chain, authType) == k + 1
  {
    FirstDecisiveAt(ms, k, chain, authType);
    FirstDecisiveAt(ms[..k + 1] + tail, k, chain, authType);
  }

  /** Members after the first decisive one are never consulted: replacing them
      does not change the composite's outcome. */
  lemma LaterMembersIrrelevant(ms: seq<X509TrustManager>, tail: seq<X509TrustManager>,
                               chain: seq<Certificate>, authType: string)
    requires FirstDecisive(ms, chain, authType) < |ms|
    ensures var k := FirstDecisive(ms, chain, authType);
            Verdict(ms[..k + 1] + tail, chain, authType) == Verdict(ms, chain, authType)
  {
    var k := FirstDecisive(ms, chain, authType);
    FirstDecisiveAt(ms[..k + 1] + tail, k, chain, authType);
  }

  /** When every member either accepts the chain or rejects it with a
      `CertificateException`, and at least one accepts, the composite accepts:
      the order of the members does not matter. */
  lemma AnyAcceptanceSuffices(ms: seq<X509TrustManager>, chain: seq<Certificate>, authType: string)
    requires forall j :: 0 <= j < |ms| ==>
      ms[j].checkServerTrusted(chain, authType) == Returned || RejectsChain(ms[j], chain, authType)
    requires exists j :: 0 <= j < |ms| && ms[j].checkServerTrusted(chain, authType) == Returned
    ensures Verdict(ms, chain, authType) == Returned
  {
  }

  /** When every member rejects the chain with a `CertificateException`, the
      composite throws exactly the last member's exception, after consulting
      every member. */
  lemma AllRejectSurfacesLast(ms: seq<X509TrustManager>, chain: seq<Certificate>, authType: string)
    requires |ms| > 0
    requires forall j :: 0 <= j < |ms| ==> RejectsChain(ms[j], chain, authType)
    ensures Verdict(ms, chain, authType) == ms[|ms| - 1].checkServerTrusted(chain, authType)
    ensures Verdict(ms, chain, authType).Threw?
    ensures Verdict(ms, chain, authType).exception.CertificateException?
    ensures ConsultedCount(ms, chain, authType) == |ms|
  {
  }

  /** An exception other than a `CertificateException` thrown by a member that
      is reached propagates unchanged, and no later member is consulted. */
  lemma OtherExceptionPropagates(ms: seq<X509TrustManager>, k: nat, tail: seq<X509TrustManager>,
                                 chain: seq<Certificate>, authType: string, e: Exception)
    requires k < |ms|
    requires !e.CertificateException?
    requires ms[k].checkServerTrusted(chain, authType) == Threw(e)
    requires forall j :: 0 <= j < k ==> RejectsChain(ms[j], chain, authType)
    ensures Verdict(ms, chain, authType) == Threw(e)
    ensures Verdict(ms[..k + 1] + tail, chain, authType) == Threw(e)
    ensures ConsultedCount(ms, chain, authType) == k + 1
  {
    FirstDecisiveAt(ms, k, chain, authType);
    FirstDecisiveAt(ms[..k + 1] + tail, k, chain, authType);
  }

  /** The composite accepts a chain exactly when some member accepts it and
      every member before that one rejects it with a `CertificateException`. */
  lemma TrustedIff(ms: seq<X509TrustManager>, chain: seq<Certificate>, authType: string)
    requires |ms| > 0
    ensures Verdict(ms, chain, authType) == Returned <==>
      exists k :: 0 <= k < |ms| && ms[k].checkServerTrusted(chain, authType) == Returned &&
                  forall j :: 0 <= j < k ==> RejectsChain(ms[j], chain, authType)
  {
  }

  /** The composite never makes up an outcome of its own or aggregates
      several: it accepts, or it surfaces the outcome of one of its members. */
  lemma VerdictComesFromOneMember(ms: seq<X509TrustManager>, chain: seq<Certificate>, authType: string)
    requires |ms| > 0
    ensures Verdict(ms, chain, authType) == Returned ||
            exists j :: 0 <= j < |ms| && Verdict(ms, chain, authType) == ms[j].checkServerTrusted(chain, authType)
  {
  }

  /** A composite of one member behaves exactly like that member. */
  lemma SingleMemberIsTransparent(m: X509TrustManager, chain: seq<Certificate>, authType: string)
    ensures Verdict([m], chain, authType) == m.checkServerTrusted(chain, authType)
    ensures ConsultedCount([m], chain, authType) == 1
  {
  }

  /** An empty list would trust every chain without asking anyone, which is
      why the constructor refuses it. */
  lemma EmptyListTrustsEverything(chain: seq<Certificate>, authType: string)
    ensures Verdict([], chain, authType) == Returned
    ensures NewMultiX509TrustManager([]).Failure?
  {
  }

  /** Helper: `FirstDecisive` is pinned down by a decisive member whose
      predecessors all reject. */
  lemma FirstDecisiveAt(ms: seq<X509TrustManager>, k: nat, chain: seq<Certificate>, authType: string)
    requires k < |ms|
    requires !RejectsChain(ms[k], chain, authType)
    requires forall j :: 0 <= j < k ==> RejectsChain(ms[j], chain, authType)
    ensures FirstDecisive(ms, chain, authType) == k
  {
  }

  /* ---------- Properties of the accepted issuers ---------- */

  lemma {:induction false} AcceptedIssuersLength(ms: seq<X509TrustManager>)
    ensures |AcceptedIssuers(ms)| == IssuerCount(ms)
  {
    if ms != [] {
      AcceptedIssuersLength(ms[1..]);
    }
  }

  /** Issuers distribute over concatenation of member lists. */
  lemma {:induction false} AcceptedIssuersAppend(a: seq<X509TrustManager>, b: seq<X509TrustManager>)
    ensures AcceptedIssuers(a + b) == AcceptedIssuers(a) + AcceptedIssuers(b)
  {
    if a != [] {
      assert (a + b)[1..] == a[1..] + b;
      AcceptedIssuersAppend(a[1..], b);
    } else {
      assert a + b == b;
    }
  }

  /** Every issuer of every member is accepted, and nothing else is. */
  lemma {:induction false} AcceptedIssuersMembership(ms: seq<X509TrustManager>)
    ensures forall c :: c in AcceptedIssuers(ms) <==>
      exists j :: 0 <= j < |ms| && c in ms[j].acceptedIssuers
  {
    if ms != [] {
      AcceptedIssuersMembership(ms[1..]);
      forall c | c in AcceptedIssuers(ms)
        ensures exists j :: 0 <= j < |ms| && c in ms[j].acceptedIssuers
      {
        if c !in ms[0].acceptedIssuers {
          assert c in AcceptedIssuers(ms[1..]);
          var j :| 0 <= j < |ms[1..]| && c in ms[1..][j].acceptedIssuers;
          assert ms[1..][j] == ms[j + 1];
        }
      }
      forall c, j | 0 <= j < |ms| && c in ms[j].acceptedIssuers
        ensures c in AcceptedIssuers(ms)
      {
        if j > 0 {
          assert ms[1..][j - 1] == ms[j];
        }
      }
    }
  }

  /** Position by position: the i-th issuer of member j sits right after the
      issuers of the members before j, so order and duplicates are kept. */
  lemma {:induction false} AcceptedIssuersAt(ms: seq<X509TrustManager>, j: nat, i: nat)
    requires j < |ms| && i < |ms[j].acceptedIssuers|
    ensures IssuerCount(ms[..j]) + i < |AcceptedIssuers(ms)|
    ensures AcceptedIssuers(ms)[IssuerCount(ms[..j]) + i] == ms[j].acceptedIssuers[i]
  {
    assert ms == ms[..j] + [ms[j]] + ms[j + 1..];
    AcceptedIssuersAppend(ms[..j] + [ms[j]], ms[j + 1..]);
    AcceptedIssuersAppend(ms[..j], [ms[j]]);
    AcceptedIssuersLength(ms[..j]);
    assert AcceptedIssuers([ms[j]]) == ms[j].acceptedIssuers + AcceptedIssuers([]);
  }
}
