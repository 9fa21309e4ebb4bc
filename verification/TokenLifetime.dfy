/**
 The lifetime of a service account token: from the command line's duration through the
 annotation to the webhook (pkg/cmd/serviceaccount/phases/create/serviceaccount.go,
 pkg/kuberneteshelper/serviceaccount.go, pkg/webhook/webhook.go), and from the projected file to
 the assertion that a client sends (examples/custom-token-endpoint-msal-go/token_credential.go).

 Durations and instants are whole numbers of nanoseconds, as in Go.
 */
module TokenLifetime {
  import opened Common
  import opened Text
  import opened PodMutator

  const SECOND: int := 1_000_000_000

  /** time.Duration.Round to the second: to the nearest, halves away from zero. */
  function RoundToSecond(d: int): int
    decreases d < 0
  {
    if d < 0 then -RoundToSecond(-d)
    else
      var r := d % SECOND;
      if r + r < SECOND then d - r else d + SECOND - r
  }

  /** The bounds that create and detect check before they run. */
  predicate AcceptedLifetime(d: int) {
    MIN_TOKEN_EXPIRATION * SECOND <= d <= MAX_TOKEN_EXPIRATION * SECOND
  }

  function PrintedSeconds(d: int): string {
    Decimal(RoundToSecond(d) / SECOND)
  }

  /** The annotations that create writes. */
  function AccountAnnotations(clientID: string, tenantID: string, lifetime: int): map<string, string> {
    var ids := map[CLIENT_ID_ANNOTATION := clientID, TENANT_ID_ANNOTATION := tenantID];
    if lifetime == DEFAULT_TOKEN_EXPIRATION * SECOND then ids
    else ids[TOKEN_EXPIRY_ANNOTATION := PrintedSeconds(lifetime)]
  }

  lemma RoundNearest(d: int)
    requires 0 <= d
    ensures RoundToSecond(d) % SECOND == 0
    ensures -SECOND < 2 * (RoundToSecond(d) - d) <= SECOND
  {
    var q := d / SECOND;
    assert d == q * SECOND + d % SECOND;
    assert RoundToSecond(d) == q * SECOND || RoundToSecond(d) == (q + 1) * SECOND;
  }

  /** Whole seconds that are nearest to a duration within the bounds, half a second going up, stay
      within the bounds. */
  lemma RoundWithinBounds(d: int)
    requires AcceptedLifetime(d)
    ensures var e := RoundToSecond(d) / SECOND;
            ValidTokenExpiry(e) && -SECOND < 2 * (e * SECOND - d) <= SECOND
  {
    RoundNearest(d);
  }

  /** What the webhook reads for a pod whose account create annotated. */
  function ProjectedLifetime(pod: Pod, clientID: string, tenantID: string, lifetime: int): Option<int> {
    TokenExpiration(pod, ServiceAccount(AccountAnnotations(clientID, tenantID, lifetime)))
  }

  /** What create accepts, the webhook reads back: a valid expiration, within half a second. */
  lemma LifetimeRoundTrip(pod: Pod, clientID: string, tenantID: string, lifetime: int)
    requires AcceptedLifetime(lifetime)
    requires Annotation(pod.annotations, TOKEN_EXPIRY_ANNOTATION) == ""
    ensures var parsed := ProjectedLifetime(pod, clientID, tenantID, lifetime);
            && parsed.Some?
            && MIN_TOKEN_EXPIRATION <= parsed.value <= MAX_TOKEN_EXPIRATION
            && -SECOND < 2 * (parsed.value * SECOND - lifetime) <= SECOND
  {
    RoundWithinBounds(lifetime);
    ParseDecimal(RoundToSecond(lifetime) / SECOND, 64);
    DecimalDigits(RoundToSecond(lifetime) / SECOND);
    assert |TOKEN_EXPIRY_ANNOTATION| != |CLIENT_ID_ANNOTATION| && |TOKEN_EXPIRY_ANNOTATION| != |TENANT_ID_ANNOTATION|;
  }

  // ---------------------------------------------------------------------------------------
  // The assertion cache

  const CACHE_TIME: int := 300 * SECOND

  datatype ReadFile = Content(text: string) | ReadFailed

  datatype Assertion = Assertion(text: string, lastRead: int)

  /** Instants are counted from the zero time of Go, at which lastRead starts. */
  class ClientAssertionCredential {
    var assertion: string
    var lastRead: int

    constructor ()
      ensures Value() == Assertion("", 0)
    {
      assertion, lastRead := "", 0;
    }

    function Value(): Assertion
      reads this
    {
      Assertion(assertion, lastRead)
    }

    /** file is what reading the token file at this moment gives. */
    method GetAssertion(now: int, file: ReadFile) returns (r: ReadFile)
      modifies this
      ensures Value() == Refreshed(old(Value()), now, file) && r == Answer(old(Value()), now, file)
      ensures now <= old(lastRead) + 300_000_000_000 ==> r == Content(old(assertion)) && Value() == old(Value())
    {
      if lastRead + CACHE_TIME < now {
        if file.ReadFailed? {
          return ReadFailed;
        }
        assertion := file.text;
        lastRead := now;
      }
      r := Content(assertion);
    }
  }

  predicate Stale(a: Assertion, now: int) {
    a.lastRead + CACHE_TIME < now
  }

  /** A failed read keeps what was cached. */
  function Refreshed(a: Assertion, now: int, file: ReadFile): Assertion {
    if Stale(a, now) && file.Content? then Assertion(file.text, now) else a
  }

  function Answer(a: Assertion, now: int, file: ReadFile): ReadFile {
    if !Stale(a, now) then Content(a.text) else file
  }

  /** The cache after calls at the given instants, file(t) being what a read at t gives. */
  function AfterCalls(times: seq<int>, file: int -> ReadFile): Assertion {
    if times == [] then Assertion("", 0)
    else
      var last := times[|times| - 1];
      Refreshed(AfterCalls(times[..|times| - 1], file), last, file(last))
  }

  /** What the last of the calls returns. */
  function LastAnswer(times: seq<int>, file: int -> ReadFile): ReadFile
    requires times != []
  {
    var last := times[|times| - 1];
    Answer(AfterCalls(times[..|times| - 1], file), last, file(last))
  }

  ghost predicate MonotoneClock(times: seq<int>) {
    && (forall i :: 0 <= i < |times| ==> CACHE_TIME < times[i])
    && (forall i, j :: 0 <= i < j < |times| ==> times[i] <= times[j])
  }

  /** The cache is empty, or holds what a read gave at one of the calls. */
  lemma {:induction false} CacheWasRead(times: seq<int>, file: int -> ReadFile)
    ensures var a := AfterCalls(times, file);
            a == Assertion("", 0) || (a.lastRead in times && file(a.lastRead) == Content(a.text))
  {
    if times != [] {
      var earlier := times[..|times| - 1];
      CacheWasRead(earlier, file);
      assert times == earlier + [times[|times| - 1]];
    }
  }

  /** Calls within five minutes of the last successful read do not read: whatever the file gives, they
      answer the copy.  So contents that were read are more than five minutes apart. */
  lemma {:induction false} ReadsAreApart(times: seq<int>, file: int -> ReadFile, k: nat)
    requires k <= |times|
    ensures var before, a := AfterCalls(times[..k], file), AfterCalls(times, file);
            && (a == before || a.lastRead > before.lastRead + 300_000_000_000)
            && forall now, given :: now <= a.lastRead + 300_000_000_000 ==>
                 Answer(a, now, given) == Content(a.text) && Refreshed(a, now, given) == a
    decreases |times| - k
  {
    if k < |times| {
      ReadsAreApart(times, file, k + 1);
      assert times[..k + 1][..k] == times[..k];
    } else {
      assert times[..k] == times;
    }
  }

  /** Every call, whichever reads failed before, returns what a read gave at one of the calls at most
      five minutes before; and it fails exactly if the copy is older and reading again fails. */
  lemma AssertionIsFresh(times: seq<int>, file: int -> ReadFile)
    requires MonotoneClock(times) && times != []
    ensures var a, now := AfterCalls(times, file), times[|times| - 1];
            && (LastAnswer(times, file).Content? ==>
                  && LastAnswer(times, file) == Content(a.text) == file(a.lastRead)
                  && a.lastRead in times && a.lastRead <= now <= a.lastRead + CACHE_TIME)
            && (LastAnswer(times, file).ReadFailed? <==>
                  Stale(AfterCalls(times[..|times| - 1], file), now) && file(now).ReadFailed?)
  {
    CacheWasRead(times, file);
    var a := AfterCalls(times, file);
    if LastAnswer(times, file).Content? {
      assert a != Assertion("", 0) by { assert times[|times| - 1] > CACHE_TIME; }
      var i :| 0 <= i < |times| && times[i] == a.lastRead;
    }
  }

  /** The kubelet's contract: a token in the file is at most 80% of its lifetime old. */
  ghost predicate Rotated(issued: string -> int, seconds: int, file: int -> ReadFile) {
    forall t {:trigger file(t)} :: file(t).Content? ==> 5 * (t - issued(file(t).text)) <= 4 * seconds * SECOND
  }

  /** With lifetimes of at least an hour, a cached assertion is sent seven minutes before it expires. */
  lemma CachedAssertionMargin(seconds: int, times: seq<int>, file: int -> ReadFile, issued: string -> int)
    requires MIN_TOKEN_EXPIRATION <= seconds && Rotated(issued, seconds, file)
    requires MonotoneClock(times) && times != [] && LastAnswer(times, file).Content?
    ensures issued(LastAnswer(times, file).text) + seconds * SECOND - times[|times| - 1] >= 420 * SECOND
  {
    AssertionIsFresh(times, file);
    var read := AfterCalls(times, file).lastRead;
    assert 5 * (read - issued(file(read).text)) <= 4 * seconds * SECOND;
  }

  /** From the command line to the token endpoint: a lifetime that create accepts makes the
      webhook project tokens whose cached copies never expire in use. */
  lemma AcceptedLifetimeIsLongEnough(pod: Pod, clientID: string, tenantID: string, lifetime: int,
                                     times: seq<int>, file: int -> ReadFile, issued: string -> int)
      returns (seconds: int)
    requires AcceptedLifetime(lifetime) && Annotation(pod.annotations, TOKEN_EXPIRY_ANNOTATION) == ""
    requires MonotoneClock(times) && times != [] && LastAnswer(times, file).Content?
    ensures ProjectedLifetime(pod, clientID, tenantID, lifetime) == Some(seconds)
    ensures Rotated(issued, seconds, file) ==>
              issued(LastAnswer(times, file).text) + seconds * SECOND - times[|times| - 1] >= 420 * SECOND
  {
    LifetimeRoundTrip(pod, clientID, tenantID, lifetime);
    seconds := ProjectedLifetime(pod, clientID, tenantID, lifetime).value;
    if Rotated(issued, seconds, file) { CachedAssertionMargin(seconds, times, file, issued); }
  }
}
