/**
 * The worker script, as the sequence of things it logs and does. One search
 * phase announces itself, writes a separator to the log file, runs the
 * requested number of iterations (compose a query from a prefix and one to
 * three words, submit it if the search box appears, wait), and announces
 * its end. The script opens a desktop browser on Bing, lets the user log in
 * if needed, captures the session cookies, runs the desktop phase, closes
 * the browser, and when mobile searches are requested opens a mobile
 * browser, replays the cookies into it and runs the mobile phase.
 *
 * What the random choices came out as, whether the search box was found,
 * whether the user was already logged in and which cookies the browser
 * returned are inputs.
 */
module Worker {
  import opened Optional
  import opened PyText

  // ---------------------------------------------------------------------
  // queries

  /** The five fixed query openings. */
  const Prefixes: seq<string> := ["what is", "definition of", "how to", "examples of", "meaning of"]

  type PrefixIndex = i: nat | i < 5

  /** One, two or three words. */
  type WordList = ws: seq<string> | 1 <= |ws| <= 3 witness [""]

  /**
   * The outcome of one iteration's random choices (a prefix, the words) and
   * whether the search box was found and the query submitted.
   */
  datatype Choice = Choice(prefix: PrefixIndex, words: WordList, submitted: bool)

  /** prefix + " " + " ".join(words); QueryRoundTrip reads it back. */
  function Query(prefix: string, words: seq<string>): string {
    prefix + " " + Join(words, ' ')
  }

  /** The first prefix, from number i on, that the query starts with, followed by a space. */
  function MatchPrefix(q: string, i: nat): (r: Option<PrefixIndex>)
    requires i <= 5
    ensures r.Some? ==> i <= r.value && Prefixes[r.value] + " " <= q
    ensures r.None? ==> forall j :: i <= j < 5 ==> !(Prefixes[j] + " " <= q)
    decreases 5 - i
  {
    if i == 5 then None
    else if Prefixes[i] + " " <= q then Some(i)
    else MatchPrefix(q, i + 1)
  }

  /** Splits a query back into the number of its prefix and its words. */
  function DecodeQuery(q: string): Option<(PrefixIndex, seq<string>)> {
    match MatchPrefix(q, 0)
    case None => None
    case Some(p) => Some((p, SplitOn(q[|Prefixes[p]| + 1..], ' ')))
  }

  /** No two prefixes start alike, so a query starts with the prefix it was built from and no other. */
  lemma PrefixesDistinct(p: PrefixIndex, j: PrefixIndex, rest: string)
    requires j != p
    ensures !(Prefixes[j] + " " <= Prefixes[p] + rest)
  {
    var a, b := Prefixes[j] + " ", Prefixes[p] + rest;
    assert a[0] == Prefixes[j][0] && b[0] == Prefixes[p][0];
    assert Prefixes[j][0] != Prefixes[p][0];
  }

  /** No word holds a space. */
  predicate SpaceFree(words: seq<string>) {
    forall i :: 0 <= i < |words| ==> ' ' !in words[i]
  }

  /**
   * A query gives back its prefix and its words when no word holds a space:
   * every query is one of the five prefixes, one space, and the words joined
   * by single spaces.
   */
  lemma QueryRoundTrip(p: PrefixIndex, words: WordList)
    requires SpaceFree(words)
    ensures DecodeQuery(Query(Prefixes[p], words)) == Some((p, words))
  {
    var q := Query(Prefixes[p], words);
    var rest := " " + Join(words, ' ');
    assert q == Prefixes[p] + rest;
    forall j: PrefixIndex | j < p
      ensures !(Prefixes[j] + " " <= q)
    {
      PrefixesDistinct(p, j, rest);
    }
    assert Prefixes[p] + " " <= q;
    assert MatchPrefix(q, 0) == Some(p) by {
      if p > 0 { assert !(Prefixes[0] + " " <= q); }
      if p > 1 { assert !(Prefixes[1] + " " <= q); }
      if p > 2 { assert !(Prefixes[2] + " " <= q); }
      if p > 3 { assert !(Prefixes[3] + " " <= q); }
    }
    assert q[|Prefixes[p]| + 1..] == Join(words, ' ');
    SplitJoin(words, ' ');
  }

  // ---------------------------------------------------------------------
  // events

  datatype Kind = Desktop | Mobile

  /** The two pages the script opens: https://www.bing.com and https://login.live.com. */
  datatype Page = Bing | Login

  /** A session cookie as the browser reports it. */
  datatype Cookie = Cookie(name: string, value: string)

  /** What the script logs or does, in the order it happens; timestamps and delays' lengths are left out. */
  datatype Event =
    | Started
    | BrowserOpened(kind: Kind)
    | Navigated(page: Page)
    | AlreadyLoggedIn
    | NotLoggedIn
    | LoginConfirmed
    | CookiesCaptured
    | SearchesStarted(kind: Kind, total: nat)
    | Separator(kind: Kind)
    | Searched(kind: Kind, count: nat, total: nat, query: string)
    | PageWait
    | SearchError
    | Delay
    | SearchesCompleted(kind: Kind, total: nat)
    | BrowserClosed(kind: Kind)
    | CookieAdded(cookie: Cookie)
    | CookiesApplied
    | Completed

  /** The events a search phase can produce. */
  predicate IsSearchEvent(e: Event) {
    e.SearchesStarted? || e.Separator? || e.Searched? || e.PageWait? || e.SearchError? || e.Delay?
    || e.SearchesCompleted?
  }

  /** How many times e occurs in t. */
  function Count(t: seq<Event>, e: Event): nat {
    if t == [] then 0 else Count(t[..|t| - 1], e) + if t[|t| - 1] == e then 1 else 0
  }

  lemma {:induction false} CountConcat(a: seq<Event>, b: seq<Event>, e: Event)
    ensures Count(a + b, e) == Count(a, e) + Count(b, e)
    decreases |b|
  {
    if b == [] {
      assert a + b == a;
    } else {
      assert (a + b)[..|a + b| - 1] == a + b[..|b| - 1];
      CountConcat(a, b[..|b| - 1], e);
    }
  }

  lemma CountSingle(x: Event, e: Event)
    ensures Count([x], e) == if x == e then 1 else 0
  {
    assert [x][..0] == [];
  }

  lemma {:induction false} CountAbsent(t: seq<Event>, e: Event)
    requires e !in t
    ensures Count(t, e) == 0
    decreases |t|
  {
    if t != [] {
      var t' := t[..|t| - 1];
      assert e !in t' by {
        assert forall x :: x in t' ==> x in t;
      }
      CountAbsent(t', e);
    }
  }

  // ---------------------------------------------------------------------
  // one search phase

  /** Iteration number `count` of `total`: a submitted query is logged and waited on; every iteration ends with a delay. */
  function Attempt(kind: Kind, count: nat, total: nat, c: Choice): seq<Event> {
    if c.submitted then [Searched(kind, count, total, Query(Prefixes[c.prefix], c.words)), PageWait, Delay]
    else [SearchError, Delay]
  }

  /** The first k iterations. */
  function Attempts(kind: Kind, total: nat, choices: seq<Choice>, k: nat): (r: seq<Event>)
    requires k <= |choices|
  {
    if k == 0 then [] else Attempts(kind, total, choices, k - 1) + Attempt(kind, k, total, choices[k - 1])
  }

  /** perform_searches(driver, n, kind), iteration i using choices[i]. */
  function SearchTrace(kind: Kind, n: nat, choices: seq<Choice>): (r: seq<Event>)
    requires n <= |choices|
  {
    [SearchesStarted(kind, n), Separator(kind)] + Attempts(kind, n, choices, n) + [SearchesCompleted(kind, n)]
  }

  /** The search loop, with its counter; returns the events in order and the final count. */
  method PerformSearches(kind: Kind, n: nat, choices: seq<Choice>) returns (log: seq<Event>, searchCount: nat)
    requires n <= |choices|
    ensures log == SearchTrace(kind, n, choices)
    ensures searchCount == n
  {
    var header := [SearchesStarted(kind, n), Separator(kind)];
    log := header;
    searchCount := 0;
    for i := 0 to n
      invariant log == header + Attempts(kind, n, choices, i)
      invariant searchCount == i
    {
      var c := choices[i];
      var term := Query(Prefixes[c.prefix], c.words);
      searchCount := searchCount + 1;
      ghost var before := log;
      if c.submitted {
        log := log + [Searched(kind, searchCount, n, term), PageWait];
      } else {
        log := log + [SearchError];
      }
      log := log + [Delay];
      assert log == before + Attempt(kind, i + 1, n, c);
    }
    log := log + [SearchesCompleted(kind, n)];
  }

  /** The iteration numbers whose query was submitted, in increasing order. */
  function Found(choices: seq<Choice>, k: nat): seq<nat>
    requires k <= |choices|
  {
    if k == 0 then [] else Found(choices, k - 1) + (if choices[k - 1].submitted then [k] else [])
  }

  /** The counters of the "Searched" lines, in log order. */
  function SearchedCounts(t: seq<Event>): seq<nat> {
    if t == [] then []
    else SearchedCounts(t[..|t| - 1]) + (if t[|t| - 1].Searched? then [t[|t| - 1].count] else [])
  }

  lemma {:induction false} SearchedCountsConcat(a: seq<Event>, b: seq<Event>)
    ensures SearchedCounts(a + b) == SearchedCounts(a) + SearchedCounts(b)
    decreases |b|
  {
    if b == [] {
      assert a + b == a;
    } else {
      var b' := b[..|b| - 1];
      assert (a + b)[..|a + b| - 1] == a + b';
      SearchedCountsConcat(a, b');
    }
  }

  lemma SearchedCountsSingle(e: Event)
    ensures SearchedCounts([e]) == if e.Searched? then [e.count] else []
  {
    assert [e][..0] == [];
  }

  lemma AttemptCounts(kind: Kind, count: nat, total: nat, c: Choice)
    ensures SearchedCounts(Attempt(kind, count, total, c)) == if c.submitted then [count] else []
  {
    if c.submitted {
      var x := Searched(kind, count, total, Query(Prefixes[c.prefix], c.words));
      assert Attempt(kind, count, total, c) == [x] + [PageWait] + [Delay];
      SearchedCountsConcat([x] + [PageWait], [Delay]);
      SearchedCountsConcat([x], [PageWait]);
      SearchedCountsSingle(x);
      SearchedCountsSingle(PageWait);
      SearchedCountsSingle(Delay);
    } else {
      assert Attempt(kind, count, total, c) == [SearchError] + [Delay];
      SearchedCountsConcat([SearchError], [Delay]);
      SearchedCountsSingle(SearchError);
      SearchedCountsSingle(Delay);
    }
  }

  lemma {:induction false} AttemptsCounts(kind: Kind, total: nat, choices: seq<Choice>, k: nat)
    requires k <= |choices|
    ensures SearchedCounts(Attempts(kind, total, choices, k)) == Found(choices, k)
  {
    if k > 0 {
      var prev := Attempts(kind, total, choices, k - 1);
      var step := Attempt(kind, k, total, choices[k - 1]);
      calc {
        SearchedCounts(Attempts(kind, total, choices, k));
        SearchedCounts(prev + step);
        { SearchedCountsConcat(prev, step); }
        SearchedCounts(prev) + SearchedCounts(step);
        { AttemptsCounts(kind, total, choices, k - 1); AttemptCounts(kind, k, total, choices[k - 1]); }
        Found(choices, k - 1) + (if choices[k - 1].submitted then [k] else []);
      }
    }
  }

  /**
   * The "(k/N) Searched" lines carry exactly the numbers of the iterations
   * whose box was found, in order: the counter counts every iteration, failed
   * ones included.
   */
  lemma SearchCountsAreFound(kind: Kind, n: nat, choices: seq<Choice>)
    requires n <= |choices|
    ensures SearchedCounts(SearchTrace(kind, n, choices)) == Found(choices, n)
  {
    var h := [SearchesStarted(kind, n), Separator(kind)];
    var body := Attempts(kind, n, choices, n);
    var tail := [SearchesCompleted(kind, n)];
    AttemptsCounts(kind, n, choices, n);
    SearchedCountsConcat(h, body);
    SearchedCountsConcat(h + body, tail);
    assert h[..1][..0] == [];
    assert SearchedCounts(h) == [];
    assert tail[..0] == [];
    assert SearchedCounts(tail) == [];
  }

  /** The found iteration numbers increase strictly, lie in 1..k, and are exactly those whose query was submitted. */
  lemma {:induction false} FoundIsIncreasing(choices: seq<Choice>, k: nat)
    requires k <= |choices|
    ensures forall i, j :: 0 <= i < j < |Found(choices, k)| ==> Found(choices, k)[i] < Found(choices, k)[j]
    ensures forall i :: 0 <= i < |Found(choices, k)| ==> 1 <= Found(choices, k)[i] <= k
    ensures forall m :: 1 <= m <= k ==> (m in Found(choices, k) <==> choices[m - 1].submitted)
  {
    if k > 0 {
      FoundIsIncreasing(choices, k - 1);
    }
  }

  lemma AttemptTally(kind: Kind, count: nat, total: nat, c: Choice)
    ensures Count(Attempt(kind, count, total, c), Delay) == 1
    ensures Count(Attempt(kind, count, total, c), SearchError) == if c.submitted then 0 else 1
  {
    if c.submitted {
      var x := Searched(kind, count, total, Query(Prefixes[c.prefix], c.words));
      assert Attempt(kind, count, total, c) == [x] + [PageWait] + [Delay];
      CountConcat([x] + [PageWait], [Delay], Delay);
      CountConcat([x], [PageWait], Delay);
      CountConcat([x] + [PageWait], [Delay], SearchError);
      CountConcat([x], [PageWait], SearchError);
      CountSingle(x, Delay);
      CountSingle(x, SearchError);
      CountSingle(PageWait, Delay);
      CountSingle(PageWait, SearchError);
      CountSingle(Delay, Delay);
      CountSingle(Delay, SearchError);
    } else {
      assert Attempt(kind, count, total, c) == [SearchError] + [Delay];
      CountConcat([SearchError], [Delay], Delay);
      CountConcat([SearchError], [Delay], SearchError);
      CountSingle(SearchError, Delay);
      CountSingle(SearchError, SearchError);
      CountSingle(Delay, Delay);
      CountSingle(Delay, SearchError);
    }
  }

  lemma {:induction false} AttemptsDelays(kind: Kind, total: nat, choices: seq<Choice>, k: nat)
    requires k <= |choices|
    ensures Count(Attempts(kind, total, choices, k), Delay) == k
  {
    if k > 0 {
      AttemptsDelays(kind, total, choices, k - 1);
      CountConcat(Attempts(kind, total, choices, k - 1), Attempt(kind, k, total, choices[k - 1]), Delay);
      AttemptTally(kind, k, total, choices[k - 1]);
    }
  }

  lemma {:induction false} AttemptsErrors(kind: Kind, total: nat, choices: seq<Choice>, k: nat)
    requires k <= |choices|
    ensures Count(Attempts(kind, total, choices, k), SearchError) + |Found(choices, k)| == k
  {
    if k > 0 {
      AttemptsErrors(kind, total, choices, k - 1);
      CountConcat(Attempts(kind, total, choices, k - 1), Attempt(kind, k, total, choices[k - 1]), SearchError);
      AttemptTally(kind, k, total, choices[k - 1]);
      assert |Found(choices, k)| == |Found(choices, k - 1)| + if choices[k - 1].submitted then 1 else 0;
    }
  }

  /**
   * A phase of n searches waits n times between searches, and every
   * iteration either logs one search or one error.
   */
  lemma SearchPhaseCounts(kind: Kind, n: nat, choices: seq<Choice>)
    requires n <= |choices|
    ensures Count(SearchTrace(kind, n, choices), Delay) == n
    ensures Count(SearchTrace(kind, n, choices), SearchError) + |SearchedCounts(SearchTrace(kind, n, choices))| == n
  {
    var h := [SearchesStarted(kind, n), Separator(kind)];
    var body := Attempts(kind, n, choices, n);
    var tail := [SearchesCompleted(kind, n)];
    AttemptsDelays(kind, n, choices, n);
    AttemptsErrors(kind, n, choices, n);
    SearchCountsAreFound(kind, n, choices);
    CountConcat(h, body, Delay);
    CountConcat(h + body, tail, Delay);
    CountConcat(h, body, SearchError);
    CountConcat(h + body, tail, SearchError);
    CountAbsent(h, Delay);
    CountAbsent(h, SearchError);
  }

  /** Event i is followed by e. */
  predicate FollowedBy(t: seq<Event>, i: nat, e: Event) {
    i + 1 < |t| && t[i + 1] == e
  }

  /** Every error and every page wait is followed by the delay, and every logged search by the page wait. */
  predicate WaitsAfterAttempts(t: seq<Event>) {
    forall i :: 0 <= i < |t| ==>
      (t[i].SearchError? ==> FollowedBy(t, i, Delay))
      && (t[i].PageWait? ==> FollowedBy(t, i, Delay))
      && (t[i].Searched? ==> FollowedBy(t, i, PageWait))
  }

  /** The last event does not wait for a follower. */
  predicate Settled(t: seq<Event>) {
    t == [] || !(t[|t| - 1].SearchError? || t[|t| - 1].PageWait? || t[|t| - 1].Searched?)
  }

  lemma WaitsConcat(a: seq<Event>, b: seq<Event>)
    requires WaitsAfterAttempts(a) && WaitsAfterAttempts(b) && Settled(a)
    ensures WaitsAfterAttempts(a + b)
    ensures Settled(b) ==> Settled(a + b)
  {
    var t := a + b;
    forall i | 0 <= i < |t|
      ensures (t[i].SearchError? ==> FollowedBy(t, i, Delay))
        && (t[i].PageWait? ==> FollowedBy(t, i, Delay))
        && (t[i].Searched? ==> FollowedBy(t, i, PageWait))
    {
      if i < |a| {
        assert t[i] == a[i];
        if i + 1 < |a| {
          assert t[i + 1] == a[i + 1];
        }
      } else {
        assert t[i] == b[i - |a|];
        if i + 1 < |t| {
          assert t[i + 1] == b[i + 1 - |a|];
        }
      }
    }
    if b == [] {
      assert t == a;
    } else {
      assert t[|t| - 1] == b[|b| - 1];
    }
  }

  lemma AttemptWaits(kind: Kind, count: nat, total: nat, c: Choice)
    ensures WaitsAfterAttempts(Attempt(kind, count, total, c)) && Settled(Attempt(kind, count, total, c))
  {
    var a := Attempt(kind, count, total, c);
    assert FollowedBy(a, |a| - 2, Delay);
    if c.submitted {
      assert FollowedBy(a, 0, PageWait);
    }
  }

  lemma {:induction false} AttemptsWait(kind: Kind, total: nat, choices: seq<Choice>, k: nat)
    requires k <= |choices|
    ensures WaitsAfterAttempts(Attempts(kind, total, choices, k)) && Settled(Attempts(kind, total, choices, k))
  {
    if k > 0 {
      AttemptsWait(kind, total, choices, k - 1);
      AttemptWaits(kind, k, total, choices[k - 1]);
      WaitsConcat(Attempts(kind, total, choices, k - 1), Attempt(kind, k, total, choices[k - 1]));
    }
  }

  /**
   * A phase starts with its announcement and the separator, ends with its
   * completion line, and within it every logged search is followed by the
   * page wait and every page wait and every error by the delay.
   */
  lemma SearchPhaseShape(kind: Kind, n: nat, choices: seq<Choice>)
    requires n <= |choices|
    ensures var t := SearchTrace(kind, n, choices);
      && t[0] == SearchesStarted(kind, n) && t[1] == Separator(kind) && t[|t| - 1] == SearchesCompleted(kind, n)
      && Count(t, Separator(kind)) == 1 && Count(t, SearchesCompleted(kind, n)) == 1
      && WaitsAfterAttempts(t)
  {
    var body := Attempts(kind, n, choices, n);
    AttemptsEvents(kind, n, choices, n);
    assert Separator(kind) !in body && SearchesCompleted(kind, n) !in body;
    CountFramedAbsent(SearchesStarted(kind, n), Separator(kind), body, SearchesCompleted(kind, n), Separator(kind));
    CountFramedAbsent(SearchesStarted(kind, n), Separator(kind), body, SearchesCompleted(kind, n), SearchesCompleted(kind, n));
    AttemptsWait(kind, n, choices, n);
    FramedWaits(SearchesStarted(kind, n), Separator(kind), body, SearchesCompleted(kind, n));
  }

  /** Counting over a body framed by two events before and one after it. */
  lemma CountFramedAbsent(x: Event, y: Event, body: seq<Event>, z: Event, e: Event)
    requires e !in body
    ensures Count([x, y] + body + [z], e)
      == (if x == e then 1 else 0) + (if y == e then 1 else 0) + (if z == e then 1 else 0)
  {
    assert [x, y] == [x] + [y];
    CountSingle(x, e);
    CountSingle(y, e);
    CountSingle(z, e);
    CountConcat([x], [y], e);
    CountAbsent(body, e);
    CountConcat([x, y], body, e);
    CountConcat([x, y] + body, [z], e);
  }

  /** Framing a settled body by announcements that wait for nothing keeps every wait in place. */
  lemma FramedWaits(x: Event, y: Event, body: seq<Event>, z: Event)
    requires !(x.SearchError? || x.PageWait? || x.Searched?) && !(y.SearchError? || y.PageWait? || y.Searched?)
    requires !(z.SearchError? || z.PageWait? || z.Searched?)
    requires WaitsAfterAttempts(body) && Settled(body)
    ensures WaitsAfterAttempts([x, y] + body + [z])
  {
    WaitsConcat([x, y], body);
    WaitsConcat([x, y] + body, [z]);
  }

  /** The iterations only log searches, errors and waits, and every search names this phase's kind and total. */
  lemma {:induction false} AttemptsEvents(kind: Kind, total: nat, choices: seq<Choice>, k: nat)
    requires k <= |choices|
    ensures forall e :: e in Attempts(kind, total, choices, k) ==>
      (e.Searched? || e.PageWait? || e.SearchError? || e.Delay?)
    ensures forall e :: e in Attempts(kind, total, choices, k) && e.Searched? ==>
      e.kind == kind && e.total == total && 1 <= e.count <= k
  {
    if k > 0 {
      AttemptsEvents(kind, total, choices, k - 1);
    }
  }

  /** Every event of a phase is a search event, and every logged search belongs to the phase. */
  lemma SearchTraceEvents(kind: Kind, n: nat, choices: seq<Choice>)
    requires n <= |choices|
    ensures forall e :: e in SearchTrace(kind, n, choices) ==> IsSearchEvent(e)
    ensures forall e :: e in SearchTrace(kind, n, choices) && e.Searched? ==> e.kind == kind && 1 <= e.count <= n
    ensures forall e :: e in SearchTrace(kind, n, choices) && e.SearchesStarted? ==> e == SearchesStarted(kind, n)
  {
    AttemptsEvents(kind, n, choices, n);
  }

  /** Each logged search shows the query built from the choices of its own iteration. */
  lemma {:induction false} AttemptsQueries(kind: Kind, total: nat, choices: seq<Choice>, k: nat)
    requires k <= |choices|
    ensures forall e :: e in Attempts(kind, total, choices, k) && e.Searched? ==>
      1 <= e.count <= k
      && e.query == Query(Prefixes[choices[e.count - 1].prefix], choices[e.count - 1].words)
  {
    if k > 0 {
      AttemptsQueries(kind, total, choices, k - 1);
      var before, last := Attempts(kind, total, choices, k - 1), Attempt(kind, k, total, choices[k - 1]);
      forall e: Event | e in before + last && e.Searched?
        ensures 1 <= e.count <= k
        ensures e.query == Query(Prefixes[choices[e.count - 1].prefix], choices[e.count - 1].words)
      {
        if e !in before {
          assert e in last;
        }
      }
    }
  }

  /**
   * Every logged search shows the query built from its own iteration's
   * choices, and gives back that iteration's prefix and words when no word
   * holds a space.
   */
  lemma SearchQueries(kind: Kind, n: nat, choices: seq<Choice>)
    requires n <= |choices|
    ensures forall e :: e in SearchTrace(kind, n, choices) && e.Searched? ==>
      1 <= e.count <= n && e.query == Query(Prefixes[choices[e.count - 1].prefix], choices[e.count - 1].words)
    ensures forall e :: e in SearchTrace(kind, n, choices) && e.Searched? && SpaceFree(choices[e.count - 1].words) ==>
      DecodeQuery(e.query) == Some((choices[e.count - 1].prefix, choices[e.count - 1].words))
  {
    AttemptsQueries(kind, n, choices, n);
    forall c: Choice | SpaceFree(c.words)
      ensures DecodeQuery(Query(Prefixes[c.prefix], c.words)) == Some((c.prefix, c.words))
    {
      QueryRoundTrip(c.prefix, c.words);
    }
  }

  // ---------------------------------------------------------------------
  // the script

  function LoginPhase(loggedIn: bool): seq<Event> {
    if loggedIn then [AlreadyLoggedIn] else [NotLoggedIn, Navigated(Login), LoginConfirmed, Navigated(Bing)]
  }

  /** Everything up to the cookie capture: the desktop browser on the Bing page, and the login if needed. */
  function Opening(loggedIn: bool): seq<Event> {
    [Started, BrowserOpened(Desktop), Navigated(Bing)] + LoginPhase(loggedIn)
  }

  /** The events of replaying the cookies into the mobile browser, one by one. */
  function CookieEvents(cookies: seq<Cookie>): seq<Event> {
    if cookies == [] then [] else CookieEvents(cookies[..|cookies| - 1]) + [CookieAdded(cookies[|cookies| - 1])]
  }

  /** A phase runs only for a positive count. */
  function Phase(kind: Kind, count: int, choices: seq<Choice>): seq<Event>
    requires count > 0 ==> count <= |choices|
  {
    if count > 0 then SearchTrace(kind, count, choices) else []
  }

  /** The mobile session, given the log of its searches. */
  function MobileSession(cookies: seq<Cookie>, searches: seq<Event>): seq<Event> {
    [BrowserOpened(Mobile), Navigated(Bing)] + CookieEvents(cookies) + [CookiesApplied] + searches + [BrowserClosed(Mobile)]
  }

  /** A run, given the logs of its two search phases and whether the mobile session is opened. */
  function Run(loggedIn: bool, cookies: seq<Cookie>, mobileOn: bool, desktop: seq<Event>, mobile: seq<Event>): seq<Event> {
    Opening(loggedIn) + [CookiesCaptured] + desktop + [BrowserClosed(Desktop)]
    + MobilePart(cookies, mobileOn, mobile) + [Completed]
  }

  /** The whole run of the script. */
  function ScriptTrace(desktop: int, mobile: int, loggedIn: bool, cookies: seq<Cookie>,
                       dChoices: seq<Choice>, mChoices: seq<Choice>): (r: seq<Event>)
    requires desktop > 0 ==> desktop <= |dChoices|
    requires mobile > 0 ==> mobile <= |mChoices|
    ensures |r| >= 2 && r[0] == Started && r[|r| - 1] == Completed
  {
    Run(loggedIn, cookies, mobile > 0, Phase(Desktop, desktop, dChoices), Phase(Mobile, mobile, mChoices))
  }

  /** Opens the mobile browser on Bing and adds the captured cookies one at a time. */
  method ApplyCookies(cookies: seq<Cookie>) returns (log: seq<Event>)
    ensures log == [BrowserOpened(Mobile), Navigated(Bing)] + CookieEvents(cookies) + [CookiesApplied]
  {
    var header := [BrowserOpened(Mobile), Navigated(Bing)];
    log := header;
    for i := 0 to |cookies|
      invariant log == header + CookieEvents(cookies[..i])
    {
      assert cookies[..i + 1][..i] == cookies[..i];
      log := log + [CookieAdded(cookies[i])];
    }
    assert cookies[..|cookies|] == cookies;
    log := log + [CookiesApplied];
  }

  /**
   * The script: `loggedIn` is whether the logged-in marker appeared,
   * `captured` the cookies the desktop browser returns, and the choices
   * those of the desktop and the mobile iterations.
   */
  method RunScript(desktop: int, mobile: int, loggedIn: bool, captured: seq<Cookie>,
                   dChoices: seq<Choice>, mChoices: seq<Choice>) returns (log: seq<Event>)
    requires desktop > 0 ==> desktop <= |dChoices|
    requires mobile > 0 ==> mobile <= |mChoices|
    ensures log == ScriptTrace(desktop, mobile, loggedIn, captured, dChoices, mChoices)
  {
    log := [Started, BrowserOpened(Desktop), Navigated(Bing)];
    if loggedIn {
      log := log + [AlreadyLoggedIn];
    } else {
      log := log + [NotLoggedIn, Navigated(Login), LoginConfirmed, Navigated(Bing)];
    }
    var cookies := captured;
    log := log + [CookiesCaptured];
    var desktopLog: seq<Event> := [];
    if desktop > 0 {
      var count;
      desktopLog, count := PerformSearches(Desktop, desktop, dChoices);
    }
    log := log + desktopLog + [BrowserClosed(Desktop)];
    var mobileSession: seq<Event> := [];
    var mobileLog: seq<Event> := [];
    if mobile > 0 {
      mobileSession := ApplyCookies(cookies);
      var count;
      mobileLog, count := PerformSearches(Mobile, mobile, mChoices);
      mobileSession := mobileSession + mobileLog + [BrowserClosed(Mobile)];
      assert mobileSession == MobileSession(cookies, mobileLog);
    }
    log := log + mobileSession + [Completed];
  }

  // ---------------------------------------------------------------------
  // the order of the phases

  /**
   * Every event satisfying p comes before every event satisfying q: the
   * run splits into a first part with no q and a second part with no p.
   */
  ghost predicate Before(t: seq<Event>, p: Event -> bool, q: Event -> bool) {
    exists k :: 0 <= k <= |t| && (forall e :: e in t[..k] ==> !q(e)) && (forall e :: e in t[k..] ==> !p(e))
  }

  lemma BeforeSplit(a: seq<Event>, b: seq<Event>, p: Event -> bool, q: Event -> bool)
    requires forall e :: e in a ==> !q(e)
    requires forall e :: e in b ==> !p(e)
    ensures Before(a + b, p, q)
  {
    assert (a + b)[..|a|] == a;
    assert (a + b)[|a|..] == b;
  }

  lemma BeforeExtend(a: seq<Event>, b: seq<Event>, p: Event -> bool, q: Event -> bool)
    requires Before(a, p, q)
    requires forall e :: e in b ==> !p(e)
    ensures Before(a + b, p, q)
  {
    var k :| 0 <= k <= |a| && (forall e :: e in a[..k] ==> !q(e)) && (forall e :: e in a[k..] ==> !p(e));
    assert (a + b)[..k] == a[..k];
    assert (a + b)[k..] == a[k..] + b;
  }

  predicate IsCapture(e: Event) { e == CookiesCaptured }
  predicate IsSearch(e: Event) { e.SearchesStarted? || e.Searched? }
  predicate IsDesktopSearch(e: Event) { IsSearch(e) && e.kind == Desktop }
  predicate IsMobileSearch(e: Event) { IsSearch(e) && e.kind == Mobile }
  predicate IsDesktopClosed(e: Event) { e == BrowserClosed(Desktop) }
  predicate IsMobileOpened(e: Event) { e == BrowserOpened(Mobile) }
  predicate IsCookieAdded(e: Event) { e.CookieAdded? }

  /** What a search phase of the given kind may log. */
  predicate PhaseLog(kind: Kind, s: seq<Event>) {
    forall e :: e in s ==> IsSearchEvent(e) && (IsSearch(e) ==> e.kind == kind)
  }

  lemma PhaseIsPhaseLog(kind: Kind, count: int, choices: seq<Choice>)
    requires count > 0 ==> count <= |choices|
    ensures PhaseLog(kind, Phase(kind, count, choices))
    ensures count > 0 ==> SearchesStarted(kind, count) in Phase(kind, count, choices)
    ensures count <= 0 ==> Phase(kind, count, choices) == []
  {
    if count > 0 {
      SearchTraceEvents(kind, count, choices);
    }
  }

  lemma {:induction false} CookieEventsAreCookies(cookies: seq<Cookie>)
    ensures forall e :: e in CookieEvents(cookies) ==> e.CookieAdded?
  {
    if cookies != [] {
      CookieEventsAreCookies(cookies[..|cookies| - 1]);
    }
  }

  /** The mobile part of a run. */
  function MobilePart(cookies: seq<Cookie>, mobileOn: bool, m: seq<Event>): seq<Event> {
    if mobileOn then MobileSession(cookies, m) else []
  }

  /** What the mobile part of a run may hold. */
  predicate IsMobileEvent(e: Event) {
    e == BrowserOpened(Mobile) || e == Navigated(Bing) || e.CookieAdded? || e == CookiesApplied
    || e == BrowserClosed(Mobile) || (IsSearchEvent(e) && (IsSearch(e) ==> e.kind == Mobile))
  }

  lemma MobilePartEvents(cookies: seq<Cookie>, mobileOn: bool, m: seq<Event>)
    requires PhaseLog(Mobile, m)
    ensures forall e :: e in MobilePart(cookies, mobileOn, m) ==> IsMobileEvent(e)
  {
    CookieEventsAreCookies(cookies);
  }

  /** Counting over a run is counting over its parts. */
  lemma CountRunParts(o: seq<Event>, d: seq<Event>, ms: seq<Event>, e: Event)
    ensures Count(o + [CookiesCaptured] + d + [BrowserClosed(Desktop)] + ms + [Completed], e)
      == Count(o, e) + (if e == CookiesCaptured then 1 else 0) + Count(d, e)
         + (if e == BrowserClosed(Desktop) then 1 else 0) + Count(ms, e) + (if e == Completed then 1 else 0)
  {
    CountSingle(CookiesCaptured, e);
    CountSingle(BrowserClosed(Desktop), e);
    CountSingle(Completed, e);
    CountConcat(o, [CookiesCaptured], e);
    CountConcat(o + [CookiesCaptured], d, e);
    CountConcat(o + [CookiesCaptured] + d, [BrowserClosed(Desktop)], e);
    CountConcat(o + [CookiesCaptured] + d + [BrowserClosed(Desktop)], ms, e);
    CountConcat(o + [CookiesCaptured] + d + [BrowserClosed(Desktop)] + ms, [Completed], e);
  }

  lemma RunCaptureOnce(loggedIn: bool, cookies: seq<Cookie>, mobileOn: bool, d: seq<Event>, m: seq<Event>)
    requires PhaseLog(Desktop, d) && PhaseLog(Mobile, m)
    ensures Count(Run(loggedIn, cookies, mobileOn, d, m), CookiesCaptured) == 1
  {
    assert CookiesCaptured !in MobilePart(cookies, mobileOn, m) by { MobilePartEvents(cookies, mobileOn, m); }
    assert CookiesCaptured !in d;
    assert CookiesCaptured !in Opening(loggedIn);
    CountOnceInRun(Opening(loggedIn), d, MobilePart(cookies, mobileOn, m), CookiesCaptured);
  }

  lemma RunDesktopClosedOnce(loggedIn: bool, cookies: seq<Cookie>, mobileOn: bool, d: seq<Event>, m: seq<Event>)
    requires PhaseLog(Desktop, d) && PhaseLog(Mobile, m)
    ensures Count(Run(loggedIn, cookies, mobileOn, d, m), BrowserClosed(Desktop)) == 1
  {
    assert BrowserClosed(Desktop) !in MobilePart(cookies, mobileOn, m) by { MobilePartEvents(cookies, mobileOn, m); }
    assert BrowserClosed(Desktop) !in d;
    assert BrowserClosed(Desktop) !in Opening(loggedIn);
    CountOnceInRun(Opening(loggedIn), d, MobilePart(cookies, mobileOn, m), BrowserClosed(Desktop));
  }

  /** The capture and the desktop browser's closing occur once in a run when none of its parts holds them. */
  lemma CountOnceInRun(o: seq<Event>, d: seq<Event>, ms: seq<Event>, e: Event)
    requires e == CookiesCaptured || e == BrowserClosed(Desktop)
    requires e !in o && e !in d && e !in ms
    ensures Count(o + [CookiesCaptured] + d + [BrowserClosed(Desktop)] + ms + [Completed], e) == 1
  {
    CountRunParts(o, d, ms, e);
    CountAbsent(o, e);
    CountAbsent(d, e);
    CountAbsent(ms, e);
  }

  /** The capture happens once, before every search. */
  lemma RunCapture(loggedIn: bool, cookies: seq<Cookie>, mobileOn: bool, d: seq<Event>, m: seq<Event>)
    requires PhaseLog(Desktop, d) && PhaseLog(Mobile, m)
    ensures var t := Run(loggedIn, cookies, mobileOn, d, m);
      Count(t, CookiesCaptured) == 1 && Before(t, IsCapture, IsSearch)
  {
    RunCaptureOnce(loggedIn, cookies, mobileOn, d, m);
    RunCaptureFirst(loggedIn, cookies, mobileOn, d, m);
  }

  lemma RunCaptureFirst(loggedIn: bool, cookies: seq<Cookie>, mobileOn: bool, d: seq<Event>, m: seq<Event>)
    requires PhaseLog(Desktop, d) && PhaseLog(Mobile, m)
    ensures Before(Run(loggedIn, cookies, mobileOn, d, m), IsCapture, IsSearch)
  {
    var o := Opening(loggedIn);
    var ms := MobilePart(cookies, mobileOn, m);
    assert forall e :: e in ms ==> !IsCapture(e) by { MobilePartEvents(cookies, mobileOn, m); }
    BeforeSplit(o + [CookiesCaptured], d, IsCapture, IsSearch);
    BeforeExtend(o + [CookiesCaptured] + d, [BrowserClosed(Desktop)], IsCapture, IsSearch);
    BeforeExtend(o + [CookiesCaptured] + d + [BrowserClosed(Desktop)], ms, IsCapture, IsSearch);
    BeforeExtend(o + [CookiesCaptured] + d + [BrowserClosed(Desktop)] + ms, [Completed], IsCapture, IsSearch);
  }

  /**
   * The desktop browser is closed once, after every desktop search and
   * before the mobile browser opens.
   */
  lemma RunDesktopClosed(loggedIn: bool, cookies: seq<Cookie>, mobileOn: bool, d: seq<Event>, m: seq<Event>)
    requires PhaseLog(Desktop, d) && PhaseLog(Mobile, m)
    ensures var t := Run(loggedIn, cookies, mobileOn, d, m);
      Count(t, BrowserClosed(Desktop)) == 1
      && Before(t, IsDesktopSearch, IsDesktopClosed) && Before(t, IsDesktopClosed, IsMobileOpened)
  {
    RunDesktopClosedOnce(loggedIn, cookies, mobileOn, d, m);
    RunDesktopSearchesFirst(loggedIn, cookies, mobileOn, d, m);
    RunMobileAfterDesktop(loggedIn, cookies, mobileOn, d, m);
  }

  lemma RunDesktopSearchesFirst(loggedIn: bool, cookies: seq<Cookie>, mobileOn: bool, d: seq<Event>, m: seq<Event>)
    requires PhaseLog(Desktop, d) && PhaseLog(Mobile, m)
    ensures Before(Run(loggedIn, cookies, mobileOn, d, m), IsDesktopSearch, IsDesktopClosed)
  {
    var a := Opening(loggedIn) + [CookiesCaptured] + d;
    var ms := MobilePart(cookies, mobileOn, m);
    assert forall e :: e in ms ==> !IsDesktopSearch(e) by { MobilePartEvents(cookies, mobileOn, m); }
    BeforeSplit(a, [BrowserClosed(Desktop)], IsDesktopSearch, IsDesktopClosed);
    BeforeExtend(a + [BrowserClosed(Desktop)], ms, IsDesktopSearch, IsDesktopClosed);
    BeforeExtend(a + [BrowserClosed(Desktop)] + ms, [Completed], IsDesktopSearch, IsDesktopClosed);
  }

  lemma RunMobileAfterDesktop(loggedIn: bool, cookies: seq<Cookie>, mobileOn: bool, d: seq<Event>, m: seq<Event>)
    requires PhaseLog(Desktop, d) && PhaseLog(Mobile, m)
    ensures Before(Run(loggedIn, cookies, mobileOn, d, m), IsDesktopClosed, IsMobileOpened)
  {
    var a := Opening(loggedIn) + [CookiesCaptured] + d + [BrowserClosed(Desktop)];
    var ms := MobilePart(cookies, mobileOn, m);
    assert forall e :: e in ms ==> !IsDesktopClosed(e) by { MobilePartEvents(cookies, mobileOn, m); }
    assert forall e :: e in a ==> !IsMobileOpened(e);
    BeforeSplit(a, ms, IsDesktopClosed, IsMobileOpened);
    BeforeExtend(a + ms, [Completed], IsDesktopClosed, IsMobileOpened);
  }

  // ---------------------------------------------------------------------
  // the mobile session

  lemma CountSessionParts(c: seq<Event>, m: seq<Event>, e: Event)
    ensures Count([BrowserOpened(Mobile), Navigated(Bing)] + c + [CookiesApplied] + m + [BrowserClosed(Mobile)], e)
      == (if e == BrowserOpened(Mobile) then 1 else 0) + (if e == Navigated(Bing) then 1 else 0) + Count(c, e)
         + (if e == CookiesApplied then 1 else 0) + Count(m, e) + (if e == BrowserClosed(Mobile) then 1 else 0)
  {
    var h := [BrowserOpened(Mobile), Navigated(Bing)];
    assert h == [BrowserOpened(Mobile)] + [Navigated(Bing)];
    CountConcat([BrowserOpened(Mobile)], [Navigated(Bing)], e);
    CountSingle(BrowserOpened(Mobile), e);
    CountSingle(Navigated(Bing), e);
    CountSingle(CookiesApplied, e);
    CountSingle(BrowserClosed(Mobile), e);
    CountConcat(h, c, e);
    CountConcat(h + c, [CookiesApplied], e);
    CountConcat(h + c + [CookiesApplied], m, e);
    CountConcat(h + c + [CookiesApplied] + m, [BrowserClosed(Mobile)], e);
  }

  /** The mobile browser is opened and closed once when the mobile session runs, and never otherwise. */
  lemma RunMobileSession(loggedIn: bool, cookies: seq<Cookie>, mobileOn: bool, d: seq<Event>, m: seq<Event>)
    requires PhaseLog(Desktop, d) && PhaseLog(Mobile, m)
    ensures Count(Run(loggedIn, cookies, mobileOn, d, m), BrowserOpened(Mobile)) == if mobileOn then 1 else 0
    ensures Count(Run(loggedIn, cookies, mobileOn, d, m), BrowserClosed(Mobile)) == if mobileOn then 1 else 0
  {
    RunMobileCount(loggedIn, cookies, mobileOn, d, m, BrowserOpened(Mobile));
    RunMobileCount(loggedIn, cookies, mobileOn, d, m, BrowserClosed(Mobile));
  }

  lemma RunMobileCount(loggedIn: bool, cookies: seq<Cookie>, mobileOn: bool, d: seq<Event>, m: seq<Event>, e: Event)
    requires PhaseLog(Desktop, d) && PhaseLog(Mobile, m)
    requires e == BrowserOpened(Mobile) || e == BrowserClosed(Mobile)
    ensures Count(Run(loggedIn, cookies, mobileOn, d, m), e) == if mobileOn then 1 else 0
  {
    assert e !in Opening(loggedIn);
    assert e !in d;
    CountOutsideRun(Opening(loggedIn), d, MobilePart(cookies, mobileOn, m), e);
    if mobileOn {
      assert e !in CookieEvents(cookies) by { CookieEventsAreCookies(cookies); }
      assert e !in m;
      CountSessionOnce(CookieEvents(cookies), m, e);
    }
  }

  /** An event that is neither in the opening nor in the desktop phase occurs in a run as often as in its mobile part. */
  lemma CountOutsideRun(o: seq<Event>, d: seq<Event>, ms: seq<Event>, e: Event)
    requires e != CookiesCaptured && e != BrowserClosed(Desktop) && e != Completed
    requires e !in o && e !in d
    ensures Count(o + [CookiesCaptured] + d + [BrowserClosed(Desktop)] + ms + [Completed], e) == Count(ms, e)
  {
    CountRunParts(o, d, ms, e);
    CountAbsent(o, e);
    CountAbsent(d, e);
  }

  /** The mobile browser's opening and closing occur once in a session. */
  lemma CountSessionOnce(c: seq<Event>, m: seq<Event>, e: Event)
    requires e == BrowserOpened(Mobile) || e == BrowserClosed(Mobile)
    requires e !in c && e !in m
    ensures Count([BrowserOpened(Mobile), Navigated(Bing)] + c + [CookiesApplied] + m + [BrowserClosed(Mobile)], e) == 1
  {
    CountSessionParts(c, m, e);
    CountAbsent(c, e);
    CountAbsent(m, e);
  }

  /** The cookies a list of events adds, in order. */
  function AddedCookies(t: seq<Event>): seq<Cookie> {
    if t == [] then []
    else AddedCookies(t[..|t| - 1]) + if t[|t| - 1].CookieAdded? then [t[|t| - 1].cookie] else []
  }

  lemma {:induction false} AddedCookiesConcat(a: seq<Event>, b: seq<Event>)
    ensures AddedCookies(a + b) == AddedCookies(a) + AddedCookies(b)
    decreases |b|
  {
    if b == [] {
      assert a + b == a;
    } else {
      assert (a + b)[..|a + b| - 1] == a + b[..|b| - 1];
      AddedCookiesConcat(a, b[..|b| - 1]);
    }
  }

  lemma {:induction false} AddedCookiesNone(t: seq<Event>)
    requires forall e :: e in t ==> !e.CookieAdded?
    ensures AddedCookies(t) == []
    decreases |t|
  {
    if t != [] {
      assert forall e :: e in t[..|t| - 1] ==> e in t;
      AddedCookiesNone(t[..|t| - 1]);
    }
  }

  lemma {:induction false} CookieEventsAdd(cookies: seq<Cookie>)
    ensures AddedCookies(CookieEvents(cookies)) == cookies
    decreases |cookies|
  {
    if cookies != [] {
      var c' := cookies[..|cookies| - 1];
      var last := [CookieAdded(cookies[|cookies| - 1])];
      CookieEventsAdd(c');
      AddedCookiesConcat(CookieEvents(c'), last);
      assert last[..0] == [];
    }
  }

  lemma AddedCookiesSession(ce: seq<Event>, m: seq<Event>)
    requires forall e :: e in m ==> !e.CookieAdded?
    ensures AddedCookies([BrowserOpened(Mobile), Navigated(Bing)] + ce + [CookiesApplied] + m + [BrowserClosed(Mobile)])
      == AddedCookies(ce)
  {
    var h := [BrowserOpened(Mobile), Navigated(Bing)];
    AddedCookiesNone(h);
    AddedCookiesNone([CookiesApplied]);
    AddedCookiesNone(m);
    AddedCookiesNone([BrowserClosed(Mobile)]);
    AddedCookiesConcat(h, ce);
    AddedCookiesConcat(h + ce, [CookiesApplied]);
    AddedCookiesConcat(h + ce + [CookiesApplied], m);
    AddedCookiesConcat(h + ce + [CookiesApplied] + m, [BrowserClosed(Mobile)]);
  }

  lemma AddedCookiesRun(o: seq<Event>, d: seq<Event>, ms: seq<Event>)
    requires forall e :: e in o ==> !e.CookieAdded?
    requires forall e :: e in d ==> !e.CookieAdded?
    ensures AddedCookies(o + [CookiesCaptured] + d + [BrowserClosed(Desktop)] + ms + [Completed]) == AddedCookies(ms)
  {
    var a := o + [CookiesCaptured] + d + [BrowserClosed(Desktop)];
    assert forall e :: e in a ==> !e.CookieAdded?;
    AddedCookiesNone(a);
    AddedCookiesNone([Completed]);
    AddedCookiesConcat(a, ms);
    AddedCookiesConcat(a + ms, [Completed]);
  }

  /** The run adds exactly the captured cookies, in order, when the mobile session runs, and none otherwise. */
  lemma RunAddsCookies(loggedIn: bool, cookies: seq<Cookie>, mobileOn: bool, d: seq<Event>, m: seq<Event>)
    requires PhaseLog(Desktop, d) && PhaseLog(Mobile, m)
    ensures AddedCookies(Run(loggedIn, cookies, mobileOn, d, m)) == if mobileOn then cookies else []
  {
    AddedCookiesRun(Opening(loggedIn), d, MobilePart(cookies, mobileOn, m));
    if mobileOn {
      AddedCookiesSession(CookieEvents(cookies), m);
      CookieEventsAdd(cookies);
    }
  }

  lemma SessionRegroup(a: seq<Event>, ce: seq<Event>, m: seq<Event>)
    ensures a + ([BrowserOpened(Mobile), Navigated(Bing)] + ce + [CookiesApplied] + m + [BrowserClosed(Mobile)])
      == (a + [BrowserOpened(Mobile), Navigated(Bing)] + ce + [CookiesApplied]) + (m + [BrowserClosed(Mobile)])
  {
  }

  /** The cookies are added before any mobile search. */
  lemma RunCookiesBeforeMobileSearches(loggedIn: bool, cookies: seq<Cookie>, mobileOn: bool, d: seq<Event>, m: seq<Event>)
    requires PhaseLog(Desktop, d) && PhaseLog(Mobile, m)
    ensures Before(Run(loggedIn, cookies, mobileOn, d, m), IsCookieAdded, IsMobileSearch)
  {
    var a := Opening(loggedIn) + [CookiesCaptured] + d + [BrowserClosed(Desktop)];
    assert forall e :: e in a ==> !IsMobileSearch(e) && !IsCookieAdded(e);
    if mobileOn {
      var ce := CookieEvents(cookies);
      var h := [BrowserOpened(Mobile), Navigated(Bing)];
      var first := a + h + ce + [CookiesApplied];
      var rest := m + [BrowserClosed(Mobile)];
      assert forall e :: e in first ==> !IsMobileSearch(e) by { CookieEventsAreCookies(cookies); }
      BeforeSplit(first, rest, IsCookieAdded, IsMobileSearch);
      SessionRegroup(a, ce, m);
      BeforeExtend(a + MobilePart(cookies, mobileOn, m), [Completed], IsCookieAdded, IsMobileSearch);
    } else {
      BeforeSplit(a, [Completed], IsCookieAdded, IsMobileSearch);
      assert a + MobilePart(cookies, mobileOn, m) == a;
    }
  }

  /** The cookies are added only once the mobile browser is open. */
  lemma RunCookiesAfterMobileOpened(loggedIn: bool, cookies: seq<Cookie>, mobileOn: bool, d: seq<Event>, m: seq<Event>)
    requires PhaseLog(Desktop, d) && PhaseLog(Mobile, m)
    ensures Before(Run(loggedIn, cookies, mobileOn, d, m), IsMobileOpened, IsCookieAdded)
  {
    var a := Opening(loggedIn) + [CookiesCaptured] + d + [BrowserClosed(Desktop)];
    assert forall e :: e in a ==> !IsCookieAdded(e);
    if mobileOn {
      CookieEventsAreCookies(cookies);
      SessionOpensFirst(a, CookieEvents(cookies), m);
    } else {
      BeforeSplit(a, [Completed], IsMobileOpened, IsCookieAdded);
      assert a + MobilePart(cookies, mobileOn, m) == a;
    }
  }

  /** Within a mobile session, nothing is added before the browser opens, and it opens only once. */
  lemma SessionOpensFirst(a: seq<Event>, ce: seq<Event>, m: seq<Event>)
    requires forall e :: e in a ==> !IsCookieAdded(e)
    requires forall e :: e in ce ==> e.CookieAdded?
    requires forall e :: e in m ==> IsSearchEvent(e)
    ensures Before(a + ([BrowserOpened(Mobile), Navigated(Bing)] + ce + [CookiesApplied] + m + [BrowserClosed(Mobile)])
      + [Completed], IsMobileOpened, IsCookieAdded)
  {
    var h := [BrowserOpened(Mobile), Navigated(Bing)];
    var rest := ce + [CookiesApplied] + m + [BrowserClosed(Mobile)] + [Completed];
    assert forall e :: e in rest ==> !IsMobileOpened(e);
    assert a + (h + ce + [CookiesApplied] + m + [BrowserClosed(Mobile)]) + [Completed] == (a + h) + rest;
    BeforeSplit(a + h, rest, IsMobileOpened, IsCookieAdded);
  }

  // ---------------------------------------------------------------------
  // the pages

  /** The events before the first e (all of them when there is none). */
  function Until(t: seq<Event>, e: Event): seq<Event> {
    if t == [] then [] else if t[0] == e then [] else [t[0]] + Until(t[1..], e)
  }

  /** The page the browser shows after the events, if any was opened. */
  function LastPage(t: seq<Event>): Option<Page> {
    if t == [] then None
    else if t[|t| - 1].Navigated? then Some(t[|t| - 1].page)
    else LastPage(t[..|t| - 1])
  }

  lemma {:induction false} UntilExtend(a: seq<Event>, b: seq<Event>, e: Event)
    requires e in a
    ensures Until(a + b, e) == Until(a, e)
    decreases |a|
  {
    assert (a + b)[0] == a[0];
    if a[0] != e {
      assert (a + b)[1..] == a[1..] + b;
      UntilExtend(a[1..], b, e);
    }
  }

  lemma {:induction false} UntilSkip(a: seq<Event>, b: seq<Event>, e: Event)
    requires e !in a
    ensures Until(a + b, e) == a + Until(b, e)
    decreases |a|
  {
    if a == [] {
      assert a + b == b;
    } else {
      assert (a + b)[0] == a[0];
      assert (a + b)[1..] == a[1..] + b;
      UntilSkip(a[1..], b, e);
      assert a == [a[0]] + a[1..];
    }
  }

  lemma UntilFirst(e: Event)
    ensures Until([e], e) == []
  {
  }

  lemma {:induction false} LastPageSkip(a: seq<Event>, b: seq<Event>)
    requires forall e :: e in b ==> !e.Navigated?
    ensures LastPage(a + b) == LastPage(a)
    decreases |b|
  {
    if b == [] {
      assert a + b == a;
    } else {
      assert (a + b)[..|a + b| - 1] == a + b[..|b| - 1];
      assert forall e :: e in b[..|b| - 1] ==> e in b;
      LastPageSkip(a, b[..|b| - 1]);
    }
  }

  /** After the opening, logged in or not, the desktop browser shows the Bing page. */
  lemma OpeningEndsOnBing(loggedIn: bool)
    ensures LastPage(Opening(loggedIn)) == Some(Bing)
  {
    var o := Opening(loggedIn);
    if loggedIn {
      assert o[..|o| - 1] == [Started, BrowserOpened(Desktop), Navigated(Bing)];
    }
  }

  /** The cookies are captured while the desktop browser shows the Bing page. */
  lemma RunCapturesOnBing(loggedIn: bool, cookies: seq<Cookie>, mobileOn: bool, d: seq<Event>, m: seq<Event>)
    requires PhaseLog(Desktop, d) && PhaseLog(Mobile, m)
    ensures LastPage(Until(Run(loggedIn, cookies, mobileOn, d, m), CookiesCaptured)) == Some(Bing)
  {
    assert CookiesCaptured !in Opening(loggedIn);
    UntilCapture(Opening(loggedIn), d, MobilePart(cookies, mobileOn, m));
    OpeningEndsOnBing(loggedIn);
  }

  /** What precedes the capture in a run is the opening. */
  lemma UntilCapture(o: seq<Event>, d: seq<Event>, ms: seq<Event>)
    requires CookiesCaptured !in o
    ensures Until(o + [CookiesCaptured] + d + [BrowserClosed(Desktop)] + ms + [Completed], CookiesCaptured) == o
  {
    var a := o + [CookiesCaptured];
    assert CookiesCaptured in a;
    UntilExtend(a, d, CookiesCaptured);
    UntilExtend(a + d, [BrowserClosed(Desktop)], CookiesCaptured);
    UntilExtend(a + d + [BrowserClosed(Desktop)], ms, CookiesCaptured);
    UntilExtend(a + d + [BrowserClosed(Desktop)] + ms, [Completed], CookiesCaptured);
    UntilSkip(o, [CookiesCaptured], CookiesCaptured);
    UntilFirst(CookiesCaptured);
  }

  lemma UntilApplied(a: seq<Event>, ce: seq<Event>, m: seq<Event>)
    requires CookiesApplied !in a && CookiesApplied !in ce
    ensures Until(a + ([BrowserOpened(Mobile), Navigated(Bing)] + ce + [CookiesApplied] + m + [BrowserClosed(Mobile)]) + [Completed], CookiesApplied)
      == a + [BrowserOpened(Mobile), Navigated(Bing)] + ce
  {
    var h := [BrowserOpened(Mobile), Navigated(Bing)];
    var first := a + h + ce;
    assert a + (h + ce + [CookiesApplied] + m + [BrowserClosed(Mobile)]) + [Completed]
      == first + ([CookiesApplied] + (m + [BrowserClosed(Mobile)] + [Completed]));
    assert CookiesApplied !in first;
    UntilSkip(first, [CookiesApplied] + (m + [BrowserClosed(Mobile)] + [Completed]), CookiesApplied);
  }

  /** The cookies are added while the mobile browser shows the Bing page. */
  lemma RunAppliesOnBing(loggedIn: bool, cookies: seq<Cookie>, d: seq<Event>, m: seq<Event>)
    requires PhaseLog(Desktop, d) && PhaseLog(Mobile, m)
    ensures LastPage(Until(Run(loggedIn, cookies, true, d, m), CookiesApplied)) == Some(Bing)
  {
    var a := Opening(loggedIn) + [CookiesCaptured] + d + [BrowserClosed(Desktop)];
    var ce := CookieEvents(cookies);
    assert forall e :: e in ce ==> e.CookieAdded? by { CookieEventsAreCookies(cookies); }
    UntilApplied(a, ce, m);
    LastPageSkip(a + [BrowserOpened(Mobile), Navigated(Bing)], ce);
  }

  lemma InRunParts(o: seq<Event>, d: seq<Event>, ms: seq<Event>)
    ensures forall e :: e in o + [CookiesCaptured] + d + [BrowserClosed(Desktop)] + ms + [Completed] <==>
      e in o || e == CookiesCaptured || e in d || e == BrowserClosed(Desktop) || e in ms || e == Completed
  {
  }

  /** Whether the user had to log in shows in the run. */
  lemma RunLogin(loggedIn: bool, cookies: seq<Cookie>, mobileOn: bool, d: seq<Event>, m: seq<Event>)
    requires PhaseLog(Desktop, d) && PhaseLog(Mobile, m)
    ensures LoginConfirmed in Run(loggedIn, cookies, mobileOn, d, m) <==> !loggedIn
    ensures AlreadyLoggedIn in Run(loggedIn, cookies, mobileOn, d, m) <==> loggedIn
  {
    var ms := MobilePart(cookies, mobileOn, m);
    assert LoginConfirmed !in ms && AlreadyLoggedIn !in ms by { MobilePartEvents(cookies, mobileOn, m); }
    assert LoginConfirmed !in d && AlreadyLoggedIn !in d;
    OpeningLogin(loggedIn);
    InRunParts(Opening(loggedIn), d, ms);
  }

  lemma OpeningLogin(loggedIn: bool)
    ensures LoginConfirmed in Opening(loggedIn) <==> !loggedIn
    ensures AlreadyLoggedIn in Opening(loggedIn) <==> loggedIn
  {
    if !loggedIn {
      assert Opening(loggedIn)[5] == LoginConfirmed;
    }
  }

  /** Searches of a kind come only from that kind's phase, and mobile ones only from a mobile session. */
  lemma RunSearchesFromPhases(loggedIn: bool, cookies: seq<Cookie>, mobileOn: bool, d: seq<Event>, m: seq<Event>)
    requires PhaseLog(Desktop, d) && PhaseLog(Mobile, m)
    ensures forall e :: e in Run(loggedIn, cookies, mobileOn, d, m) && IsDesktopSearch(e) ==> e in d
    ensures forall e :: e in Run(loggedIn, cookies, mobileOn, d, m) && IsMobileSearch(e) ==> mobileOn && e in m
  {
    var o := Opening(loggedIn);
    var ms := MobilePart(cookies, mobileOn, m);
    assert forall e :: e in ms && IsMobileSearch(e) ==> mobileOn && e in m by {
      assert forall e :: e in CookieEvents(cookies) ==> e.CookieAdded? by { CookieEventsAreCookies(cookies); }
    }
    assert forall e :: e in ms ==> !IsDesktopSearch(e) by { MobilePartEvents(cookies, mobileOn, m); }
    assert forall e :: e in o ==> !IsSearch(e);
    InRunParts(o, d, ms);
  }

  // ---------------------------------------------------------------------
  // the whole script

  lemma ScriptPhases(desktop: int, mobile: int, dChoices: seq<Choice>, mChoices: seq<Choice>)
    requires desktop > 0 ==> desktop <= |dChoices|
    requires mobile > 0 ==> mobile <= |mChoices|
    ensures PhaseLog(Desktop, Phase(Desktop, desktop, dChoices)) && PhaseLog(Mobile, Phase(Mobile, mobile, mChoices))
  {
    PhaseIsPhaseLog(Desktop, desktop, dChoices);
    PhaseIsPhaseLog(Mobile, mobile, mChoices);
  }

  /**
   * The cookies are captured once, before any search; the desktop browser
   * is closed once, after every desktop search and before the mobile
   * browser opens.
   */
  lemma ScriptOrder(desktop: int, mobile: int, loggedIn: bool, cookies: seq<Cookie>,
                    dChoices: seq<Choice>, mChoices: seq<Choice>)
    requires desktop > 0 ==> desktop <= |dChoices|
    requires mobile > 0 ==> mobile <= |mChoices|
    ensures var t := ScriptTrace(desktop, mobile, loggedIn, cookies, dChoices, mChoices);
      && Count(t, CookiesCaptured) == 1 && Before(t, IsCapture, IsSearch)
      && Count(t, BrowserClosed(Desktop)) == 1
      && Before(t, IsDesktopSearch, IsDesktopClosed) && Before(t, IsDesktopClosed, IsMobileOpened)
  {
    var d, m := Phase(Desktop, desktop, dChoices), Phase(Mobile, mobile, mChoices);
    ScriptPhases(desktop, mobile, dChoices, mChoices);
    RunCapture(loggedIn, cookies, mobile > 0, d, m);
    RunDesktopClosed(loggedIn, cookies, mobile > 0, d, m);
  }

  /**
   * The desktop browser is quit once whatever the counts, even 0; the
   * mobile browser is opened and closed once exactly when mobile searches
   * are requested; a phase runs exactly when its count is positive.
   */
  lemma ScriptSessions(desktop: int, mobile: int, loggedIn: bool, cookies: seq<Cookie>,
                       dChoices: seq<Choice>, mChoices: seq<Choice>)
    requires desktop > 0 ==> desktop <= |dChoices|
    requires mobile > 0 ==> mobile <= |mChoices|
    ensures var t := ScriptTrace(desktop, mobile, loggedIn, cookies, dChoices, mChoices);
      && Count(t, BrowserClosed(Desktop)) == 1
      && Count(t, BrowserOpened(Mobile)) == (if mobile > 0 then 1 else 0)
      && Count(t, BrowserClosed(Mobile)) == (if mobile > 0 then 1 else 0)
      && (desktop > 0 ==> SearchesStarted(Desktop, desktop) in t)
      && (desktop <= 0 ==> forall e :: e in t ==> !IsDesktopSearch(e))
      && (mobile > 0 ==> SearchesStarted(Mobile, mobile) in t)
      && (mobile <= 0 ==> forall e :: e in t ==> !IsMobileSearch(e))
  {
    var d, m := Phase(Desktop, desktop, dChoices), Phase(Mobile, mobile, mChoices);
    PhaseIsPhaseLog(Desktop, desktop, dChoices);
    PhaseIsPhaseLog(Mobile, mobile, mChoices);
    RunMobileSession(loggedIn, cookies, mobile > 0, d, m);
    RunDesktopClosedOnce(loggedIn, cookies, mobile > 0, d, m);
    RunSearchesFromPhases(loggedIn, cookies, mobile > 0, d, m);
    var t := Run(loggedIn, cookies, mobile > 0, d, m);
    if mobile > 0 {
      assert SearchesStarted(Mobile, mobile) in MobilePart(cookies, true, m);
    }
  }

  /**
   * The mobile session receives exactly the captured cookies, in order,
   * after its browser opens on the Bing page and before its first search.
   */
  lemma ScriptCookies(desktop: int, mobile: int, loggedIn: bool, cookies: seq<Cookie>,
                      dChoices: seq<Choice>, mChoices: seq<Choice>)
    requires desktop > 0 ==> desktop <= |dChoices|
    requires mobile > 0 ==> mobile <= |mChoices|
    ensures var t := ScriptTrace(desktop, mobile, loggedIn, cookies, dChoices, mChoices);
      && AddedCookies(t) == (if mobile > 0 then cookies else [])
      && Before(t, IsMobileOpened, IsCookieAdded) && Before(t, IsCookieAdded, IsMobileSearch)
      && (mobile > 0 ==> LastPage(Until(t, CookiesApplied)) == Some(Bing))
  {
    var d, m := Phase(Desktop, desktop, dChoices), Phase(Mobile, mobile, mChoices);
    ScriptPhases(desktop, mobile, dChoices, mChoices);
    RunAddsCookies(loggedIn, cookies, mobile > 0, d, m);
    RunCookiesAfterMobileOpened(loggedIn, cookies, mobile > 0, d, m);
    RunCookiesBeforeMobileSearches(loggedIn, cookies, mobile > 0, d, m);
    if mobile > 0 {
      RunAppliesOnBing(loggedIn, cookies, d, m);
    }
  }

  /**
   * The login prompt appears exactly when the logged-in marker was missing,
   * and either way the cookies are captured on the Bing page.
   */
  lemma ScriptLogin(desktop: int, mobile: int, loggedIn: bool, cookies: seq<Cookie>,
                    dChoices: seq<Choice>, mChoices: seq<Choice>)
    requires desktop > 0 ==> desktop <= |dChoices|
    requires mobile > 0 ==> mobile <= |mChoices|
    ensures var t := ScriptTrace(desktop, mobile, loggedIn, cookies, dChoices, mChoices);
      && (LoginConfirmed in t <==> !loggedIn)
      && (AlreadyLoggedIn in t <==> loggedIn)
      && LastPage(Until(t, CookiesCaptured)) == Some(Bing)
  {
    var d, m := Phase(Desktop, desktop, dChoices), Phase(Mobile, mobile, mChoices);
    ScriptPhases(desktop, mobile, dChoices, mChoices);
    RunLogin(loggedIn, cookies, mobile > 0, d, m);
    RunCapturesOnBing(loggedIn, cookies, mobile > 0, d, m);
  }
}
