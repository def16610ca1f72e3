/**
 * The infringement-scan pipeline of the ScannerService: query construction, the
 * similarity filter with its best-first ordering, the per-source sequence "cache,
 * then credentials, then fetch, then filter, then cache", and the merge of the
 * per-source outcomes.
 *
 * The similarity score (TF-IDF from a foreign library) is an oracle
 * `similarity(reference, content)`; the HTTP fetches are oracles from the query to
 * their outcome; the timed cache expiry is the explicit operation ExpireEntry.
 */
module Scanner {
  import opened Domain
  import opened JsText

  // ---------------------------------------------------------------- queries

  /** The Google query: the quoted name, a space, and the first 50 code units of the description. */
  function GoogleQuery(name: string, description: string): (q: string)
    ensures |q| >= |name| + 3
    ensures q[..|name| + 3] == "\"" + name + "\" "
    ensures q[|name| + 3..] == JsPrefix(description, 50)
    ensures JsLength(q[|name| + 3..]) <= 50
  {
    "\"" + name + "\" " + JsPrefix(description, 50)
  }

  /** The terms of the list that are longer than 2 code units, in order. */
  function LongTerms(terms: seq<string>): (r: seq<string>)
    ensures forall i :: 0 <= i < |r| ==> JsLength(r[i]) > 2
    ensures |r| <= |terms|
  {
    if |terms| == 0 then []
    else if JsLength(terms[0]) > 2 then [terms[0]] + LongTerms(terms[1..])
    else LongTerms(terms[1..])
  }

  /**
   * The terms of the Twitter query: the name split on single spaces, then the
   * keywords, keeping the terms longer than 2 code units, at most the first five.
   */
  function QueryTerms(name: string, keywords: seq<string>): (r: seq<string>)
    ensures var long := LongTerms(Split(name, ' ') + keywords);
      && |r| == (if |long| < 5 then |long| else 5)
      && r == long[..|r|]
    ensures forall t :: t in r ==> JsLength(t) > 2 && (t in Split(name, ' ') || t in keywords)
  {
    var all := Split(name, ' ') + keywords;
    assert forall t :: t in all ==> t in Split(name, ' ') || t in keywords;
    LongTermsMembers(all);
    Take(LongTerms(all), 5)
  }

  /** Filtering distributes over concatenation: the long terms keep their order and multiplicity. */
  lemma {:induction false} LongTermsAppend(a: seq<string>, b: seq<string>)
    ensures LongTerms(a + b) == LongTerms(a) + LongTerms(b)
  {
    if |a| == 0 {
      assert a + b == b;
    } else {
      assert (a + b)[1..] == a[1..] + b;
      LongTermsAppend(a[1..], b);
    }
  }

  /** The filter keeps exactly the terms longer than 2 code units. */
  lemma {:induction false} LongTermsMembers(terms: seq<string>)
    ensures forall t :: t in LongTerms(terms) <==> t in terms && JsLength(t) > 2
  {
    if |terms| > 0 {
      LongTermsMembers(terms[1..]);
      assert terms == [terms[0]] + terms[1..];
    }
  }

  /**
   * buildSearchQuery: the query terms joined with " OR " (the description plays no
   * part). Every selected term is non-empty, so the query is empty exactly when no
   * term was selected.
   */
  function BuildSearchQuery(name: string, description: string, keywords: seq<string>): (q: string)
    ensures q == "" <==> QueryTerms(name, keywords) == []
    ensures |QueryTerms(name, keywords)| == 1 ==> q == QueryTerms(name, keywords)[0]
    ensures var terms := QueryTerms(name, keywords); var n := |terms|;
      n > 1 ==> q == Join(terms[..n - 1], " OR ") + " OR " + terms[n - 1]
  {
    var terms := QueryTerms(name, keywords);
    assert terms != [] ==> terms[0] in terms;
    var n := |terms|;
    assert n > 1 ==> Join(terms, " OR ") == Join(terms[..n - 1], " OR ") + " OR " + terms[n - 1] by {
      if n > 1 {
        assert terms == terms[..n - 1] + [terms[n - 1]];
        JoinAppend(terms[..n - 1], terms[n - 1], " OR ");
      }
    }
    Join(terms, " OR ")
  }

  /** Every selected term occurs in the Twitter query. */
  lemma QueryMentionsTerms(name: string, description: string, keywords: seq<string>)
    ensures forall t :: t in QueryTerms(name, keywords) ==> IsInfix(t, BuildSearchQuery(name, description, keywords))
  {
    var terms := QueryTerms(name, keywords);
    forall t | t in terms
      ensures IsInfix(t, BuildSearchQuery(name, description, keywords))
    {
      var k :| 0 <= k < |terms| && terms[k] == t;
      PartInJoin(terms, " OR ", k);
    }
  }

  /** Without any term longer than 2 code units the Twitter query is the empty string. */
  lemma EmptyQueryWithoutLongTerms(name: string, description: string, keywords: seq<string>)
    requires forall t :: t in Split(name, ' ') + keywords ==> JsLength(t) <= 2
    ensures BuildSearchQuery(name, description, keywords) == ""
  {
    NoLongTerms(Split(name, ' ') + keywords);
  }

  lemma {:induction false} NoLongTerms(terms: seq<string>)
    requires forall t :: t in terms ==> JsLength(t) <= 2
    ensures LongTerms(terms) == []
  {
    if |terms| > 0 {
      assert terms[0] in terms;
      NoLongTerms(terms[1..]);
    }
  }

  function GoogleKey(name: string, description: string): string {
    "google:" + GoogleQuery(name, description)
  }

  function TwitterKey(name: string, description: string, keywords: seq<string>): string {
    "twitter:" + BuildSearchQuery(name, description, keywords)
  }

  /** The two sources never share a cache entry, whatever the assets. */
  lemma KeysNeverCollide(a: IpData, b: IpData)
    ensures GoogleKey(a.name, a.description) != TwitterKey(b.name, b.description, b.keywords)
  {
    assert GoogleKey(a.name, a.description)[0] == 'g';
    assert TwitterKey(b.name, b.description, b.keywords)[0] == 't';
  }

  // ---------------------------------------------------------------- filter and order

  /** name + " " + description, the text every candidate is compared with. */
  function ReferenceText(name: string, description: string): string {
    name + " " + description
  }

  /**
   * The candidates whose score reaches the threshold, in input order, each one's
   * fields kept and its score and `matched: true` added.
   */
  function Passing(similarity: (string, string) -> real, reference: string, threshold: real, results: seq<Candidate>): (r: seq<Match>)
    ensures |r| <= |results|
  {
    if |results| == 0 then []
    else
      var init := Passing(similarity, reference, threshold, results[..|results| - 1]);
      var c := results[|results| - 1];
      var score := similarity(reference, c.content);
      if score >= threshold then init + [Match(c, score, true)] else init
  }

  /** A match is passed exactly when it is a scored input candidate that reaches the threshold. */
  lemma {:induction false} PassingMembers(similarity: (string, string) -> real, reference: string, threshold: real, results: seq<Candidate>, m: Match)
    ensures m in Passing(similarity, reference, threshold, results) <==>
      && m.candidate in results
      && m.matched
      && m.similarity == similarity(reference, m.candidate.content)
      && m.similarity >= threshold
  {
    if |results| > 0 {
      var front := results[..|results| - 1];
      PassingMembers(similarity, reference, threshold, front, m);
      assert results == front + [results[|results| - 1]];
    }
  }

  /** The pass distributes over concatenation: the matches keep the candidates' order and multiplicity. */
  lemma {:induction false} PassingAppend(similarity: (string, string) -> real, reference: string, threshold: real,
    a: seq<Candidate>, b: seq<Candidate>)
    ensures Passing(similarity, reference, threshold, a + b)
         == Passing(similarity, reference, threshold, a) + Passing(similarity, reference, threshold, b)
  {
    if |b| == 0 {
      assert a + b == a;
    } else {
      var front := b[..|b| - 1];
      assert (a + b)[..|a + b| - 1] == a + front;
      assert (a + b)[|a + b| - 1] == b[|b| - 1];
      PassingAppend(similarity, reference, threshold, a, front);
    }
  }

  /** One candidate gives its match exactly when its score reaches the threshold. */
  lemma PassingSingle(similarity: (string, string) -> real, reference: string, threshold: real, c: Candidate)
    ensures var score := similarity(reference, c.content);
      Passing(similarity, reference, threshold, [c]) == if score >= threshold then [Match(c, score, true)] else []
  {
    assert [c][..0] == [];
  }

  /** Non-increasing similarity. */
  predicate SortedDesc(ms: seq<Match>) {
    forall i, j :: 0 <= i < j < |ms| ==> ms[i].similarity >= ms[j].similarity
  }

  /** Inserts m after every element at least as similar, so equal scores keep their order. */
  function InsertDesc(ms: seq<Match>, m: Match): (r: seq<Match>)
    ensures multiset(r) == multiset(ms) + multiset{m}
    ensures |r| == |ms| + 1
  {
    if |ms| == 0 then [m]
    else if ms[0].similarity < m.similarity then [m] + ms
    else
      assert ms == [ms[0]] + ms[1..];
      [ms[0]] + InsertDesc(ms[1..], m)
  }

  /** Inserting into a best-first list keeps it best-first. */
  lemma {:induction false} InsertDescSorted(ms: seq<Match>, m: Match)
    requires SortedDesc(ms)
    ensures SortedDesc(InsertDesc(ms, m))
  {
    if |ms| > 0 && ms[0].similarity >= m.similarity {
      var rest := InsertDesc(ms[1..], m);
      InsertDescSorted(ms[1..], m);
      forall j | 0 <= j < |rest|
        ensures ms[0].similarity >= rest[j].similarity
      {
        assert rest[j] in multiset(rest);
        if rest[j] != m {
          assert rest[j] in multiset(ms[1..]);
          var k :| 0 <= k < |ms[1..]| && ms[1..][k] == rest[j];
          assert ms[k + 1] == rest[j];
        }
      }
    }
  }

  /** Array.prototype.sort with the comparator b.similarity - a.similarity (a stable sort). */
  function SortDesc(ms: seq<Match>): (r: seq<Match>)
    ensures multiset(r) == multiset(ms)
    ensures SortedDesc(r)
  {
    if |ms| == 0 then []
    else
      var init := ms[..|ms| - 1];
      assert ms == init + [ms[|ms| - 1]];
      InsertDescSorted(SortDesc(init), ms[|ms| - 1]);
      InsertDesc(SortDesc(init), ms[|ms| - 1])
  }

  /** The matches with similarity v, in list order. */
  function WithScore(ms: seq<Match>, v: real): (r: seq<Match>)
    ensures forall i :: 0 <= i < |r| ==> r[i].similarity == v
  {
    if |ms| == 0 then []
    else (if ms[0].similarity == v then [ms[0]] else []) + WithScore(ms[1..], v)
  }

  lemma {:induction false} WithScoreAppend(a: seq<Match>, b: seq<Match>, v: real)
    ensures WithScore(a + b, v) == WithScore(a, v) + WithScore(b, v)
  {
    if |a| == 0 {
      assert a + b == b;
    } else {
      assert (a + b)[1..] == a[1..] + b;
      WithScoreAppend(a[1..], b, v);
    }
  }

  lemma {:induction false} WithScoreNone(ms: seq<Match>, v: real)
    requires forall i :: 0 <= i < |ms| ==> ms[i].similarity < v
    ensures WithScore(ms, v) == []
  {
    if |ms| > 0 {
      WithScoreNone(ms[1..], v);
    }
  }

  /** Insertion into a best-first list puts m after every match with its similarity. */
  lemma {:induction false} InsertDescStable(ms: seq<Match>, m: Match, v: real)
    requires SortedDesc(ms)
    ensures WithScore(InsertDesc(ms, m), v) == WithScore(ms, v) + WithScore([m], v)
  {
    var own := WithScore([m], v);
    if |ms| == 0 {
      assert InsertDesc(ms, m) == [m];
    } else if ms[0].similarity < m.similarity {
      InsertFrontStable(ms, m, v);
    } else {
      var head := if ms[0].similarity == v then [ms[0]] else [];
      var rest := InsertDesc(ms[1..], m);
      InsertDescStable(ms[1..], m, v);
      assert ([ms[0]] + rest)[1..] == rest;
      calc {
        WithScore(InsertDesc(ms, m), v);
        WithScore([ms[0]] + rest, v);
        head + WithScore(rest, v);
        head + (WithScore(ms[1..], v) + own);
        { SeqAssoc(head, WithScore(ms[1..], v), own); }
        (head + WithScore(ms[1..], v)) + own;
        WithScore(ms, v) + own;
      }
    }
  }

  /** A match more similar than the head of a best-first list goes in front, before every match with its score. */
  lemma InsertFrontStable(ms: seq<Match>, m: Match, v: real)
    requires SortedDesc(ms) && |ms| > 0 && ms[0].similarity < m.similarity
    ensures WithScore(InsertDesc(ms, m), v) == WithScore(ms, v) + WithScore([m], v)
  {
    assert [m][1..] == [];
    assert InsertDesc(ms, m) == [m] + ms;
    assert ([m] + ms)[1..] == ms;
    if m.similarity == v {
      WithScoreNone(ms, v);
    }
  }

  lemma SeqAssoc(a: seq<Match>, b: seq<Match>, c: seq<Match>)
    ensures a + (b + c) == (a + b) + c
  {
  }

  /** The sort is stable: the matches of each similarity keep their relative order. */
  lemma {:induction false} SortDescStable(ms: seq<Match>, v: real)
    ensures WithScore(SortDesc(ms), v) == WithScore(ms, v)
  {
    if |ms| > 0 {
      var init := ms[..|ms| - 1];
      var last := ms[|ms| - 1];
      SortDescStable(init, v);
      InsertDescStable(SortDesc(init), last, v);
      assert ms == init + [last];
      WithScoreAppend(init, [last], v);
    }
  }

  /** What a list served by a scan always is: best-first, every item matched and at the threshold. */
  predicate Qualified(ms: seq<Match>, threshold: real) {
    && SortedDesc(ms)
    && forall i :: 0 <= i < |ms| ==> ms[i].matched && ms[i].similarity >= threshold
  }

  /** The filter's output is qualified. */
  lemma {:induction false} SortedPassingQualified(similarity: (string, string) -> real, reference: string, threshold: real, results: seq<Candidate>)
    ensures Qualified(SortDesc(Passing(similarity, reference, threshold, results)), threshold)
  {
    var passing := Passing(similarity, reference, threshold, results);
    var sorted := SortDesc(passing);
    forall i | 0 <= i < |sorted|
      ensures sorted[i].matched && sorted[i].similarity >= threshold
    {
      assert sorted[i] in multiset(passing);
      PassingMembers(similarity, reference, threshold, results, sorted[i]);
    }
  }

  // ---------------------------------------------------------------- merging sources

  /** Promise.allSettled, then the fulfilled values flattened in order; a rejected source adds nothing. */
  function MergeSettled(outcomes: seq<Outcome<seq<Match>>>): (r: seq<Match>)
    ensures (forall i :: 0 <= i < |outcomes| ==> outcomes[i].Failed?) ==> r == []
  {
    if |outcomes| == 0 then []
    else (if outcomes[0].Ok? then outcomes[0].value else []) + MergeSettled(outcomes[1..])
  }

  /** Merging distributes over concatenation of the source lists. */
  lemma {:induction false} MergeSettledAppend(a: seq<Outcome<seq<Match>>>, b: seq<Outcome<seq<Match>>>)
    ensures MergeSettled(a + b) == MergeSettled(a) + MergeSettled(b)
  {
    if |a| == 0 {
      assert a + b == b;
    } else {
      assert (a + b)[1..] == a[1..] + b;
      MergeSettledAppend(a[1..], b);
    }
  }

  /** With every scan fulfilled, merging is plain concatenation in source order. */
  lemma MergeSettledFulfilled(xs: seq<Match>, ys: seq<Match>)
    ensures MergeSettled([Ok(xs)]) == xs
    ensures MergeSettled([Ok(xs), Ok(ys)]) == xs + ys
  {
    assert [Ok(xs)][1..] == [];
    assert [Ok(xs), Ok(ys)][1..] == [Ok(ys)];
    assert [Ok(ys)][1..] == [];
  }

  /** A match is merged exactly when some fulfilled source returned it. */
  lemma {:induction false} MergeSettledMembers(outcomes: seq<Outcome<seq<Match>>>, m: Match)
    ensures m in MergeSettled(outcomes) <==> exists i :: 0 <= i < |outcomes| && outcomes[i].Ok? && m in outcomes[i].value
  {
    if |outcomes| > 0 {
      MergeSettledMembers(outcomes[1..], m);
      if exists i :: 0 <= i < |outcomes| && outcomes[i].Ok? && m in outcomes[i].value {
        var i :| 0 <= i < |outcomes| && outcomes[i].Ok? && m in outcomes[i].value;
        if i > 0 {
          assert outcomes[1..][i - 1] == outcomes[i];
        }
      }
      if exists i :: 0 <= i < |outcomes[1..]| && outcomes[1..][i].Ok? && m in outcomes[1..][i].value {
        var i :| 0 <= i < |outcomes[1..]| && outcomes[1..][i].Ok? && m in outcomes[1..][i].value;
        assert outcomes[i + 1] == outcomes[1..][i];
      }
    }
  }

  // ---------------------------------------------------------------- the Twitter reply

  /** What the Twitter search endpoint answers: a body (whose `data` may be missing) or an error. */
  datatype TwitterReply =
    | TwitterBody(data: Option<seq<Candidate>>)
    | TwitterHttpError(status: int)
    | TwitterNetworkError(message: string)

  /**
   * fetchTwitterResults: the tweets of a body that has them, and an empty list for
   * a body without `data`, a rate limit (429), any other HTTP status and a network
   * error alike; it never fails.
   */
  function FetchTwitterResults(reply: TwitterReply): (r: seq<Candidate>)
    ensures reply.TwitterBody? && reply.data.Some? ==> r == reply.data.value
    ensures reply.TwitterHttpError? || reply.TwitterNetworkError? ==> r == []
    ensures reply.TwitterBody? && reply.data.None? ==> r == []
  {
    match reply
    case TwitterBody(data) => data.GetOr([])
    case TwitterHttpError(_) => []
    case TwitterNetworkError(_) => []
  }

  // ---------------------------------------------------------------- the service

  /** The settings the scanner reads: which sources have credentials, and the match threshold. */
  datatype ScanConfig = ScanConfig(googleConfigured: bool, twitterConfigured: bool, threshold: real)

  class ScannerService {
    const config: ScanConfig
    /** calculateSimilarity(reference, content). */
    const similarity: (string, string) -> real
    /** The result cache, keyed by source and query. */
    var cache: map<string, seq<Match>>

    /** Every cached list is a filter output. */
    ghost predicate Valid()
      reads this
    {
      forall key :: key in cache ==> Qualified(cache[key], config.threshold)
    }

    constructor(config: ScanConfig, similarity: (string, string) -> real)
      ensures this.config == config && this.similarity == similarity
      ensures cache == map[]
      ensures Valid()
    {
      this.config := config;
      this.similarity := similarity;
      cache := map[];
    }

    /** The filter's specification: the passing candidates, best first. */
    function Filtered(asset: IpData, results: seq<Candidate>): seq<Match> {
      SortDesc(Passing(similarity, ReferenceText(asset.name, asset.description), config.threshold, results))
    }

    /**
     * filterBySimilarity: scores every candidate against "name description", keeps
     * those at or above the threshold, and orders them by similarity, highest first.
     */
    method FilterBySimilarity(asset: IpData, results: seq<Candidate>) returns (r: seq<Match>)
      ensures r == Filtered(asset, results)
      ensures Qualified(r, config.threshold)
      ensures forall m :: m in r <==>
        && m.candidate in results
        && m.matched
        && m.similarity == similarity(ReferenceText(asset.name, asset.description), m.candidate.content)
        && m.similarity >= config.threshold
    {
      var reference := ReferenceText(asset.name, asset.description);
      var matches: seq<Match> := [];
      for i := 0 to |results|
        invariant matches == Passing(similarity, reference, config.threshold, results[..i])
      {
        var score := similarity(reference, results[i].content);
        assert results[..i + 1][..i] == results[..i];
        if score >= config.threshold {
          matches := matches + [Match(results[i], score, true)];
        }
      }
      assert results[..|results|] == results;
      r := SortDesc(matches);
      SortedPassingQualified(similarity, reference, config.threshold, results);
      forall m
        ensures m in r <==> (m.candidate in results && m.matched
          && m.similarity == similarity(reference, m.candidate.content) && m.similarity >= config.threshold)
      {
        assert m in r <==> m in multiset(matches);
        PassingMembers(similarity, reference, config.threshold, results, m);
      }
    }

    /**
     * scanGoogle: a cached list is returned as is (before the credentials are even
     * looked at); without credentials the answer is empty; a failed fetch is
     * swallowed into an empty answer and caches nothing; otherwise the filtered
     * list is cached under google:<query> and returned.
     */
    method ScanGoogle(asset: IpData, fetch: string -> Outcome<seq<Candidate>>) returns (r: seq<Match>)
      requires Valid()
      modifies this
      ensures Valid()
      ensures Qualified(r, config.threshold)
      ensures var key := GoogleKey(asset.name, asset.description);
        if key in old(cache) then r == old(cache)[key] && cache == old(cache)
        else if !config.googleConfigured then r == [] && cache == old(cache)
        else match fetch(GoogleQuery(asset.name, asset.description))
          case Failed(_) => r == [] && cache == old(cache)
          case Ok(results) => r == Filtered(asset, results) && cache == old(cache)[key := r]
    {
      var query := GoogleQuery(asset.name, asset.description);
      var key := "google:" + query;
      if key in cache {
        return cache[key];
      }
      if !config.googleConfigured {
        return [];
      }
      var reply := fetch(query);
      if reply.Failed? {
        return [];
      }
      r := FilterBySimilarity(asset, reply.value);
      cache := cache[key := r];
    }

    /**
     * scanTwitter: a cached list is returned as is; without a token the scan fails
     * and the failure is swallowed into an empty answer with the cache untouched;
     * otherwise the (never failing) fetch is filtered and cached under
     * twitter:<query>, an empty list included.
     */
    method ScanTwitter(asset: IpData, fetch: string -> TwitterReply) returns (r: seq<Match>)
      requires Valid()
      modifies this
      ensures Valid()
      ensures Qualified(r, config.threshold)
      ensures var key := TwitterKey(asset.name, asset.description, asset.keywords);
        if key in old(cache) then r == old(cache)[key] && cache == old(cache)
        else if !config.twitterConfigured then r == [] && cache == old(cache)
        else
          var results := FetchTwitterResults(fetch(BuildSearchQuery(asset.name, asset.description, asset.keywords)));
          r == Filtered(asset, results) && cache == old(cache)[key := r]
    {
      var query := BuildSearchQuery(asset.name, asset.description, asset.keywords);
      var key := "twitter:" + query;
      if key in cache {
        return cache[key];
      }
      if !config.twitterConfigured {
        return [];
      }
      var results := FetchTwitterResults(fetch(query));
      r := FilterBySimilarity(asset, results);
      cache := cache[key := r];
    }

    /**
     * scanAll: Google always, Twitter only with a token, the settled outcomes merged
     * in that order. Both scans swallow their own failures, so both settle fulfilled.
     */
    method ScanAll(asset: IpData, google: string -> Outcome<seq<Candidate>>, twitter: string -> TwitterReply)
      returns (r: seq<Match>)
      requires Valid()
      modifies this
      ensures Valid()
      ensures forall m :: m in r ==> m.matched && m.similarity >= config.threshold
      ensures !config.twitterConfigured ==> r == old(ScannedGoogle(asset, google))
      ensures config.twitterConfigured ==>
        r == old(ScannedGoogle(asset, google)) + old(ScannedTwitter(asset, twitter))
      ensures !config.twitterConfigured ==> cache == CacheAfterGoogle(old(cache), asset, google)
      ensures config.twitterConfigured ==>
        cache == CacheAfterTwitter(CacheAfterGoogle(old(cache), asset, google), asset, twitter)
    {
      KeysNeverCollide(asset, asset);
      var fromGoogle := ScanGoogle(asset, google);
      if config.twitterConfigured {
        var fromTwitter := ScanTwitter(asset, twitter);
        r := MergeSettled([Ok(fromGoogle), Ok(fromTwitter)]);
        MergeSettledFulfilled(fromGoogle, fromTwitter);
      } else {
        r := MergeSettled([Ok(fromGoogle)]);
        MergeSettledFulfilled(fromGoogle, []);
      }
    }

    /** The list scanGoogle answers from the current cache. */
    ghost function ScannedGoogle(asset: IpData, fetch: string -> Outcome<seq<Candidate>>): seq<Match>
      reads this
    {
      var key := GoogleKey(asset.name, asset.description);
      if key in cache then cache[key]
      else if !config.googleConfigured then []
      else match fetch(GoogleQuery(asset.name, asset.description))
        case Failed(_) => []
        case Ok(results) => Filtered(asset, results)
    }

    /** The list scanTwitter answers from the current cache. */
    ghost function ScannedTwitter(asset: IpData, fetch: string -> TwitterReply): seq<Match>
      reads this
    {
      var key := TwitterKey(asset.name, asset.description, asset.keywords);
      if key in cache then cache[key]
      else if !config.twitterConfigured then []
      else Filtered(asset, FetchTwitterResults(fetch(BuildSearchQuery(asset.name, asset.description, asset.keywords))))
    }

    /** The cache scanGoogle leaves behind when it starts from cache c. */
    ghost function CacheAfterGoogle(c: map<string, seq<Match>>, asset: IpData, fetch: string -> Outcome<seq<Candidate>>)
      : map<string, seq<Match>>
    {
      var key := GoogleKey(asset.name, asset.description);
      if key in c || !config.googleConfigured then c
      else match fetch(GoogleQuery(asset.name, asset.description))
        case Failed(_) => c
        case Ok(results) => c[key := Filtered(asset, results)]
    }

    /** The cache scanTwitter leaves behind when it starts from cache c. */
    ghost function CacheAfterTwitter(c: map<string, seq<Match>>, asset: IpData, fetch: string -> TwitterReply)
      : map<string, seq<Match>>
    {
      var key := TwitterKey(asset.name, asset.description, asset.keywords);
      if key in c || !config.twitterConfigured then c
      else c[key := Filtered(asset, FetchTwitterResults(fetch(BuildSearchQuery(asset.name, asset.description, asset.keywords))))]
    }

    /** The timer that drops a cache entry (10 minutes for Google, 5 for Twitter), fired. */
    method ExpireEntry(key: string)
      requires Valid()
      modifies this
      ensures Valid()
      ensures cache == old(cache) - {key}
    {
      cache := cache - {key};
    }
  }
}
