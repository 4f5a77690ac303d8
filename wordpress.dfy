/**
 * The content-fetching layer of the site: one best-effort GET against the
 * WordPress REST API that turns every outcome into either the parsed body or
 * the caller's fallback, a process-wide set of already-reported failures so
 * that a thrown failure is logged once per (path, error code), and the three
 * post accessors built on it.
 *
 * The network call itself is not modelled: each call receives the outcome of
 * its request as an `Outcome` value. Console output is a ghost log of
 * `LogEntry` values.
 */
module WordPress {

  datatype Option<T> = None | Some(value: T)

  /** The outcome of one `fetch` of base + path followed by `res.json()`. */
  datatype Outcome<T> =
    | Ok(value: T)              // status in the OK range and the body parsed
    | HttpFail(status: int)     // a response whose status is not OK
    | Thrown(code: Option<string>)  // the request or the body parse threw; `code` is the error's `code` property, if any

  {
    /** What the caller gets back: the parsed body, or its own fallback. */
    function ValueOr(fallback: T): T {
      match this
      case Ok(v) => v
      case _ => fallback
    }
  }

  datatype Level = Warn | Error

  /**
   * One console line, reduced to its level and what the model needs to tell
   * lines apart. The ENOTFOUND warning prints only the base URL: the key it
   * carries here is not part of the printed text.
   */
  datatype LogEntry =
    | StatusFailed(path: string, status: int)  // console.error for a non-OK status
    | HostUnresolvable(key: string)            // console.warn for ENOTFOUND
    | RequestFailed(key: string)               // console.error for any other thrown failure
  {
    function Level(): Level {
      if HostUnresolvable? then Warn else Error
    }

    /** Entries written under the de-duplication set. */
    predicate IsDeduplicated() {
      !StatusFailed?
    }
  }

  /** A WordPress post as the REST API returns it (`WPPost`). */
  datatype Post = Post(
    id: int,
    slug: string,
    date: string,
    title: string,     // title.rendered, raw HTML
    content: string,   // content.rendered, raw HTML
    excerpt: string,   // excerpt.rendered, raw HTML
    embedded: Option<Embedded>)

  /** The optional `_embedded` block: the `source_url` of each featured media item. */
  datatype Embedded = Embedded(featuredMedia: Option<seq<string>>)

  // ---------------------------------------------------------------------
  // Configuration: the base URL
  // ---------------------------------------------------------------------

  /** `replace(/\/$/, '')`: drop one trailing slash, if there is one. */
  function StripTrailingSlash(s: string): (r: string)
    ensures r <= s
    ensures |s| - |r| <= 1
    ensures |r| < |s| <==> |s| > 0 && s[|s| - 1] == '/'
  {
    if |s| > 0 && s[|s| - 1] == '/' then s[..|s| - 1] else s
  }

  /** Appending one slash and stripping it gives back the original string. */
  lemma StripUndoesOneSlash(s: string)
    ensures StripTrailingSlash(s + "/") == s
  {
    assert (s + "/")[..|s|] == s;
  }

  /** Only one slash goes: a base ending in two slashes keeps one. */
  lemma StripRemovesAtMostOne(s: string)
    ensures StripTrailingSlash(s + "//") == s + "/"
  {
    assert (s + "//")[..|s| + 1] == s + "/";
  }

  /**
   * The module-load check: the configured base URL, or None when the process
   * refuses to start (variable unset, or empty once the slash is stripped).
   */
  function ApiBase(env: Option<string>): (r: Option<string>)
    ensures r.Some? <==> env.Some? && StripTrailingSlash(env.value) != ""
    ensures r.Some? ==> r.value != "" && r.value <= env.value && |env.value| - |r.value| <= 1
  {
    match env
    case None => None
    case Some(url) =>
      var stripped := StripTrailingSlash(url);
      if stripped == "" then None else Some(stripped)
  }

  /** A configured value of "/" alone strips to "" and is refused like a missing one. */
  lemma LoneSlashIsRefused()
    ensures ApiBase(Some("/")) == None
  {
    assert StripTrailingSlash("/") == "";
  }

  // ---------------------------------------------------------------------
  // fetchWpJson as a function of the de-duplication set
  // ---------------------------------------------------------------------

  const NotFoundCode: string := "ENOTFOUND"
  const UnknownCode: string := "UNKNOWN"

  /** `err?.code ?? 'UNKNOWN'` */
  function ErrorCode(code: Option<string>): string {
    match code
    case None => UnknownCode
    case Some(c) => c
  }

  /** `${path}:${errorCode}` */
  function DedupeKey(path: string, code: Option<string>): string {
    path + ":" + ErrorCode(code)
  }

  /** The line written the first time a key is seen. */
  function IssueEntry(key: string, code: Option<string>): (e: LogEntry)
    ensures e.IsDeduplicated() && e.key == key
    ensures e.Level() == Warn <==> ErrorCode(code) == NotFoundCode
  {
    if ErrorCode(code) == NotFoundCode then HostUnresolvable(key) else RequestFailed(key)
  }

  datatype FetchResult<T> = FetchResult(value: T, issues: set<string>, logged: seq<LogEntry>)

  /**
   * One call of fetchWpJson, given the set of already-reported issues:
   * what it returns, the set afterwards, and the lines it logs.
   */
  function Fetch<T>(issues: set<string>, path: string, fallback: T, outcome: Outcome<T>): (r: FetchResult<T>)
    // the failure never escapes: the body on success, the fallback otherwise
    ensures r.value == outcome.ValueOr(fallback)
    ensures issues <= r.issues
    // success: nothing logged, nothing recorded
    ensures outcome.Ok? ==> r.issues == issues && r.logged == []
    // non-OK status: logged on every call, the set is not consulted
    ensures outcome.HttpFail? ==> r.issues == issues && r.logged == [StatusFailed(path, outcome.status)]
    // thrown: the key is recorded, and logged exactly when it was new
    ensures outcome.Thrown? ==>
      var key := DedupeKey(path, outcome.code);
      && r.issues == issues + {key}
      && |r.logged| == (if key in issues then 0 else 1)
      && forall e :: e in r.logged ==>
           e.IsDeduplicated() && e.key == key && (e.Level() == Warn <==> ErrorCode(outcome.code) == NotFoundCode)
  {
    match outcome
    case Ok(v) => FetchResult(v, issues, [])
    case HttpFail(status) => FetchResult(fallback, issues, [StatusFailed(path, status)])
    case Thrown(code) =>
      var key := DedupeKey(path, code);
      if key in issues then FetchResult(fallback, issues, [])
      else FetchResult(fallback, issues + {key}, [IssueEntry(key, code)])
  }

  /** The part of a string before its first colon. */
  function BeforeColon(s: string): (r: string)
    ensures r <= s && ':' !in r
  {
    if s == [] || s[0] == ':' then [] else [s[0]] + BeforeColon(s[1..])
  }

  lemma {:induction false} BeforeColonOfKey(path: string, rest: string)
    requires ':' !in path
    ensures BeforeColon(path + ":" + rest) == path
  {
    if path != [] {
      assert (path + ":" + rest)[1..] == path[1..] + ":" + rest;
      BeforeColonOfKey(path[1..], rest);
    }
  }

  /** Paths without a colon give de-duplication keys that determine path and code. */
  lemma DedupeKeyInjective(p1: string, c1: Option<string>, p2: string, c2: Option<string>)
    requires ':' !in p1 && ':' !in p2
    requires DedupeKey(p1, c1) == DedupeKey(p2, c2)
    ensures p1 == p2 && ErrorCode(c1) == ErrorCode(c2)
  {
    var k := DedupeKey(p1, c1);
    BeforeColonOfKey(p1, ErrorCode(c1));
    BeforeColonOfKey(p2, ErrorCode(c2));
    assert ErrorCode(c1) == k[|p1| + 1..] == ErrorCode(c2);
  }

  // ---------------------------------------------------------------------
  // Several calls in sequence
  // ---------------------------------------------------------------------

  datatype Call<T> = Call(path: string, fallback: T, outcome: Outcome<T>)

  datatype RunResult<T> = RunResult(values: seq<T>, issues: set<string>, log: seq<LogEntry>)

  /** The de-duplication keys of the calls whose request threw. */
  function ThrownKeys<T>(calls: seq<Call<T>>): set<string>
    decreases |calls|
  {
    if calls == [] then {}
    else (if calls[0].outcome.Thrown? then {DedupeKey(calls[0].path, calls[0].outcome.code)} else {}) + ThrownKeys(calls[1..])
  }

  /** A key is a thrown key exactly when some call in the sequence threw with that key. */
  lemma {:induction false} ThrownKeysAreTheThrownCalls<T>(calls: seq<Call<T>>, k: string)
    ensures k in ThrownKeys(calls) <==>
      exists i :: 0 <= i < |calls| && calls[i].outcome.Thrown? && k == DedupeKey(calls[i].path, calls[i].outcome.code)
    decreases |calls|
  {
    if calls != [] {
      ThrownKeysAreTheThrownCalls(calls[1..], k);
      assert forall i :: 1 <= i < |calls| ==> calls[i] == calls[1..][i - 1];
      if k in ThrownKeys(calls[1..]) {
        var i :| 0 <= i < |calls[1..]| && calls[1..][i].outcome.Thrown? && k == DedupeKey(calls[1..][i].path, calls[1..][i].outcome.code);
        assert calls[i + 1] == calls[1..][i];
      }
    }
  }

  /** A sequence of fetchWpJson calls sharing one de-duplication set. */
  function Run<T>(issues: set<string>, calls: seq<Call<T>>): (r: RunResult<T>)
    ensures r.issues == issues + ThrownKeys(calls)
    ensures |r.values| == |calls|
    ensures forall i :: 0 <= i < |calls| ==> r.values[i] == calls[i].outcome.ValueOr(calls[i].fallback)
    decreases |calls|
  {
    if calls == [] then RunResult([], issues, [])
    else
      var first := Fetch(issues, calls[0].path, calls[0].fallback, calls[0].outcome);
      var rest := Run(first.issues, calls[1..]);
      RunResult([first.value] + rest.values, rest.issues, first.logged + rest.log)
  }

  /** The keys of the de-duplicated lines of a log, in order. */
  function DedupLoggedKeys(log: seq<LogEntry>): seq<string> {
    if log == [] then []
    else (if log[0].IsDeduplicated() then [log[0].key] else []) + DedupLoggedKeys(log[1..])
  }

  lemma {:induction false} DedupLoggedKeysAppend(a: seq<LogEntry>, b: seq<LogEntry>)
    ensures DedupLoggedKeys(a + b) == DedupLoggedKeys(a) + DedupLoggedKeys(b)
  {
    if a != [] {
      assert (a + b)[1..] == a[1..] + b;
      DedupLoggedKeysAppend(a[1..], b);
    } else {
      assert a + b == b;
    }
  }

  predicate NoDuplicates(s: seq<string>) {
    forall i, j :: 0 <= i < j < |s| ==> s[i] != s[j]
  }

  /** What one call contributes to the de-duplicated keys of the log: the key it added to the set, if any. */
  lemma FirstCallLogsItsNewKey<T>(issues: set<string>, c: Call<T>)
    ensures var first := Fetch(issues, c.path, c.fallback, c.outcome);
      && NoDuplicates(DedupLoggedKeys(first.logged))
      && forall k :: k in DedupLoggedKeys(first.logged) <==> k in first.issues - issues
  {
    var first := Fetch(issues, c.path, c.fallback, c.outcome);
    if first.logged != [] {
      assert first.logged[1..] == [];
    }
  }

  /**
   * Across any sequence of calls, every thrown-failure key is logged at most
   * once, and the keys logged are exactly the keys the set gained.
   */
  lemma {:induction false} EachNewIssueLoggedOnce<T>(issues: set<string>, calls: seq<Call<T>>)
    ensures NoDuplicates(DedupLoggedKeys(Run(issues, calls).log))
    ensures forall k :: k in DedupLoggedKeys(Run(issues, calls).log) <==> k in Run(issues, calls).issues - issues
    decreases |calls|
  {
    if calls != [] {
      var first := Fetch(issues, calls[0].path, calls[0].fallback, calls[0].outcome);
      var rest := Run(first.issues, calls[1..]);
      EachNewIssueLoggedOnce(first.issues, calls[1..]);
      DedupLoggedKeysAppend(first.logged, rest.log);
      FirstCallLogsItsNewKey(issues, calls[0]);
      var head := DedupLoggedKeys(first.logged);
      var tail := DedupLoggedKeys(rest.log);
      assert Run(issues, calls).log == first.logged + rest.log;
      var all := head + tail;
      forall i, j | 0 <= i < j < |all| ensures all[i] != all[j] {
        if j < |head| {
        } else if i < |head| {
          assert all[i] in head && all[j] in tail;
        } else {
          assert all[i] == tail[i - |head|] && all[j] == tail[j - |head|];
        }
      }
    }
  }

  /** The keys logged are those of the thrown calls that were not already recorded. */
  lemma NewThrownKeysAreLogged<T>(issues: set<string>, calls: seq<Call<T>>)
    ensures forall k :: k in DedupLoggedKeys(Run(issues, calls).log) <==> k in ThrownKeys(calls) && k !in issues
  {
    EachNewIssueLoggedOnce(issues, calls);
  }

  /** A failure whose key is already recorded, repeated any number of times, logs nothing and leaves the set alone. */
  lemma {:induction false} KnownIssueStaysQuiet<T>(issues: set<string>, calls: seq<Call<T>>, path: string, code: Option<string>)
    requires DedupeKey(path, code) in issues
    requires forall c :: c in calls ==> c.path == path && c.outcome.Thrown? && ErrorCode(c.outcome.code) == ErrorCode(code)
    ensures Run(issues, calls).log == [] && Run(issues, calls).issues == issues
    decreases |calls|
  {
    if calls != [] {
      assert calls[0] in calls;
      assert DedupeKey(calls[0].path, calls[0].outcome.code) == DedupeKey(path, code);
      forall c | c in calls[1..] ensures c in calls { }
      KnownIssueStaysQuiet(issues, calls[1..], path, code);
    }
  }

  /** The same failure repeated any number of times is logged once, on its first occurrence. */
  lemma {:induction false} RepeatedFailureLoggedOnce<T>(issues: set<string>, calls: seq<Call<T>>, path: string, code: Option<string>)
    requires calls != []
    requires forall c :: c in calls ==> c.path == path && c.outcome.Thrown? && ErrorCode(c.outcome.code) == ErrorCode(code)
    ensures var key := DedupeKey(path, code);
      Run(issues, calls).log == (if key in issues then [] else [IssueEntry(key, code)])
    ensures Run(issues, calls).issues == issues + {DedupeKey(path, code)}
  {
    var key := DedupeKey(path, code);
    assert calls[0] in calls;
    assert DedupeKey(calls[0].path, calls[0].outcome.code) == key;
    assert IssueEntry(key, calls[0].outcome.code) == IssueEntry(key, code);
    forall c | c in calls[1..] ensures c in calls { }
    KnownIssueStaysQuiet(issues + {key}, calls[1..], path, code);
  }

  /** Non-OK statuses bypass the set: every one of them is logged, as an error. */
  lemma {:induction false} StatusFailuresAlwaysLogged<T>(issues: set<string>, calls: seq<Call<T>>)
    requires forall c :: c in calls ==> c.outcome.HttpFail?
    ensures |Run(issues, calls).log| == |calls|
    ensures forall i :: 0 <= i < |calls| ==>
      Run(issues, calls).log[i] == StatusFailed(calls[i].path, calls[i].outcome.status)
    ensures Run(issues, calls).issues == issues
    decreases |calls|
  {
    if calls != [] {
      assert calls[0] in calls;
      forall c | c in calls[1..] ensures c in calls { }
      StatusFailuresAlwaysLogged(issues, calls[1..]);
      var log := Run(issues, calls).log;
      forall i | 0 <= i < |calls|
        ensures log[i] == StatusFailed(calls[i].path, calls[i].outcome.status)
      {
        if i > 0 {
          assert log[i] == Run(issues, calls[1..]).log[i - 1];
          assert calls[i] == calls[1..][i - 1];
        }
      }
    }
  }

  // ---------------------------------------------------------------------
  // The accessors' post-processing
  // ---------------------------------------------------------------------

  const AllPostsPath: string := "/posts?_embed&per_page=10"
  const AllSlugsPath: string := "/posts?per_page=100&_fields=slug"

  function SlugPath(encodedSlug: string): string {
    "/posts?slug=" + encodedSlug + "&_embed"
  }

  /** The three accessors' paths never collide with each other's de-duplication keys. */
  lemma AccessorPathsHaveNoColon(encodedSlug: string)
    requires ':' !in encodedSlug
    ensures ':' !in AllPostsPath && ':' !in AllSlugsPath && ':' !in SlugPath(encodedSlug)
  {
    var p := SlugPath(encodedSlug);
    forall i | 0 <= i < |p| ensures p[i] != ':' {
      if i >= 12 && i < 12 + |encodedSlug| {
        assert p[i] == encodedSlug[i - 12];
      }
    }
  }

  /** `posts[0] ?? null` */
  function FirstOrNull<T>(posts: seq<T>): (r: Option<T>)
    ensures r.None? <==> posts == []
    ensures r.Some? ==> r.value == posts[0]
  {
    if posts == [] then None else Some(posts[0])
  }

  /** `posts.map((post) => post.slug)` */
  function SlugsOf(posts: seq<Post>): (slugs: seq<string>)
    ensures |slugs| == |posts|
    ensures forall i :: 0 <= i < |posts| ==> slugs[i] == posts[i].slug
  {
    if posts == [] then [] else [posts[0].slug] + SlugsOf(posts[1..])
  }

  /** When the API filters by slug, a found post carries the requested slug and is returned as received. */
  lemma FoundPostHasRequestedSlug(slug: string, posts: seq<Post>)
    requires forall p :: p in posts ==> p.slug == slug
    ensures FirstOrNull(posts).Some? ==> FirstOrNull(posts).value.slug == slug && FirstOrNull(posts).value in posts
  {
    if posts != [] {
      assert posts[0] in posts;
    }
  }

  // ---------------------------------------------------------------------
  // The module itself: its base URL and its process-wide state
  // ---------------------------------------------------------------------

  class WordPressClient {
    /** WP_API, with its trailing slash stripped. */
    const base: string
    /** The platform's encodeURIComponent. */
    const encodeComponent: string -> string
    /** loggedFetchIssues: only ever grows. */
    var loggedFetchIssues: set<string>
    /** Console output. */
    ghost var log: seq<LogEntry>
    /** Every URL requested, one per call. */
    ghost var requests: seq<string>

    /** The module loads only once ApiBase has produced a non-empty base. */
    constructor(base: string, encodeComponent: string -> string)
      requires base != ""
      ensures this.base == base && this.encodeComponent == encodeComponent
      ensures loggedFetchIssues == {} && log == [] && requests == []
    {
      this.base := base;
      this.encodeComponent := encodeComponent;
      loggedFetchIssues := {};
      log := [];
      requests := [];
    }

    /** The state after one fetchWpJson call of `path` from the given earlier state. */
    ghost predicate Fetched<T>(issues0: set<string>, log0: seq<LogEntry>, requests0: seq<string>,
                               path: string, fallback: T, outcome: Outcome<T>)
      reads this
    {
      var step := Fetch(issues0, path, fallback, outcome);
      && loggedFetchIssues == step.issues
      && log == log0 + step.logged
      && requests == requests0 + [base + path]
    }

    /** fetchWpJson: `outcome` is what the single request to base + path produced. */
    method FetchWpJson<T>(path: string, fallback: T, outcome: Outcome<T>) returns (r: T)
      modifies this
      ensures r == Fetch(old(loggedFetchIssues), path, fallback, outcome).value
      ensures Fetched(old(loggedFetchIssues), old(log), old(requests), path, fallback, outcome)
    {
      requests := requests + [base + path];
      match outcome {
        case Ok(v) =>
          r := v;
        case HttpFail(status) =>
          log := log + [StatusFailed(path, status)];
          r := fallback;
        case Thrown(code) =>
          var key := DedupeKey(path, code);
          if key !in loggedFetchIssues {
            loggedFetchIssues := loggedFetchIssues + {key};
            if ErrorCode(code) == NotFoundCode {
              log := log + [HostUnresolvable(key)];
            } else {
              log := log + [RequestFailed(key)];
            }
          }
          r := fallback;
      }
    }

    /** getAllPosts: the fetched list as it is, or [] on any failure. */
    method GetAllPosts(outcome: Outcome<seq<Post>>) returns (posts: seq<Post>)
      modifies this
      ensures posts == outcome.ValueOr([])
      ensures Fetched(old(loggedFetchIssues), old(log), old(requests), AllPostsPath, [], outcome)
    {
      posts := FetchWpJson(AllPostsPath, [], outcome);
    }

    /** getPostBySlug: the first post of the filtered list, or None. */
    method GetPostBySlug(slug: string, outcome: Outcome<seq<Post>>) returns (post: Option<Post>)
      modifies this
      ensures post == FirstOrNull(outcome.ValueOr([]))
      ensures Fetched(old(loggedFetchIssues), old(log), old(requests), SlugPath(encodeComponent(slug)), [], outcome)
    {
      var posts := FetchWpJson(SlugPath(encodeComponent(slug)), [], outcome);
      post := FirstOrNull(posts);
    }

    /** getAllPostSlugs: the slug of each fetched post, in order. */
    method GetAllPostSlugs(outcome: Outcome<seq<Post>>) returns (slugs: seq<string>)
      modifies this
      ensures slugs == SlugsOf(outcome.ValueOr([]))
      ensures Fetched(old(loggedFetchIssues), old(log), old(requests), AllSlugsPath, [], outcome)
    {
      var posts := FetchWpJson(AllSlugsPath, [], outcome);
      slugs := SlugsOf(posts);
    }
  }

  /** A client: an unresolvable host, hit twice by the post list, warns once and shows no posts. */
  method UnresolvableHostWarnsOnce(encodeComponent: string -> string)
  {
    var client := new WordPressClient("https://blog.example", encodeComponent);
    var failure: Outcome<seq<Post>> := Thrown(Some(NotFoundCode));
    var first := client.GetAllPosts(failure);
    var second := client.GetAllPosts(failure);
    assert first == [] && second == [];
    assert client.log == [HostUnresolvable(DedupeKey(AllPostsPath, Some(NotFoundCode)))];
    assert |client.requests| == 2;
  }
}
