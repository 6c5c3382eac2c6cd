/** From a management request path to an endpoint (main.go, internal/ego/handler.go). */
module Dispatch {
  import opened Models
  import opened Text

  const PREFIX := "/v0/management/ego"
  const API_ROOT := "/ego/api/"
  const MAX_NAME := 64

  datatype Endpoint = Stats | Timeline | Providers | ModelList | Accounts | Settings | Prune | Reset | PricingList

  const ENDPOINTS: seq<Endpoint> := [Stats, Timeline, Providers, ModelList, Accounts, Settings, Prune, Reset, PricingList]

  function Name(x: Endpoint): string {
    match x
    case Stats => "stats"
    case Timeline => "timeline"
    case Providers => "providers"
    case ModelList => "models"
    case Accounts => "accounts"
    case Settings => "settings"
    case Prune => "prune"
    case Reset => "reset"
    case PricingList => "pricing"
  }

  // ----- The handler's suffix dispatch ------------------------------------

  predicate EndsWith(s: string, suffix: string) {
    |s| >= |suffix| && s[|s| - |suffix|..] == suffix
  }

  predicate CaseMatches(path: string, x: Endpoint) {
    EndsWith(path, "/" + Name(x))
  }

  /** The first case of the switch that matches, if any. */
  function Route(path: string): Option<Endpoint> {
    FirstMatch(path, ENDPOINTS)
  }

  function FirstMatch(path: string, cases: seq<Endpoint>): Option<Endpoint> {
    if cases == [] then None
    else if CaseMatches(path, cases[0]) then Some(cases[0])
    else FirstMatch(path, cases[1..])
  }

  predicate MethodAllowed(x: Endpoint, verb: string) {
    match x
    case Settings => verb == "GET" || verb == "POST"
    case Prune => verb == "POST"
    case Reset => verb == "POST"
    case _ => verb == "GET"
  }

  /** A character of a token in the sense of section 5.6.2 of RFC 9110. */
  predicate TokenChar(c: char) {
    'a' <= c <= 'z' || 'A' <= c <= 'Z' || '0' <= c <= '9' || c in "!#$%&'*+-.^_`|~"
  }

  /** A method text that stands for one method: a token, or nothing. Any other text is parsed together with
      the request line it is put in front of. */
  predicate WellFormed(verb: string) {
    forall c | c in verb :: TokenChar(c)
  }

  /** The request is built with GET when the payload names no method. */
  function MethodOf(verb: string): string {
    if verb == "" then "GET" else verb
  }

  // ----- The allow-list ---------------------------------------------------

  predicate NameChar(c: char) {
    'a' <= c <= 'z' || '0' <= c <= '9' || c == '_' || c == '-'
  }

  predicate Allowed(name: string) {
    && 1 <= |name| <= MAX_NAME
    && 'a' <= name[0] <= 'z'
    && forall i | 0 <= i < |name| :: NameChar(name[i])
  }

  function TrimPrefix(s: string, prefix: string): string {
    if prefix <= s then s[|prefix|..] else s
  }

  function BeforeQuery(s: string): string {
    if s == "" || s[0] == '?' then "" else [s[0]] + BeforeQuery(s[1..])
  }

  function CleanUnder(prefix: string, path: string): string {
    BeforeQuery(TrimPrefix(TrimPrefix(path, prefix), "/"))
  }

  function CleanPath(path: string): string {
    CleanUnder(PREFIX, path)
  }

  /** `Unparsed` leaves open what becomes of a request line broken up by its method text. */
  datatype Answer = Asset | NotFound | MethodNotAllowed | Serve(endpoint: Endpoint) | Unparsed

  function Answered(path: string, verb: string): Answer {
    if !HasPrefix(path, PREFIX) then Asset
    else if !Allowed(CleanPath(path)) then NotFound
    else if !WellFormed(verb) then Unparsed
    else
      match Route(API_ROOT + CleanPath(path))
      case None => NotFound
      case Some(x) => if MethodAllowed(x, MethodOf(verb)) then Serve(x) else MethodNotAllowed
  }

  /** Cuts the string at the first question mark. */
  method CutQuery(s: string) returns (cut: string)
    ensures cut == BeforeQuery(s)
  {
    var idx := 0;
    while idx < |s| && s[idx] != '?'
      invariant 0 <= idx <= |s|
      invariant BeforeQuery(s) == s[..idx] + BeforeQuery(s[idx..])
    {
      assert s[idx..][1..] == s[idx + 1..];
      idx := idx + 1;
    }
    cut := s[..idx];
    assert BeforeQuery(s[idx..]) == "";
  }

  // ----- Exactness --------------------------------------------------------

  lemma NamesAreAllowed(x: Endpoint)
    ensures Allowed(Name(x)) && '/' !in Name(x)
  {
  }

  /** A suffix that starts with a slash cannot reach past the root's last slash. */
  lemma SuffixIsLastName(root: string, name: string, target: string)
    requires '/' !in name && '/' !in target
    ensures EndsWith((root + "/") + name, "/" + target) <==> name == target
  {
    var path, suffix := (root + "/") + name, "/" + target;
    var slash, k := |root|, |path| - |suffix|;
    assert path[slash] == '/';
    if k >= 0 && path[k..] == suffix {
      assert forall i :: slash < i < |path| ==> path[i] == name[i - slash - 1];
      assert forall i :: 0 < i < |suffix| ==> suffix[i] == target[i - 1];
      assert path[k] == suffix[0] == '/' && k <= slash;
      assert path[slash] == suffix[slash - k];
      assert path[slash..] == "/" + name;
      assert name == suffix[1..] == target;
    }
    if name == target {
      assert path == root + suffix;
    }
  }

  lemma AllowedHasNoSlash(name: string)
    requires Allowed(name)
    ensures '/' !in name && '?' !in name
  {
  }

  /** Behind the allow-list a suffix case matches only the endpoint of exactly that name. */
  lemma CaseMatchesExactly(name: string, x: Endpoint)
    requires Allowed(name)
    ensures CaseMatches(API_ROOT + name, x) <==> name == Name(x)
  {
    NamesAreAllowed(x);
    AllowedHasNoSlash(name);
    SuffixIsLastName("/ego/api", name, Name(x));
    assert "/ego/api" + "/" == API_ROOT;
  }

  lemma {:induction false} FirstMatchFinds(path: string, cases: seq<Endpoint>)
    ensures match FirstMatch(path, cases)
            case Some(x) => x in cases && CaseMatches(path, x)
            case None => forall x | x in cases :: !CaseMatches(path, x)
  {
    if cases != [] {
      FirstMatchFinds(path, cases[1..]);
      assert cases == [cases[0]] + cases[1..];
    }
  }

  lemma NamesDiffer(x: Endpoint, y: Endpoint)
    ensures Name(x) == Name(y) ==> x == y
  {
  }

  lemma EveryEndpointListed(x: Endpoint)
    ensures x in ENDPOINTS
  {
  }

  /** The order of the cases does not matter: an allowed name reaches the endpoint of that name and no
      other, and every other allowed name is not found. */
  lemma RouteIsExact(name: string, x: Endpoint)
    requires Allowed(name)
    ensures Route(API_ROOT + name) == Some(x) <==> name == Name(x)
    ensures Route(API_ROOT + name) == None <==> forall y :: name != Name(y)
  {
    FirstMatchFinds(API_ROOT + name, ENDPOINTS);
    forall y ensures CaseMatches(API_ROOT + name, y) <==> name == Name(y)
             ensures y in ENDPOINTS && (Name(x) == Name(y) ==> x == y) {
      CaseMatchesExactly(name, y);
      EveryEndpointListed(y);
      NamesDiffer(x, y);
    }
  }

  /** The prefix, at most one slash, the name, and nothing or a query after it. */
  ghost predicate IsPathUnder(prefix: string, path: string, name: string) {
    exists slash, query :: (slash == "" || slash == "/") && (query == "" || query[0] == '?')
                           && path == prefix + (slash + (name + query))
  }

  ghost predicate IsPathOf(path: string, name: string) {
    IsPathUnder(PREFIX, path, name)
  }

  lemma {:induction false} BeforeQueryStops(name: string, query: string)
    requires '?' !in name && (query == "" || query[0] == '?')
    ensures BeforeQuery(name + query) == name
  {
    if name == "" {
      assert name + query == query;
    } else {
      BeforeQueryStops(name[1..], query);
      assert (name + query)[1..] == name[1..] + query;
    }
  }

  lemma {:induction false} BeforeQuerySplits(s: string) returns (query: string)
    ensures s == BeforeQuery(s) + query && (query == "" || query[0] == '?')
  {
    if s == "" || s[0] == '?' {
      query := s;
    } else {
      query := BeforeQuerySplits(s[1..]);
      assert s == [s[0]] + s[1..];
    }
  }

  lemma PathOfCleanPath(prefix: string, path: string)
    requires prefix <= path
    ensures IsPathUnder(prefix, path, CleanUnder(prefix, path))
  {
    var rest := TrimPrefix(path, prefix);
    var slash := if "/" <= rest then "/" else "";
    var query := BeforeQuerySplits(TrimPrefix(rest, "/"));
    assert rest == slash + TrimPrefix(rest, "/");
    assert path == prefix + (slash + (CleanUnder(prefix, path) + query));
  }

  lemma CleanPathOfPath(prefix: string, path: string, name: string)
    requires IsPathUnder(prefix, path, name) && Allowed(name)
    ensures prefix <= path && CleanUnder(prefix, path) == name
  {
    var slash, query :| (slash == "" || slash == "/") && (query == "" || query[0] == '?') && path == prefix + (slash + (name + query));
    assert path[|prefix|..] == slash + (name + query);
    if slash == "" {
      assert slash + (name + query) == name + query;
      assert (name + query)[0] == name[0] != '/';
    } else {
      assert (slash + (name + query))[1..] == name + query;
    }
    AllowedHasNoSlash(name);
    BeforeQueryStops(name, query);
  }

  /** What an answer says about the request. An endpoint is reached exactly when the path is its own, which
      leaves the slash after the prefix optional, and then serves exactly its methods; a request without
      a method is a GET. */
  ghost predicate AnswerMeans(path: string, verb: string, answer: Answer) {
    && (answer.Asset? <==> !HasPrefix(path, PREFIX))
    && (answer.Unparsed? <==> !WellFormed(verb) && HasPrefix(path, PREFIX) && Allowed(CleanPath(path)))
    && (answer.Serve? || answer.MethodNotAllowed? ==> WellFormed(verb))
    && (WellFormed(verb) ==>
          && (forall x :: answer == Serve(x) <==> IsPathOf(path, Name(x)) && MethodAllowed(x, MethodOf(verb)))
          && (answer.MethodNotAllowed? <==> exists x :: IsPathOf(path, Name(x)) && !MethodAllowed(x, MethodOf(verb))))
  }

  lemma ReachesEndpoint(path: string, x: Endpoint)
    ensures IsPathOf(path, Name(x)) <==>
              HasPrefix(path, PREFIX) && Allowed(CleanPath(path)) && Route(API_ROOT + CleanPath(path)) == Some(x)
  {
    NamesAreAllowed(x);
    if IsPathOf(path, Name(x)) {
      CleanPathOfPath(PREFIX, path, Name(x));
    }
    if HasPrefix(path, PREFIX) {
      PathOfCleanPath(PREFIX, path);
      if Allowed(CleanPath(path)) {
        RouteIsExact(CleanPath(path), x);
      }
    }
  }

  lemma ServedExactly(path: string, verb: string)
    ensures AnswerMeans(path, verb, Answered(path, verb))
  {
    forall x ensures IsPathOf(path, Name(x)) <==>
                       HasPrefix(path, PREFIX) && Allowed(CleanPath(path)) && Route(API_ROOT + CleanPath(path)) == Some(x) {
      ReachesEndpoint(path, x);
    }
  }

  /** The interface: each endpoint with the name and the methods it is published under. */
  const PUBLISHED: set<(Endpoint, string, set<string>)> := {
    (Stats, "stats", {"GET", ""}),
    (Timeline, "timeline", {"GET", ""}),
    (Providers, "providers", {"GET", ""}),
    (ModelList, "models", {"GET", ""}),
    (Accounts, "accounts", {"GET", ""}),
    (Settings, "settings", {"GET", "", "POST"}),
    (Prune, "prune", {"POST"}),
    (Reset, "reset", {"POST"}),
    (PricingList, "pricing", {"GET", ""})
  }

  lemma PublishedAs(x: Endpoint, name: string, verbs: set<string>, verb: string)
    requires (x, name, verbs) in PUBLISHED
    ensures Name(x) == name && (MethodAllowed(x, MethodOf(verb)) <==> verb in verbs)
  {
  }

  /** A published endpoint answers under its own name exactly its methods, no method standing for GET. */
  lemma PublishedIsServed(path: string, verb: string, x: Endpoint, name: string, verbs: set<string>)
    requires WellFormed(verb) && (x, name, verbs) in PUBLISHED && IsPathUnder("/v0/management/ego", path, name)
    ensures Answered(path, verb) == if verb in verbs then Serve(x) else MethodNotAllowed
  {
    PublishedAs(x, name, verbs, verb);
    assert IsPathOf(path, name);
    ReachesEndpoint(path, x);
  }

  lemma IsPublished(x: Endpoint) returns (verbs: set<string>)
    ensures (x, Name(x), verbs) in PUBLISHED
  {
    verbs := if x.Settings? then {"GET", "", "POST"} else if x.Prune? || x.Reset? then {"POST"} else {"GET", ""};
  }

  /** Nothing else is served or refused for its method. */
  lemma ServedIsPublished(path: string, verb: string)
    requires Answered(path, verb).Serve? || Answered(path, verb).MethodNotAllowed?
    ensures exists x, name, verbs :: (x, name, verbs) in PUBLISHED && IsPathUnder("/v0/management/ego", path, name)
  {
    var x := Route(API_ROOT + CleanPath(path)).value;
    ReachesEndpoint(path, x);
    var verbs := IsPublished(x);
    assert (x, Name(x), verbs) in PUBLISHED && IsPathUnder("/v0/management/ego", path, Name(x));
  }

  // ----- The handler ------------------------------------------------------

  /** The path is rewritten step by step, checked, and only then appended to the API root; of a malformed
      method text no more is said than that it is `Unparsed`. */
  method HandleManagementHttp(path: string, verb: string) returns (answer: Answer)
    ensures AnswerMeans(path, verb, answer)
  {
    if !HasPrefix(path, PREFIX) {
      return Asset;
    }
    ServedExactly(path, verb);
    var cleanPath := TrimPrefix(path, PREFIX);
    cleanPath := TrimPrefix(cleanPath, "/");
    cleanPath := CutQuery(cleanPath);
    if !Allowed(cleanPath) {
      return NotFound;
    }
    if !WellFormed(verb) {
      return Unparsed;
    }
    var routed := Route(API_ROOT + cleanPath);
    match routed {
      case None => answer := NotFound;
      case Some(x) => answer := if MethodAllowed(x, MethodOf(verb)) then Serve(x) else MethodNotAllowed;
    }
  }
}
