/** The fighter service as the client sees it, and the decision
    `searchFighters` makes between the full list, the service's answer and
    the in-memory filter. */
module Search {
  import opened Common
  import opened JsText
  import opened Fighters

  /** The parsed body of a response: the envelope `{success, data, message}`,
      or a body `response.json()` rejects (with the parser's message). */
  datatype Body =
    | Unparsable(reason: string)
    | Envelope(success: bool, data: Option<seq<Fighter>>, message: Option<string>)

  /** What a `fetch` yields: it rejects with a `TypeError` when the server
      cannot be reached (its message is the browser's own text, such as
      "Failed to fetch" or "Load failed"), or a response with an HTTP status
      and a body. */
  datatype Reply = NetworkFailure(message: string) | Response(status: int, body: Body)

  /** `response.ok`. */
  predicate IsOk(status: int) {
    200 <= status <= 299
  }

  /** The records a search reply delivers: present only when the response is
      ok, its envelope says `success` and it carries `data`. Any other reply
      (a thrown `fetch`, a status that is not ok, a body that does not parse,
      `success` false, or `data.map` on a missing `data`, which throws) sends
      the search to the in-memory filter. */
  function RemoteHits(reply: Reply): Option<seq<Fighter>> {
    match reply
    case Response(status, Envelope(true, Some(data), _)) =>
      if IsOk(status) then Some(data) else None
    case _ => None
  }

  /** The local-search predicate: the lowercased `name`, `first_name` or
      `last_name` (a missing one counting as "") contains `term`. */
  predicate Matches(f: Fighter, term: string) {
    || Includes(Lower(f.name.GetOr("")), term)
    || Includes(Lower(f.firstName.GetOr("")), term)
    || Includes(Lower(f.lastName.GetOr("")), term)
  }

  /** `all.filter(...)` with the local-search predicate. */
  function FilterByTerm(all: seq<Fighter>, term: string): (r: seq<Fighter>)
    ensures |r| <= |all|
    ensures forall f :: f in r <==> f in all && Matches(f, term)
  {
    if all == [] then []
    else if Matches(all[0], term) then [all[0]] + FilterByTerm(all[1..], term)
    else FilterByTerm(all[1..], term)
  }

  /** The in-memory fallback: the query is lowercased but not trimmed. */
  function LocalFilter(all: seq<Fighter>, query: string): seq<Fighter> {
    FilterByTerm(all, Lower(query))
  }

  /** What `searchFighters(query)` assigns to `fighters`: the whole list for a
      blank query; otherwise the service's records under the search mapping
      when the service answers, and the in-memory filter when it does not. */
  function SearchResult(u: Units, all: seq<Fighter>, query: string, reply: Reply): seq<Fighter> {
    if Trim(query) == "" then all
    else match RemoteHits(reply)
      case Some(data) => NormalizeAllSearched(u, data)
      case None => LocalFilter(all, query)
  }

  /** `a` is `b` with some elements left out, the rest in their order. */
  predicate IsSubsequence<T(==)>(a: seq<T>, b: seq<T>)
    decreases |b|
  {
    a == [] || (b != [] && ((a[0] == b[0] && IsSubsequence(a[1..], b[1..])) || IsSubsequence(a, b[1..])))
  }

  /** The filter keeps the records it keeps in their original order. */
  lemma {:induction false} FilterIsSubsequence(all: seq<Fighter>, term: string)
    ensures IsSubsequence(FilterByTerm(all, term), all)
  {
    if all != [] {
      FilterIsSubsequence(all[1..], term);
      var rest := FilterByTerm(all[1..], term);
      if Matches(all[0], term) {
        assert ([all[0]] + rest)[1..] == rest;
      }
    }
  }

  /** The filter distributes over concatenation: together with the
      membership clause of `FilterByTerm` this fixes the result as exactly
      the matching records in their original order. */
  lemma {:induction false} FilterAppend(a: seq<Fighter>, b: seq<Fighter>, term: string)
    ensures FilterByTerm(a + b, term) == FilterByTerm(a, term) + FilterByTerm(b, term)
  {
    if a == [] {
      assert a + b == b;
    } else {
      assert (a + b)[1..] == a[1..] + b;
      FilterAppend(a[1..], b, term);
    }
  }

  /** On a single record the filter keeps it exactly when it matches. */
  lemma FilterSingle(f: Fighter, term: string)
    ensures FilterByTerm([f], term) == if Matches(f, term) then [f] else []
  {
  }

  /** A query that is blank after `trim` restores the full list, whatever the
      service would have answered. */
  lemma BlankQueryRestoresAll(u: Units, all: seq<Fighter>, query: string, reply: Reply)
    requires AllSpace(query)
    ensures SearchResult(u, all, query, reply) == all
  {
    TrimEmptyIffAllSpace(query);
  }

  /** When the service fails on a non-blank query the result is a
      subsequence of the full list, made of the matching records. */
  lemma FallbackIsSubsequence(u: Units, all: seq<Fighter>, query: string, reply: Reply)
    requires !AllSpace(query) && RemoteHits(reply) == None
    ensures SearchResult(u, all, query, reply) == LocalFilter(all, query)
    ensures IsSubsequence(SearchResult(u, all, query, reply), all)
    ensures forall f :: f in SearchResult(u, all, query, reply) ==> Matches(f, Lower(query))
  {
    TrimEmptyIffAllSpace(query);
    FilterIsSubsequence(all, Lower(query));
  }

  /** An answer from the service replaces the list outright: the result is
      its records under the search mapping, whether or not they are in the
      full list. */
  lemma RemoteAnswerReplaces(u: Units, all: seq<Fighter>, query: string, status: int, data: seq<Fighter>, message: Option<string>)
    requires !AllSpace(query) && IsOk(status)
    ensures SearchResult(u, all, query, Response(status, Envelope(true, Some(data), message)))
            == NormalizeAllSearched(u, data)
  {
    TrimEmptyIffAllSpace(query);
  }

  /** Every record a search can put on screen is displayable, provided the
      full list is canonical. */
  lemma SearchResultDisplayable(u: Units, all: seq<Fighter>, query: string, reply: Reply)
    requires forall f :: f in all ==> Canonical(f)
    ensures forall f :: f in SearchResult(u, all, query, reply) ==> Displayable(f)
  {
    if Trim(query) != "" && RemoteHits(reply).Some? {
      AllSearchedDisplayable(u, RemoteHits(reply).value);
    } else {
      forall f | f in SearchResult(u, all, query, reply) ensures Displayable(f) {
        CanonicalIsDisplayable(f);
      }
    }
  }

  /** The matching ignores case in the query: "JON" and "jon" select the
      same records. */
  lemma FilterIgnoresQueryCase(all: seq<Fighter>, q1: string, q2: string)
    requires Lower(q1) == Lower(q2)
    ensures LocalFilter(all, q1) == LocalFilter(all, q2)
  {
  }

  /** Over Jon Jones and Daniel Cormier the query "jon" (or "JON") keeps
      exactly Jon Jones. */
  lemma JonExample()
    ensures LocalFilter([JonJones, DanielCormier], "jon") == [JonJones]
    ensures LocalFilter([JonJones, DanielCormier], "JON") == [JonJones]
  {
    LowerJon();
    JonMatches();
    DanielDoesNotMatch();
    var all := [JonJones, DanielCormier];
    assert all[1..] == [DanielCormier];
    assert FilterByTerm([DanielCormier], "jon") == [];
  }

  lemma LowerJon()
    ensures Lower("jon") == "jon" && Lower("JON") == "jon"
  {
  }

  lemma JonMatches()
    ensures Matches(JonJones, "jon")
  {
    var s := Lower("Jon Jones");
    assert s[..3] == "jon";
  }

  /** A record whose only name part has no letter j does not match "jon". */
  lemma NoJNoMatch(f: Fighter)
    requires f.name.Some? && f.firstName == None && f.lastName == None
    requires 'j' !in f.name.value && 'J' !in f.name.value
    ensures !Matches(f, "jon")
  {
    LowerAbsent(f.name.value, 'j');
    IncludesNeedsChar(Lower(f.name.value), "jon", 0);
    IncludesNeedsChar(Lower(""), "jon", 0);
  }

  lemma DanielDoesNotMatch()
    ensures !Matches(DanielCormier, "jon")
  {
    NoJNoMatch(DanielCormier);
  }

  /** Over the demo records the in-memory search for "jon" keeps Jon Jones
      alone. */
  lemma DemoJon()
    ensures LocalFilter(Demo, "jon") == [JonJones]
  {
    LowerJon();
    JonMatches();
    DanielDoesNotMatch();
    KhamzatDoesNotMatch();
    KhabibDoesNotMatch();
    FilterFirstOfFour(JonJones, DanielCormier, KhamzatChimaev, KhabibNurmagomedov, "jon");
  }

  /** Of four records of which only the first matches, the filter keeps the first. */
  lemma FilterFirstOfFour(a: Fighter, b: Fighter, c: Fighter, d: Fighter, term: string)
    requires Matches(a, term) && !Matches(b, term) && !Matches(c, term) && !Matches(d, term)
    ensures FilterByTerm([a, b, c, d], term) == [a]
  {
    FilterCons(d, [], term);
    assert [d] + [] == [d];
    FilterCons(c, [d], term);
    assert [c] + [d] == [c, d];
    FilterCons(b, [c, d], term);
    assert [b] + [c, d] == [b, c, d];
    FilterCons(a, [b, c, d], term);
    assert [a] + [b, c, d] == [a, b, c, d];
  }

  /** One step of the filter. */
  lemma FilterCons(f: Fighter, rest: seq<Fighter>, term: string)
    ensures FilterByTerm([f] + rest, term)
            == if Matches(f, term) then [f] + FilterByTerm(rest, term) else FilterByTerm(rest, term)
  {
    assert ([f] + rest)[1..] == rest;
  }

  lemma KhamzatDoesNotMatch()
    ensures !Matches(KhamzatChimaev, "jon")
  {
    NoJNoMatch(KhamzatChimaev);
  }

  lemma KhabibDoesNotMatch()
    ensures !Matches(KhabibNurmagomedov, "jon")
  {
    NoJNoMatch(KhabibNurmagomedov);
  }

  /** When no record matches, the filter keeps nothing. */
  lemma FilterNone(all: seq<Fighter>, term: string)
    requires forall f :: f in all ==> !Matches(f, term)
    ensures FilterByTerm(all, term) == []
  {
  }
}
