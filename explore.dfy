/**
 * The combined stays/market page: which tab is active (the route's tab,
 * else the legacy `tab` query parameter, else "stays"), and the URL that
 * switching tabs navigates to, which keeps the query but drops `tab`.
 *
 * `URLSearchParams` is a list of key/value pairs; its percent-encoding is
 * not modelled, so a pair is written `key=value` as given.
 */
module Explore {
  import opened Wrappers
  import opened Text
  import opened Seqs
  import Hotels

  type Query = Hotels.Query

  /** `["stays", "market"].includes(t)`. */
  predicate IsTab(t: string) { t == "stays" || t == "market" }

  /** The `tab` memo. */
  function ResolveTab(initialTab: Option<string>, query: Query): (tab: string)
    ensures IsTab(tab)
    ensures initialTab.Some? && IsTab(initialTab.value) ==> tab == initialTab.value
    ensures !(initialTab.Some? && IsTab(initialTab.value)) ==>
              tab == (var q := Hotels.Get(query, "tab"); if q.Some? && IsTab(q.value) then q.value else "stays")
  {
    if initialTab.Some? && initialTab.value != "" && IsTab(initialTab.value) then initialTab.value
    else
      var fromQuery := Hotels.Get(query, "tab");
      if fromQuery.Some? && IsTab(fromQuery.value) then fromQuery.value else "stays"
  }

  /** An unknown route tab is ignored as if there were none. */
  lemma UnknownTabIsIgnored(t: string, query: Query)
    requires !IsTab(t)
    ensures ResolveTab(Some(t), query) == ResolveTab(None, query)
  {
  }

  predicate NotTab(p: (string, string)) { p.0 != "tab" }

  /** `params.delete("tab")`: every `tab` pair goes, the others stay in order. */
  function WithoutTab(query: Query): (kept: Query)
    ensures forall p :: p in kept <==> p in query && p.0 != "tab"
    ensures Subseq(kept, query)
  {
    FilterIsSubseq(query, NotTab);
    Filter(query, NotTab)
  }

  function Pair(p: (string, string)): string { p.0 + "=" + p.1 }

  /** `params.toString()`. */
  function QueryString(query: Query): string {
    Join(seq(|query|, i requires 0 <= i < |query| => Pair(query[i])), "&")
  }

  /** The query string is empty exactly when no parameter is left. */
  lemma QueryStringEmpty(query: Query)
    ensures QueryString(query) == "" <==> query == []
  {
    if query != [] {
      var parts := seq(|query|, i requires 0 <= i < |query| => Pair(query[i]));
      assert |parts[0]| >= 1;
      JoinKeepsFirst(parts, "&");
    }
  }

  lemma JoinKeepsFirst(parts: seq<string>, sep: string)
    requires |parts| >= 1
    ensures |Join(parts, sep)| >= |parts[0]|
  {
  }

  function TabPath(next: string): string {
    if next == "market" then "/explore/market" else "/explore/stays"
  }

  /** The target of `setTab(next)`. */
  function TabUrl(next: string, query: Query): string {
    var qs := QueryString(WithoutTab(query));
    if qs != "" then TabPath(next) + "?" + qs else TabPath(next)
  }

  /**
   * Switching tabs goes to the market path exactly for "market" and to
   * the stays path for anything else, adds "?" and the query exactly
   * when some parameter other than `tab` is left, and carries the
   * remaining parameters in their order.
   */
  lemma TabUrlFacts(next: string, query: Query)
    ensures StartsWith(TabUrl(next, query), "/explore/market") <==> next == "market"
    ensures TabUrl(next, query) == TabPath(next) <==> forall p :: p in query ==> p.0 == "tab"
    ensures TabUrl(next, query) != TabPath(next) ==>
              TabUrl(next, query) == TabPath(next) + "?" + QueryString(WithoutTab(query))
  {
    var kept := WithoutTab(query);
    QueryStringEmpty(kept);
    var url := TabUrl(next, query);
    if next != "market" {
      assert url[..14] == "/explore/stays";
      assert url[9] == 's' && "/explore/market"[9] == 'm';
    }
    if kept != [] {
      assert |url| > |TabPath(next)|;
    }
  }
}
