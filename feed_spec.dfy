/** The state of the fire hose as a value, what each event does to it, and the
    invariant every reachable state keeps. The class in module Hose is proved
    against these functions. */
module FeedSpec {
  import opened Posts

  datatype Option<T> = None | Some(value: T)

  /** Everything the fire hose updates: the statistics counters `conn`, `all` and
      `matched`, the URLs displayed in the current session, the pattern of the
      installed matcher (if any), the displayed posts (front = top of the page) and
      whether the "enter a filter" placeholder is shown instead of posts. */
  datatype State = State(
    conn: nat,
    all: nat,
    matched: nat,
    seen: set<Url>,
    re: Option<string>,
    output: seq<Toot>,
    placeholder: bool)

  /** What a statistics readout reports. */
  datatype Stats = Stats(conn: nat, all: nat, matched: nat)

  /** A pattern that building the matcher rejects: compiling it throws. The empty
      pattern never throws, because no matcher is built for it. */
  predicate QueryThrows(e: RegexEngine, query: string) {
    query != "" && !e.compiles(query)
  }

  /** The state right after construction: no connection is open yet and the empty
      query has been set. */
  function Init(): (s: State)
    ensures s.conn == 0 && s.all == 0 && s.matched == 0 && s.seen == {}
    ensures s.re == None && s.placeholder && s.output == []
  {
    State(0, 0, 0, {}, None, [], true)
  }

  /** Replacing the query. The seen set and the two session counters are reset first;
      then the matcher is installed and the output emptied (non-empty pattern), or the
      matcher removed and the placeholder shown (empty pattern). If the pattern does
      not compile, the reset has already happened but the old matcher and the old
      output stay. */
  function SetQuery(e: RegexEngine, s: State, query: string): (r: State)
    ensures r.all == 0 && r.matched == 0 && r.seen == {} && r.conn == s.conn
    ensures query == "" ==> r.re == None && r.placeholder && r.output == []
    ensures query != "" && e.compiles(query) ==> r.re == Some(query) && !r.placeholder && r.output == []
    ensures QueryThrows(e, query) ==> r.re == s.re && r.output == s.output && r.placeholder == s.placeholder
  {
    var reset := s.(seen := {}, all := 0, matched := 0);
    if query == "" then
      reset.(re := None, output := [], placeholder := true)
    else if e.compiles(query) then
      reset.(re := Some(query), output := [], placeholder := false)
    else
      reset
  }

  /** The state effects of displaying a post: its URL joins `seen` and the post is
      put on top of the output. */
  function Display(s: State, t: Toot): (r: State)
    ensures r.seen == s.seen + {t.url} && |r.output| == |s.output| + 1
    ensures r.output[0] == t && r.output[1..] == s.output
    ensures r.conn == s.conn && r.all == s.all && r.matched == s.matched
    ensures r.re == s.re && r.placeholder == s.placeholder
  {
    s.(seen := s.seen + {t.url}, output := [t] + s.output)
  }

  /** The per-post decision: ignore it without a matcher; otherwise count it as
      seen, and count and display it when its URL is new and its content matches. */
  function FilterToot(e: RegexEngine, s: State, t: Toot): (r: State)
    ensures s.re == None ==> r == s
    ensures s.re != None ==> r.all == s.all + 1
    ensures r.conn == s.conn && r.re == s.re && r.placeholder == s.placeholder
    ensures t.url in s.seen ==> r.matched == s.matched && r.seen == s.seen && r.output == s.output
    ensures r.matched != s.matched <==> s.re != None && t.url !in s.seen && e.test(s.re.value, t.content)
    ensures r.matched != s.matched ==>
      r.matched == s.matched + 1 && r.seen == s.seen + {t.url} && r.output == [t] + s.output
    ensures r.matched == s.matched ==> r.seen == s.seen && r.output == s.output
  {
    if s.re == None then s
    else
      var counted := s.(all := s.all + 1);
      if t.url in s.seen then counted
      else if !e.test(s.re.value, t.content) then counted
      else Display(counted.(matched := counted.matched + 1), t)
  }

  /** A connection opened: one more connected server, nothing else changes. */
  function OnOpen(s: State): (r: State)
    ensures r.conn == s.conn + 1 && r.(conn := s.conn) == s
  {
    s.(conn := s.conn + 1)
  }

  /** A frame arrived: only `update` frames reach the filter. */
  function OnMessage(e: RegexEngine, s: State, f: Frame): (r: State)
    ensures f.event != "update" ==> r == s
    ensures f.event == "update" ==> r == FilterToot(e, s, f.payload)
  {
    if f.event != "update" then s else FilterToot(e, s, f.payload)
  }

  /** The readout of the counters. */
  function GetStats(s: State): (st: Stats)
    ensures st.conn == s.conn && st.all == s.all && st.matched == s.matched
  {
    Stats(s.conn, s.all, s.matched)
  }

  /** The invariant of every reachable state. The first `matched` posts of the output
      are the ones displayed since the last query reset: they have distinct URLs, and
      those URLs are exactly `seen`. A query that threw leaves older posts below them.
      Without a matcher the placeholder is shown and nothing is counted. */
  ghost predicate Valid(s: State) {
    && s.matched <= s.all
    && s.matched <= |s.output|
    && DistinctUrls(s.output[..s.matched])
    && UrlSet(s.output[..s.matched]) == s.seen
    && (s.placeholder <==> s.re == None)
    && (s.re == None ==> s.output == [] && s.all == 0)
  }

  /** A valid state whose output holds only the posts displayed since the last reset,
      which is the case after every query that did not throw. */
  ghost predicate Coherent(s: State) {
    Valid(s) && |s.output| == s.matched
  }

  /** The counters of a valid state: the matched count is the number of seen URLs,
      and never exceeds the count of posts seen. */
  lemma MatchedIsSeenCount(s: State)
    requires Valid(s)
    ensures s.matched == |s.seen| && s.matched <= s.all
  {
    DistinctUrlCount(s.output[..s.matched]);
  }

  lemma SetQueryKeepsValid(e: RegexEngine, s: State, query: string)
    requires Valid(s)
    ensures Valid(SetQuery(e, s, query))
    ensures !QueryThrows(e, query) ==> Coherent(SetQuery(e, s, query))
  {
  }

  lemma FilterTootKeepsValid(e: RegexEngine, s: State, t: Toot)
    requires Valid(s)
    ensures Valid(FilterToot(e, s, t))
    ensures Coherent(s) ==> Coherent(FilterToot(e, s, t))
  {
  }

  lemma OnMessageKeepsValid(e: RegexEngine, s: State, f: Frame)
    requires Valid(s)
    ensures Valid(OnMessage(e, s, f))
    ensures Coherent(s) ==> Coherent(OnMessage(e, s, f))
  {
    if f.event == "update" {
      FilterTootKeepsValid(e, s, f.payload);
    }
  }
}
