/** The fire hose over a whole log of events: queries from the form, connections
    opening and frames arriving from any server, in any interleaving. */
module FeedTraces {
  import opened Posts
  import opened FeedSpec

  datatype Event = Query(query: string) | Open | Message(frame: Frame)

  function Step(e: RegexEngine, s: State, ev: Event): (r: State) {
    match ev
    case Query(q) => SetQuery(e, s, q)
    case Open => OnOpen(s)
    case Message(f) => OnMessage(e, s, f)
  }

  /** The state after handling the events of `evs` in order, starting from `s`. */
  function Run(e: RegexEngine, s: State, evs: seq<Event>): (r: State)
    decreases |evs|
  {
    if evs == [] then s else Step(e, Run(e, s, evs[..|evs| - 1]), evs[|evs| - 1])
  }

  /** The number of connection-open events in the log. */
  function Opens(evs: seq<Event>): (n: nat)
    decreases |evs|
  {
    if evs == [] then 0 else Opens(evs[..|evs| - 1]) + (if evs[|evs| - 1].Open? then 1 else 0)
  }

  /** The log in which each post of `ts` arrives in an `update` frame. */
  function Updates(ts: seq<Toot>): (evs: seq<Event>)
    ensures |evs| == |ts|
    ensures forall i :: 0 <= i < |ts| ==> evs[i] == Message(Frame("update", ts[i]))
  {
    seq(|ts|, i requires 0 <= i < |ts| => Message(Frame("update", ts[i])))
  }

  /** The i-th post of `ts` is the first one, in arrival order, whose URL is new to the
      session (not in `seen`) and whose content matches `q`. */
  predicate FirstMatch(e: RegexEngine, q: string, seen: set<Url>, ts: seq<Toot>, i: nat)
    requires i < |ts|
  {
    && ts[i].url !in seen
    && e.test(q, ts[i].content)
    && forall j :: 0 <= j < i && ts[j].url == ts[i].url ==> !e.test(q, ts[j].content)
  }

  /** The posts of `ts` that are first matches, in arrival order. */
  function FirstMatches(e: RegexEngine, q: string, seen: set<Url>, ts: seq<Toot>): (shown: seq<Toot>)
    decreases |ts|
  {
    if ts == [] then []
    else
      var n := |ts| - 1;
      FirstMatches(e, q, seen, ts[..n]) + (if FirstMatch(e, q, seen, ts, n) then [ts[n]] else [])
  }

  /** Every event keeps the invariant. */
  lemma StepKeepsValid(e: RegexEngine, s: State, ev: Event)
    requires Valid(s)
    ensures Valid(Step(e, s, ev))
    ensures Coherent(s) && !(ev.Query? && QueryThrows(e, ev.query)) ==> Coherent(Step(e, s, ev))
  {
    match ev
    case Query(q) => SetQueryKeepsValid(e, s, q);
    case Open =>
    case Message(f) => OnMessageKeepsValid(e, s, f);
  }

  /** From any valid state, every log of events leads to a valid state. */
  lemma {:induction false} RunKeepsValid(e: RegexEngine, s: State, evs: seq<Event>)
    requires Valid(s)
    ensures Valid(Run(e, s, evs))
    decreases |evs|
  {
    if evs != [] {
      RunKeepsValid(e, s, evs[..|evs| - 1]);
      StepKeepsValid(e, Run(e, s, evs[..|evs| - 1]), evs[|evs| - 1]);
    }
  }

  /** Every state the fire hose can reach from construction is valid: its matched
      count equals the number of seen URLs and never exceeds the seen-post count. */
  lemma ReachableValid(e: RegexEngine, evs: seq<Event>)
    ensures Valid(Run(e, Init(), evs))
    ensures Run(e, Init(), evs).matched == |Run(e, Init(), evs).seen|
    ensures Run(e, Init(), evs).matched <= Run(e, Init(), evs).all
  {
    assert Init().output[..0] == [];
    RunKeepsValid(e, Init(), evs);
    MatchedIsSeenCount(Run(e, Init(), evs));
  }

  /** As long as no query throws, a coherent display stays coherent: the output is
      exactly the posts displayed since the last reset, with distinct URLs equal to
      `seen`. */
  lemma {:induction false} RunKeepsCoherent(e: RegexEngine, s: State, evs: seq<Event>)
    requires Coherent(s)
    requires forall i :: 0 <= i < |evs| && evs[i].Query? ==> !QueryThrows(e, evs[i].query)
    ensures Coherent(Run(e, s, evs))
    decreases |evs|
  {
    if evs != [] {
      var n := |evs| - 1;
      RunKeepsCoherent(e, s, evs[..n]);
      StepKeepsValid(e, Run(e, s, evs[..n]), evs[n]);
    }
  }

  /** In a coherent state the displayed posts have pairwise distinct URLs, exactly
      the seen ones, one per matched post. */
  lemma CoherentDisplay(s: State)
    requires Coherent(s)
    ensures DistinctUrls(s.output) && UrlSet(s.output) == s.seen
    ensures |s.output| == s.matched == |s.seen|
  {
    assert s.output[..s.matched] == s.output;
    MatchedIsSeenCount(s);
  }

  /** The connection count goes up by exactly one per open event; nothing else,
      no query in particular, changes it. */
  lemma {:induction false} ConnCountsOpens(e: RegexEngine, s: State, evs: seq<Event>)
    ensures Run(e, s, evs).conn == s.conn + Opens(evs)
    decreases |evs|
  {
    if evs != [] {
      ConnCountsOpens(e, s, evs[..|evs| - 1]);
    }
  }

  /** While no matcher is installed, frames change nothing at all. */
  lemma {:induction false} InertWithoutMatcher(e: RegexEngine, s: State, evs: seq<Event>)
    requires s.re == None
    requires forall i :: 0 <= i < |evs| ==> evs[i].Message?
    ensures Run(e, s, evs) == s
    decreases |evs|
  {
    if evs != [] {
      InertWithoutMatcher(e, s, evs[..|evs| - 1]);
    }
  }

  /** A URL is among the first matches exactly when it is new to the session and
      some post with that URL matches. */
  lemma {:induction false} FirstMatchUrls(e: RegexEngine, q: string, seen: set<Url>, ts: seq<Toot>, u: Url)
    ensures u in UrlSet(FirstMatches(e, q, seen, ts)) <==>
      u !in seen && exists j :: 0 <= j < |ts| && ts[j].url == u && e.test(q, ts[j].content)
    decreases |ts|
  {
    if ts != [] {
      var n := |ts| - 1;
      var p := ts[..n];
      FirstMatchUrls(e, q, seen, p, u);
      if FirstMatch(e, q, seen, ts, n) {
        UrlSetConcat(FirstMatches(e, q, seen, p), [ts[n]]);
        UrlSetSingle(ts[n]);
      } else {
        assert FirstMatches(e, q, seen, ts) == FirstMatches(e, q, seen, p);
      }
      if u !in seen && exists j :: 0 <= j < |ts| && ts[j].url == u && e.test(q, ts[j].content) {
        var j :| 0 <= j < |ts| && ts[j].url == u && e.test(q, ts[j].content);
        if j < n {
          assert p[j] == ts[j];
        } else if !FirstMatch(e, q, seen, ts, n) {
          var k :| 0 <= k < n && ts[k].url == u && e.test(q, ts[k].content);
          assert p[k] == ts[k];
        }
      }
      if u in UrlSet(FirstMatches(e, q, seen, p)) {
        var j :| 0 <= j < |p| && p[j].url == u && e.test(q, p[j].content);
        assert ts[j] == p[j];
      }
    }
  }

  /** The last post of a stream is a first match exactly when the filter would
      display it: its URL is not yet seen (neither before the session's stream nor
      among the earlier first matches) and its content matches. */
  lemma LastFirstMatch(e: RegexEngine, q: string, seen: set<Url>, ts: seq<Toot>)
    requires ts != []
    ensures var n := |ts| - 1;
      FirstMatch(e, q, seen, ts, n) <==>
        ts[n].url !in seen + UrlSet(FirstMatches(e, q, seen, ts[..n])) && e.test(q, ts[n].content)
  {
    var n := |ts| - 1;
    var p := ts[..n];
    FirstMatchUrls(e, q, seen, p, ts[n].url);
    forall j | 0 <= j < n ensures p[j] == ts[j] { }
  }

  /** The log of updates for a stream, split before its last post. */
  lemma UpdatesSnoc(ts: seq<Toot>)
    requires ts != []
    ensures Updates(ts)[..|ts| - 1] == Updates(ts[..|ts| - 1])
  {
  }

  /** What a session's stream `ts` of posts does to `s`, which has a matcher for `q`:
      every post is counted as seen; the first match of every new URL is counted,
      added to `seen` and displayed; the display shows those posts newest-first above
      what was shown before; connections, matcher and placeholder stay the same. */
  ghost predicate SessionOutcome(e: RegexEngine, s: State, q: string, ts: seq<Toot>, r: State) {
    var shown := FirstMatches(e, q, s.seen, ts);
    && r.all == s.all + |ts|
    && r.matched == s.matched + |shown|
    && r.seen == s.seen + UrlSet(shown)
    && r.output == Reversed(shown) + s.output
    && r.conn == s.conn && r.re == s.re && r.placeholder == s.placeholder
  }

  /** Filtering one more post extends the outcome of a stream to the longer stream. */
  lemma SessionStep(e: RegexEngine, s: State, q: string, ts: seq<Toot>, mid: State)
    requires s.re == Some(q) && ts != []
    requires SessionOutcome(e, s, q, ts[..|ts| - 1], mid)
    ensures SessionOutcome(e, s, q, ts, FilterToot(e, mid, ts[|ts| - 1]))
  {
    var n := |ts| - 1;
    LastFirstMatch(e, q, s.seen, ts);
    if FirstMatch(e, q, s.seen, ts, n) {
      SessionStepShown(e, s, q, ts, mid);
    } else {
      assert FirstMatches(e, q, s.seen, ts) == FirstMatches(e, q, s.seen, ts[..n]);
      assert FilterToot(e, mid, ts[n]) == mid.(all := mid.all + 1);
    }
  }

  /** The case of SessionStep where the last post is a first match. */
  lemma SessionStepShown(e: RegexEngine, s: State, q: string, ts: seq<Toot>, mid: State)
    requires s.re == Some(q) && ts != []
    requires SessionOutcome(e, s, q, ts[..|ts| - 1], mid)
    requires FirstMatch(e, q, s.seen, ts, |ts| - 1)
    requires ts[|ts| - 1].url !in mid.seen
    ensures SessionOutcome(e, s, q, ts, FilterToot(e, mid, ts[|ts| - 1]))
  {
    var n := |ts| - 1;
    var t := ts[n];
    var before := FirstMatches(e, q, s.seen, ts[..n]);
    assert FirstMatches(e, q, s.seen, ts) == before + [t];
    assert FilterToot(e, mid, t) == Display(mid.(all := mid.all + 1, matched := mid.matched + 1), t);
    ReversedSnoc(before, t);
    UrlSetConcat(before, [t]);
    UrlSetSingle(t);
  }

  /** Within one session (a matcher for `q` is installed and no query intervenes), a
      stream of posts from any servers, in any interleaving, has the outcome above. */
  lemma {:induction false} SessionDisplay(e: RegexEngine, s: State, q: string, ts: seq<Toot>)
    requires s.re == Some(q)
    ensures SessionOutcome(e, s, q, ts, Run(e, s, Updates(ts)))
    decreases |ts|
  {
    if ts == [] {
      assert Updates(ts) == [];
    } else {
      var n := |ts| - 1;
      UpdatesSnoc(ts);
      SessionDisplay(e, s, q, ts[..n]);
      assert Run(e, s, Updates(ts)) == FilterToot(e, Run(e, s, Updates(ts[..n])), ts[n]);
      SessionStep(e, s, q, ts, Run(e, s, Updates(ts[..n])));
    }
  }
}
