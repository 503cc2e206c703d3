/** The fire hose object: the filter, the statistics counters and the output area
    that the socket callbacks and the query form update in place. Each method that
    changes the object is proved to change it exactly as the matching function of
    FeedSpec changes the state value. All of them except DisplayToot, a step inside
    FilterToot, also keep the invariant FeedSpec.Valid. */
module Hose {
  import opened Posts
  import FeedSpec

  class FireHose {
    /** The regular-expression library the matcher is built with. */
    const engine: RegexEngine

    /** The statistics counters: connections opened, posts seen, posts matched. */
    var conn: nat
    var all: nat
    var matched: nat
    /** URLs displayed since the last query reset. */
    var seen: set<Url>
    /** The pattern of the installed matcher; None when filtering is off. */
    var re: FeedSpec.Option<string>
    /** The output area: displayed posts, newest first, or the placeholder text. */
    var output: seq<Toot>
    var placeholder: bool

    /** The object's state as a value. */
    function Abstract(): FeedSpec.State
      reads this
    {
      FeedSpec.State(conn, all, matched, seen, re, output, placeholder)
    }

    ghost predicate Valid()
      reads this
    {
      FeedSpec.Valid(Abstract())
    }

    ghost predicate Coherent()
      reads this
    {
      FeedSpec.Coherent(Abstract())
    }

    /** Zeroed counters, no connection open yet, and the empty query set: no matcher,
        placeholder shown. */
    constructor (engine: RegexEngine)
      ensures this.engine == engine
      ensures Abstract() == FeedSpec.Init()
      ensures Valid() && Coherent()
    {
      this.engine := engine;
      conn, all, matched := 0, 0, 0;
      seen := {};
      re := FeedSpec.None;
      output := [];
      placeholder := true;
      new;
      assert output[..0] == [];
    }

    /** Replaces the query; `threw` tells that building the matcher threw, after the
        seen set and the session counters were already reset. */
    method SetQuery(query: string) returns (threw: bool)
      requires Valid()
      modifies this
      ensures threw == FeedSpec.QueryThrows(engine, query)
      ensures Abstract() == FeedSpec.SetQuery(engine, old(Abstract()), query)
      ensures Valid()
      ensures !threw ==> Coherent()
    {
      FeedSpec.SetQueryKeepsValid(engine, Abstract(), query);
      seen := {};
      all := 0;
      matched := 0;
      if query != "" {
        if !engine.compiles(query) {
          return true;
        }
        re := FeedSpec.Some(query);
        output := [];
        placeholder := false;
      } else {
        re := FeedSpec.None;
        output := [];
        placeholder := true;
      }
      threw := false;
    }

    /** Records the post's URL as seen and puts the post on top of the output. */
    method DisplayToot(t: Toot)
      modifies this
      ensures Abstract() == FeedSpec.Display(old(Abstract()), t)
    {
      seen := seen + {t.url};
      output := [t] + output;
    }

    /** Counts, deduplicates, tests and displays one post. */
    method FilterToot(t: Toot)
      requires Valid()
      modifies this
      ensures Abstract() == FeedSpec.FilterToot(engine, old(Abstract()), t)
      ensures Valid()
      ensures old(Coherent()) ==> Coherent()
    {
      FeedSpec.FilterTootKeepsValid(engine, Abstract(), t);
      if re == FeedSpec.None {
        return;
      }
      all := all + 1;
      if t.url in seen {
        return;
      }
      if !engine.test(re.value, t.content) {
        return;
      }
      matched := matched + 1;
      DisplayToot(t);
    }

    /** A socket finished opening. */
    method OnOpen()
      requires Valid()
      modifies this
      ensures Abstract() == FeedSpec.OnOpen(old(Abstract()))
      ensures Valid()
      ensures old(Coherent()) ==> Coherent()
    {
      conn := conn + 1;
    }

    /** A socket delivered a frame; only `update` frames reach the filter. */
    method OnMessage(f: Frame)
      requires Valid()
      modifies this
      ensures Abstract() == FeedSpec.OnMessage(engine, old(Abstract()), f)
      ensures Valid()
      ensures old(Coherent()) ==> Coherent()
    {
      if f.event != "update" {
        return;
      }
      FilterToot(f.payload);
    }

    /** The current counter values; the matched count is the number of distinct URLs
        displayed since the last reset and never exceeds the seen count. */
    method GetStats() returns (st: FeedSpec.Stats)
      requires Valid()
      ensures st == FeedSpec.GetStats(Abstract())
      ensures st.matched == |seen| && st.matched <= st.all
    {
      FeedSpec.MatchedIsSeenCount(Abstract());
      st := FeedSpec.Stats(conn, all, matched);
    }
  }

  function Cats(): (t: Toot) {
    Toot("u1", "I love cats", Account("A", "a1"), "t1")
  }

  /** Two servers connect, the pattern "cats" is set, one server delivers a matching
      post and the other redelivers it: one post shown, two seen, one matched. */
  method RedeliveryScenario(e: RegexEngine) returns (st: FeedSpec.Stats, shown: seq<Toot>)
    requires e.compiles("cats") && e.test("cats", Cats().content)
    ensures st == FeedSpec.Stats(2, 2, 1)
    ensures shown == [Cats()]
  {
    var hose := new FireHose(e);
    hose.OnOpen();
    hose.OnOpen();
    var _ := hose.SetQuery("cats");
    hose.OnMessage(Frame("update", Cats()));
    hose.OnMessage(Frame("update", Cats()));
    st := hose.GetStats();
    shown := hose.output;
  }

  /** A `delete` frame is discarded without being counted. */
  method DeleteFrameScenario(e: RegexEngine) returns (st: FeedSpec.Stats)
    requires e.compiles("cats")
    ensures st == FeedSpec.Stats(0, 0, 0)
  {
    var hose := new FireHose(e);
    var _ := hose.SetQuery("cats");
    hose.OnMessage(Frame("delete", Cats()));
    st := hose.GetStats();
  }

  /** Switching the pattern from "cats" to "dogs" resets the counters, and a URL
      displayed under "cats" is displayed again under "dogs". */
  method RequeryScenario(e: RegexEngine) returns (st: FeedSpec.Stats, shown: seq<Toot>)
    requires e.compiles("cats") && e.compiles("dogs")
    requires e.test("cats", "cats and dogs") && e.test("dogs", "cats and dogs")
    ensures st == FeedSpec.Stats(0, 1, 1)
    ensures shown == [Toot("u1", "cats and dogs", Account("A", "a1"), "t1")]
  {
    var t := Toot("u1", "cats and dogs", Account("A", "a1"), "t1");
    var hose := new FireHose(e);
    var _ := hose.SetQuery("cats");
    hose.OnMessage(Frame("update", t));
    var _ := hose.SetQuery("dogs");
    hose.OnMessage(Frame("update", t));
    st := hose.GetStats();
    shown := hose.output;
  }

  /** With the pattern "cats" a post is displayed; the pattern "(" then fails to
      compile, which clears `seen` but keeps the matcher and the output, so the same
      post arriving again is displayed a second time. */
  method RejectedPatternScenario(e: RegexEngine) returns (threw: bool, shown: seq<Toot>)
    requires e.compiles("cats") && !e.compiles("(") && e.test("cats", Cats().content)
    ensures threw
    ensures shown == [Cats(), Cats()]
  {
    var hose := new FireHose(e);
    var _ := hose.SetQuery("cats");
    hose.OnMessage(Frame("update", Cats()));
    threw := hose.SetQuery("(");
    hose.OnMessage(Frame("update", Cats()));
    shown := hose.output;
  }
}
