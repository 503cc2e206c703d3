/** Posts ("toots") as they arrive on a server's public stream, already decoded,
    and the few facts about collections of posts that the feed relies on. */
module Posts {

  /** A post's URL; it is the post's identity and the key used to suppress duplicates. */
  type Url = string

  datatype Account = Account(displayName: string, url: Url)

  datatype Toot = Toot(url: Url, content: string, account: Account, createdAt: string)

  /** An inbound streaming frame, with its envelope and its payload already decoded. */
  datatype Frame = Frame(event: string, payload: Toot)

  /** The host's regular-expression library, seen from outside: whether a pattern
      compiles at all, and whether a pattern, compiled case-insensitively and without
      the global flag (so that testing keeps no state), matches a given text. */
  datatype RegexEngine = RegexEngine(compiles: string -> bool, test: (string, string) -> bool)

  /** The URLs of a sequence of posts. */
  function UrlSet(ts: seq<Toot>): (r: set<Url>)
    ensures forall i :: 0 <= i < |ts| ==> ts[i].url in r
    ensures forall u :: u in r ==> exists i :: 0 <= i < |ts| && ts[i].url == u
  {
    set i | 0 <= i < |ts| :: ts[i].url
  }

  /** No two posts of the sequence share a URL. */
  predicate DistinctUrls(ts: seq<Toot>) {
    forall i, j :: 0 <= i < j < |ts| ==> ts[i].url != ts[j].url
  }

  lemma UrlSetConcat(a: seq<Toot>, b: seq<Toot>)
    ensures UrlSet(a + b) == UrlSet(a) + UrlSet(b)
  {
    forall u | u in UrlSet(a) + UrlSet(b) ensures u in UrlSet(a + b) {
      if u in UrlSet(a) {
        var i :| 0 <= i < |a| && a[i].url == u;
        assert (a + b)[i] == a[i];
      } else {
        var i :| 0 <= i < |b| && b[i].url == u;
        assert (a + b)[|a| + i] == b[i];
      }
    }
    forall u | u in UrlSet(a + b) ensures u in UrlSet(a) + UrlSet(b) {
      var i :| 0 <= i < |a + b| && (a + b)[i].url == u;
      if i < |a| {
        assert a[i] == (a + b)[i];
      } else {
        assert b[i - |a|] == (a + b)[i];
      }
    }
  }

  lemma UrlSetSingle(t: Toot)
    ensures UrlSet([t]) == {t.url}
  {
    assert [t][0] == t;
  }

  /** Posts with pairwise distinct URLs have as many URLs as there are posts. */
  lemma {:induction false} DistinctUrlCount(ts: seq<Toot>)
    requires DistinctUrls(ts)
    ensures |UrlSet(ts)| == |ts|
  {
    if ts != [] {
      var rest := ts[1..];
      assert ts == [ts[0]] + rest;
      UrlSetConcat([ts[0]], rest);
      UrlSetSingle(ts[0]);
      assert DistinctUrls(rest) by {
        forall i, j | 0 <= i < j < |rest| ensures rest[i].url != rest[j].url {
          assert rest[i] == ts[i + 1] && rest[j] == ts[j + 1];
        }
      }
      DistinctUrlCount(rest);
      assert ts[0].url !in UrlSet(rest) by {
        forall i | 0 <= i < |rest| ensures rest[i].url != ts[0].url {
          assert rest[i] == ts[i + 1];
        }
      }
    }
  }

  /** The sequence in the opposite order: the last element first. */
  function Reversed<T>(s: seq<T>): (r: seq<T>)
    ensures |r| == |s|
    ensures forall i :: 0 <= i < |s| ==> r[i] == s[|s| - 1 - i]
  {
    if s == [] then [] else [s[|s| - 1]] + Reversed(s[..|s| - 1])
  }

  lemma ReversedSnoc<T>(s: seq<T>, x: T)
    ensures Reversed(s + [x]) == [x] + Reversed(s)
  {
  }
}
