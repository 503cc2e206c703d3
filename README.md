# FireHose: a merged, filtered live feed of Mastodon posts

The page opens one streaming connection per configured Mastodon server and merges
their public streams into one feed. A single `FireHose` object keeps all of the
state. Its statistics are `conn` (connections opened), `all` (posts seen) and
`match` (posts shown). It keeps the set `seen` of URLs shown since the query was
last reset, and the matcher `re` built from the user's pattern. It also owns the
output area, where matched posts are put on top.

This project models that object in Dafny:

- `posts.dfy` (module `Posts`): decoded posts and frames. The regular-expression
  library is a `RegexEngine` value, a pair of total functions. One says whether a
  pattern compiles. The other says whether a pattern, compiled case-insensitively,
  matches a text. The model uses no other fact about regular expressions.
- `feed_spec.dfy` (module `FeedSpec`): the object's state as a value, one function
  per operation, and the invariant `Valid` with the lemmas showing that every
  operation keeps it. `Valid` says that the first `match` posts of the output are
  the ones shown since the last reset, with pairwise distinct URLs equal to `seen`,
  and that without a matcher the placeholder is shown and nothing is counted.
  `Coherent` adds that the output holds nothing else.
- `feed_traces.dfy` (module `FeedTraces`): logs of events in any order (queries,
  socket opens, frames from any server). It holds the theorems that relate
  several steps.
- `firehose.dfy` (module `Hose`): class `FireHose`, with the source's fields and
  methods. Each state-changing method states that it changes the object exactly
  as the matching `FeedSpec` function changes the state value. All of them except
  `DisplayToot` also keep `Valid`. `DisplayToot` is a step inside `FilterToot`
  that runs after `match` has gone up, so it cannot keep `Valid` by itself.
  `GetStats` changes nothing and reports the counters. The module also has client
  methods that replay usage scenarios on the class.

Three facts about the code shape the model:

- The code has no session counter. Every post is filtered against whatever
  matcher is installed when it arrives, including a post that arrives just after
  a query change.
- `setQuery` clears `seen` and zeroes `all` and `match` before it builds the
  `RegExp`. When that constructor throws, the old matcher and the old output
  remain. `FeedSpec.SetQuery` models this partial reset.
  `Hose.RejectedPatternScenario` shows the result: a post already on screen is
  shown a second time. That is why the invariant covers only the first `match`
  posts of the output, and why `FeedTraces.RunKeepsCoherent` needs every query to
  compile.
- The code keeps no status for each connection, only the `conn` counter. Each
  `onopen` increments it and nothing decrements it.

## Model

| member | source | states |
|---|---|---|
| `Hose.FireHose.constructor` | script.js:7-16 | the counters start at zero, and the empty query is set: no matcher, placeholder shown, nothing seen; the invariant holds |
| `Hose.FireHose.SetQuery` | script.js:23-35 | the object changes as `FeedSpec.SetQuery` says; it reports exactly when building the matcher throws; the invariant is kept, and the output is coherent after a query that does not throw |
| `FeedSpec.SetQuery` | script.js:23-35 | `seen` becomes empty and `all` and `match` become 0, while `conn` is unchanged; an empty query removes the matcher, shows the placeholder and empties the output; a pattern that compiles installs the matcher and empties the output; a pattern that throws keeps the old matcher, output and placeholder |
| `FeedSpec.SetQueryKeepsValid` | script.js:23-35 | every query keeps the invariant; a query that does not throw makes the output exactly the (empty) current session |
| `Hose.FireHose.DisplayToot` | script.js:87-115 | the post's URL joins `seen` and the post becomes the first entry of the output; nothing else changes |
| `FeedSpec.Display` | script.js:87-115 | `seen` gains the post's URL; the output gets one more entry, the post on top of the old output; counters, matcher and placeholder stay the same |
| `Hose.FireHose.FilterToot` | script.js:71-78 | the object changes as `FeedSpec.FilterToot` says; the invariant is kept, and so is coherence of the output |
| `FeedSpec.FilterToot` | script.js:71-78 | without a matcher nothing changes; with one, `all` goes up by exactly one for every post; a post whose URL is in `seen` changes nothing else, even if it matches; `match` changes if and only if the URL is new and the content matches, and then `match` goes up by one, the URL joins `seen` and the post goes on top of the output |
| `FeedSpec.FilterTootKeepsValid` | script.js:71-78 | filtering a post keeps the invariant (distinct URLs among the shown posts, equal to `seen`) and keeps coherence |
| `FeedSpec.MatchedIsSeenCount` | script.js:73-77 | in every valid state `match` equals the number of seen URLs and is at most `all` |
| `Hose.FireHose.OnOpen` | script.js:53-55 | the object changes as `FeedSpec.OnOpen` says, and the invariant is kept |
| `FeedSpec.OnOpen` | script.js:53-55 | `conn` goes up by exactly one and nothing else changes |
| `Hose.FireHose.OnMessage` | script.js:46-51 | the object changes as `FeedSpec.OnMessage` says, and the invariant is kept |
| `FeedSpec.OnMessage` | script.js:46-51 | a frame whose event is not `update` changes nothing; an `update` frame acts exactly as filtering its payload |
| `FeedSpec.OnMessageKeepsValid` | script.js:46-51 | every frame keeps the invariant and coherence |
| `Hose.FireHose.GetStats` | script.js:117-119 | it returns the current counter values; the returned match count equals the number of seen URLs and is at most the seen count |
| `FeedSpec.GetStats` | script.js:117-119 | the readout reports the three counters |
| `FeedSpec.Init` | script.js:7-16 | after construction the counters are zero, nothing is seen, there is no matcher and the placeholder replaces the empty output |
| `FeedTraces.StepKeepsValid` | script.js:23-78 | every event (query, open, frame) keeps the invariant; every event except a query that throws keeps coherence |
| `FeedTraces.RunKeepsValid` | script.js:23-78 | any log of events, in any order, from a valid state leads to a valid state |
| `FeedTraces.ReachableValid` | script.js:7-78 | every state reachable from construction is valid, has `match` equal to the number of seen URLs, and has `match` at most `all` |
| `FeedTraces.RunKeepsCoherent` | script.js:23-35 | while every query compiles, the output stays exactly the posts shown since the last reset |
| `FeedTraces.CoherentDisplay` | script.js:73-77 | in a coherent state the shown posts have pairwise distinct URLs, their URLs are exactly `seen`, and there are `match` of them |
| `FeedTraces.ConnCountsOpens` | script.js:53-55 | after any log of events, `conn` equals its start value plus the number of open events, so queries never reset it and nothing decreases it |
| `FeedTraces.InertWithoutMatcher` | script.js:71-72 | without a matcher, any number of frames leaves the whole state unchanged: nothing is counted and nothing is shown |
| `FeedTraces.SessionDisplay` | script.js:71-78 | within one session, a stream of posts adds its length to `all`; the first matching post of each new URL is counted, joins `seen` and is shown; the output is those posts newest-first, above what was already there |
| `Hose.RedeliveryScenario` | script.js:46-78 | two servers connect and "cats" is set; a matching post is delivered twice and appears once, with the counters at 2 connected, 2 seen and 1 matched |
| `Hose.DeleteFrameScenario` | script.js:46-51 | a `delete` frame is not counted |
| `Hose.RequeryScenario` | script.js:23-78 | after the pattern changes from "cats" to "dogs", the counters restart, and a URL already shown under "cats" is shown again |
| `Hose.RejectedPatternScenario` | script.js:23-35 | a pattern that does not compile clears `seen` but keeps the matcher and the output, so a post already on screen is shown again |

## Left out

- Opening the WebSocket, the subscribe message and the try/catch that logs a failed connection (script.js:43-44, 56-63) are network I/O. Opens and frames are abstract events, and each callback is one atomic method call.
- Decoding a frame's envelope and payload with `JSON.parse` (script.js:47, 49) is left out. Frames arrive already decoded, so a malformed frame, which the code lets throw inside the callback, is not modelled.
- Incomplete payloads are not modelled either, because every field of the `Toot` datatype is mandatory. In the code, two such payloads throw part-way through and leave partial effects:
  - A `null` payload throws at script.js:74, after `all` went up at script.js:73.
  - A payload without `account` throws at script.js:104. By then `match` went up (script.js:76) and the URL joined `seen` (script.js:88), but the post was never prepended (script.js:114). The post is then counted and seen but never shown, so `match` exceeds the number of posts shown.
- `RegExp` semantics and the case-insensitive flag are left out. A pattern's compilation and its test are the two functions of `RegexEngine`.
- The DOM construction in `displayToot` (script.js:90-112) and the `innerHTML` strings are presentation. Only the placeholder flag and the newest-first order of the output are kept.
- The server list, the global object, the form handler and the one-second statistics string (script.js:127-152) are configuration and UI.
- `getStats` returns a live reference to the counter object in the code. The model returns a copy of the three values.
- The counters are JavaScript numbers, which lose precision above 2^53. The model uses unbounded naturals.
- The model keeps no per-socket state. An open event is not tied to a server, so the model does not bound `conn` by the number of servers.
