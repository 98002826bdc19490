/**
 * The result-assembly pipeline of the recommendation gateway
 * (backend/main.py): the embedding call with its bounded retry, the hybrid
 * fill of the "api" model (chat-suggested titles resolved by keyword search,
 * then vector backfill to twelve tiles), the internal model (vector search
 * with a keyword fallback), the personalised route, and the neighbour list.
 *
 * Every upstream is an input: the embedding service is an oracle over
 * attempts, the chat-completion reply and its JSON decoding are parameters,
 * and the vector store is a `Store` of functions. An upstream call that raises
 * inside one of the source's try/except wrappers is `None` in the oracle's
 * answer.
 */
module Gateway {
  import opened Base
  import opened Text
  import opened Retry
  import opened LlmText

  /** Which credentials the environment supplied at start-up. */
  datatype Config = Config(hfToken: bool, openRouterKey: bool)

  /** A vector-store point id: an unsigned integer or a UUID string. */
  datatype PointId = IntId(n: nat) | UuidId(u: Str)

  /** Python `str(id)`. */
  function IdText(id: PointId): Str
  {
    match id
    case IntId(n) => Decimal(n)
    case UuidId(u) => u
  }

  type Payload = map<Str, Json>

  /** A point as the store returns it: `score` is absent for the records of a
      keyword scroll and present for nearest-neighbour hits. */
  datatype Hit = Hit(id: PointId, score: Option<real>, payload: Payload)

  /** One tile of a response: the hit's payload with its "id" and "score"
      keys set to `id` and `score`. */
  datatype Item = Item(id: PointId, score: int, payload: Payload)

  /** The vector store. `matches(q)`: every point whose title matches `q`, in
      scroll order; `ranked(v)`: every point, nearest to `v` first;
      `retrieve(id)`: the stored vectors of the points fetched for `id`. A
      `None` answer is a call that raised. The store honours a limit by
      returning the first `limit` entries. */
  datatype Store = Store(
    matches: Str -> Option<seq<Hit>>,
    ranked: seq<Json> -> Option<seq<Hit>>,
    retrieve: Str -> Option<seq<seq<Json>>>)

  /** The chat-completion exchange: the request raised, or a reply with a
      status and the message content (`None` when the body lacks it, which
      raises in the source). */
  datatype ChatReply = ChatRaised | ChatReply(status: int, content: Option<Str>)

  /** A recommendation request: `model` selects the route. */
  datatype Request = Request(text: Str, topK: int, model: Str)

  datatype Failure = RetrieveRaised

  const Quota: nat := 12
  const OverFetch: nat := 5
  const NeighbourFetch: nat := 13
  const DiscoveryScore: int := 99
  const BackfillFallback: int := 65
  const InternalFallback: int := 0
  const KeywordScore: int := 80
  const NeighbourScore: int := 95
  const ApiModel: Str := "api"
  const InternalModel: Str := "internal"

  // ---------------------------------------------------------------------
  // Store wrappers

  /** `keyword_search(query, limit)`: a store failure yields no hits. */
  function KeywordSearch(store: Store, query: Str, limit: nat): (hits: seq<Hit>)
    ensures |hits| <= limit
  {
    match store.matches(query)
    case None => []
    case Some(all) => Take(all, limit)
  }

  /** `safe_vector_search(vector, limit)`: a store failure, including the
      rejection of a non-positive limit, yields no hits. */
  function VectorSearch(store: Store, vector: seq<Json>, limit: int): (hits: seq<Hit>)
    ensures limit <= 0 ==> hits == []
    ensures limit > 0 ==> |hits| <= limit
  {
    if limit <= 0 then []
    else match store.ranked(vector)
      case None => []
      case Some(all) => Take(all, limit)
  }

  // ---------------------------------------------------------------------
  // Embedding

  /** What `get_embedding` yields: nothing and no attempt without a token,
      otherwise the retry loop over the service's answers. */
  function Embedding(cfg: Config, answer: nat -> Response): Outcome
  {
    if !cfg.hfToken then Outcome(None, 0) else Run(GatewayStep, answer)
  }

  /** Callers test the vector with `if vector`: an empty list counts as a
      failure. */
  predicate Usable(v: Option<seq<Json>>)
  {
    v.Some? && |v.value| > 0
  }

  method GetEmbedding(cfg: Config, answer: nat -> Response) returns (vector: Option<seq<Json>>, attempts: nat)
    ensures Outcome(vector, attempts) == Embedding(cfg, answer)
  {
    vector, attempts := None, 0;
    if !cfg.hfToken {
      return;
    }
    var attempt := 0;
    while attempt < MaxAttempts
      invariant attempt <= MaxAttempts
      invariant vector == None && attempts == attempt
      invariant RunFrom(GatewayStep, answer, attempt) == RunFrom(GatewayStep, answer, 0)
    {
      attempts := attempt + 1;
      var response := answer(attempt);
      if response.Raised? {
        break;
      }
      if response.status == StatusOk {
        if response.body.None? {
          break;
        }
        var data := response.body.value;
        if data.JArray? {
          if |data.elems| > 0 && data.elems[0].JArray? {
            vector := Some(data.elems[0].elems);
          } else {
            vector := Some(data.elems);
          }
          return;
        }
      }
      if response.status == StatusWarmingUp {
        attempt := attempt + 1;
        continue;
      }
      break;
    }
  }

  /** The retry policy of `get_embedding`: no attempt without a token; at most
      three attempts, every one but the last answered 503; a transport error
      or a status other than 200 and 503 on the first attempt ends the call
      at once without a vector; a vector comes only from a 200 list reply. */
  lemma EmbeddingPolicy(cfg: Config, answer: nat -> Response)
    ensures var o := Embedding(cfg, answer);
      && (!cfg.hfToken ==> o == Outcome(None, 0))
      && (cfg.hfToken ==> 1 <= o.attempts <= MaxAttempts)
      && (forall j :: 0 <= j < o.attempts - 1 ==> IsWarmingUp(answer(j)))
      && ((cfg.hfToken && (answer(0).Raised? || answer(0).status !in {StatusOk, StatusWarmingUp}))
            ==> o == Outcome(None, 1))
      && (o.vector.Some? ==> answer(o.attempts - 1).Reply? && answer(o.attempts - 1).status == StatusOk)
  {
    if cfg.hfToken {
      RetryPolicy(false, answer);
    }
  }

  /** How a 200 reply is unwrapped: a batch of one yields the inner vector, a
      flat list is returned as it is, and an empty list is returned but is
      not usable. */
  lemma EmbeddingUnwrap(cfg: Config, answer: nat -> Response, v: seq<Json>)
    requires cfg.hfToken
    ensures answer(0) == Reply(StatusOk, Some(JArray([JArray(v)]))) ==>
      Embedding(cfg, answer) == Outcome(Some(v), 1)
    ensures answer(0) == Reply(StatusOk, Some(JArray(v))) && (v == [] || !v[0].JArray?) ==>
      Embedding(cfg, answer) == Outcome(Some(v), 1)
    ensures answer(0) == Reply(StatusOk, Some(JArray([]))) ==>
      !Usable(Embedding(cfg, answer).vector)
  {
  }

  // ---------------------------------------------------------------------
  // Scores

  /** Python `int(x)`: truncation toward zero. */
  function Truncate(x: real): int
  {
    if x >= 0.0 then x.Floor else -((-x).Floor)
  }

  /** Truncation moves toward zero by less than one. */
  lemma TruncateContract(x: real)
    ensures 0.0 <= x ==> Truncate(x) as real <= x < Truncate(x) as real + 1.0
    ensures x < 0.0 ==> Truncate(x) as real - 1.0 < x <= Truncate(x) as real
  {
  }

  /** `int(score * 100) if score else fallback`: a missing or zero score
      gives the fallback. */
  function Percent(score: Option<real>, fallback: int): int
  {
    if score.None? || score.value == 0.0 then fallback else Truncate(score.value * 100.0)
  }

  /** A similarity in [0, 1] becomes a percentage in [0, 100], truncated
      (never rounded up), and a higher similarity never scores lower. */
  lemma PercentOfSimilarity(a: real, b: real, fallback: int)
    requires 0.0 < a <= b <= 1.0
    ensures 0 <= Percent(Some(a), fallback) <= Percent(Some(b), fallback) <= 100
    ensures Percent(Some(a), fallback) as real <= a * 100.0 < Percent(Some(a), fallback) as real + 1.0
  {
    TruncateContract(a * 100.0);
    TruncateContract(b * 100.0);
  }

  /** The tiles for `hits`, each with the same fixed score. */
  function Fixed(hits: seq<Hit>, score: int): (r: seq<Item>)
    ensures |r| == |hits|
  {
    seq(|hits|, i requires 0 <= i < |hits| => Item(hits[i].id, score, hits[i].payload))
  }

  /** The tiles for `hits`, each scored by its similarity. */
  function Scored(hits: seq<Hit>, fallback: int): (r: seq<Item>)
    ensures |r| == |hits|
  {
    seq(|hits|, i requires 0 <= i < |hits| => Item(hits[i].id, Percent(hits[i].score, fallback), hits[i].payload))
  }

  // ---------------------------------------------------------------------
  // Identity sets

  /** The ids of a list of tiles, gathered front to back. */
  function IdSet(items: seq<Item>): set<PointId>
    decreases |items|
  {
    if items == [] then {} else IdSet(items[..|items| - 1]) + {items[|items| - 1].id}
  }

  /** Every tile's id is among the gathered ids. */
  lemma {:induction false} IdSetHas(items: seq<Item>, k: nat)
    requires k < |items|
    ensures items[k].id in IdSet(items)
    decreases |items|
  {
    var n := |items|;
    if k < n - 1 {
      assert items[..n - 1][k] == items[k];
      IdSetHas(items[..n - 1], k);
    }
  }

  predicate DistinctIds(items: seq<Item>)
  {
    forall i, j :: 0 <= i < j < |items| ==> items[i].id != items[j].id
  }

  lemma IdSetAppend(items: seq<Item>, x: Item)
    ensures IdSet(items + [x]) == IdSet(items) + {x.id}
  {
    assert (items + [x])[..|items|] == items;
  }

  lemma {:induction false} IdSetCons(x: Item, items: seq<Item>)
    ensures IdSet([x] + items) == {x.id} + IdSet(items)
    decreases |items|
  {
    var s := [x] + items;
    if items == [] {
      assert s[..0] == [];
    } else {
      var n := |items|;
      assert s[..|s| - 1] == [x] + items[..n - 1];
      IdSetCons(x, items[..n - 1]);
    }
  }

  /** Two lists with distinct ids and no id in common concatenate into a
      list with distinct ids. */
  lemma DistinctConcat(a: seq<Item>, b: seq<Item>)
    requires DistinctIds(a) && DistinctIds(b) && IdSet(a) !! IdSet(b)
    ensures DistinctIds(a + b)
  {
    var s := a + b;
    forall i, j | 0 <= i < j < |s|
      ensures s[i].id != s[j].id
    {
      if i < |a| && j >= |a| {
        IdSetHas(a, i);
        IdSetHas(b, j - |a|);
        assert s[j] == b[j - |a|];
      }
    }
  }

  // ---------------------------------------------------------------------
  // Discovery: chat-suggested titles resolved against the catalogue

  /** The JSON list the chat reply yields: empty without a key, on a
      transport error, a non-200 status, a body without content, text with
      no bracketed span, or a span that does not decode (`parse` is
      `json.loads`). */
  function DiscoveredTitles(cfg: Config, reply: ChatReply, parse: Str -> Option<seq<Json>>): seq<Json>
  {
    if !cfg.openRouterKey then []
    else match reply
      case ChatRaised => []
      case ChatReply(status, content) =>
        if status != StatusOk || content.None? then []
        else match FindBracketed(Clean(content.value))
          case None => []
          case Some(span) =>
            match parse(span)
            case None => []
            case Some(titles) => titles
  }

  /** `keyword_search(t, limit=1)`; a title that is not a string makes the
      search raise, which the wrapper turns into no hits. */
  function TitleHits(store: Store, title: Json): (hits: seq<Hit>)
    ensures |hits| <= 1
  {
    if title.JString? then KeywordSearch(store, title.s, 1) else []
  }

  /** The first keyword hit of each title that has one, in title order,
      scored 99. */
  function Candidates(store: Store, titles: seq<Json>): (r: seq<Item>)
    ensures |r| <= |titles|
    decreases |titles|
  {
    if titles == [] then []
    else
      var hits := TitleHits(store, titles[0]);
      (if |hits| > 0 then [Item(hits[0].id, DiscoveryScore, hits[0].payload)] else [])
      + Candidates(store, titles[1..])
  }

  /** Every candidate is scored 99. */
  lemma {:induction false} CandidatesScored(store: Store, titles: seq<Json>)
    ensures forall k :: 0 <= k < |Candidates(store, titles)| ==> Candidates(store, titles)[k].score == DiscoveryScore
    decreases |titles|
  {
    if titles != [] {
      var hits := TitleHits(store, titles[0]);
      var rest := Candidates(store, titles[1..]);
      CandidatesScored(store, titles[1..]);
      if |hits| > 0 {
        var item := Item(hits[0].id, DiscoveryScore, hits[0].payload);
        assert Candidates(store, titles) == [item] + rest;
      } else {
        assert Candidates(store, titles) == rest;
      }
    }
  }

  /** Keep the first item of each id not in `seen`, in order. */
  function Dedup(items: seq<Item>, seen: set<PointId>): (r: seq<Item>)
    ensures |r| <= |items|
    decreases |items|
  {
    if items == [] then []
    else if items[0].id in seen then Dedup(items[1..], seen)
    else [items[0]] + Dedup(items[1..], seen + {items[0].id})
  }

  /** The deduplicated list has distinct ids, none of them in `seen`, keeps
      the input order, and keeps every id of the input not in `seen`. */
  lemma {:induction false} DedupContract(items: seq<Item>, seen: set<PointId>)
    ensures var r := Dedup(items, seen);
      && DistinctIds(r)
      && IdSet(r) !! seen
      && Subseq(r, items)
      && forall k :: 0 <= k < |items| && items[k].id !in seen ==> items[k].id in IdSet(r)
    decreases |items|
  {
    if items != [] {
      var x, tail := items[0], items[1..];
      assert forall k :: 1 <= k < |items| ==> items[k] == tail[k - 1];
      if x.id in seen {
        DedupContract(tail, seen);
      } else {
        var rest := Dedup(tail, seen + {x.id});
        DedupContract(tail, seen + {x.id});
        IdSetCons(x, rest);
        ConsDistinct(x, rest);
        assert ([x] + rest)[1..] == rest;
      }
    }
  }

  /** Putting an item with a fresh id in front keeps the ids distinct. */
  lemma ConsDistinct(x: Item, rest: seq<Item>)
    requires DistinctIds(rest) && x.id !in IdSet(rest)
    ensures DistinctIds([x] + rest)
  {
    var s := [x] + rest;
    forall i, j | 0 <= i < j < |s|
      ensures s[i].id != s[j].id
    {
      assert s[j] == rest[j - 1];
      if i == 0 {
        IdSetHas(rest, j - 1);
      } else {
        assert s[i] == rest[i - 1];
      }
    }
  }

  // ---------------------------------------------------------------------
  // Backfill

  /** Vector hits appended after `count` discovered tiles: hits whose id was
      seen are skipped, each new one is scored by similarity (65 when the
      score is missing or zero), and the loop stops once the list holds
      twelve tiles. */
  function Backfill(hits: seq<Hit>, seen: set<PointId>, count: nat): (r: seq<Item>)
    requires count < Quota
    ensures count + |r| <= Quota
    decreases |hits|
  {
    if hits == [] then []
    else
      var h := hits[0];
      var item := Item(h.id, Percent(h.score, BackfillFallback), h.payload);
      if h.id in seen then Backfill(hits[1..], seen, count)
      else if count + 1 >= Quota then [item]
      else [item] + Backfill(hits[1..], seen + {h.id}, count + 1)
  }

  /** The backfilled tiles have distinct ids, none seen before, are the
      similarity-scored hits in hit order with some skipped, and the backfill
      stops short of the quota only when every hit's id was taken. */
  lemma BackfillContract(hits: seq<Hit>, seen: set<PointId>, count: nat)
    requires count < Quota
    ensures var r := Backfill(hits, seen, count);
      && DistinctIds(r)
      && IdSet(r) !! seen
      && Subseq(r, Scored(hits, BackfillFallback))
      && (count + |r| < Quota ==> forall k :: 0 <= k < |hits| ==> hits[k].id in seen + IdSet(r))
  {
    BackfillFresh(hits, seen, count);
    BackfillOrder(hits, seen, count);
    BackfillCovers(hits, seen, count);
  }

  lemma {:induction false} BackfillFresh(hits: seq<Hit>, seen: set<PointId>, count: nat)
    requires count < Quota
    ensures DistinctIds(Backfill(hits, seen, count)) && IdSet(Backfill(hits, seen, count)) !! seen
    decreases |hits|
  {
    if hits != [] {
      var h := hits[0];
      var item := Item(h.id, Percent(h.score, BackfillFallback), h.payload);
      if h.id in seen {
        BackfillFresh(hits[1..], seen, count);
      } else if count + 1 >= Quota {
        IdSetCons(item, []);
      } else {
        var rest := Backfill(hits[1..], seen + {h.id}, count + 1);
        BackfillFresh(hits[1..], seen + {h.id}, count + 1);
        IdSetCons(item, rest);
        ConsDistinct(item, rest);
      }
    }
  }

  lemma {:induction false} BackfillOrder(hits: seq<Hit>, seen: set<PointId>, count: nat)
    requires count < Quota
    ensures Subseq(Backfill(hits, seen, count), Scored(hits, BackfillFallback))
    decreases |hits|
  {
    if hits != [] {
      var h, tail := hits[0], hits[1..];
      var item := Item(h.id, Percent(h.score, BackfillFallback), h.payload);
      assert Scored(hits, BackfillFallback) == [item] + Scored(tail, BackfillFallback);
      if h.id in seen {
        BackfillOrder(tail, seen, count);
        SubseqSkip(Backfill(tail, seen, count), Scored(hits, BackfillFallback));
      } else if count + 1 >= Quota {
        assert Subseq([item][1..], Scored(tail, BackfillFallback));
      } else {
        var rest := Backfill(tail, seen + {h.id}, count + 1);
        BackfillOrder(tail, seen + {h.id}, count + 1);
        assert ([item] + rest)[1..] == rest;
      }
    }
  }

  lemma {:induction false} BackfillCovers(hits: seq<Hit>, seen: set<PointId>, count: nat)
    requires count < Quota
    ensures var r := Backfill(hits, seen, count);
      count + |r| < Quota ==> forall k :: 0 <= k < |hits| ==> hits[k].id in seen + IdSet(r)
    decreases |hits|
  {
    if hits != [] {
      var h, tail := hits[0], hits[1..];
      var item := Item(h.id, Percent(h.score, BackfillFallback), h.payload);
      assert forall k :: 1 <= k < |hits| ==> hits[k] == tail[k - 1];
      if h.id in seen {
        BackfillCovers(tail, seen, count);
      } else if count + 1 < Quota {
        var rest := Backfill(tail, seen + {h.id}, count + 1);
        BackfillCovers(tail, seen + {h.id}, count + 1);
        IdSetCons(item, rest);
      }
    }
  }

  /** At least `need` hits, none with an id in `seen`, no two with one id. */
  predicate FreshHits(hits: seq<Hit>, seen: set<PointId>, need: nat)
  {
    && |hits| >= need
    && (forall k :: 0 <= k < |hits| ==> hits[k].id !in seen)
    && (forall i, j :: 0 <= i < j < |hits| ==> hits[i].id != hits[j].id)
  }

  /** With enough fresh hits of distinct ids, the backfill fills the list up
      to exactly twelve. */
  lemma {:induction false} BackfillFillsQuota(hits: seq<Hit>, seen: set<PointId>, count: nat)
    requires count < Quota
    requires FreshHits(hits, seen, Quota - count)
    ensures |Backfill(hits, seen, count)| == Quota - count
    decreases |hits|
  {
    var h := hits[0];
    if count + 1 < Quota {
      forall k | 0 <= k < |hits[1..]|
        ensures hits[1..][k].id !in seen + {h.id}
      {
        assert hits[1..][k] == hits[k + 1];
      }
      forall i, j | 0 <= i < j < |hits[1..]|
        ensures hits[1..][i].id != hits[1..][j].id
      {
        assert hits[1..][i] == hits[i + 1] && hits[1..][j] == hits[j + 1];
      }
      BackfillFillsQuota(hits[1..], seen + {h.id}, count + 1);
    }
  }

  // ---------------------------------------------------------------------
  // The hybrid fill (`get_llm_recommendations`)

  /** Step 1's tiles for the suggested titles: the first keyword hit of
      each, scored 99, without repeated ids. */
  function Discovered(store: Store, titles: seq<Json>): seq<Item>
  {
    Dedup(Candidates(store, titles), {})
  }

  /** Step 2's tiles: when fewer than twelve were found and the embedding
      `v` is usable, the backfill from `12 - found + 5` vector hits;
      otherwise none. */
  function BackfillPart(found: seq<Item>, store: Store, v: Option<seq<Json>>): (b: seq<Item>)
    ensures |found| < Quota ==> |found| + |b| <= Quota
    ensures |found| >= Quota ==> b == []
  {
    if |found| < Quota && Usable(v) then
      Backfill(VectorSearch(store, v.value, Quota - |found| + OverFetch), IdSet(found), |found|)
    else []
  }

  /** The hybrid fill for suggested titles and a query embedding: the
      discovered tiles, then the backfilled ones. */
  function Fill(store: Store, titles: seq<Json>, v: Option<seq<Json>>): seq<Item>
  {
    var found := Discovered(store, titles);
    found + BackfillPart(found, store, v)
  }

  /** `get_llm_recommendations`: the fill for the titles the chat reply
      yields and the embedding `get_embedding` yields. */
  function HybridFill(cfg: Config, reply: ChatReply, parse: Str -> Option<seq<Json>>, store: Store,
                      embed: nat -> Response): seq<Item>
  {
    Fill(store, DiscoveredTitles(cfg, reply, parse), Embedding(cfg, embed).vector)
  }

  /** Dedup unfolded at one leading item. */
  lemma DedupCons(x: Item, rest: seq<Item>, seen: set<PointId>)
    ensures Dedup([x] + rest, seen) ==
      if x.id in seen then Dedup(rest, seen) else [x] + Dedup(rest, seen + {x.id})
  {
    assert ([x] + rest)[0] == x && ([x] + rest)[1..] == rest;
  }

  /** Step 1 of `get_llm_recommendations`: each title's first keyword hit is
      added unless its id was already added. */
  method ResolveTitles(store: Store, titles: seq<Json>) returns (results: seq<Item>, seen: set<PointId>)
    ensures results == Dedup(Candidates(store, titles), {})
    ensures seen == IdSet(results)
  {
    results, seen := [], {};
    var i := 0;
    while i < |titles|
      invariant 0 <= i <= |titles|
      invariant ResolveFrom(store, titles[i..], results) == ResolveFrom(store, titles, [])
      invariant seen == IdSet(results)
    {
      assert titles[i..][0] == titles[i] && titles[i..][1..] == titles[i + 1..];
      var hits := TitleHits(store, titles[i]);
      if |hits| > 0 {
        var h := hits[0];
        if h.id !in seen {
          IdSetAppend(results, Item(h.id, DiscoveryScore, h.payload));
          results := results + [Item(h.id, DiscoveryScore, h.payload)];
          seen := seen + {h.id};
        }
      }
      i := i + 1;
    }
    assert titles[i..] == [];
    ResolveFromDedup(store, titles, []);
    assert [] + Dedup(Candidates(store, titles), {}) == Dedup(Candidates(store, titles), {});
  }

  /** The list step 1 ends with when it starts from `results` on `titles`. */
  function ResolveFrom(store: Store, titles: seq<Json>, results: seq<Item>): seq<Item>
    decreases |titles|
  {
    if titles == [] then results
    else
      var hits := TitleHits(store, titles[0]);
      if |hits| > 0 && hits[0].id !in IdSet(results)
      then ResolveFrom(store, titles[1..], results + [Item(hits[0].id, DiscoveryScore, hits[0].payload)])
      else ResolveFrom(store, titles[1..], results)
  }

  /** Step 1 appends the deduplicated candidates of the remaining titles. */
  lemma {:induction false} ResolveFromDedup(store: Store, titles: seq<Json>, results: seq<Item>)
    ensures ResolveFrom(store, titles, results) == results + Dedup(Candidates(store, titles), IdSet(results))
    decreases |titles|
  {
    if titles == [] {
      assert results + [] == results;
    } else {
      var hits := TitleHits(store, titles[0]);
      var rest := Candidates(store, titles[1..]);
      DedupCandidates(store, titles, IdSet(results));
      if |hits| > 0 && hits[0].id !in IdSet(results) {
        var item := Item(hits[0].id, DiscoveryScore, hits[0].payload);
        IdSetAppend(results, item);
        ResolveFromDedup(store, titles[1..], results + [item]);
        assert (results + [item]) + Dedup(rest, IdSet(results) + {item.id})
               == results + ([item] + Dedup(rest, IdSet(results) + {item.id}));
      } else {
        ResolveFromDedup(store, titles[1..], results);
      }
    }
  }

  /** Deduplicating the candidates of a non-empty title list: the first
      title's hit is kept exactly when it has one whose id is not seen. */
  lemma DedupCandidates(store: Store, titles: seq<Json>, seen: set<PointId>)
    requires titles != []
    ensures var hits := TitleHits(store, titles[0]);
      var rest := Candidates(store, titles[1..]);
      Dedup(Candidates(store, titles), seen) ==
        if |hits| > 0 && hits[0].id !in seen
        then [Item(hits[0].id, DiscoveryScore, hits[0].payload)] + Dedup(rest, seen + {hits[0].id})
        else Dedup(rest, seen)
  {
    var hits := TitleHits(store, titles[0]);
    var rest := Candidates(store, titles[1..]);
    if |hits| > 0 {
      var item := Item(hits[0].id, DiscoveryScore, hits[0].payload);
      assert Candidates(store, titles) == [item] + rest;
      DedupCons(item, rest, seen);
    } else {
      assert Candidates(store, titles) == rest;
    }
  }

  /** Step 2 of `get_llm_recommendations`: vector hits are appended, skipping
      seen ids, until the list holds twelve tiles. */
  method BackfillFrom(hits: seq<Hit>, found: seq<Item>) returns (results: seq<Item>)
    requires |found| < Quota
    ensures results == found + Backfill(hits, IdSet(found), |found|)
  {
    results := found;
    var seen := IdSet(found);
    var j := 0;
    while j < |hits|
      invariant 0 <= j <= |hits|
      invariant |results| < Quota
      invariant seen == IdSet(results)
      invariant BackfillFromState(hits[j..], results, seen) == BackfillFromState(hits, found, IdSet(found))
    {
      var h := hits[j];
      assert hits[j..][0] == h && hits[j..][1..] == hits[j + 1..];
      if h.id !in seen {
        var item := Item(h.id, Percent(h.score, BackfillFallback), h.payload);
        IdSetAppend(results, item);
        results := results + [item];
        seen := seen + {h.id};
        if |results| >= Quota {
          break;
        }
      }
      j := j + 1;
    }
    BackfillFromStateSpec(hits, found);
  }

  /** The list step 2 ends with when it starts from `results` and `seen`
      on `hits`. */
  function BackfillFromState(hits: seq<Hit>, results: seq<Item>, seen: set<PointId>): seq<Item>
    requires |results| < Quota
    decreases |hits|
  {
    if hits == [] then results
    else
      var h := hits[0];
      var item := Item(h.id, Percent(h.score, BackfillFallback), h.payload);
      if h.id in seen then BackfillFromState(hits[1..], results, seen)
      else if |results| + 1 >= Quota then results + [item]
      else BackfillFromState(hits[1..], results + [item], seen + {h.id})
  }

  /** Step 2 appends the backfill of the hits to the starting list. */
  lemma {:induction false} BackfillFromStateSpec(hits: seq<Hit>, results: seq<Item>)
    requires |results| < Quota
    ensures BackfillFromState(hits, results, IdSet(results)) == results + Backfill(hits, IdSet(results), |results|)
    decreases |hits|
  {
    if hits == [] {
      assert results + [] == results;
    } else {
      var h := hits[0];
      var item := Item(h.id, Percent(h.score, BackfillFallback), h.payload);
      if h.id !in IdSet(results) && |results| + 1 < Quota {
        IdSetAppend(results, item);
        BackfillFromStateSpec(hits[1..], results + [item]);
        assert (results + [item]) + Backfill(hits[1..], IdSet(results) + {h.id}, |results| + 1)
               == results + ([item] + Backfill(hits[1..], IdSet(results) + {h.id}, |results| + 1));
      } else if h.id in IdSet(results) {
        BackfillFromStateSpec(hits[1..], results);
      }
    }
  }

  method LlmRecommendations(cfg: Config, reply: ChatReply, parse: Str -> Option<seq<Json>>, store: Store,
                            embed: nat -> Response) returns (results: seq<Item>)
    ensures results == HybridFill(cfg, reply, parse, store, embed)
  {
    var titles := DiscoveredTitles(cfg, reply, parse);
    var found, _ := ResolveTitles(store, titles);
    results := FillRemaining(cfg, found, store, embed);
  }

  /** Step 2 of `get_llm_recommendations` with its guard: with fewer than
      twelve tiles found, fetch an embedding and, when it is usable, backfill
      from `12 - found + 5` vector hits. */
  method FillRemaining(cfg: Config, found: seq<Item>, store: Store, embed: nat -> Response)
    returns (results: seq<Item>)
    ensures results == found + BackfillPart(found, store, Embedding(cfg, embed).vector)
  {
    results := found;
    var slotsNeeded := Quota - |found|;
    if slotsNeeded > 0 {
      var vector, _ := GetEmbedding(cfg, embed);
      if vector.Some? && |vector.value| > 0 {
        var hits := VectorSearch(store, vector.value, slotsNeeded + OverFetch);
        results := BackfillFrom(hits, found);
      } else {
        assert found + [] == found;
      }
    } else {
      assert found + [] == found;
    }
  }

  /** What the hybrid fill promises: the discovered tiles come first, each
      scored 99; the list is never longer than twelve unless discovery alone
      found more, in which case no backfill happens. */
  lemma FillShape(store: Store, titles: seq<Json>, v: Option<seq<Json>>)
    ensures var r := Fill(store, titles, v);
      var found := Discovered(store, titles);
      && |found| <= |r|
      && r[..|found|] == found
      && (forall k :: 0 <= k < |found| ==> r[k].score == DiscoveryScore)
      && |r| <= (if |found| < Quota then Quota else |found|)
      && (|found| >= Quota ==> r == found)
  {
    var found := Discovered(store, titles);
    DedupContract(Candidates(store, titles), {});
    CandidatesScored(store, titles);
    SubseqScores(found, Candidates(store, titles));
    var b := BackfillPart(found, store, v);
    assert (found + b)[..|found|] == found;
  }

  /** Ids are pairwise distinct across both phases of the hybrid fill. */
  lemma FillDistinct(store: Store, titles: seq<Json>, v: Option<seq<Json>>)
    ensures DistinctIds(Fill(store, titles, v))
  {
    var found := Discovered(store, titles);
    DedupContract(Candidates(store, titles), {});
    if |found| < Quota && Usable(v) {
      var hits := VectorSearch(store, v.value, Quota - |found| + OverFetch);
      BackfillContract(hits, IdSet(found), |found|);
      DistinctConcat(found, Backfill(hits, IdSet(found), |found|));
    } else {
      assert Fill(store, titles, v) == found;
    }
  }

  /** The backfilled tiles are similarity-scored vector hits in hit order. */
  lemma FillOrder(store: Store, titles: seq<Json>, v: Option<seq<Json>>)
    requires |Discovered(store, titles)| < Quota
    requires Usable(v)
    ensures var found := Discovered(store, titles);
      Subseq(Fill(store, titles, v)[|found|..],
             Scored(VectorSearch(store, v.value, Quota - |found| + OverFetch), BackfillFallback))
  {
    var found := Discovered(store, titles);
    var hits := VectorSearch(store, v.value, Quota - |found| + OverFetch);
    BackfillContract(hits, IdSet(found), |found|);
    assert Fill(store, titles, v)[|found|..] == Backfill(hits, IdSet(found), |found|);
  }

  /** A subsequence of tiles all scored 99 is itself scored 99. */
  lemma {:induction false} SubseqScores(a: seq<Item>, b: seq<Item>)
    requires Subseq(a, b)
    requires forall k :: 0 <= k < |b| ==> b[k].score == DiscoveryScore
    ensures forall k :: 0 <= k < |a| ==> a[k].score == DiscoveryScore
    decreases |b|
  {
    if a != [] {
      assert b != [];
      if a[0] == b[0] && Subseq(a[1..], b[1..]) {
        SubseqScores(a[1..], b[1..]);
        assert forall k :: 1 <= k < |a| ==> a[k] == a[1..][k - 1];
      } else {
        SubseqScores(a, b[1..]);
      }
    }
  }

  /** Discovery yielding k < 12 tiles and a backfill offering at least
      12 - k fresh hits with distinct ids gives exactly twelve tiles. */
  lemma FillReachesTwelve(store: Store, titles: seq<Json>, v: Option<seq<Json>>)
    requires |Discovered(store, titles)| < Quota
    requires Usable(v)
    requires FreshHits(VectorSearch(store, v.value, Quota - |Discovered(store, titles)| + OverFetch),
                       IdSet(Discovered(store, titles)), Quota - |Discovered(store, titles)|)
    ensures |Fill(store, titles, v)| == Quota
  {
    var found := Discovered(store, titles);
    BackfillFillsQuota(VectorSearch(store, v.value, Quota - |found| + OverFetch), IdSet(found), |found|);
  }

  /** With no chat key and no embedding token the hybrid fill is empty. */
  lemma HybridFillWithoutCredentials(reply: ChatReply, parse: Str -> Option<seq<Json>>, store: Store,
                                     embed: nat -> Response)
    ensures HybridFill(Config(false, false), reply, parse, store, embed) == []
  {
  }

  // ---------------------------------------------------------------------
  // Routes

  /** `recommend`: the hybrid fill for the "api" model; otherwise the vector
      hits (`top_k` of them, scored by similarity, 0 when missing or zero,
      no deduplication), or, when the embedding is unusable, up to twelve
      keyword hits scored 80. */
  function Recommendation(cfg: Config, reply: ChatReply, parse: Str -> Option<seq<Json>>, store: Store,
                          embed: nat -> Response, req: Request): seq<Item>
  {
    if req.model == ApiModel then HybridFill(cfg, reply, parse, store, embed)
    else
      var v := Embedding(cfg, embed).vector;
      if !Usable(v) then Fixed(KeywordSearch(store, req.text, Quota), KeywordScore)
      else Scored(VectorSearch(store, v.value, req.topK), InternalFallback)
  }

  method Recommend(cfg: Config, reply: ChatReply, parse: Str -> Option<seq<Json>>, store: Store,
                   embed: nat -> Response, req: Request) returns (results: seq<Item>)
    ensures results == Recommendation(cfg, reply, parse, store, embed, req)
  {
    if req.model == ApiModel {
      results := LlmRecommendations(cfg, reply, parse, store, embed);
      return;
    }
    var vector, _ := GetEmbedding(cfg, embed);
    if !(vector.Some? && |vector.value| > 0) {
      // Emergency keyword fallback.
      var hits := KeywordSearch(store, req.text, Quota);
      results := [];
      for i := 0 to |hits|
        invariant results == Fixed(hits[..i], KeywordScore)
      {
        results := results + [Item(hits[i].id, KeywordScore, hits[i].payload)];
      }
      assert hits[..|hits|] == hits;
      return;
    }
    var hits := VectorSearch(store, vector.value, req.topK);
    results := [];
    for i := 0 to |hits|
      invariant results == Scored(hits[..i], InternalFallback)
    {
      results := results + [Item(hits[i].id, Percent(hits[i].score, InternalFallback), hits[i].payload)];
    }
    assert hits[..|hits|] == hits;
  }

  /** The internal route: with an unusable embedding, at most twelve keyword
      tiles, each scored 80, in scroll order; otherwise exactly one tile per
      vector hit, in store order, never more than `top_k`. */
  lemma InternalRouteContract(cfg: Config, reply: ChatReply, parse: Str -> Option<seq<Json>>, store: Store,
                              embed: nat -> Response, req: Request)
    requires req.model != ApiModel
    ensures var r := Recommendation(cfg, reply, parse, store, embed, req);
      var v := Embedding(cfg, embed).vector;
      && (!Usable(v) ==>
            var hits := KeywordSearch(store, req.text, Quota);
            |r| == |hits| <= Quota
            && forall k :: 0 <= k < |r| ==> r[k].id == hits[k].id && r[k].score == KeywordScore)
      && (Usable(v) ==>
            var hits := VectorSearch(store, v.value, req.topK);
            |r| == |hits| && |r| <= (if req.topK < 0 then 0 else req.topK)
            && forall k :: 0 <= k < |r| ==> r[k].id == hits[k].id && r[k].score == Percent(hits[k].score, 0))
  {
  }

  /** `personalized`: the "api" model goes to the hybrid fill, any other
      model to `recommend` with the model set to "internal". Either way the
      tiles are those `recommend` gives for the same request. */
  method Personalized(cfg: Config, reply: ChatReply, parse: Str -> Option<seq<Json>>, store: Store,
                      embed: nat -> Response, req: Request) returns (results: seq<Item>)
    ensures results == Recommendation(cfg, reply, parse, store, embed, req)
  {
    if req.model == ApiModel {
      results := LlmRecommendations(cfg, reply, parse, store, embed);
      return;
    }
    results := Recommend(cfg, reply, parse, store, embed, Request(req.text, req.topK, InternalModel));
  }

  // ---------------------------------------------------------------------
  // Neighbours (`similar`)

  /** The hits whose `str(id)` differs from the requested id, scored 95. */
  function Neighbours(hits: seq<Hit>, self: Str): (r: seq<Item>)
    ensures |r| <= |hits|
    ensures forall k :: 0 <= k < |r| ==> IdText(r[k].id) != self && r[k].score == NeighbourScore
    ensures Subseq(r, Fixed(hits, NeighbourScore))
    ensures forall k :: 0 <= k < |hits| && IdText(hits[k].id) != self ==>
      Item(hits[k].id, NeighbourScore, hits[k].payload) in r
    decreases |hits|
  {
    if hits == [] then []
    else
      var h := hits[0];
      var item := Item(h.id, NeighbourScore, h.payload);
      var rest := Neighbours(hits[1..], self);
      assert Fixed(hits, NeighbourScore) == [item] + Fixed(hits[1..], NeighbourScore);
      assert forall k :: 1 <= k < |hits| ==> hits[k] == hits[1..][k - 1];
      if IdText(h.id) != self then
        assert ([item] + rest)[1..] == rest;
        [item] + rest
      else rest
  }

  /** `similar`: the stored vector of the requested point, its 13 nearest
      hits without the point itself, cut to twelve. The retrieval is not
      guarded, so a store failure there is an error of the route. */
  function SimilarItems(store: Store, id: Str): Result<seq<Item>, Failure>
  {
    match store.retrieve(id)
    case None => Err(RetrieveRaised)
    case Some(target) =>
      if target == [] then Ok([])
      else Ok(Take(Neighbours(VectorSearch(store, target[0], NeighbourFetch), id), Quota))
  }

  method Similar(store: Store, id: Str) returns (r: Result<seq<Item>, Failure>)
    ensures r == SimilarItems(store, id)
  {
    var target := store.retrieve(id);
    if target.None? {
      return Err(RetrieveRaised);
    }
    if target.value == [] {
      return Ok([]);
    }
    var hits := VectorSearch(store, target.value[0], NeighbourFetch);
    var results := [];
    var i := 0;
    while i < |hits|
      invariant 0 <= i <= |hits|
      invariant results + Neighbours(hits[i..], id) == Neighbours(hits, id)
    {
      var h := hits[i];
      assert hits[i..][0] == h && hits[i..][1..] == hits[i + 1..];
      if IdText(h.id) != id {
        results := results + [Item(h.id, NeighbourScore, h.payload)];
      }
      i := i + 1;
    }
    assert hits[i..] == [];
    assert results == Neighbours(hits, id);
    return Ok(Take(results, Quota));
  }

  /** The neighbour list never contains the requested id, holds at most
      twelve tiles each scored 95 in hit order, and is empty for an unknown
      id. */
  lemma SimilarContract(store: Store, id: Str)
    ensures var r := SimilarItems(store, id);
      && (store.retrieve(id).None? <==> r.Err?)
      && (store.retrieve(id) == Some([]) ==> r == Ok([]))
      && (r.Ok? ==>
            && |r.value| <= Quota
            && forall k :: 0 <= k < |r.value| ==> IdText(r.value[k].id) != id && r.value[k].score == NeighbourScore)
      && (r.Ok? && store.retrieve(id).value != [] ==>
            Subseq(r.value, Fixed(VectorSearch(store, store.retrieve(id).value[0], NeighbourFetch), NeighbourScore)))
  {
    var t := store.retrieve(id);
    if t.Some? && t.value != [] {
      var n := Neighbours(VectorSearch(store, t.value[0], NeighbourFetch), id);
      SubseqPrefix(n, Take(n, Quota), Fixed(VectorSearch(store, t.value[0], NeighbourFetch), NeighbourScore));
    }
  }

  /** A prefix of a subsequence is a subsequence. */
  lemma {:induction false} SubseqPrefix(a: seq<Item>, p: seq<Item>, b: seq<Item>)
    requires Subseq(a, b)
    requires |p| <= |a| && p == a[..|p|]
    ensures Subseq(p, b)
    decreases |b|
  {
    if p != [] {
      assert a != [] && b != [];
      if a[0] == b[0] && Subseq(a[1..], b[1..]) {
        assert p[0] == a[0];
        SubseqPrefix(a[1..], p[1..], b[1..]);
      } else {
        SubseqPrefix(a, p, b[1..]);
      }
    }
  }
}
