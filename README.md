# Nexus Neural Search — a verified model of its search core

Nexus Neural Search recommends movies, series and anime from a vector
store. This project models the parts of the system that decide what a user
sees, and proves properties of that model:

- **the gateway** (`backend/main.py`): the embedding call with its bounded
  retry on "model warming up", the keyword and vector searches, the
  "hybrid fill" of the `api` model (titles proposed by a chat model are
  resolved to stored items scored 99, then vector neighbours fill the list
  up to twelve tiles), the `internal` route with its keyword fallback, the
  personalised route and the "similar items" route;
- **the cloud upload** (`upload_csv.py`): flexible column lookup, cleaning,
  skipping of junk rows, embedding with retry, payload shaping and
  uploading in batches of 50;
- **the local ingestion** (`ingest.py`): column-name normalisation, mapping
  to the standard columns, filling of missing columns, type correction
  from the genre and uploading in batches of 100;
- **the enrichment** (`enrich_data.py`): detection of rows with a bad
  image, description or rating, lookup at Jikan or TMDB, in-place merge of
  the fetched fields, the count of fixed rows, and the early end of the
  loop when a row to be fixed has a title that is not text;
- **the browser client** (`docs/script.js`): search history, search
  requests, the type filter, the badge, score, description and image of a
  card, the sort toggle and the wishlist.

Remote services (the embedding service, the chat model, the vector store,
Jikan, TMDB, the client's HTTP calls) are oracles passed as parameters: a
function from the request, or from the attempt number, to the decoded
reply, with a distinguished "raised" reply where Python or JavaScript
would raise. `json.loads`, `float()` on text and the local sentence
encoder are oracles too.

Modules, one per file:

| module | file | models |
|---|---|---|
| `Base` | `base.dfy` | `Option`, `Result`, order-preserving subsequences |
| `Text` | `text.dfy` | the string operations the scripts use (ASCII case mapping, ASCII `strip`, `replace`, `in`, `split(",")[0]`, `title()`) |
| `Cells` | `cells.dfy` | a CSV cell (missing, text or number), its `str()` and its truthiness |
| `Retry` | `retry.dfy` | the three-attempt embedding retry shared by the gateway and the upload |
| `LlmText` | `llm_text.dfy` | removal of the code fences from the chat reply and extraction of the bracketed list |
| `Gateway` | `gateway.dfy` | `backend/main.py` |
| `Batching` | `batching.dfy` | collecting points and flushing them in fixed-size batches |
| `UploadCsv` | `upload.dfy` | `upload_csv.py` |
| `Ingest` | `ingest.dfy` | `ingest.py` |
| `Enrich` | `enrich.dfy` | `enrich_data.py` |
| `Client` | `client.dfy` | `docs/script.js` |

## Model

| member | source | states |
|---|---|---|
| Retry.RunFrom | backend/main.py:51-71 | from attempt `k` on, the loop ends after at least `k` and at most three attempts |
| Retry.RunFromTrace | upload_csv.py:103-120 | every attempt before the last one was retried; a returned vector is exactly what the last attempt's reply finished with |
| Retry.OnlyWarmingUpRetries | backend/main.py:59-69 | in both scripts an attempt is retried if and only if the service answered 503 |
| Retry.Run | upload_csv.py:103 | at most three requests are made for one text |
| Retry.RetryPolicy | upload_csv.py:110-118 | every attempt but the last answered 503; a vector comes only from a 200 reply whose body is a list |
| LlmText.StripFences | backend/main.py:143 | removing the fences never lengthens the reply |
| LlmText.StripFencesPlainText | backend/main.py:143 | a reply without a backtick is left as it is |
| LlmText.StripFencesAppend | backend/main.py:143 | a backtick-free prefix passes through untouched, before the rest is cleaned |
| LlmText.UnwrapsFencedBlock | backend/main.py:143 | a body wrapped in "```json" and "```" comes back as exactly the body |
| LlmText.StripFencesKeepsOtherChars | backend/main.py:143 | every character outside "`json" occurs as often after the removal as before |
| LlmText.FirstIndexOf | backend/main.py:144 | absent exactly when the character does not occur; otherwise its first position |
| LlmText.LastIndexOf | backend/main.py:144 | absent exactly when the character does not occur; otherwise its last position |
| LlmText.FindBracketedSpec | backend/main.py:144-146 | a match exists if and only if some "[" comes before some "]"; the match runs from the first "[" to the last "]" |
| Gateway.KeywordSearch | backend/main.py:85-100 | never more hits than the limit asked for |
| Gateway.VectorSearch | backend/main.py:102-107 | no hits for a limit of zero or less, otherwise at most `limit` |
| Gateway.GetEmbedding | backend/main.py:43-72 | the retry loop returns the outcome and the attempt count of the embedding specification |
| Gateway.EmbeddingPolicy | backend/main.py:43-72 | no token means no request; otherwise one to three requests, every retry follows a 503, a first reply that raises or has any other status ends with no vector after one request, and a vector comes only from a 200 reply |
| Gateway.EmbeddingUnwrap | backend/main.py:60-64 | a nested list is unwrapped to its first row, a flat list is returned as it is, and an empty list is no usable vector |
| Gateway.TruncateContract | backend/main.py:180 | `int()` truncates toward zero: within one below a non-negative value and within one above a negative value |
| Gateway.PercentOfSimilarity | backend/main.py:180 | a similarity in (0, 1] gives a percentage in 0..100, monotone in the similarity, the largest whole number not above it times 100 |
| Gateway.Fixed | backend/main.py:262-265 | one item per hit |
| Gateway.Scored | backend/main.py:176-181 | one item per hit |
| Gateway.IdSetHas | backend/main.py:155-160 | every item's id is among the ids seen |
| Gateway.IdSetAppend | backend/main.py:159-160 | appending an item adds exactly its id to the ids seen |
| Gateway.DistinctConcat | backend/main.py:150-183 | two id-distinct lists with disjoint ids concatenate to an id-distinct list |
| Gateway.TitleHits | backend/main.py:152 | each proposed title yields at most one stored item |
| Gateway.Candidates | backend/main.py:150-154 | no more candidates than proposed titles |
| Gateway.CandidatesScored | backend/main.py:158 | every candidate of the chat model's titles is scored 99 |
| Gateway.Dedup | backend/main.py:155 | dropping repeated ids never lengthens the list |
| Gateway.DedupContract | backend/main.py:150-160 | the result has distinct ids, none already seen, keeps the original order, and every unseen id of the input survives |
| Gateway.Backfill | backend/main.py:176-183 | the backfill never takes the list beyond twelve tiles |
| Gateway.BackfillContract | backend/main.py:169-183 | backfilled items have distinct ids, none already found, come in the store's order with the store's score, and if fewer than twelve tiles result every hit was taken or already present |
| Gateway.BackfillFillsQuota | backend/main.py:170-183 | when the store returns enough fresh neighbours the list reaches exactly twelve tiles |
| Gateway.BackfillPart | backend/main.py:170-175 | with fewer than twelve found, the backfill fills at most the missing slots; with twelve or more, nothing is added |
| Gateway.ResolveTitles | backend/main.py:150-160 | the title loop yields the candidates with repeated ids dropped, and its seen set is exactly the ids returned |
| Gateway.ResolveFromDedup | backend/main.py:150-160 | the loop from any partial result appends the deduplicated remaining candidates, avoiding the ids already collected |
| Gateway.DedupCons | backend/main.py:155-160 | one step of the loop: a seen id is skipped, a new one is taken and remembered |
| Gateway.BackfillFrom | backend/main.py:176-183 | the neighbour loop appends exactly the backfill of the hits after the found items |
| Gateway.BackfillFromStateSpec | backend/main.py:176-183 | the loop state from any prefix equals the found items followed by their backfill |
| Gateway.LlmRecommendations | backend/main.py:109-185 | the whole procedure returns the hybrid fill of the chat reply, the store and the embedding |
| Gateway.FillRemaining | backend/main.py:169-183 | the found items are kept and followed by the backfill computed from the query's embedding |
| Gateway.FillShape | backend/main.py:150-183 | the resolved titles come first, all scored 99; the list has at most twelve tiles unless the chat model alone found more, in which case nothing is added |
| Gateway.FillDistinct | backend/main.py:155-177 | no id appears twice in the hybrid result |
| Gateway.FillOrder | backend/main.py:175-181 | the backfilled tail is an ordered selection of the store's answer for `12 - found + 5` neighbours, with the store's scores |
| Gateway.FillReachesTwelve | backend/main.py:169-183 | with a usable embedding and enough fresh neighbours the result has exactly twelve tiles |
| Gateway.HybridFillWithoutCredentials | backend/main.py:117-118 | without the chat key and the embedding token the hybrid route returns nothing |
| Gateway.Recommend | backend/main.py:211-238 | the route returns the recommendation specified for the request's model |
| Gateway.InternalRouteContract | backend/main.py:218-238 | without a usable embedding at most twelve keyword hits scored 80; otherwise the store's hits, in order, at most `top_k` of them, scored by percentage with 0 for a missing score |
| Gateway.Personalized | backend/main.py:240-246 | the personalised route returns exactly what the plain route returns for the same request |
| Gateway.Neighbours | backend/main.py:258-265 | every hit other than the clicked item is kept, in order, scored 95, and the clicked item is never kept |
| Gateway.Similar | backend/main.py:248-267 | the route returns the similar items specified for the clicked id |
| Gateway.SimilarContract | backend/main.py:248-267 | a retrieval that raises is an error; an unknown id, whose retrieval is empty, gives no items; otherwise at most twelve neighbours scored 95, in the store's order, never the item itself |
| Batching.FlattenAppend | upload_csv.py:136-140 | sending one more batch appends its points to everything sent |
| Batching.ChunksFlatten | ingest.py:116-124 | the batches, concatenated, are exactly the points |
| Batching.ChunksSizes | ingest.py:118-124 | every batch is non-empty and at most the batch size, and all but the last are full |
| Batching.ChunksAppend | upload_csv.py:136-140 | a full batch after full batches extends the batching by one |
| Batching.Push | upload_csv.py:130-140 | collecting a point keeps the batching invariant: the points sent followed by the pending ones gain exactly the new point at the end, the pending batch stays below the batch size, and `sent` counts the points sent by this call |
| Batching.Drain | upload_csv.py:143-146 | after the final flush the batches are the batching of all points collected |
| UploadCsv.RepairUrlContract | upload_csv.py:28-29 | a broken "ttps://" URL comes out starting "https://", others are untouched, repairing twice is repairing once, and a single broken scheme gains only its "h" |
| UploadCsv.FirstColumn | upload_csv.py:60-61 | absent exactly when no column matches the name ignoring case; otherwise the first such column |
| UploadCsv.GetColumnValue | upload_csv.py:57-66 | a missing value comes out only when the default is missing |
| UploadCsv.GetColumnValueSpec | upload_csv.py:57-66 | no matching name gives the default; otherwise the first name that matches decides, and a blank cell there gives the default |
| UploadCsv.NormaliseImageContract | upload_csv.py:84-86 | a stripped path starting "/" becomes a TMDB poster URL, anything else stays stripped, and the result never starts with whitespace |
| UploadCsv.RedundantSkipTests | upload_csv.py:89-96 | the emptiness test and the "no data." test never decide a skip that the length tests would not |
| UploadCsv.ShortDescriptionShape | upload_csv.py:125 | the stored description is a prefix of at most 500 characters followed by "...", the whole text when it is short |
| UploadCsv.KindShape | upload_csv.py:127 | the stored type has no comma and no lower-case letter and is no longer than the type text |
| UploadCsv.LookUp | upload_csv.py:75-79 | the rating is never missing, since its default is 0 |
| UploadCsv.Classify | upload_csv.py:89-133 | a prepared point has id `index + 1` and a 384-component vector |
| UploadCsv.ProcessRow | upload_csv.py:73-133 | a prepared point has id `index + 1` and a 384-component vector |
| UploadCsv.RowStepImplements | upload_csv.py:73-133 | the row step as a function value agrees with the per-row processing |
| UploadCsv.ImplementsWellNumbered | upload_csv.py:130 | any step agreeing with the row processing numbers its points by position |
| UploadCsv.Advance | upload_csv.py:73 | one more row advances the progress by exactly that row's outcome |
| UploadCsv.CrashIsFinal | upload_csv.py:126 | after an unparseable rating stops the script, later rows change nothing |
| UploadCsv.PreparedPoints | upload_csv.py:73-133 | at most one point per row, each with a 384-component vector, ids strictly increasing in row order, each the processing of its own row |
| UploadCsv.EmbedText | upload_csv.py:101-120 | the retry loop returns the vector of the retry specification |
| UploadCsv.PrepareRow | upload_csv.py:73-133 | the row is processed exactly as specified |
| UploadCsv.NextRow | upload_csv.py:73-133 | processing one more row advances the progress by that row's outcome |
| UploadCsv.UploadRows | upload_csv.py:73-146 | without a crash the batches are the batching of all prepared points; after a crash the uploaded points are a prefix of them, less than one batch short; the count is the number of points sent |
| UploadCsv.UploadCsvRows | upload_csv.py:73-148 | the same, with the script's own column names |
| Ingest.NormaliseColumnNameShape | ingest.py:38 | a normalised name is as long as the stripped name, has no space and no capital, and neither starts nor ends with whitespace |
| Ingest.NormaliseColumnNameIdempotent | ingest.py:38 | normalising a normalised name changes nothing |
| Ingest.NormaliseColumns | ingest.py:38 | one name per column |
| Ingest.FindColSpec | ingest.py:25-28 | no result exactly when no candidate is a column; otherwise the first candidate that is one |
| Ingest.FindColFound | ingest.py:25-28 | a found name is both a column and a candidate |
| Ingest.CategoriesWellFormed | ingest.py:42-63 | the seven standard names are distinct and each is among its own candidates |
| Ingest.ColumnMapContract | ingest.py:40-63 | the map renames only existing columns, every category with a match contributes its column, and each renamed column goes to the standard name of a category it matched |
| Ingest.MapColumns | ingest.py:40-63 | the mapping loop builds the specified column map |
| Ingest.Rename | ingest.py:65 | one name per column |
| Ingest.RenameDistinct | ingest.py:65 | renaming distinct columns with the map keeps them distinct |
| Ingest.AddColumnContract | ingest.py:69 | a new column is appended at the end with the given value in every row, and the old cells are kept |
| Ingest.FillTableContract | ingest.py:68-69 | the table stays rectangular, every standard name becomes a column, old columns and cells are kept, only missing standard names are added, each filled with "N/A", and distinct columns stay distinct |
| Ingest.FillMissing | ingest.py:68-69 | the filling loop yields the specified filled table |
| Ingest.FillNa | ingest.py:71 | no cell is missing afterwards and every present cell is kept |
| Ingest.IndexOf | ingest.py:98-99 | the first position of the column name |
| Ingest.RealTypeContract | ingest.py:98-106 | a genre mentioning "doc" gives "Documentary", else "anime" gives "Anime", else "stand-up" gives "Stand-Up", else the title-cased type |
| Ingest.ToDictContract | ingest.py:113 | the keys are the column names and, with distinct names, each maps to its own cell |
| Ingest.PayloadContract | ingest.py:113-114 | the payload holds every column, the type replaced by the corrected type and every other cell as in the row |
| Ingest.MakePoint | ingest.py:116 | the point's id is the row's position |
| Ingest.Points | ingest.py:96-116 | one point per row |
| Ingest.IngestRows | ingest.py:93-124 | the row loop sends the batching of all rows' points in batches of 100 |
| Ingest.IngestContract | ingest.py:93-124 | every row is sent once, in order, with its position as id and its corrected payload; all batches but the last are full and none is empty |
| Ingest.PreparedTableReady | ingest.py:38-71 | with distinct normalised column names the prepared table is rectangular with distinct columns, among them every column the row loop reads |
| Ingest.IngestCsv | ingest.py:38-124 | the prepared table is readable and the whole script sends the batching of its points |
| Enrich.NeedsFixFacts | enrich_data.py:84-95 | a description needs a fix exactly when, stripped and lower-cased, it is shorter than twenty characters or mentions "no description"; an unparseable rating always does; a numeric rating does exactly when it is at most 0.1 |
| Enrich.FetchContract | enrich_data.py:23-61 | a Jikan description never holds a newline; a TMDB image exists exactly when the poster path is present and truthy, and is then the poster base followed by that path |
| Enrich.MergeContract | enrich_data.py:111-114 | the merge adds no column beyond image, description and rating, sets each of those to the fetched value exactly when it is truthy, changes no other cell, and a second merge of the same data changes nothing |
| Enrich.EnrichRowContract | enrich_data.py:76-115 | a row counts as fixed exactly when it needs a fix and the lookup returned data; an unfixed row is unchanged; columns, title and type are always kept |
| Enrich.RowStepImplements | enrich_data.py:76-115 | the row step as a function value agrees with the per-row enrichment |
| Enrich.ImplementsApplies | enrich_data.py:76 | a step agreeing with the enrichment applies to every row that has the required columns |
| Enrich.EnrichAll | enrich_data.py:76 | one row out per row in |
| Enrich.CountFixedBounds | enrich_data.py:97-115 | no more rows are counted fixed than need a fix, and no more than there are |
| Enrich.CountFixedStep | enrich_data.py:115 | one more row raises the count by one exactly when that row was fixed |
| Enrich.FixRow | enrich_data.py:97-115 | only the row at the index changes: with the needs-fix flag set it is merged with the data fetched for it when the lookup succeeds, with the flag clear nothing is fetched and nothing changes |
| Enrich.EnrichRowCases | enrich_data.py:97-115 | the enrichment of a row is the merge of the data fetched for it, or the row itself when nothing was fetched |
| Enrich.NeedsFixFlag | enrich_data.py:77-95 | the flag computed step by step equals the needs-fix test |
| Enrich.WriteFetched | enrich_data.py:111-114 | the in-place writes of one row leave it merged with the fetched data and every other row unchanged |
| Enrich.FixRowWith | enrich_data.py:77-115 | given the row's needs-fix flag, the row at the index becomes its enrichment and the result says whether it was fixed |
| Enrich.StopsByFlag | enrich_data.py:97-103 | the script stops on a row exactly when its needs-fix flag is set and its title is not text |
| Enrich.StopAt | enrich_data.py:76-103 | no row before the returned position stops the script, and the row at it, if any, does |
| Enrich.StopAtFirst | enrich_data.py:76-103 | the first row that stops the script is the only position with no stop before it and a stop (or the end of the table) at it |
| Enrich.StopAtContract | enrich_data.py:97-103 | the loop runs up to the first row that needs a fix and has a title that is not text, and no row before it is such a row |
| Enrich.TextTitlesNeverStop | enrich_data.py:103 | when every title is text the loop visits every row |
| Enrich.EnrichedUpTo | enrich_data.py:76-115 | a table whose first rows went through the step and whose other rows are untouched is the enrichment of that prefix followed by the rest |
| Enrich.VisitRow | enrich_data.py:77-115 | a row on which the script stops is left alone and reported; any other row becomes its enrichment and the result says whether it was fixed |
| Enrich.EnrichRows | enrich_data.py:76-115 | the rows before the first row that needs a fix and has a non-text title (at which `title[:30]` raises) are each their own enrichment and are counted when fixed; that row and every later one are unchanged; the stop is reported exactly when such a row exists |
| Enrich.EnrichTable | enrich_data.py:73-115 | the same, for the script's own per-row lookup and stop test |
| Client.PushedContract | docs/script.js:256-258 | the new search comes first, the older ones follow in order, and the history never grows past 50 |
| Client.PushedAllBound | docs/script.js:256-258 | after any number of searches the history holds at most 50 entries, the latest first |
| Client.ToggledSort | docs/script.js:339-340 | the toggle always gives relevance or rating, different from a valid current mode |
| Client.ToggledSortTwice | docs/script.js:340 | toggling twice restores the mode exactly when it was relevance or rating |
| Client.TypeOr | docs/script.js:284 | a non-empty type is used, otherwise the default |
| Client.KeepContract | docs/script.js:281-288 | the filtered cards keep their order, all match the filter, and each matching card is kept as often as it occurs |
| Client.VisibleContract | docs/script.js:281-288 | "ALL" shows every card; any other filter shows, in order, exactly the cards that match it |
| Client.BadgeText | docs/script.js:303 | the badge text is never empty |
| Client.BadgeClassContract | docs/script.js:303-307 | the badge style is "doc" when the type mentions DOC, else "anime" for ANIME, else "tv" for TV, else "movie" |
| Client.UntypedCardUnderMovieFilter | docs/script.js:284-307 | a card without a type is badged MOVIE yet hidden by the MOVIE filter |
| Client.DisplayScore | docs/script.js:317 | a present non-zero score is shown, a missing or zero score shows 85 |
| Client.DisplayDescription | docs/script.js:324 | the shown description is never empty and is the card's own when it has one |
| Client.CardImage | docs/script.js:299-300 | the image is proxied exactly when it is longer than five characters and does not mention "null"; otherwise a placeholder with the title |
| Client.CardImageFallback | docs/script.js:300 | an image mentioning "null", or of five characters or fewer, falls back to the placeholder |
| Client.FlipContract | docs/script.js:365-367 | toggling an id adds it exactly when it was absent, leaves other ids alone, and toggling twice restores the set |
| Client.LoadedIds | docs/script.js:436 | the loaded wishlist holds exactly the ids returned |
| Client.SavedNumericIdNotRemoved | docs/script.js:363-367 | a numeric id loaded at boot is not matched by the string id of its button, so toggling it adds the string instead of removing the saved item |
| Client.LoadedKeys | docs/script.js:436 | every returned id is in the loaded set under its button key |
| Client.LoadedKeysToggleRemoves | docs/script.js:363-367 | with ids loaded under their button keys, a saved item is found saved, toggling removes exactly its key, and every other loaded item stays saved |
| Client.ClientState.constructor | docs/script.js:100-108 | the stored token and history are restored, the wishlist is empty, the model is internal, the filter ALL and the sort relevance |
| Client.ClientState.AddToHistory | docs/script.js:256-260 | the search is pushed onto the history and nothing else changes |
| Client.ClientState.PerformSearch | docs/script.js:262-274 | an empty query does nothing; otherwise it is recorded and sent to the personalised route when logged in, to the plain route otherwise, asking for twelve results with the current model |
| Client.ClientState.SetFilter | docs/script.js:332-337 | the filter becomes the chosen type and nothing else changes |
| Client.ClientState.ToggleSort | docs/script.js:339-345 | the sort mode is toggled and nothing else changes |
| Client.ClientState.ToggleWishlist | docs/script.js:363-368 | logged out, the sign-in dialog opens; logged in, the id is toggled unless the request raised |
| Client.ClientState.LoadWishlist | docs/script.js:431-437 | logged in and answered, the wishlist becomes the ids returned; otherwise it is kept |
| Text.Lower | ingest.py:38 | same length, each letter mapped to lower case |
| Text.Upper | upload_csv.py:127 | same length, each letter mapped to upper case |
| Text.EqualsIgnoringCaseLower | upload_csv.py:61 | two names match ignoring case exactly when their lower-cased forms are equal |
| Text.ContainsFirstChar | docs/script.js:302-305 | a word whose first letter does not occur in the text is not found in it |
| Text.ContainsExtended | ingest.py:101 | a text containing a word also contains every prefix of it |
| Text.TrimStart | upload_csv.py:84 | the result is a suffix of the text, starts with no whitespace, and only whitespace was removed |
| Text.TrimEnd | upload_csv.py:84 | the result is a prefix of the text, ends with no whitespace, and only whitespace was removed |
| Text.Strip | ingest.py:38 | the result is no longer than the text and starts and ends with no whitespace |
| Text.StripIdempotent | enrich_data.py:85 | stripping twice is stripping once |
| Text.ReplaceAllAbsent | upload_csv.py:29 | replacing a pattern that does not occur changes nothing |
| Text.ReplaceChar | enrich_data.py:35 | same length, every occurrence of the character replaced and every other character kept |
| Text.ReplaceCharAbsent | enrich_data.py:35 | replacing an absent character changes nothing |
| Text.Take | upload_csv.py:125 | the first `n` characters, or all of them when the text is shorter |
| Text.BeforeFirst | upload_csv.py:127 | the longest prefix without the separator, followed in the text by the separator when shorter |
| Text.Title | ingest.py:98 | title-casing keeps the length |

## Left out

- HTTP, the vector store, the chat model, the embedding service, Jikan and TMDB are oracles; timeouts, sleeps, logging and the print statements are not modelled.
- Scores and ratings are exact reals: IEEE floating-point rounding is not modelled, and `toFixed(1)` rating display and the rating sort of the client are left out.
- Whitespace and case mapping are ASCII only; Python's `strip()` also removes Unicode spaces such as U+0085 and U+00A0, and Python's `lower()`/`title()` and JavaScript's `toUpperCase()` map all of Unicode.
- `json.loads`, pandas' CSV reading, `float()` on text and the sentence encoder of the local ingestion are oracles; a reply whose JSON is not the shape the code indexes (a missing `choices` key, say) is modelled as a raised request.
- The FastAPI routes for sign-up, login, the user database and the wishlist endpoints (`backend/models.py`, authentication) are not part of this model; the personalised route is modelled for a request already authenticated.
- Client.ClientState.ToggleWishlist: presses are taken one at a time; overlapping requests, where the action is chosen before the request and applied after it, are not modelled.
- The client's canvas animation, DOM rendering, `localStorage` writes and `encodeURIComponent` are left out; the client state keeps what those read and write.
- `seed_cloud.py` and `debug.py` are not part of this model.
- Gateway.KeywordSearch: the chat model's title is taken as text; a non-text title, which the store client would reject, is treated as a failed search.
- Gateway.VectorSearch: the store is modelled as honouring the limit and returning nothing for a limit of zero or less, rather than raising.
- Gateway: a payload of `None` on a stored point, on which `item["id"] = …` raises, is not modelled.
- Gateway.HybridFill: the embedding is requested even when twelve or more tiles were found, which the source skips; the result is the same since the backfill is then empty, but the count of requests is not modelled.
- Ingest.PreparedTableReady: requires distinct normalised column names; with duplicates pandas returns a frame for `row['title']` and the source behaves differently.
- Ingest.IngestCsv: requires distinct normalised column names, like Ingest.PreparedTableReady, for the same reason; a CSV whose headers collide after normalisation is not modelled.
- Enrich: a row lacking one of the columns the loop reads raises a KeyError; the model requires those columns (`HasColumns`).
- Enrich: the autosave every 50 rows and the CSV writes are I/O; after a stop at `title[:30]` only what the last autosave wrote survives on disk, which the model does not track.
- LlmText.StripFencesKeepsOtherChars: stated only for characters outside "`json", since the fence pattern removes those.
- UploadCsv: an exception while building the payload other than an unparseable rating (a `None` title, say) is not modelled.
- Where the source and its documentation disagree the model follows the code: scores are truncated by `int()` rather than rounded; the `api` model returns at most twelve tiles whatever `top_k` asks for; the `api` model has no keyword fallback; a similarity of exactly 0.0 is treated as missing (65 in the backfill, 0 on the plain route).

## Findings

| source | as written | input that shows it | evidently intended | confidence | as-written member | corrected member |
|---|---|---|---|---|---|---|
| docs/script.js:363-367, docs/script.js:436 | the wishlist loaded at boot holds the ids as the server returns them (numbers), while the heart button passes its id as a string, so `WISHLIST_IDS.has(id)` is false for a saved item | a saved item with id 7: the set holds the number 7, the button passes "7", the toggle sends "add" and adds "7" instead of removing 7 | a saved item is recognised by its button and toggling it removes it | not executed | Client.SavedNumericIdNotRemoved | Client.LoadedKeysToggleRemoves |
