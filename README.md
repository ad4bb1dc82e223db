# Token-mention graph: record mapping and graph ingestion

This project models two pieces of a system that tracks mentions of crypto tokens on Twitter
and stores them as a graph.

- **Record mapping** (`ApiDojoTweetScraper`). `map_item` turns one scraped tweet into a
  *mapped mention record*. The record has a token, a tweet, a user account, a region, a list
  of hashtags, and exactly two edges: `POSTED` and then `MENTIONS`. `map` keeps the records
  that map and drops the items that do not. `search_token_mentions` runs one search per token
  and concatenates the results in token order.
- **Graph ingestion** (`ScraperGraphIndexer.create_nodes_and_edges`). For each record it merges
  a `Token`, a `Tweet`, a `UserAccount` and, when the record names one, a `Region`. It then
  runs the record's edges. Each edge first matches both endpoints, so a missing endpoint makes
  it a no-op. It then merges on the whole pattern, properties included.

Files:

- `records.dfy` (module `Records`) holds the record shape that both sides share. A member read
  by subscript is an `Option`, where `None` means the key is absent and the read raises
  KeyError. A member where JSON null and absence behave differently is a `Field`
  (`Absent | Null | Val`).
- `graph_indexer.dfy` (module `GraphIndexer`) holds the indexer.
  - The database is a `GraphState`: a token set, maps from tweet id and user id to their
    properties, a region set, and three edge sets.
  - What the loop does is specified by pure functions: `ApplyEdge`, `ApplyEdges`,
    `ApplyEntry` and `Ingest`.
  - The class `ScraperGraphIndexer` holds the stores as fields. Its looping methods are proved
    equal to those functions.
- `graph_indexer_proofs.dfy` (module `GraphIndexerProofs`) holds properties of whole runs:
  where a run stops, which writes survive, last write wins, and idempotence.
- `tweet_scraper.dfy` (module `TweetScraper`) holds `map_item`, `map` and
  `search_token_mentions`. Each is a pure function, plus a method for each loop of the
  original.
- `pipeline.dfy` (module `Pipeline`) feeds the scraper's output to the indexer.

Four behaviours of the indexer deserve attention:

- A single `try` surrounds the whole record loop. The first exception therefore stops every
  later record. What earlier records wrote stays, and so does what the failing record wrote
  before its failing read. The exception is only logged; the model returns it as
  `Option<Abort>`.
- Nothing is ever deleted. The code has no garbage collection and no stale-data cleanup.
- An edge is identified by its type, its endpoints and its property values. A record that
  repeats an edge with different properties adds a parallel edge.
- A `LOCATED_IN` edge whose record has no `name` in its region raises KeyError. In that case
  `region.get('name')` is `None`, which is not `"Unknown"`, so `region['name']` is read.

## Model

| member | source | states |
|---|---|---|
| GraphIndexer.EntryKeys | scraper_graph_indexer.py:25-29 | A record's top-level reads succeed iff it has all five members token, tweet, user_account, region and edges; a failure names one of them. |
| GraphIndexer.TweetKeys | scraper_graph_indexer.py:46-50 | The Tweet MERGE's reads succeed iff id, url, text, likes and timestamp are present (a null text passes); a failure names one of them. |
| GraphIndexer.UserKeys | scraper_graph_indexer.py:60-62 | The UserAccount MERGE's reads succeed iff user_id, username and is_verified are present; a failure names one of them. |
| GraphIndexer.EdgeError | scraper_graph_indexer.py:78-111 | An edge reads in full iff it has a type, a MENTIONS edge has attributes with timestamp and hashtag_count, a POSTED edge has attributes with timestamp and likes, and a LOCATED_IN edge's record region has a name member (null allowed). A failure names the missing key. |
| GraphIndexer.EdgesError | scraper_graph_indexer.py:77-113 | A record's edge list reads in full iff every edge does. |
| GraphIndexer.EdgesErrorFirst | scraper_graph_indexer.py:77-113 | A failing edge list fails with the key of an edge all of whose predecessors read in full, so later edges never decide the error. |
| GraphIndexer.EntryError | scraper_graph_indexer.py:24-113 | A record is processed without exception iff its five members, its tweet's and user account's keys and all its edges read in full. A missing top-level member is reported before any tweet key. |
| GraphIndexer.RegionNamed | scraper_graph_indexer.py:67 | A Region is merged for a name that is present, non-empty and not "Unknown". |
| GraphIndexer.ApplyEdge | scraper_graph_indexer.py:77-113 | The edge's missing key is reported as KeyError. Nodes are untouched and nothing is removed. A new MENTIONS or POSTED edge appears iff the type matches, no key is missing and both endpoints exist; its endpoints come from the record's user account, token and tweet, and its properties from the edge's attributes. A new LOCATED_IN edge needs a name other than "Unknown" and an existing Region. An unknown type changes nothing. Consistency is preserved. |
| GraphIndexer.ApplyEdges | scraper_graph_indexer.py:77-113 | The outcome is the first failing edge's KeyError. Nodes are unchanged and edges only grow. Every new edge starts at the record's user and ends at its token, tweet or an existing region named neither null nor "Unknown". Which edges are added is stated per type by ApplyEdgesMentions, ApplyEdgesPosted and ApplyEdgesLocated. |
| GraphIndexer.ApplyEntry | scraper_graph_indexer.py:24-113 | The outcome is the record's first missing key. The Token set gains the record's token. The Tweet map is updated at the tweet id with exactly the record's url, text, likes and timestamp. The UserAccount map is updated at the user id with its username and is_verified. A Region is added only when the record reached the UserAccount merge and its name is present, non-empty and not "Unknown", and always in that case. New edges come only from a record that reached the UserAccount merge. The graph only grows and stays consistent. |
| GraphIndexer.Ingest | scraper_graph_indexer.py:22-122 | The graph only grows and stays consistent. An abort names a record of the batch. No Region named "" or "Unknown" is ever created. No LOCATED_IN edge points at "Unknown" or at a missing Region. |
| GraphIndexer.ScraperGraphIndexer.constructor | scraper_graph_indexer.py:6-13 | The indexer starts with the database contents it is given. |
| GraphIndexer.ScraperGraphIndexer.MergeTokenNode | scraper_graph_indexer.py:32-37 | Adds the token name and changes no other store. |
| GraphIndexer.ScraperGraphIndexer.MergeTweetNode | scraper_graph_indexer.py:41-51 | Overwrites the tweet's properties at its id and changes no other store. |
| GraphIndexer.ScraperGraphIndexer.MergeUserNode | scraper_graph_indexer.py:55-63 | Overwrites the user's properties at its id and changes no other store, the Tweet and Region stores included. |
| GraphIndexer.ScraperGraphIndexer.MergeRegionNode | scraper_graph_indexer.py:68-73 | Adds the region name and changes no other store. |
| GraphIndexer.ScraperGraphIndexer.MergeEdge | scraper_graph_indexer.py:78-113 | One pass of the edge loop leaves the state and outcome that ApplyEdge specifies. |
| GraphIndexer.ScraperGraphIndexer.MergeEdges | scraper_graph_indexer.py:77-113 | The edge loop, stopping at the first exception, leaves the state and outcome that ApplyEdges specifies. |
| GraphIndexer.ScraperGraphIndexer.ProcessEntry | scraper_graph_indexer.py:25-113 | One pass of the record loop leaves the state and outcome that ApplyEntry specifies. |
| GraphIndexer.ScraperGraphIndexer.CreateNodesAndEdges | scraper_graph_indexer.py:18-122 | The whole method, with its single try, leaves the state and abort point that Ingest specifies. |
| GraphIndexer.EdgesAbortIsFinal | scraper_graph_indexer.py:77-113 | Once an edge of a record raises, the record's later edges are not run. |
| GraphIndexer.IngestAbortIsFinal | scraper_graph_indexer.py:23-24 | Once a record raises, the records after it are not processed. |
| GraphIndexer.EdgesErrorSnoc | scraper_graph_indexer.py:77-113 | The first failing edge of a longer list is the earlier failure, if any, and otherwise the last edge's failure. |
| GraphIndexer.ApplyEdgesStep | scraper_graph_indexer.py:77-113 | Running the first j + 1 edges of a list whose first j completed is running edge j on the graph they left. |
| GraphIndexerProofs.IngestAbortsAtFirstError | scraper_graph_indexer.py:23-29 | A run completes iff no record has a missing key. Otherwise it stops at the first record that does, with that key, and does not depend on the graph. |
| GraphIndexerProofs.IngestAbortPrefix | scraper_graph_indexer.py:23-29 | A run that aborts at record i completed records 0..i-1 and equals the run of records 0..i. |
| GraphIndexerProofs.IngestAbortKeepsEarlierWrites | scraper_graph_indexer.py:117-122 | On an abort at record i, records before i completed. The graph is what they wrote plus what record i wrote before its failing read, and everything they wrote remains. |
| GraphIndexerProofs.TweetLastWriteWins | scraper_graph_indexer.py:41-51 | After a complete run, a tweet ends with the url, text, likes and timestamp of the last record that carries its id. |
| GraphIndexerProofs.TweetsUntouched | scraper_graph_indexer.py:41-51 | A tweet id that no record reaching the Tweet MERGE carries keeps its presence and properties, whether the run completes or aborts. |
| GraphIndexerProofs.UserLastWriteWins | scraper_graph_indexer.py:55-63 | After a complete run, a user ends with the username and is_verified of the last record that carries its id. |
| GraphIndexerProofs.IngestTokens | scraper_graph_indexer.py:32-37 | After a complete run, the Token of every record exists. |
| GraphIndexerProofs.CleanEntryIsWritten | scraper_graph_indexer.py:25-63 | A record with no missing key reaches the UserAccount merge. |
| GraphIndexerProofs.ApplyEdgesMentions | scraper_graph_indexer.py:77-89 | When the record's user and token exist, every MENTIONS edge reached before the first KeyError adds its edge, with that edge's timestamp and hashtag_count. Every new MENTIONS edge is one of these, and needs the user and the token to exist. |
| GraphIndexerProofs.ApplyEdgesPosted | scraper_graph_indexer.py:77-102 | When the record's user and tweet exist, every POSTED edge reached before the first KeyError adds its edge, with that edge's timestamp and likes. Every new POSTED edge is one of these, and needs the user and the tweet to exist. |
| GraphIndexerProofs.ApplyEdgesLocated | scraper_graph_indexer.py:77-113 | When the region name is present and not "Unknown" and the user and the Region exist, a LOCATED_IN edge reached before the first KeyError adds the edge from the user to the Region. A new LOCATED_IN edge exists only under those conditions, with some LOCATED_IN edge reached. |
| GraphIndexerProofs.ApplyEntryMentions | scraper_graph_indexer.py:24-89 | For a record that reaches its edges: every MENTIONS edge reached before the first KeyError is in the graph afterwards, and every new MENTIONS edge is one of them. |
| GraphIndexerProofs.ApplyEntryPosted | scraper_graph_indexer.py:24-102 | For a record that reaches its edges: every POSTED edge reached before the first KeyError is in the graph afterwards, and every new POSTED edge is one of them. |
| GraphIndexerProofs.ApplyEntryLocated | scraper_graph_indexer.py:24-113 | For a record that reaches its edges: when its region name is present, not "Unknown", and the Region existed or is merged by this record, a LOCATED_IN edge reached before the first KeyError links the user to it. Every new LOCATED_IN edge is that link, under those conditions. |
| GraphIndexerProofs.EdgesWithoutLocated | scraper_graph_indexer.py:104-113 | Edges none of which is LOCATED_IN leave the LOCATED_IN set unchanged. |
| GraphIndexerProofs.IngestWithoutLocated | scraper_graph_indexer.py:104-113 | A batch whose records list no LOCATED_IN edge adds no LOCATED_IN edge. |
| GraphIndexerProofs.OverlayAbsorbs | scraper_graph_indexer.py:32-113 | Applying the same writes twice is the same as applying them once. |
| GraphIndexerProofs.EdgeOverlay | scraper_graph_indexer.py:78-113 | An edge run on a graph overlaid with writes that hold its endpoints equals the overlay of the edge run on those writes. |
| GraphIndexerProofs.EdgesOverlay | scraper_graph_indexer.py:77-113 | The same holds for a record's edge list. |
| GraphIndexerProofs.ApplyEntryWritten | scraper_graph_indexer.py:32-113 | A record that reaches the UserAccount merge is its node merges followed by its edges. |
| GraphIndexerProofs.NodeWritesOverlay | scraper_graph_indexer.py:32-74 | The node merges commute with overlaying earlier writes. |
| GraphIndexerProofs.EntryOverlay | scraper_graph_indexer.py:24-113 | A record processed on an overlaid graph is the overlay of that record processed on the writes alone. |
| GraphIndexerProofs.IngestOverlay | scraper_graph_indexer.py:22-122 | A run on any graph is the graph overlaid with what the same batch writes on an empty database (holding only a Region named "" when the graph has one), and it stops at the same record. |
| GraphIndexerProofs.IngestIdempotent | scraper_graph_indexer.py:22-122 | Replaying a batch, complete or aborted, on any graph leaves the graph and the abort point exactly as one run left them: identical merges add no second node and no second edge. |
| TweetScraper.Hashtags | apify/apidojo_tweet_scraper.py:73 | Succeeds iff every hashtag has a text. The result then holds one "#" + text per hashtag, in order. |
| TweetScraper.MediaUrls | apify/apidojo_tweet_scraper.py:79 | Fails iff some medium with a truthy url has no media_key. Every key maps to the url of some medium carrying that key. Every keyed medium with a url is in the map. A key maps to the url of the last medium with a url that carries it. |
| TweetScraper.KeyedMedia | apify/apidojo_tweet_scraper.py:80-82 | There are never more looked-up keys than entity media; which keys they are is stated by KeyedMediaMembers. |
| TweetScraper.KeyedMediaMembers | apify/apidojo_tweet_scraper.py:80-82 | A key is looked up iff some entity medium carries it as a truthy media_key. |
| TweetScraper.ImagesOf | apify/apidojo_tweet_scraper.py:80-83 | Succeeds iff every truthy media key is in the url map. The images are then the looked-up urls, one per such key, in entity order. |
| TweetScraper.Images | apify/apidojo_tweet_scraper.py:77-83 | No extendedEntities, or an empty one, gives no images. A non-empty one without a media list fails. With a media list, it succeeds iff the url map builds and holds every truthy entity media key, and the images are then that map's urls for the entity media keys, in entity order. |
| TweetScraper.CollectImages | apify/apidojo_tweet_scraper.py:80-83 | The images.append loop computes ImagesOf, with a missing key as failure. |
| TweetScraper.ImagesOfFailureIsFinal | apify/apidojo_tweet_scraper.py:83 | A lookup failure stays a failure whatever media follow. |
| TweetScraper.ItemImages | apify/apidojo_tweet_scraper.py:77-83 | The extendedEntities block computes Images. |
| TweetScraper.MappedItem | apify/apidojo_tweet_scraper.py:68-141 | Succeeds iff the required members are present, the date parses, every hashtag has a text and the images resolve. The record carries the token and the item's id, url, text, likes, images and formatted timestamp. The user account is the author's userName, id and isVerified. The region is the author's location, or "Unknown" when the key is absent. There is one hashtag per entity. The edges are exactly POSTED (user id to tweet id, with the tweet's timestamp and likes) followed by MENTIONS (user id to token, with the timestamp and the hashtag count). |
| TweetScraper.MapItem | apify/apidojo_tweet_scraper.py:68-141 | Computes MappedItem. |
| TweetScraper.RegionName | apify/apidojo_tweet_scraper.py:106 | An absent location becomes "Unknown", a null one stays null and a present one is kept, so the region always has a name member. |
| TweetScraper.Structure | apify/apidojo_tweet_scraper.py:90-138 | The record built from the item's members, the hashtags and the images; none when a required member is missing or the date does not parse. Its contents are stated by MappedItem. |
| TweetScraper.FilterSnoc | apify/apidojo_tweet_scraper.py:148-151 | One more element appends its result when that result is not empty. |
| TweetScraper.FilterAppend | apify/apidojo_tweet_scraper.py:148-151 | Filtering distributes over concatenation. |
| TweetScraper.FilterMembers | apify/apidojo_tweet_scraper.py:148-151 | A value is in the result iff it is the non-empty result of some element. |
| TweetScraper.MappedAll | apify/apidojo_tweet_scraper.py:143-152 | The output is no longer than the input, and every record carries the token. |
| TweetScraper.MappedAllAppend | apify/apidojo_tweet_scraper.py:143-152 | map distributes over concatenation of its input, so it keeps input order. |
| TweetScraper.MappedAllMembers | apify/apidojo_tweet_scraper.py:143-152 | A record is in the output iff it is the non-empty map_item result of some input item. |
| TweetScraper.Map | apify/apidojo_tweet_scraper.py:143-152 | The structured_data.append loop computes MappedAll. |
| TweetScraper.SearchUrl | apify/apidojo_tweet_scraper.py:27 | The search URL of a token; see SearchUrlInjective. |
| TweetScraper.SearchUrlInjective | apify/apidojo_tweet_scraper.py:27 | Distinct tokens are searched with distinct URLs. |
| TweetScraper.Collected | apify/apidojo_tweet_scraper.py:21-32 | The concatenation, in token order, of map's output on each token's search results; stated by CollectedTokens and CollectedAppend. |
| TweetScraper.FlatMapSnoc | apify/apidojo_tweet_scraper.py:26-31 | One more token appends that token's results. |
| TweetScraper.FlatMapAppend | apify/apidojo_tweet_scraper.py:26-31 | Concatenating per-key results distributes over concatenation of the keys. |
| TweetScraper.CollectedTokens | apify/apidojo_tweet_scraper.py:26-32 | Every collected record carries a token, and that token is one of the searched tokens. |
| TweetScraper.CollectedAppend | apify/apidojo_tweet_scraper.py:26-32 | Searching a + b collects the records of a, then those of b, in token order. |
| TweetScraper.SearchTokenMentions | apify/apidojo_tweet_scraper.py:21-32 | The all_data.extend loop gives the concatenation, in token order, of map's output for the results of each token's search URL. |
| Pipeline.MappedRecordIsIndexable | apify/apidojo_tweet_scraper.py:90-138 | Every record map_item builds is read in full by the indexer and lists no LOCATED_IN edge. |
| Pipeline.IndexMappedRecord | apify/apidojo_tweet_scraper.py:90-138 | Indexing a mapped record does not raise. It merges the token and sets the tweet and user to the item's values. It adds the POSTED edge with the item's likes and the MENTIONS edge with the hashtag count, and no LOCATED_IN edge. |
| Pipeline.MappedAllIndexable | apify/apidojo_tweet_scraper.py:143-152 | Every record map returns is read in full and lists no LOCATED_IN edge. |
| Pipeline.CollectedIndexable | apify/apidojo_tweet_scraper.py:21-32 | Every record search_token_mentions returns is read in full and lists no LOCATED_IN edge. |
| Pipeline.IngestIndexable | scraper_graph_indexer.py:22-122 | A batch of such records runs to the end, adds no LOCATED_IN edge and leaves every record's Token in the graph. |
| Pipeline.IngestMapped | apify/apidojo_tweet_scraper.py:143-152 | Indexing map's output never aborts and never adds a LOCATED_IN edge. When something mapped, the token's node exists afterwards. |
| Pipeline.IngestCollected | apify/apidojo_tweet_scraper.py:21-32 | Indexing search_token_mentions' output never aborts and never adds a LOCATED_IN edge. Every record's token is a searched token, and its node exists afterwards. |

## Left out

- The Neo4j driver, session setup, `close` and the Cypher text are not modelled. The database is
  the abstract `GraphState`, and each `session.run` is the state update it performs.
- Logging has no behaviour and is not modelled. The exception that the indexer only logs is
  the method's `Option<Abort>` result.
- Store failures are not modelled. No connection loss, no null merge key and no other database
  error are represented; only KeyError on the record aborts a run.
- The Apify actor call (`searchBatch`, `run_actor_async`) and the async loop are the parameter
  `fetch`, applied to the search URL. `fetch` is total here. In the source, a failing actor call
  (apify/apidojo_tweet_scraper.py:29) raises out of `search_token_mentions`, and what the earlier
  tokens collected is lost with it. Because `fetch` is a function of the URL, a token listed twice gets the same
  results both times here, whereas two actor runs in the source can return different items.
- `strptime` with its format and `format_date` are the partial function `parse`. Time zones and
  ISO formatting are not modelled.
- `export_to_json` is file I/O and is not modelled.
- The constructors' environment defaults and the actor configuration (`ActorConfig`, timeout)
  are configuration and are not modelled.
- JSON null in a member that is read by subscript is treated as absent, except for the members
  that `Field` covers. In the source, a null `likeCount` is stored, but here it fails like an
  absent one. A null `entities` raises in `.get` in the source, but here it counts as no
  entities.
- An extended medium with a null `media_key` enters `media_urls` under `None` in the source.
  Here the medium is skipped. No later lookup can ask for `None`, because only truthy keys are
  looked up.
- IngestMapped, IngestCollected, IngestIndexable: "never aborts" holds because a null `likeCount`,
  `id` or `author.id` makes map_item fail in the model. In the source such an item maps and
  carries the null into the record. Neo4j then rejects the null in the node or edge MERGE, and the
  ensuing exception, caught outside the record loop, skips every later record of the batch.
- MappedItem, Images: a null where `.get` supplies a default is read as that default. In the source
  these raise TypeError and map_item returns {}, while the model maps the item: a null
  `entities.hashtags` (apify/apidojo_tweet_scraper.py:73), a null `entities.media` alongside a
  truthy extendedEntities (:80), and an extendedEntities of `{"media": null}` (:79).
- The other files of the repository are not part of this model: database/models/dataset_links.py,
  scheduler.py, settings.py, twitter_token_indexer.py, helpers/ipfs_utils.py and
  helpers/json_validation_helpers.py.
