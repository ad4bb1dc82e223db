/**
 * The scraper's output fed to the indexer: what a run of create_nodes_and_edges
 * does with records produced by map_item, map and search_token_mentions.
 */
module Pipeline {
  import opened Records
  import opened GraphIndexer
  import opened GraphIndexerProofs
  import opened TweetScraper

  /** A record the indexer reads in full and that lists no LOCATED_IN edge. */
  ghost predicate Indexable(e: Entry) {
    EntryError(e) == Ok && e.edges.Some? && NoLocatedEdges(e.edges.value)
  }

  /** Every record map_item builds reads in full in the indexer and lists no LOCATED_IN edge. */
  lemma MappedRecordIsIndexable(item: Item, token: string, parse: string -> Option<string>)
    requires MappedItem(item, token, parse).Some?
    ensures Indexable(MappedItem(item, token, parse).value)
  {
    var e := MappedItem(item, token, parse).value;
    var edges, name := e.edges.value, e.region.value.name;
    assert EntryKeys(e) == Ok && TweetKeys(e.tweet.value) == Ok && UserKeys(e.userAccount.value) == Ok;
    assert EdgesError(edges[1..][1..], name) == Ok by {
      assert edges[1..][1..] == [];
    }
    assert EdgesError(edges[1..], name) == Ok by {
      assert EdgeError(edges[1..][0], name) == Ok;
    }
    assert EdgesError(edges, name) == Ok by {
      assert EdgeError(edges[0], name) == Ok;
    }
  }

  /** Indexing one mapped record merges its Token, Tweet and UserAccount with the item's values
      and adds the POSTED and MENTIONS edges built from the item, and no LOCATED_IN edge. */
  lemma IndexMappedRecord(g: GraphState, item: Item, token: string, parse: string -> Option<string>)
    requires MappedItem(item, token, parse).Some?
    ensures var r := ApplyEntry(g, MappedItem(item, token, parse).value);
            var author, ts := item.author.value, parse(item.createdAt.value).value;
            && r.outcome == Ok
            && token in r.graph.tokens
            && r.graph.tweets == g.tweets[item.id.value := TweetProps(item.twitterUrl.value, item.text, item.likeCount.value, ts)]
            && r.graph.users == g.users[author.id.value := UserProps(author.userName.value, author.isVerified.value)]
            && Posted(author.id.value, item.id.value, ts, item.likeCount.value) in r.graph.posted
            && Mention(author.id.value, token, ts, |HashtagList(item)|) in r.graph.mentions
            && r.graph.locatedIn == g.locatedIn
  {
    var e := MappedItem(item, token, parse).value;
    MappedRecordIsIndexable(item, token, parse);
    CleanEntryIsWritten(e);
    ApplyEntryWritten(g, e);
    var h, ctx, edges := NodeWrites(g, e), ContextOf(e), e.edges.value;
    EdgesWithoutLocated(h, ctx, edges);
    assert edges[..1] == [edges[0]] && edges[..2] == edges;
    var one := edges[..1];
    var s1 := ApplyEdges(h, ctx, one);
    assert s1 == ApplyEdge(h, ctx, edges[0]) by {
      assert one[..0] == [] && one[0] == edges[0];
      assert ApplyEdges(h, ctx, one[..0]) == Step(h, Ok);
    }
    assert PostedOf(ctx, edges[0]) in s1.graph.posted;
    assert ApplyEdges(h, ctx, edges) == ApplyEdge(s1.graph, ctx, edges[1]);
  }

  /** The records map returns are all indexable. */
  lemma MappedAllIndexable(items: seq<Item>, token: string, parse: string -> Option<string>)
    ensures forall k | 0 <= k < |MappedAll(items, token, parse)| :: Indexable(MappedAll(items, token, parse)[k])
  {
    var out := MappedAll(items, token, parse);
    forall k | 0 <= k < |out|
      ensures Indexable(out[k])
    {
      MappedAllMembers(items, token, parse, out[k]);
      var i :| 0 <= i < |items| && MappedItem(items[i], token, parse) == Some(out[k]);
      MappedRecordIsIndexable(items[i], token, parse);
    }
  }

  /** The records search_token_mentions returns are all indexable. */
  lemma {:induction false} CollectedIndexable(tokens: seq<string>, fetch: string -> seq<Item>, parse: string -> Option<string>)
    ensures forall k | 0 <= k < |Collected(tokens, fetch, parse)| :: Indexable(Collected(tokens, fetch, parse)[k])
    decreases |tokens|
  {
    if tokens != [] {
      var front, t := tokens[..|tokens| - 1], tokens[|tokens| - 1];
      CollectedIndexable(front, fetch, parse);
      MappedAllIndexable(fetch(SearchUrl(t)), t, parse);
      var cf: seq<Entry>, m: seq<Entry> := Collected(front, fetch, parse), MappedAll(fetch(SearchUrl(t)), t, parse);
      assert Collected(tokens, fetch, parse) == cf + m;
      forall k | 0 <= k < |cf + m|
        ensures Indexable((cf + m)[k])
      {
        if k < |cf| {
          assert (cf + m)[k] == cf[k];
        } else {
          assert (cf + m)[k] == m[k - |cf|];
        }
      }
    }
  }

  /** A batch of indexable records is processed to the end, adds no LOCATED_IN edge,
      and leaves every record's token in the graph. */
  lemma IngestIndexable(g: GraphState, data: seq<Entry>)
    requires forall k | 0 <= k < |data| :: Indexable(data[k])
    ensures Ingest(g, data).aborted.None?
    ensures Ingest(g, data).graph.locatedIn == g.locatedIn
    ensures forall k | 0 <= k < |data| :: data[k].token.Some? && data[k].token.value in Ingest(g, data).graph.tokens
  {
    IngestAbortsAtFirstError(g, data);
    IngestWithoutLocated(g, data);
    IngestTokens(g, data);
  }

  /** Indexing map's output for a token never aborts, never adds a LOCATED_IN edge,
      and leaves the token in the graph when some item mapped. */
  lemma IngestMapped(g: GraphState, items: seq<Item>, token: string, parse: string -> Option<string>)
    ensures var data := MappedAll(items, token, parse);
            && Ingest(g, data).aborted.None?
            && Ingest(g, data).graph.locatedIn == g.locatedIn
            && (data != [] ==> token in Ingest(g, data).graph.tokens)
  {
    MappedAllIndexable(items, token, parse);
    IngestIndexable(g, MappedAll(items, token, parse));
  }

  /** Indexing search_token_mentions' output never aborts, never adds a LOCATED_IN edge,
      and leaves the token of every collected record, a searched token, in the graph. */
  lemma IngestCollected(g: GraphState, tokens: seq<string>, fetch: string -> seq<Item>, parse: string -> Option<string>)
    ensures var data := Collected(tokens, fetch, parse);
            && Ingest(g, data).aborted.None?
            && Ingest(g, data).graph.locatedIn == g.locatedIn
            && forall k | 0 <= k < |data| ::
                 data[k].token.Some? && data[k].token.value in tokens && data[k].token.value in Ingest(g, data).graph.tokens
  {
    CollectedIndexable(tokens, fetch, parse);
    CollectedTokens(tokens, fetch, parse);
    IngestIndexable(g, Collected(tokens, fetch, parse));
  }
}
