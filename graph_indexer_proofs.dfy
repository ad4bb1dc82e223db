/**
 * Properties of a whole ingestion run (GraphIndexer.Ingest): where it stops,
 * which writes survive, last write wins per node key, and idempotence.
 */
module GraphIndexerProofs {
  import opened Records
  import opened GraphIndexer

  /** Every record of the batch can be read in full: none raises KeyError. */
  ghost predicate Clean(data: seq<Entry>) {
    forall i | 0 <= i < |data| :: EntryError(data[i]) == Ok
  }

  function TweetIdOf(e: Entry): string
    requires TweetWritten(e)
  {
    e.tweet.value.id.value
  }

  function UserIdOf(e: Entry): string
    requires UserWritten(e)
  {
    e.userAccount.value.userId.value
  }

  lemma CleanEntryIsWritten(e: Entry)
    requires EntryError(e) == Ok
    ensures UserWritten(e)
  {
  }

  // ---------------------------------------------------------------------------
  // Where a run stops.
  // ---------------------------------------------------------------------------

  /** A run completes exactly when no record raises; otherwise it stops at the first record that does,
      with that record's missing key. Neither depends on the graph. */
  lemma {:induction false} IngestAbortsAtFirstError(g: GraphState, data: seq<Entry>)
    ensures Ingest(g, data).aborted.None? <==> Clean(data)
    ensures Ingest(g, data).aborted.Some? ==>
              var a := Ingest(g, data).aborted.value;
              && a.index < |data|
              && (forall j | 0 <= j < a.index :: EntryError(data[j]) == Ok)
              && EntryError(data[a.index]) == KeyError(a.key)
    decreases |data|
  {
    if data != [] {
      var front := data[..|data| - 1];
      IngestAbortsAtFirstError(g, front);
      assert forall j | 0 <= j < |front| :: front[j] == data[j];
    }
  }

  /** A run that aborts at record i completes records 0..i-1 and is the run of records 0..i. */
  lemma {:induction false} IngestAbortPrefix(g: GraphState, data: seq<Entry>)
    requires Ingest(g, data).aborted.Some?
    ensures var i := Ingest(g, data).aborted.value.index;
            && i < |data|
            && Ingest(g, data[..i]).aborted.None?
            && Ingest(g, data) == Ingest(g, data[..i + 1])
    decreases |data|
  {
    var n := |data|;
    var front := data[..n - 1];
    var prev := Ingest(g, front);
    if prev.aborted.Some? {
      assert Ingest(g, data) == prev;
      IngestAbortPrefix(g, front);
      var i := prev.aborted.value.index;
      assert front[..i] == data[..i] && front[..i + 1] == data[..i + 1];
    } else {
      assert Ingest(g, data).aborted.value.index == n - 1;
      assert data[..n - 1] == front && data[..n] == data;
    }
  }

  /** On an exception at record i, the graph is what records 0..i-1 wrote plus what record i wrote
      before its failing read; everything the earlier records wrote remains. */
  lemma IngestAbortKeepsEarlierWrites(g: GraphState, data: seq<Entry>)
    requires Ingest(g, data).aborted.Some?
    ensures var i := Ingest(g, data).aborted.value.index;
            && i < |data|
            && Ingest(g, data[..i]).aborted.None?
            && Ingest(g, data).graph == ApplyEntry(Ingest(g, data[..i]).graph, data[i]).graph
            && Grows(Ingest(g, data[..i]).graph, Ingest(g, data).graph)
  {
    IngestAbortPrefix(g, data);
    var i := Ingest(g, data).aborted.value.index;
    var upto := data[..i + 1];
    assert upto[..i] == data[..i] && upto[i] == data[i];
  }

  // ---------------------------------------------------------------------------
  // Last write wins, per node key.
  // ---------------------------------------------------------------------------

  /** The Tweet keyed by the id of record j ends with record j's properties when no later record
      carries the same id. */
  lemma {:induction false} TweetLastWriteWins(g: GraphState, data: seq<Entry>, j: nat)
    requires Clean(data)
    requires j < |data|
    requires forall i | 0 <= i < |data| :: UserWritten(data[i])
    requires forall i | j < i < |data| :: TweetIdOf(data[i]) != TweetIdOf(data[j])
    ensures TweetIdOf(data[j]) in Ingest(g, data).graph.tweets
    ensures Ingest(g, data).graph.tweets[TweetIdOf(data[j])] == TweetPropsOf(data[j].tweet.value)
    decreases |data|
  {
    var n := |data|;
    var front := data[..n - 1];
    IngestAbortsAtFirstError(g, front);
    assert Clean(front) by {
      assert forall i | 0 <= i < |front| :: front[i] == data[i];
    }
    if j < n - 1 {
      TweetLastWriteWins(g, front, j);
    }
  }

  /** A Tweet whose id no record that reaches the Tweet MERGE carries keeps its presence and its
      properties, whether the run completes or aborts. */
  lemma {:induction false} TweetsUntouched(g: GraphState, data: seq<Entry>, k: string)
    requires forall i | 0 <= i < |data| :: TweetWritten(data[i]) ==> data[i].tweet.value.id.value != k
    ensures k in Ingest(g, data).graph.tweets <==> k in g.tweets
    ensures k in g.tweets ==> Ingest(g, data).graph.tweets[k] == g.tweets[k]
    decreases |data|
  {
    if data != [] {
      var front := data[..|data| - 1];
      assert forall i | 0 <= i < |front| :: front[i] == data[i];
      TweetsUntouched(g, front, k);
    }
  }

  /** The UserAccount keyed by the user id of record j ends with record j's username and
      verified flag when no later record carries the same user id. */
  lemma {:induction false} UserLastWriteWins(g: GraphState, data: seq<Entry>, j: nat)
    requires Clean(data)
    requires j < |data|
    requires forall i | 0 <= i < |data| :: UserWritten(data[i])
    requires forall i | j < i < |data| :: UserIdOf(data[i]) != UserIdOf(data[j])
    ensures UserIdOf(data[j]) in Ingest(g, data).graph.users
    ensures Ingest(g, data).graph.users[UserIdOf(data[j])] == UserPropsOf(data[j].userAccount.value)
    decreases |data|
  {
    var n := |data|;
    var front := data[..n - 1];
    IngestAbortsAtFirstError(g, front);
    assert Clean(front) by {
      assert forall i | 0 <= i < |front| :: front[i] == data[i];
    }
    if j < n - 1 {
      UserLastWriteWins(g, front, j);
    }
  }

  /** After a complete run the Token of every record exists. */
  lemma {:induction false} IngestTokens(g: GraphState, data: seq<Entry>)
    requires Clean(data)
    ensures forall i | 0 <= i < |data| :: EntryKeys(data[i]) == Ok && data[i].token.value in Ingest(g, data).graph.tokens
    decreases |data|
  {
    if data != [] {
      var front := data[..|data| - 1];
      IngestAbortsAtFirstError(g, front);
      assert Clean(front) by {
        assert forall i | 0 <= i < |front| :: front[i] == data[i];
      }
      IngestTokens(g, front);
      assert forall i | 0 <= i < |front| :: front[i] == data[i];
    }
  }

  // ---------------------------------------------------------------------------
  // The edges a record's edge loop adds: one per edge run before the first KeyError
  // whose endpoints exist, and no other.
  // ---------------------------------------------------------------------------

  /** The edges before the last one are reached in the longer list exactly when in the prefix. */
  lemma ReachedPrefix(edges: seq<EdgeRec>, region: Field<string>)
    requires edges != []
    ensures forall k | 0 <= k < |edges| - 1 :: Reached(edges, region, k) == Reached(edges[..|edges| - 1], region, k)
    ensures Reached(edges, region, |edges| - 1) <==>
              EdgesError(edges[..|edges| - 1], region) == Ok && EdgeError(edges[|edges| - 1], region) == Ok
  {
    var front := edges[..|edges| - 1];
    assert forall j | 0 <= j < |front| :: front[j] == edges[j];
  }

  lemma {:induction false} ApplyEdgesMentions(g: GraphState, ctx: Context, edges: seq<EdgeRec>)
    ensures var r := ApplyEdges(g, ctx, edges).graph;
            ctx.userId in g.users && ctx.token in g.tokens ==>
              forall k | Reached(edges, ctx.region, k) && edges[k].kind == Some(MENTIONS) :: MentionOf(ctx, edges[k]) in r.mentions
    ensures var r := ApplyEdges(g, ctx, edges).graph;
            forall m | m in r.mentions && m !in g.mentions ::
              && ctx.userId in g.users && ctx.token in g.tokens
              && exists k | Reached(edges, ctx.region, k) && edges[k].kind == Some(MENTIONS) :: m == MentionOf(ctx, edges[k])
    decreases |edges|
  {
    if edges != [] {
      var n := |edges|;
      var front, last := edges[..n - 1], edges[n - 1];
      ApplyEdgesMentions(g, ctx, front);
      ReachedPrefix(edges, ctx.region);
      assert forall k | 0 <= k < n - 1 :: front[k] == edges[k];
    }
  }

  lemma {:induction false} ApplyEdgesPosted(g: GraphState, ctx: Context, edges: seq<EdgeRec>)
    ensures var r := ApplyEdges(g, ctx, edges).graph;
            ctx.userId in g.users && ctx.tweetId in g.tweets ==>
              forall k | Reached(edges, ctx.region, k) && edges[k].kind == Some(POSTED) :: PostedOf(ctx, edges[k]) in r.posted
    ensures var r := ApplyEdges(g, ctx, edges).graph;
            forall p | p in r.posted && p !in g.posted ::
              && ctx.userId in g.users && ctx.tweetId in g.tweets
              && exists k | Reached(edges, ctx.region, k) && edges[k].kind == Some(POSTED) :: p == PostedOf(ctx, edges[k])
    decreases |edges|
  {
    if edges != [] {
      var n := |edges|;
      var front, last := edges[..n - 1], edges[n - 1];
      ApplyEdgesPosted(g, ctx, front);
      ReachedPrefix(edges, ctx.region);
      assert forall k | 0 <= k < n - 1 :: front[k] == edges[k];
    }
  }

  lemma {:induction false} ApplyEdgesLocated(g: GraphState, ctx: Context, edges: seq<EdgeRec>)
    ensures var r := ApplyEdges(g, ctx, edges).graph;
            ctx.region.Val? && ctx.region.value != UNKNOWN && ctx.userId in g.users && ctx.region.value in g.regions ==>
              forall k | Reached(edges, ctx.region, k) && edges[k].kind == Some(LOCATED_IN) ::
                LocatedIn(ctx.userId, ctx.region.value) in r.locatedIn
    ensures var r := ApplyEdges(g, ctx, edges).graph;
            forall l | l in r.locatedIn && l !in g.locatedIn ::
              && ctx.region.Val? && ctx.region.value != UNKNOWN && ctx.userId in g.users && ctx.region.value in g.regions
              && l == LocatedIn(ctx.userId, ctx.region.value)
              && exists k | Reached(edges, ctx.region, k) :: edges[k].kind == Some(LOCATED_IN)
    decreases |edges|
  {
    if edges != [] {
      var n := |edges|;
      var front, last := edges[..n - 1], edges[n - 1];
      ApplyEdgesLocated(g, ctx, front);
      ReachedPrefix(edges, ctx.region);
      assert forall k | 0 <= k < n - 1 :: front[k] == edges[k];
    }
  }

  // ---------------------------------------------------------------------------
  // Records without LOCATED_IN edges.
  // ---------------------------------------------------------------------------

  predicate NoLocatedEdges(edges: seq<EdgeRec>) {
    forall k | 0 <= k < |edges| :: edges[k].kind != Some(LOCATED_IN)
  }

  lemma {:induction false} EdgesWithoutLocated(g: GraphState, ctx: Context, edges: seq<EdgeRec>)
    requires NoLocatedEdges(edges)
    ensures ApplyEdges(g, ctx, edges).graph.locatedIn == g.locatedIn
    decreases |edges|
  {
    if edges != [] {
      var front := edges[..|edges| - 1];
      assert NoLocatedEdges(front) by {
        assert forall k | 0 <= k < |front| :: front[k] == edges[k];
      }
      EdgesWithoutLocated(g, ctx, front);
      assert edges[|edges| - 1].kind != Some(LOCATED_IN);
    }
  }

  /** A batch none of whose records lists a LOCATED_IN edge adds no LOCATED_IN edge. */
  lemma {:induction false} IngestWithoutLocated(g: GraphState, data: seq<Entry>)
    requires forall i | 0 <= i < |data| :: data[i].edges.Some? ==> NoLocatedEdges(data[i].edges.value)
    ensures Ingest(g, data).graph.locatedIn == g.locatedIn
    decreases |data|
  {
    if data != [] {
      var n := |data|;
      var front := data[..n - 1];
      assert forall i | 0 <= i < |front| :: front[i] == data[i];
      IngestWithoutLocated(g, front);
      var prev := Ingest(g, front);
      if prev.aborted.None? && UserWritten(data[n - 1]) {
        var e := data[n - 1];
        ApplyEntryWritten(prev.graph, e);
        EdgesWithoutLocated(NodeWrites(prev.graph, e), ContextOf(e), e.edges.value);
      }
    }
  }

  // ---------------------------------------------------------------------------
  // Idempotence: a run is the overlay of what the batch writes on an empty graph.
  // ---------------------------------------------------------------------------

  /** g with d's writes applied: sets united, d's property values overriding g's. */
  function Overlay(g: GraphState, d: GraphState): GraphState {
    GraphState(g.tokens + d.tokens, g.tweets + d.tweets, g.users + d.users, g.regions + d.regions,
               g.mentions + d.mentions, g.posted + d.posted, g.locatedIn + d.locatedIn)
  }

  lemma OverlayAbsorbs(g: GraphState, d: GraphState)
    ensures Overlay(Overlay(g, d), d) == Overlay(g, d)
  {
    assert (g.tweets + d.tweets) + d.tweets == g.tweets + d.tweets;
    assert (g.users + d.users) + d.users == g.users + d.users;
  }

  lemma EdgeOverlay(g: GraphState, d: GraphState, ctx: Context, edge: EdgeRec)
    requires ctx.userId in d.users && ctx.token in d.tokens && ctx.tweetId in d.tweets
    requires RegionNamed(ctx.region) ==> ctx.region.value in d.regions
    requires "" in g.regions ==> "" in d.regions
    ensures ApplyEdge(Overlay(g, d), ctx, edge)
            == Step(Overlay(g, ApplyEdge(d, ctx, edge).graph), ApplyEdge(d, ctx, edge).outcome)
  {
  }

  lemma {:induction false} EdgesOverlay(g: GraphState, d: GraphState, ctx: Context, edges: seq<EdgeRec>)
    requires ctx.userId in d.users && ctx.token in d.tokens && ctx.tweetId in d.tweets
    requires RegionNamed(ctx.region) ==> ctx.region.value in d.regions
    requires "" in g.regions ==> "" in d.regions
    ensures ApplyEdges(Overlay(g, d), ctx, edges)
            == Step(Overlay(g, ApplyEdges(d, ctx, edges).graph), ApplyEdges(d, ctx, edges).outcome)
    decreases |edges|
  {
    if edges != [] {
      var front := edges[..|edges| - 1];
      EdgesOverlay(g, d, ctx, front);
      var prev := ApplyEdges(d, ctx, front);
      if prev.outcome.Ok? {
        EdgeOverlay(g, prev.graph, ctx, edges[|edges| - 1]);
      }
    }
  }

  /** The node MERGEs of a record on Overlay(g, d) give Overlay(g, the same MERGEs on d). */
  function NodeWrites(g: GraphState, e: Entry): GraphState
    requires UserWritten(e)
  {
    var tw, ua, name := e.tweet.value, e.userAccount.value, e.region.value.name;
    var g3 := g.(tokens := g.tokens + {e.token.value})
               .(tweets := g.tweets[tw.id.value := TweetPropsOf(tw)])
               .(users := g.users[ua.userId.value := UserPropsOf(ua)]);
    if RegionNamed(name) then g3.(regions := g3.regions + {name.value}) else g3
  }

  lemma ApplyEntryWritten(g: GraphState, e: Entry)
    requires UserWritten(e)
    ensures ApplyEntry(g, e) == ApplyEdges(NodeWrites(g, e), ContextOf(e), e.edges.value)
  {
  }

  /** The MENTIONS edges a record that reaches its edge loop adds: one per MENTIONS edge run
      before the first KeyError, and no other. */
  lemma ApplyEntryMentions(g: GraphState, e: Entry)
    requires UserWritten(e)
    ensures var r, ctx, edges := ApplyEntry(g, e).graph, ContextOf(e), e.edges.value;
            && (forall k | Reached(edges, ctx.region, k) && edges[k].kind == Some(MENTIONS) :: MentionOf(ctx, edges[k]) in r.mentions)
            && (forall m | m in r.mentions && m !in g.mentions ::
                  exists k | Reached(edges, ctx.region, k) && edges[k].kind == Some(MENTIONS) :: m == MentionOf(ctx, edges[k]))
  {
    ApplyEntryWritten(g, e);
    ApplyEdgesMentions(NodeWrites(g, e), ContextOf(e), e.edges.value);
  }

  /** The POSTED edges a record that reaches its edge loop adds. */
  lemma ApplyEntryPosted(g: GraphState, e: Entry)
    requires UserWritten(e)
    ensures var r, ctx, edges := ApplyEntry(g, e).graph, ContextOf(e), e.edges.value;
            && (forall k | Reached(edges, ctx.region, k) && edges[k].kind == Some(POSTED) :: PostedOf(ctx, edges[k]) in r.posted)
            && (forall p | p in r.posted && p !in g.posted ::
                  exists k | Reached(edges, ctx.region, k) && edges[k].kind == Some(POSTED) :: p == PostedOf(ctx, edges[k]))
  {
    ApplyEntryWritten(g, e);
    ApplyEdgesPosted(NodeWrites(g, e), ContextOf(e), e.edges.value);
  }

  /** The LOCATED_IN edge a record that reaches its edge loop adds: the one from its user to its
      region, when the name is neither null nor "Unknown", the Region exists or is merged by the
      record, and some LOCATED_IN edge is run before the first KeyError. */
  lemma ApplyEntryLocated(g: GraphState, e: Entry)
    requires UserWritten(e)
    ensures var r, ctx, edges := ApplyEntry(g, e).graph, ContextOf(e), e.edges.value;
            var linked := ctx.region.Val? && ctx.region.value != UNKNOWN && (ctx.region.value in g.regions || RegionNamed(ctx.region));
            && (linked ==> forall k | Reached(edges, ctx.region, k) && edges[k].kind == Some(LOCATED_IN) ::
                             LocatedIn(ctx.userId, ctx.region.value) in r.locatedIn)
            && (forall l | l in r.locatedIn && l !in g.locatedIn ::
                  && linked && l == LocatedIn(ctx.userId, ctx.region.value)
                  && exists k | Reached(edges, ctx.region, k) :: edges[k].kind == Some(LOCATED_IN))
  {
    ApplyEntryWritten(g, e);
    ApplyEdgesLocated(NodeWrites(g, e), ContextOf(e), e.edges.value);
  }

  lemma UpdateOverlay<V>(a: map<string, V>, b: map<string, V>, k: string, v: V)
    ensures (a + b)[k := v] == a + b[k := v]
  {
  }

  lemma NodeWritesOverlay(g: GraphState, d: GraphState, e: Entry)
    requires UserWritten(e)
    ensures NodeWrites(Overlay(g, d), e) == Overlay(g, NodeWrites(d, e))
  {
    var tw, ua := e.tweet.value, e.userAccount.value;
    UpdateOverlay(g.tweets, d.tweets, tw.id.value, TweetPropsOf(tw));
    UpdateOverlay(g.users, d.users, ua.userId.value, UserPropsOf(ua));
  }

  lemma EntryOverlay(g: GraphState, d: GraphState, e: Entry)
    requires "" in g.regions ==> "" in d.regions
    ensures ApplyEntry(Overlay(g, d), e) == Step(Overlay(g, ApplyEntry(d, e).graph), ApplyEntry(d, e).outcome)
  {
    if UserWritten(e) {
      ApplyEntryWritten(d, e);
      ApplyEntryWritten(Overlay(g, d), e);
      NodeWritesOverlay(g, d, e);
      EdgesOverlay(g, NodeWrites(d, e), ContextOf(e), e.edges.value);
    } else if TweetWritten(e) {
      UpdateOverlay(g.tweets, d.tweets, e.tweet.value.id.value, TweetPropsOf(e.tweet.value));
    }
  }

  /** The empty database, holding only the Region named "" when g has one: a LOCATED_IN edge of
      a record whose region name is "" links to that Region without the record merging it. */
  function Blank(g: GraphState): (b: GraphState)
    ensures Overlay(g, b) == g
    ensures "" in g.regions <==> "" in b.regions
  {
    EmptyGraph.(regions := g.regions * {""})
  }

  /** A run on g is g overlaid with the run of the same batch on the empty database (Blank(g)),
      and it stops at the same record. */
  lemma {:induction false} IngestOverlay(g: GraphState, data: seq<Entry>)
    ensures Ingest(g, data) == Run(Overlay(g, Ingest(Blank(g), data).graph), Ingest(Blank(g), data).aborted)
    decreases |data|
  {
    if data != [] {
      var front := data[..|data| - 1];
      IngestOverlay(g, front);
      var d := Ingest(Blank(g), front);
      if d.aborted.None? {
        EntryOverlay(g, d.graph, data[|data| - 1]);
      }
    }
  }

  /** Replaying a batch (one record or many, complete or aborted) leaves the graph as one run left it. */
  lemma IngestIdempotent(g: GraphState, data: seq<Entry>)
    ensures Ingest(Ingest(g, data).graph, data) == Ingest(g, data)
  {
    var d := Ingest(Blank(g), data);
    IngestOverlay(g, data);
    var g1 := Overlay(g, d.graph);
    assert Blank(g1) == Blank(g) by {
      assert g1.regions * {""} == g.regions * {""};
    }
    IngestOverlay(g1, data);
    OverlayAbsorbs(g, d.graph);
  }
}
