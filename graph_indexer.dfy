/**
 * Graph ingestion of mapped mention records (ScraperGraphIndexer).
 *
 * The graph database is abstract state: a set of Token names, maps from
 * Tweet id and UserAccount id to their properties, a set of Region names and
 * three edge sets. Every `session.run` of the source is one state update:
 * a node MERGE is an insert into a keyed store (with a property overwrite for
 * Tweet and UserAccount), an edge statement first MATCHes both endpoints and
 * then MERGEs on the whole pattern, properties included, so an edge's
 * identity is its type, its endpoints and its property values.
 *
 * The pure functions (ApplyEdge, ApplyEdges, ApplyEntry, Ingest) specify the
 * effect; the class ScraperGraphIndexer performs it step by step.
 */
module GraphIndexer {
  import opened Records

  datatype TweetProps = TweetProps(url: string, text: Option<string>, likes: int, timestamp: string)
  datatype UserProps = UserProps(username: string, isVerified: bool)

  datatype Mention = Mention(userId: string, token: string, timestamp: string, hashtagCount: int)
  datatype Posted = Posted(userId: string, tweetId: string, timestamp: string, likes: int)
  datatype LocatedIn = LocatedIn(userId: string, region: string)

  /** The contents of the graph database. */
  datatype GraphState = GraphState(
    tokens: set<string>,
    tweets: map<string, TweetProps>,
    users: map<string, UserProps>,
    regions: set<string>,
    mentions: set<Mention>,
    posted: set<Posted>,
    locatedIn: set<LocatedIn>)

  const EmptyGraph := GraphState({}, map[], map[], {}, {}, {}, {})

  /** The result of a statement: it completed, or a dictionary read raised KeyError. */
  datatype Outcome = Ok | KeyError(key: string)

  datatype Step = Step(graph: GraphState, outcome: Outcome)

  /** The exception that ended a run: the index of the record and the missing key. */
  datatype Abort = Abort(index: nat, key: string)

  datatype Run = Run(graph: GraphState, aborted: Option<Abort>)

  /** The endpoints an edge of a record is written between: the record's own token,
      tweet id, user id and region name (never the edge's 'from'/'to' members). */
  datatype Context = Context(token: string, tweetId: string, userId: string, region: Field<string>)

  /** Referential integrity: no blank or "Unknown" Region, and every edge joins existing nodes. */
  ghost predicate Consistent(g: GraphState) {
    && UNKNOWN !in g.regions
    && "" !in g.regions
    && (forall m | m in g.mentions :: m.userId in g.users && m.token in g.tokens)
    && (forall p | p in g.posted :: p.userId in g.users && p.tweetId in g.tweets)
    && (forall l | l in g.locatedIn :: l.userId in g.users && l.region in g.regions)
  }

  /** Nothing is removed: every node key and every edge of g is still in h. */
  ghost predicate Grows(g: GraphState, h: GraphState) {
    && g.tokens <= h.tokens
    && g.tweets.Keys <= h.tweets.Keys
    && g.users.Keys <= h.users.Keys
    && g.regions <= h.regions
    && g.mentions <= h.mentions
    && g.posted <= h.posted
    && g.locatedIn <= h.locatedIn
  }

  ghost predicate SameNodes(g: GraphState, h: GraphState) {
    g.tokens == h.tokens && g.tweets == h.tweets && g.users == h.users && g.regions == h.regions
  }

  // ---------------------------------------------------------------------------
  // Reads of the record. Which key is missing never depends on the graph.
  // ---------------------------------------------------------------------------

  /** The five top-level members, read before any write of the record. */
  function EntryKeys(e: Entry): (r: Outcome)
    ensures r == Ok <==> e.token.Some? && e.tweet.Some? && e.userAccount.Some? && e.region.Some? && e.edges.Some?
    ensures r.KeyError? ==> r.key in {"token", "tweet", "user_account", "region", "edges"}
  {
    if e.token.None? then KeyError("token")
    else if e.tweet.None? then KeyError("tweet")
    else if e.userAccount.None? then KeyError("user_account")
    else if e.region.None? then KeyError("region")
    else if e.edges.None? then KeyError("edges")
    else Ok
  }

  /** The Tweet MERGE's parameters, in the order they are read. */
  function TweetKeys(t: TweetRec): (r: Outcome)
    ensures r == Ok <==> t.id.Some? && t.url.Some? && !t.text.Absent? && t.likes.Some? && t.timestamp.Some?
    ensures r.KeyError? ==> r.key in {"id", "url", "text", "likes", "timestamp"}
  {
    if t.id.None? then KeyError("id")
    else if t.url.None? then KeyError("url")
    else if t.text.Absent? then KeyError("text")
    else if t.likes.None? then KeyError("likes")
    else if t.timestamp.None? then KeyError("timestamp")
    else Ok
  }

  /** The properties SET on a Tweet; a null text leaves the property unset. */
  function TweetPropsOf(t: TweetRec): TweetProps
    requires TweetKeys(t) == Ok
  {
    TweetProps(t.url.value, if t.text.Val? then Some(t.text.value) else None, t.likes.value, t.timestamp.value)
  }

  /** The UserAccount MERGE's parameters, in the order they are read. */
  function UserKeys(u: UserRec): (r: Outcome)
    ensures r == Ok <==> u.userId.Some? && u.username.Some? && u.isVerified.Some?
    ensures r.KeyError? ==> r.key in {"user_id", "username", "is_verified"}
  {
    if u.userId.None? then KeyError("user_id")
    else if u.username.None? then KeyError("username")
    else if u.isVerified.None? then KeyError("is_verified")
    else Ok
  }

  function UserPropsOf(u: UserRec): UserProps
    requires UserKeys(u) == Ok
  {
    UserProps(u.username.value, u.isVerified.value)
  }

  /** A region name for which a Region node is merged: present, non-empty, not "Unknown". */
  predicate RegionNamed(name: Field<string>) {
    name.Val? && name.value != "" && name.value != UNKNOWN
  }

  /** The reads one edge performs before its statement is run. */
  function EdgeError(edge: EdgeRec, region: Field<string>): (r: Outcome)
    ensures r == Ok <==>
              && edge.kind.Some?
              && (edge.kind.value == MENTIONS ==>
                    edge.attributes.Some? && edge.attributes.value.timestamp.Some? && edge.attributes.value.hashtagCount.Some?)
              && (edge.kind.value == POSTED ==>
                    edge.attributes.Some? && edge.attributes.value.timestamp.Some? && edge.attributes.value.likes.Some?)
              && (edge.kind.value == LOCATED_IN ==> !region.Absent?)
    ensures r.KeyError? ==> r.key in {"type", "attributes", "timestamp", "hashtag_count", "likes", "name"}
  {
    if edge.kind.None? then KeyError("type")
    else if edge.kind.value == MENTIONS then
      if edge.attributes.None? then KeyError("attributes")
      else if edge.attributes.value.timestamp.None? then KeyError("timestamp")
      else if edge.attributes.value.hashtagCount.None? then KeyError("hashtag_count")
      else Ok
    else if edge.kind.value == POSTED then
      if edge.attributes.None? then KeyError("attributes")
      else if edge.attributes.value.timestamp.None? then KeyError("timestamp")
      else if edge.attributes.value.likes.None? then KeyError("likes")
      else Ok
    // region.get('name') of an absent name is None, which differs from "Unknown",
    // so region['name'] is then read and raises
    else if edge.kind.value == LOCATED_IN && region.Absent? then KeyError("name")
    else Ok
  }

  /** The key reported by the first failing edge of the list, or Ok. */
  function EdgesError(edges: seq<EdgeRec>, region: Field<string>): (r: Outcome)
    ensures r == Ok <==> forall j | 0 <= j < |edges| :: EdgeError(edges[j], region) == Ok
    decreases |edges|
  {
    if edges == [] then Ok
    else if EdgeError(edges[0], region).KeyError? then EdgeError(edges[0], region)
    else
      assert forall j | 0 <= j < |edges| - 1 :: edges[1..][j] == edges[j + 1];
      EdgesError(edges[1..], region)
  }

  /** A failing list fails with the key of an edge all of whose predecessors read in full. */
  lemma {:induction false} EdgesErrorFirst(edges: seq<EdgeRec>, region: Field<string>)
    requires EdgesError(edges, region).KeyError?
    ensures exists i | 0 <= i < |edges| ::
              (forall j | 0 <= j < i :: EdgeError(edges[j], region) == Ok) && EdgeError(edges[i], region) == EdgesError(edges, region)
    decreases |edges|
  {
    if EdgeError(edges[0], region).Ok? {
      var rest := edges[1..];
      EdgesErrorFirst(rest, region);
      var i :| 0 <= i < |rest| && (forall j | 0 <= j < i :: EdgeError(rest[j], region) == Ok)
               && EdgeError(rest[i], region) == EdgesError(rest, region);
      assert forall j | 0 <= j < i :: rest[j] == edges[j + 1];
      assert EdgeError(edges[i + 1], region) == EdgesError(edges, region);
      assert forall j | 0 <= j < i + 1 :: EdgeError(edges[j], region) == Ok by {
        forall j | 0 <= j < i + 1
          ensures EdgeError(edges[j], region) == Ok
        {
          if j > 0 {
            assert edges[j] == rest[j - 1];
          }
        }
      }
    } else {
      assert EdgeError(edges[0], region) == EdgesError(edges, region);
    }
  }

  /** Edge k of the list is run without a KeyError: it and every edge before it read in full. */
  predicate Reached(edges: seq<EdgeRec>, region: Field<string>, k: int) {
    0 <= k < |edges| && forall j | 0 <= j <= k :: EdgeError(edges[j], region) == Ok
  }

  /** The exception, if any, that processing record e raises. */
  function EntryError(e: Entry): (r: Outcome)
    ensures r == Ok <==>
              && EntryKeys(e) == Ok && TweetKeys(e.tweet.value) == Ok && UserKeys(e.userAccount.value) == Ok
              && forall j | 0 <= j < |e.edges.value| :: EdgeError(e.edges.value[j], e.region.value.name) == Ok
    ensures EntryKeys(e).KeyError? ==> r == EntryKeys(e)
    ensures EntryKeys(e) == Ok && TweetKeys(e.tweet.value).KeyError? ==> r == TweetKeys(e.tweet.value)
  {
    if EntryKeys(e).KeyError? then EntryKeys(e)
    else if TweetKeys(e.tweet.value).KeyError? then TweetKeys(e.tweet.value)
    else if UserKeys(e.userAccount.value).KeyError? then UserKeys(e.userAccount.value)
    else EdgesError(e.edges.value, e.region.value.name)
  }

  /** The record reaches the Tweet MERGE. */
  predicate TweetWritten(e: Entry) {
    EntryKeys(e) == Ok && TweetKeys(e.tweet.value) == Ok
  }

  /** The record reaches the UserAccount MERGE (and so its Region and edge statements). */
  predicate UserWritten(e: Entry) {
    TweetWritten(e) && UserKeys(e.userAccount.value) == Ok
  }

  function ContextOf(e: Entry): Context
    requires UserWritten(e)
  {
    Context(e.token.value, e.tweet.value.id.value, e.userAccount.value.userId.value, e.region.value.name)
  }

  function MentionOf(ctx: Context, edge: EdgeRec): Mention
    requires EdgeError(edge, ctx.region) == Ok && edge.kind == Some(MENTIONS)
  {
    Mention(ctx.userId, ctx.token, edge.attributes.value.timestamp.value, edge.attributes.value.hashtagCount.value)
  }

  function PostedOf(ctx: Context, edge: EdgeRec): Posted
    requires EdgeError(edge, ctx.region) == Ok && edge.kind == Some(POSTED)
  {
    Posted(ctx.userId, ctx.tweetId, edge.attributes.value.timestamp.value, edge.attributes.value.likes.value)
  }

  lemma {:induction false} EdgesErrorSnoc(edges: seq<EdgeRec>, edge: EdgeRec, region: Field<string>)
    ensures EdgesError(edges + [edge], region) ==
            if EdgesError(edges, region).KeyError? then EdgesError(edges, region) else EdgeError(edge, region)
    decreases |edges|
  {
    if edges == [] {
      assert [edge][1..] == [];
    } else {
      assert (edges + [edge])[0] == edges[0];
      assert (edges + [edge])[1..] == edges[1..] + [edge];
      EdgesErrorSnoc(edges[1..], edge, region);
    }
  }

  // ---------------------------------------------------------------------------
  // The effect of the statements on the graph.
  // ---------------------------------------------------------------------------

  /** One edge of a record: dispatch on its 'type'; MATCH both endpoints, then MERGE. */
  function ApplyEdge(g: GraphState, ctx: Context, edge: EdgeRec): (r: Step)
    ensures r.outcome == EdgeError(edge, ctx.region)
    ensures SameNodes(g, r.graph) && Grows(g, r.graph)
    ensures Consistent(g) ==> Consistent(r.graph)
    ensures forall m | m in r.graph.mentions && m !in g.mentions ::
              && r.outcome == Ok && edge.kind == Some(MENTIONS)
              && ctx.userId in g.users && ctx.token in g.tokens
              && m == MentionOf(ctx, edge)
    ensures r.outcome == Ok && edge.kind == Some(MENTIONS) && ctx.userId in g.users && ctx.token in g.tokens
            ==> MentionOf(ctx, edge) in r.graph.mentions
    ensures forall p | p in r.graph.posted && p !in g.posted ::
              && r.outcome == Ok && edge.kind == Some(POSTED)
              && ctx.userId in g.users && ctx.tweetId in g.tweets
              && p == PostedOf(ctx, edge)
    ensures r.outcome == Ok && edge.kind == Some(POSTED) && ctx.userId in g.users && ctx.tweetId in g.tweets
            ==> PostedOf(ctx, edge) in r.graph.posted
    ensures forall l | l in r.graph.locatedIn && l !in g.locatedIn ::
              && edge.kind == Some(LOCATED_IN)
              && ctx.region == Val(l.region) && l.region != UNKNOWN
              && l.userId == ctx.userId && ctx.userId in g.users && l.region in g.regions
    ensures edge.kind == Some(LOCATED_IN) && ctx.region.Val? && ctx.region.value != UNKNOWN
            && ctx.userId in g.users && ctx.region.value in g.regions
            ==> LocatedIn(ctx.userId, ctx.region.value) in r.graph.locatedIn
    ensures (edge.kind.Some? && edge.kind.value != MENTIONS && edge.kind.value != POSTED
             && edge.kind.value != LOCATED_IN) ==> r == Step(g, Ok)
  {
    var err := EdgeError(edge, ctx.region);
    if err.KeyError? then Step(g, err)
    else if edge.kind.value == MENTIONS then
      if ctx.userId in g.users && ctx.token in g.tokens
      then Step(g.(mentions := g.mentions + {MentionOf(ctx, edge)}), Ok)
      else Step(g, Ok)
    else if edge.kind.value == POSTED then
      if ctx.userId in g.users && ctx.tweetId in g.tweets
      then Step(g.(posted := g.posted + {PostedOf(ctx, edge)}), Ok)
      else Step(g, Ok)
    else if edge.kind.value == LOCATED_IN && ctx.region != Val(UNKNOWN) then
      // a null name is passed to MATCH, which then matches no Region
      if ctx.region.Val? && ctx.userId in g.users && ctx.region.value in g.regions
      then Step(g.(locatedIn := g.locatedIn + {LocatedIn(ctx.userId, ctx.region.value)}), Ok)
      else Step(g, Ok)
    else Step(g, Ok)
  }

  /** The record's edge loop, stopped by the first KeyError. */
  function ApplyEdges(g: GraphState, ctx: Context, edges: seq<EdgeRec>): (r: Step)
    ensures r.outcome == EdgesError(edges, ctx.region)
    ensures SameNodes(g, r.graph) && Grows(g, r.graph)
    ensures Consistent(g) ==> Consistent(r.graph)
    ensures forall m | m in r.graph.mentions && m !in g.mentions :: m.userId == ctx.userId && m.token == ctx.token
    ensures forall p | p in r.graph.posted && p !in g.posted :: p.userId == ctx.userId && p.tweetId == ctx.tweetId
    ensures forall l | l in r.graph.locatedIn && l !in g.locatedIn ::
              l.userId == ctx.userId && ctx.region == Val(l.region) && l.region != UNKNOWN && l.region in g.regions
    decreases |edges|
  {
    if edges == [] then Step(g, Ok)
    else
      var prev := ApplyEdges(g, ctx, edges[..|edges| - 1]);
      EdgesErrorSnoc(edges[..|edges| - 1], edges[|edges| - 1], ctx.region);
      assert edges[..|edges| - 1] + [edges[|edges| - 1]] == edges;
      if prev.outcome.KeyError? then prev
      else ApplyEdge(prev.graph, ctx, edges[|edges| - 1])
  }

  /** One iteration of the record loop: the four node MERGEs, then the edges. */
  function ApplyEntry(g: GraphState, e: Entry): (r: Step)
    ensures r.outcome == EntryError(e)
    ensures Grows(g, r.graph)
    ensures Consistent(g) ==> Consistent(r.graph)
    ensures r.graph.tokens == if EntryKeys(e) == Ok then g.tokens + {e.token.value} else g.tokens
    ensures r.graph.tweets ==
            if TweetWritten(e) then g.tweets[e.tweet.value.id.value := TweetPropsOf(e.tweet.value)] else g.tweets
    ensures r.graph.users ==
            if UserWritten(e) then g.users[e.userAccount.value.userId.value := UserPropsOf(e.userAccount.value)]
            else g.users
    ensures forall s | s in r.graph.regions && s !in g.regions ::
              UserWritten(e) && s != "" && s != UNKNOWN && e.region == Some(RegionRec(Val(s)))
    ensures UserWritten(e) && RegionNamed(e.region.value.name) ==> e.region.value.name.value in r.graph.regions
    ensures forall m | m in r.graph.mentions && m !in g.mentions ::
              UserWritten(e) && m.userId == e.userAccount.value.userId.value && m.token == e.token.value
    ensures forall p | p in r.graph.posted && p !in g.posted ::
              UserWritten(e) && p.userId == e.userAccount.value.userId.value && p.tweetId == e.tweet.value.id.value
    ensures forall l | l in r.graph.locatedIn && l !in g.locatedIn ::
              UserWritten(e) && l.userId == e.userAccount.value.userId.value && l.region != UNKNOWN
              && e.region.value.name == Val(l.region) && l.region in r.graph.regions
  {
    if EntryKeys(e).KeyError? then Step(g, EntryKeys(e))
    else
      var g1 := g.(tokens := g.tokens + {e.token.value});
      var tw := e.tweet.value;
      if TweetKeys(tw).KeyError? then Step(g1, TweetKeys(tw))
      else
        var g2 := g1.(tweets := g1.tweets[tw.id.value := TweetPropsOf(tw)]);
        var ua := e.userAccount.value;
        if UserKeys(ua).KeyError? then Step(g2, UserKeys(ua))
        else
          var g3 := g2.(users := g2.users[ua.userId.value := UserPropsOf(ua)]);
          var name := e.region.value.name;
          var g4 := if RegionNamed(name) then g3.(regions := g3.regions + {name.value}) else g3;
          ApplyEdges(g4, ContextOf(e), e.edges.value)
  }

  /** create_nodes_and_edges: the record loop inside one try; the first exception ends it. */
  function Ingest(g: GraphState, data: seq<Entry>): (r: Run)
    ensures Grows(g, r.graph)
    ensures Consistent(g) ==> Consistent(r.graph)
    ensures r.aborted.Some? ==> r.aborted.value.index < |data|
    ensures forall s | s in r.graph.regions && s !in g.regions :: s != "" && s != UNKNOWN
    ensures forall l | l in r.graph.locatedIn && l !in g.locatedIn :: l.region != UNKNOWN && l.region in r.graph.regions
    decreases |data|
  {
    if data == [] then Run(g, None)
    else
      var prev := Ingest(g, data[..|data| - 1]);
      if prev.aborted.Some? then prev
      else
        var s := ApplyEntry(prev.graph, data[|data| - 1]);
        Run(s.graph, if s.outcome.KeyError? then Some(Abort(|data| - 1, s.outcome.key)) else None)
  }

  // ---------------------------------------------------------------------------
  // The indexer, holding the database contents as fields.
  // ---------------------------------------------------------------------------

  class ScraperGraphIndexer {
    var tokens: set<string>
    var tweets: map<string, TweetProps>
    var users: map<string, UserProps>
    var regions: set<string>
    var mentions: set<Mention>
    var posted: set<Posted>
    var locatedIn: set<LocatedIn>

    function State(): GraphState
      reads this
    {
      GraphState(tokens, tweets, users, regions, mentions, posted, locatedIn)
    }

    /** An indexer connected to a database that holds `initial`. */
    constructor (initial: GraphState)
      ensures State() == initial
    {
      tokens, tweets, users, regions := initial.tokens, initial.tweets, initial.users, initial.regions;
      mentions, posted, locatedIn := initial.mentions, initial.posted, initial.locatedIn;
    }

    /** Merges the Token node with that name: adds the name to the token store. */
    method MergeTokenNode(name: string)
      modifies this
      ensures State() == old(State()).(tokens := old(tokens) + {name})
    {
      tokens := tokens + {name};
    }

    /** Merges the Tweet node with that id and sets its url, text, likes and timestamp. */
    method MergeTweetNode(id: string, props: TweetProps)
      modifies this
      ensures State() == old(State()).(tweets := old(tweets)[id := props])
    {
      tweets := tweets[id := props];
    }

    /** Merges the UserAccount node with that user id and sets its username and verified flag;
        no other store changes. */
    method MergeUserNode(id: string, props: UserProps)
      modifies this
      ensures State() == old(State()).(users := old(users)[id := props])
    {
      users := users[id := props];
    }

    /** Merges the Region node with that name: adds the name to the region store. */
    method MergeRegionNode(name: string)
      modifies this
      ensures State() == old(State()).(regions := old(regions) + {name})
    {
      regions := regions + {name};
    }

    /** One iteration of the edge loop. */
    method MergeEdge(ctx: Context, edge: EdgeRec) returns (outcome: Outcome)
      modifies this
      ensures Step(State(), outcome) == ApplyEdge(old(State()), ctx, edge)
    {
      outcome := EdgeError(edge, ctx.region);
      if outcome.KeyError? {
        return;
      }
      if edge.kind.value == MENTIONS {
        if ctx.userId in users && ctx.token in tokens {
          mentions := mentions + {MentionOf(ctx, edge)};
        }
      } else if edge.kind.value == POSTED {
        if ctx.userId in users && ctx.tweetId in tweets {
          posted := posted + {PostedOf(ctx, edge)};
        }
      } else if edge.kind.value == LOCATED_IN && ctx.region != Val(UNKNOWN) {
        if ctx.region.Val? && ctx.userId in users && ctx.region.value in regions {
          locatedIn := locatedIn + {LocatedIn(ctx.userId, ctx.region.value)};
        }
      }
    }

    /** The edge loop of a record: each edge in turn, stopping at the first KeyError. */
    method MergeEdges(ctx: Context, edges: seq<EdgeRec>) returns (outcome: Outcome)
      modifies this
      ensures Step(State(), outcome) == ApplyEdges(old(State()), ctx, edges)
    {
      ghost var g0 := State();
      var j := 0;
      while j < |edges|
        invariant 0 <= j <= |edges|
        invariant ApplyEdges(g0, ctx, edges[..j]) == Step(State(), Ok)
      {
        ApplyEdgesStep(g0, ctx, edges, j);
        outcome := MergeEdge(ctx, edges[j]);
        if outcome.KeyError? {
          EdgesAbortIsFinal(g0, ctx, edges[..j + 1], edges[j + 1..]);
          assert edges[..j + 1] + edges[j + 1..] == edges;
          return;
        }
        j := j + 1;
      }
      assert edges[..j] == edges;
      outcome := Ok;
    }

    /** The body of the record loop. */
    method ProcessEntry(e: Entry) returns (outcome: Outcome)
      modifies this
      ensures Step(State(), outcome) == ApplyEntry(old(State()), e)
    {
      outcome := EntryKeys(e);
      if outcome.KeyError? {
        return;
      }
      var token, tweet, user, region, edges := e.token.value, e.tweet.value, e.userAccount.value, e.region.value, e.edges.value;
      MergeTokenNode(token);
      outcome := TweetKeys(tweet);
      if outcome.KeyError? {
        return;
      }
      MergeTweetNode(tweet.id.value, TweetPropsOf(tweet));
      outcome := UserKeys(user);
      if outcome.KeyError? {
        return;
      }
      MergeUserNode(user.userId.value, UserPropsOf(user));
      if RegionNamed(region.name) {
        MergeRegionNode(region.name.value);
      }
      outcome := MergeEdges(ContextOf(e), edges);
    }

    /** create_nodes_and_edges: every record in turn inside one try; the exception that the source
        only logs is returned. */
    method CreateNodesAndEdges(data: seq<Entry>) returns (aborted: Option<Abort>)
      modifies this
      ensures Run(State(), aborted) == Ingest(old(State()), data)
    {
      ghost var g0 := State();
      var i := 0;
      while i < |data|
        invariant 0 <= i <= |data|
        invariant Ingest(g0, data[..i]) == Run(State(), None)
      {
        assert data[..i + 1][..i] == data[..i];
        var outcome := ProcessEntry(data[i]);
        if outcome.KeyError? {
          aborted := Some(Abort(i, outcome.key));
          IngestAbortIsFinal(g0, data[..i + 1], data[i + 1..]);
          assert data[..i + 1] + data[i + 1..] == data;
          return;
        }
        i := i + 1;
      }
      assert data[..i] == data;
      aborted := None;
    }
  }

  /** Running one more edge of a list whose prefix completed. */
  lemma ApplyEdgesStep(g: GraphState, ctx: Context, edges: seq<EdgeRec>, j: nat)
    requires j < |edges| && ApplyEdges(g, ctx, edges[..j]).outcome == Ok
    ensures ApplyEdges(g, ctx, edges[..j + 1]) == ApplyEdge(ApplyEdges(g, ctx, edges[..j]).graph, ctx, edges[j])
  {
    assert edges[..j + 1][..j] == edges[..j];
  }

  /** Once an edge has raised, later edges of the record are not run. */
  lemma {:induction false} EdgesAbortIsFinal(g: GraphState, ctx: Context, edges: seq<EdgeRec>, more: seq<EdgeRec>)
    requires ApplyEdges(g, ctx, edges).outcome.KeyError?
    ensures ApplyEdges(g, ctx, edges + more) == ApplyEdges(g, ctx, edges)
    decreases |more|
  {
    if more != [] {
      var front := more[..|more| - 1];
      EdgesAbortIsFinal(g, ctx, edges, front);
      assert (edges + more)[..|edges + more| - 1] == edges + front;
    } else {
      assert edges + more == edges;
    }
  }

  /** Once a record has raised, the records after it are not processed. */
  lemma {:induction false} IngestAbortIsFinal(g: GraphState, data: seq<Entry>, more: seq<Entry>)
    requires Ingest(g, data).aborted.Some?
    ensures Ingest(g, data + more) == Ingest(g, data)
    decreases |more|
  {
    if more != [] {
      var front := more[..|more| - 1];
      IngestAbortIsFinal(g, data, front);
      assert (data + more)[..|data + more| - 1] == data + front;
    } else {
      assert data + more == data;
    }
  }
}
