/** The server's tables and the meaning of the SQL its handlers send:
    rows as datatypes, `WHERE` conditions, and the rank-ordered join behind
    node suggestions. Each table is a sequence of rows in storage order. */
module Query {
  import opened Wrappers
  import Seqs
  import Text

  type Id = string
  /** `new Date().toISOString()`, treated as an opaque value. */
  type Timestamp = string

  datatype User = User(
    user_id: Id, email: string, password_hash: string,
    first_name: Option<string>, last_name: Option<string>, created_at: Timestamp)

  datatype Workflow = Workflow(
    workflow_id: Id, user_id: Id, title: string, category: string,
    description: string, is_predefined: bool, created_at: Timestamp)

  datatype WorkflowNode = WorkflowNode(
    node_id: Id, workflow_id: Id, title: string, description: string, created_at: Timestamp)

  datatype AITool = AITool(
    tool_id: Id, name: string, description: string, pricing: string,
    capabilities: string, tags: string, ease_of_use: string)

  datatype NodeSuggestion = NodeSuggestion(node_id: Id, tool_id: Id, rank: int)

  /** Both catalog and suggestion queries end in `LIMIT 5`. */
  const PageSize: nat := 5

  // ---------------------------------------------------------------------
  // Catalog conditions

  /** One conjunct of the catalog query's `WHERE 1=1 AND ...`. */
  datatype Condition =
    | PricingEquals(value: string)
    | TagsILike(pattern: string)
    | NameILike(pattern: string)

  predicate Satisfies(t: AITool, c: Condition) {
    match c
    case PricingEquals(v) => t.pricing == v
    case TagsILike(p) => Text.ILike(p, t.tags)
    case NameILike(p) => Text.ILike(p, t.name)
  }

  predicate SatisfiesAll(t: AITool, conds: seq<Condition>) {
    forall k :: 0 <= k < |conds| ==> Satisfies(t, conds[k])
  }

  /** `SELECT * FROM ai_tools WHERE <conds> LIMIT n`, taking the first
      matching rows in storage order. */
  function SelectTools(tools: seq<AITool>, conds: seq<Condition>, n: nat): (r: seq<AITool>)
    ensures |r| <= n
    ensures forall i :: 0 <= i < |r| ==> r[i] in tools && SatisfiesAll(r[i], conds)
    ensures |r| == Min(n, |Seqs.Filter(tools, t => SatisfiesAll(t, conds))|)
    ensures multiset(r) <= multiset(Seqs.Filter(tools, t => SatisfiesAll(t, conds)))
  {
    var matching := Seqs.Filter(tools, t => SatisfiesAll(t, conds));
    var r := Seqs.Take(matching, n);
    assert forall i :: 0 <= i < |r| ==> r[i] == matching[i];
    r
  }

  function Min(a: nat, b: nat): nat { if a < b then a else b }

  /** With no condition the query returns the first `n` rows of the table. */
  lemma NoConditionsTakeFirstRows(tools: seq<AITool>, n: nat)
    ensures SelectTools(tools, [], n) == Seqs.Take(tools, n)
  {
    Seqs.FilterKeepsAll(tools, t => SatisfiesAll(t, []));
  }

  // ---------------------------------------------------------------------
  // Node suggestions: ai_tools JOIN ai_tool_node_suggestions

  /** A joined row: the suggestion's rank and the tool's columns. */
  datatype Ranked = Ranked(rank: int, tool: AITool)

  /** The tools whose `tool_id` is `id`, in storage order, paired with `rank`. */
  function ToolsWithId(tools: seq<AITool>, id: Id, rank: int): (r: seq<Ranked>)
    ensures forall i :: 0 <= i < |r| ==> r[i].rank == rank && r[i].tool in tools && r[i].tool.tool_id == id
    ensures forall t :: t in tools && t.tool_id == id ==> Ranked(rank, t) in r
  {
    if tools == [] then []
    else (if tools[0].tool_id == id then [Ranked(rank, tools[0])] else [])
         + ToolsWithId(tools[1..], id, rank)
  }

  /** Linked: some suggestion row ties `t` to `nodeId` with rank `rank`. */
  predicate LinkedTo(links: seq<NodeSuggestion>, nodeId: Id, x: Ranked) {
    exists j :: 0 <= j < |links| && links[j].node_id == nodeId
      && links[j].tool_id == x.tool.tool_id && links[j].rank == x.rank
  }

  /** The inner join restricted to `node_id = nodeId`, before ordering. */
  function JoinForNode(tools: seq<AITool>, links: seq<NodeSuggestion>, nodeId: Id): (r: seq<Ranked>)
    ensures forall i :: 0 <= i < |r| ==> r[i].tool in tools && LinkedTo(links, nodeId, r[i])
    ensures forall j, t ::
      (0 <= j < |links| && links[j].node_id == nodeId && t in tools && t.tool_id == links[j].tool_id)
      ==> Ranked(links[j].rank, t) in r
    ensures (forall j :: 0 <= j < |links| ==> links[j].node_id != nodeId) ==> r == []
  {
    if links == [] then []
    else
      var here := if links[0].node_id == nodeId then ToolsWithId(tools, links[0].tool_id, links[0].rank) else [];
      var rest := JoinForNode(tools, links[1..], nodeId);
      var r := here + rest;
      forall i | 0 <= i < |r| ensures r[i].tool in tools && LinkedTo(links, nodeId, r[i]) {
        if i < |here| {
          assert r[i] == here[i];
          assert links[0].node_id == nodeId;
        } else {
          assert r[i] == rest[i - |here|];
          LinkedToTail(links, nodeId, r[i]);
        }
      }
      forall j, t | 0 <= j < |links| && links[j].node_id == nodeId && t in tools && t.tool_id == links[j].tool_id
        ensures Ranked(links[j].rank, t) in r
      {
        if j == 0 {
          assert Ranked(links[j].rank, t) in here;
        } else {
          assert links[1..][j - 1] == links[j];
          assert Ranked(links[j].rank, t) in rest;
        }
      }
      r
  }

  /** A link further down the table is a link of the whole table. */
  lemma LinkedToTail(links: seq<NodeSuggestion>, nodeId: Id, x: Ranked)
    requires |links| > 0 && LinkedTo(links[1..], nodeId, x)
    ensures LinkedTo(links, nodeId, x)
  {
    var j :| 0 <= j < |links[1..]| && links[1..][j].node_id == nodeId
      && links[1..][j].tool_id == x.tool.tool_id && links[1..][j].rank == x.rank;
    assert links[j + 1] == links[1..][j];
  }

  predicate SortedByRank(s: seq<Ranked>) {
    forall i, j :: 0 <= i < j < |s| ==> s[i].rank <= s[j].rank
  }

  /** An element ranked no higher than a sorted sequence can go in front. */
  lemma ConsSorted(a: Ranked, s: seq<Ranked>)
    requires SortedByRank(s)
    requires forall k :: 0 <= k < |s| ==> a.rank <= s[k].rank
    ensures SortedByRank([a] + s)
  {
    forall i, j | 0 <= i < j < |[a] + s| ensures ([a] + s)[i].rank <= ([a] + s)[j].rank {
      assert ([a] + s)[j] == s[j - 1];
      if i > 0 { assert ([a] + s)[i] == s[i - 1]; }
    }
  }

  /** A rank bound on `s` and on `x` bounds any rearrangement of `s` plus `x`. */
  lemma LowerBoundPreserved(a: Ranked, s: seq<Ranked>, x: Ranked, r: seq<Ranked>)
    requires SortedByRank([a] + s) && a.rank <= x.rank
    requires multiset(r) == multiset(s) + multiset{x}
    ensures forall k :: 0 <= k < |r| ==> a.rank <= r[k].rank
  {
    forall k | 0 <= k < |r| ensures a.rank <= r[k].rank {
      assert r[k] in multiset(r);
      if r[k] != x {
        assert r[k] in multiset(s);
        var m :| 0 <= m < |s| && s[m] == r[k];
        assert ([a] + s)[0] == a && ([a] + s)[m + 1] == r[k];
      }
    }
  }

  /** Inserts `x` in front of the first element of rank `x.rank` or more. */
  function InsertByRank(x: Ranked, s: seq<Ranked>): (r: seq<Ranked>)
    requires SortedByRank(s)
    ensures SortedByRank(r)
    ensures multiset(r) == multiset(s) + multiset{x}
  {
    if s == [] then [x]
    else if x.rank <= s[0].rank then
      ConsSorted(x, s);
      [x] + s
    else
      var rest := InsertByRank(x, s[1..]);
      assert s == [s[0]] + s[1..];
      assert multiset(s) == multiset{s[0]} + multiset(s[1..]);
      LowerBoundPreserved(s[0], s[1..], x, rest);
      ConsSorted(s[0], rest);
      [s[0]] + rest
  }

  /** `ORDER BY rank ASC`, as an insertion sort; rows of equal rank keep
      their storage order, an order SQL itself leaves unspecified. */
  function SortByRank(s: seq<Ranked>): (r: seq<Ranked>)
    ensures SortedByRank(r)
    ensures multiset(r) == multiset(s)
  {
    if s == [] then []
    else
      var r := InsertByRank(s[0], SortByRank(s[1..]));
      assert s == [s[0]] + s[1..];
      r
  }

  /** The first `n` elements of a rank-sorted sequence are sorted and carry
      ranks no larger than any element left out. */
  lemma SortedPrefixIsSmallest(s: seq<Ranked>, n: nat)
    requires SortedByRank(s)
    ensures var r := Seqs.Take(s, n);
      && SortedByRank(r)
      && multiset(r) <= multiset(s)
      && (forall x, y :: x in r && y in multiset(s) - multiset(r) ==> x.rank <= y.rank)
  {
    var r := Seqs.Take(s, n);
    var tail := s[|r|..];
    assert r == s[..|r|];
    assert s == r + tail;
    assert multiset(s) == multiset(r) + multiset(tail);
    forall x: Ranked, y: Ranked | x in r && y in multiset(s) - multiset(r) ensures x.rank <= y.rank {
      assert y in multiset(tail);
      RankOfPrefixAndSuffix(s, |r|, x, y);
    }
  }

  lemma RankOfPrefixAndSuffix(s: seq<Ranked>, m: nat, x: Ranked, y: Ranked)
    requires SortedByRank(s) && m <= |s|
    requires x in s[..m] && y in multiset(s[m..])
    ensures x.rank <= y.rank
  {
    var i :| 0 <= i < m && s[..m][i] == x;
    assert y in s[m..];
    var j :| 0 <= j < |s| - m && s[m..][j] == y;
    assert s[i] == x && s[m + j] == y;
  }

  /** No row of `join` left out of `r` has a smaller rank than a row of `r`. */
  predicate RanksBelowRest(r: seq<Ranked>, join: seq<Ranked>) {
    forall x, y :: x in r && y in multiset(join) - multiset(r) ==> x.rank <= y.rank
  }

  /** Rows drawn from the join are catalog tools linked to the node. */
  lemma DrawnFromJoin(tools: seq<AITool>, links: seq<NodeSuggestion>, nodeId: Id, join: seq<Ranked>, r: seq<Ranked>)
    requires forall i :: 0 <= i < |join| ==> join[i].tool in tools && LinkedTo(links, nodeId, join[i])
    requires multiset(r) <= multiset(join)
    ensures forall i :: 0 <= i < |r| ==> r[i].tool in tools && LinkedTo(links, nodeId, r[i])
  {
    forall i | 0 <= i < |r| ensures r[i].tool in tools && LinkedTo(links, nodeId, r[i]) {
      assert r[i] in multiset(join);
      var k :| 0 <= k < |join| && join[k] == r[i];
    }
  }

  /** The suggestion query: the joined rows ordered by rank and limited to
      five. They are linked to the node and drawn from the join, in
      non-decreasing rank; there are five, or every joined row when fewer;
      and no joined row left out has a smaller rank than one returned. */
  function RankedSuggestions(tools: seq<AITool>, links: seq<NodeSuggestion>, nodeId: Id): (r: seq<Ranked>)
    ensures SortedByRank(r)
    ensures |r| == Min(PageSize, |JoinForNode(tools, links, nodeId)|)
    ensures forall i :: 0 <= i < |r| ==> r[i].tool in tools && LinkedTo(links, nodeId, r[i])
    ensures multiset(r) <= multiset(JoinForNode(tools, links, nodeId))
    ensures RanksBelowRest(r, JoinForNode(tools, links, nodeId))
  {
    var join := JoinForNode(tools, links, nodeId);
    var sorted := SortByRank(join);
    var r := Seqs.Take(sorted, PageSize);
    SortedPrefixIsSmallest(sorted, PageSize);
    assert multiset(sorted) == multiset(join);
    assert |sorted| == |multiset(sorted)| == |multiset(join)| == |join|;
    DrawnFromJoin(tools, links, nodeId, join, r);
    r
  }

  /** A node nothing is linked to gets an empty list, not an error. */
  lemma NoLinksNoSuggestions(tools: seq<AITool>, links: seq<NodeSuggestion>, nodeId: Id)
    requires forall j :: 0 <= j < |links| ==> links[j].node_id != nodeId
    ensures RankedSuggestions(tools, links, nodeId) == []
  {
  }
}
