/** The Express handlers: each route as an operation on the in-memory
    tables of a `Database`. Cryptography and randomness are oracles passed
    in: `verify` (JWT verification: the token's user id, or failure),
    `sign` (JWT signing for a user id), `matches` (bcrypt comparison of a
    password with a stored hash), and the fresh uuids, password hash and
    timestamp each handler would draw. */
module Server {
  import opened Wrappers
  import opened Query
  import Seqs
  import Text

  datatype Body =
    | NoBody
    | ErrorBody(error: string)
    | TokenBody(token: string)
    | ToolsBody(tools: seq<AITool>)
    | SuggestionsBody(suggestions: seq<AITool>)
    | WorkflowsBody(workflows: seq<Workflow>)
    | WorkflowBody(workflow: Workflow)
    | CreatedBody(workflow_id: Id, title: string, category: string, description: string, user_id: Id)
    | UpdatedBody(workflow_id: Id, title: string, category: string, description: string)

  datatype Response = Response(status: int, body: Body)

  /** A node of the create request; any other field the client sends
      (its own `node_id`, its suggestions) is ignored. */
  datatype NodeInput = NodeInput(title: string, description: string)

  // ---------------------------------------------------------------------
  // authenticateJWT

  /** The middleware's decision: answer with a status, or run the handler
      for the verified user. */
  datatype Gate = Reject(response: Response) | Pass(userId: Id)

  /** `authHeader.split(' ')[1]`: the text between the first space and the
      next space or the end; `undefined` when the header has no space. */
  function BearerToken(header: string): (r: Option<string>)
    ensures r.None? <==> ' ' !in header
    ensures r.Some? ==> ' ' !in r.value
    ensures r.Some? ==> exists k ::
      && 0 <= k < |header| && header[k] == ' ' && ' ' !in header[..k]
      && r.value <= header[k + 1..] && (|r.value| == |header| - k - 1 || header[k + 1 + |r.value|] == ' ')
  {
    var parts := Text.Split(header, ' ');
    if |parts| >= 2 then
      Text.SplitFirstTwo(header, ' ');
      Some(parts[1])
    else None
  }

  function Authenticate(header: Option<string>, verify: string -> Option<Id>): (g: Gate)
    ensures !Text.Truthy(header) ==> g == Reject(Response(401, NoBody))
    ensures Text.Truthy(header) && g.Reject? ==> g.response == Response(403, NoBody)
    ensures g.Pass? <==> Text.Truthy(header) && BearerToken(header.value).Some?
                         && verify(BearerToken(header.value).value).Some?
    ensures g.Pass? ==> Some(g.userId) == verify(BearerToken(header.value).value)
  {
    if !Text.Truthy(header) then Reject(Response(401, NoBody))
    else match BearerToken(header.value)
      case None => Reject(Response(403, NoBody))
      case Some(t) =>
        match verify(t)
        case None => Reject(Response(403, NoBody))
        case Some(u) => Pass(u)
  }

  /** `Bearer <token>` with a token holding no space reaches the handler
      exactly when the token verifies. */
  lemma BearerHeaderAuthenticates(token: string, verify: string -> Option<Id>)
    requires ' ' !in token
    ensures verify(token).Some? ==> Authenticate(Some("Bearer " + token), verify) == Pass(verify(token).value)
    ensures verify(token).None? ==> Authenticate(Some("Bearer " + token), verify) == Reject(Response(403, NoBody))
  {
    Text.SplitAfterWord("Bearer", ' ', token);
    assert "Bearer" + [' '] + token == "Bearer " + token;
    Text.SplitNoSeparator(token, ' ');
  }

  /** The scheme word before the space is never looked at. */
  lemma SchemeIsNotChecked(scheme: string, token: string, verify: string -> Option<Id>)
    requires ' ' !in scheme && ' ' !in token
    ensures Authenticate(Some(scheme + " " + token), verify) == Authenticate(Some("Bearer " + token), verify)
  {
    Text.SplitAfterWord(scheme, ' ', token);
    Text.SplitAfterWord("Bearer", ' ', token);
    assert scheme + [' '] + token == scheme + " " + token;
    assert "Bearer" + [' '] + token == "Bearer " + token;
  }

  /** A non-empty header without a space (a bare token) is refused with 403
      whatever the token. */
  lemma BareTokenIsForbidden(header: string, verify: string -> Option<Id>)
    requires header != "" && ' ' !in header
    ensures Authenticate(Some(header), verify) == Reject(Response(403, NoBody))
  {
    Text.SplitNoSeparator(header, ' ');
  }

  // ---------------------------------------------------------------------
  // POST /api/users/login

  const InvalidCredentials := Response(401, ErrorBody("Invalid credentials"))
  const LoginFailed := Response(500, ErrorBody("Login failed"))

  /** `SELECT * FROM users WHERE email = $1`, first row. */
  function UserByEmail(users: seq<User>, email: string): (r: Option<nat>)
    ensures r.None? <==> forall i :: 0 <= i < |users| ==> users[i].email != email
    ensures r.Some? ==> r.value < |users| && users[r.value].email == email
                        && forall j :: 0 <= j < r.value ==> users[j].email != email
  {
    Seqs.FirstIndex(users, (u: User) => u.email == email)
  }

  /** The login handler on the users table. A request without `password`
      reaches `bcrypt.compare` only when the email is known, and there the
      missing argument throws: the answer is 500. */
  function LoginUser(users: seq<User>, email: string, password: Option<string>,
                     matches: (string, string) -> bool, sign: Id -> string): (r: Response)
    ensures (forall i :: 0 <= i < |users| ==> users[i].email != email) ==> r == InvalidCredentials
    ensures forall i :: 0 <= i < |users| && users[i].email == email
                        && (forall j :: 0 <= j < i ==> users[j].email != email) ==>
              r == if password.None? then LoginFailed
                   else if matches(password.value, users[i].password_hash)
                   then Response(200, TokenBody(sign(users[i].user_id)))
                   else InvalidCredentials
  {
    match UserByEmail(users, email)
    case None => InvalidCredentials
    case Some(i) =>
      if password.None? then LoginFailed
      else if matches(password.value, users[i].password_hash)
      then Response(200, TokenBody(sign(users[i].user_id)))
      else InvalidCredentials
  }

  /** An unknown email and a wrong password are answered identically. */
  lemma LoginDoesNotRevealAccounts(users: seq<User>, unknown: string, known: string, password: string,
                                   matches: (string, string) -> bool, sign: Id -> string)
    requires forall i :: 0 <= i < |users| ==> users[i].email != unknown
    requires UserByEmail(users, known).Some?
    requires !matches(password, users[UserByEmail(users, known).value].password_hash)
    ensures LoginUser(users, unknown, Some(password), matches, sign) == LoginUser(users, known, Some(password), matches, sign)
  {
  }

  /** A user registered under a new email can log in with that password,
      and the token it gets passes the gate for its own id, given the
      oracle laws: bcrypt accepts the password against its hash and JWT
      verification inverts signing. */
  lemma RegisteredUserCanLogIn(users: seq<User>, u: User, password: string,
                               matches: (string, string) -> bool, sign: Id -> string,
                               verify: string -> Option<Id>)
    requires forall i :: 0 <= i < |users| ==> users[i].email != u.email
    requires matches(password, u.password_hash)
    requires verify(sign(u.user_id)) == Some(u.user_id) && ' ' !in sign(u.user_id)
    ensures LoginUser(users + [u], u.email, Some(password), matches, sign) == Response(200, TokenBody(sign(u.user_id)))
    ensures Authenticate(Some("Bearer " + sign(u.user_id)), verify) == Pass(u.user_id)
  {
    Seqs.FirstIndexSnoc(users, u, (x: User) => x.email == u.email);
    assert (users + [u])[|users|] == u;
    BearerHeaderAuthenticates(sign(u.user_id), verify);
  }

  // ---------------------------------------------------------------------
  // GET /api/ai_tools

  /** What the query promises of one tool: exact pricing, and tags and name
      matching `%value%` case-insensitively; an empty or absent filter
      imposes nothing. */
  predicate MatchesQuery(t: AITool, pricing: Option<string>, tags: Option<string>, name: Option<string>) {
    && (Text.Truthy(pricing) ==> t.pricing == pricing.value)
    && (Text.Truthy(tags) ==> Text.ILike("%" + tags.value + "%", t.tags))
    && (Text.Truthy(name) ==> Text.ILike("%" + name.value + "%", t.name))
  }

  /** The rows the catalog query's `WHERE` keeps, in storage order. */
  function MatchingTools(tools: seq<AITool>, pricing: Option<string>, tags: Option<string>, name: Option<string>): (r: seq<AITool>)
    ensures forall i :: 0 <= i < |r| ==> r[i] in tools && MatchesQuery(r[i], pricing, tags, name)
    ensures forall i :: 0 <= i < |tools| && MatchesQuery(tools[i], pricing, tags, name) ==> tools[i] in r
  {
    Seqs.Filter(tools, t => MatchesQuery(t, pricing, tags, name))
  }

  /** For values without LIKE metacharacters the tag and name filters are
      case-insensitive substring tests. */
  lemma CatalogFilterMeaning(t: AITool, pricing: Option<string>, tags: Option<string>, name: Option<string>)
    requires tags.Some? ==> Text.IsLiteral(tags.value)
    requires name.Some? ==> Text.IsLiteral(name.value)
    ensures MatchesQuery(t, pricing, tags, name) <==>
      && (Text.Truthy(pricing) ==> t.pricing == pricing.value)
      && (Text.Truthy(tags) ==> Text.Contains(Text.Lower(t.tags), Text.Lower(tags.value)))
      && (Text.Truthy(name) ==> Text.Contains(Text.Lower(t.name), Text.Lower(name.value)))
  {
    if tags.Some? { Text.ILikeContains(tags.value, t.tags); }
    if name.Some? { Text.ILikeContains(name.value, t.name); }
  }

  /** With every filter empty or absent, every tool matches. */
  lemma EmptyFiltersMatchAll(tools: seq<AITool>, pricing: Option<string>, tags: Option<string>, name: Option<string>)
    requires !Text.Truthy(pricing) && !Text.Truthy(tags) && !Text.Truthy(name)
    ensures MatchingTools(tools, pricing, tags, name) == tools
  {
    Seqs.FilterKeepsAll(tools, t => MatchesQuery(t, pricing, tags, name));
  }

  /** The catalog handler as written: its conditions use `?` placeholders,
      which PostgreSQL does not accept, so any query with a filter fails
      and is answered with 500; without filters it returns five rows. */
  function CatalogAsWritten(tools: seq<AITool>, pricing: Option<string>, tags: Option<string>, name: Option<string>): (r: Response)
    ensures Text.Truthy(pricing) || Text.Truthy(tags) || Text.Truthy(name) ==>
      r == Response(500, ErrorBody("Error fetching AI Tools directory"))
    ensures !Text.Truthy(pricing) && !Text.Truthy(tags) && !Text.Truthy(name) ==>
      r == Response(200, ToolsBody(Seqs.Take(tools, PageSize)))
  {
    if Text.Truthy(pricing) || Text.Truthy(tags) || Text.Truthy(name)
    then Response(500, ErrorBody("Error fetching AI Tools directory"))
    else Response(200, ToolsBody(Seqs.Take(tools, PageSize)))
  }

  /** The discrepancy: a pricing filter that matches a tool still gets 500. */
  lemma PlaceholderFilterFails(tools: seq<AITool>, t: AITool)
    requires t in tools && t.pricing == "Free"
    ensures CatalogAsWritten(tools, Some("Free"), None, None).status == 500
    ensures MatchingTools(tools, Some("Free"), None, None) != []
  {
    var i :| 0 <= i < |tools| && tools[i] == t;
    assert MatchesQuery(tools[i], Some("Free"), None, None);
  }

  lemma SatisfiesAllConcat(t: AITool, a: seq<Condition>, b: seq<Condition>)
    ensures SatisfiesAll(t, a + b) <==> SatisfiesAll(t, a) && SatisfiesAll(t, b)
  {
    if SatisfiesAll(t, a) && SatisfiesAll(t, b) {
      forall k | 0 <= k < |a + b| ensures Satisfies(t, (a + b)[k]) {
        if k < |a| { assert (a + b)[k] == a[k]; } else { assert (a + b)[k] == b[k - |a|]; }
      }
    }
    if SatisfiesAll(t, a + b) {
      forall k | 0 <= k < |a| ensures Satisfies(t, a[k]) { assert (a + b)[k] == a[k]; }
      forall k | 0 <= k < |b| ensures Satisfies(t, b[k]) { assert (a + b)[|a| + k] == b[k]; }
    }
  }

  // ---------------------------------------------------------------------
  // GET /api/workflows, GET /api/workflows/:workflow_id

  /** `SELECT * FROM workflows WHERE user_id = $1`. */
  function WorkflowsOf(rows: seq<Workflow>, userId: Id): (r: seq<Workflow>)
    ensures forall i :: 0 <= i < |r| ==> r[i] in rows && r[i].user_id == userId
    ensures forall i :: 0 <= i < |rows| && rows[i].user_id == userId ==> rows[i] in r
  {
    Seqs.Filter(rows, (w: Workflow) => w.user_id == userId)
  }

  /** A workflow its owner creates joins the end of the owner's list and
      leaves every other user's list as it was. */
  lemma CreateExtendsOwnersList(rows: seq<Workflow>, w: Workflow, userId: Id)
    ensures WorkflowsOf(rows + [w], userId) ==
      WorkflowsOf(rows, userId) + (if w.user_id == userId then [w] else [])
  {
    Seqs.FilterSnoc(rows, w, (x: Workflow) => x.user_id == userId);
  }

  /** `SELECT * FROM workflows WHERE workflow_id = $1`, first row. */
  function WorkflowById(rows: seq<Workflow>, id: Id): (r: Option<nat>)
    ensures r.None? <==> forall i :: 0 <= i < |rows| ==> rows[i].workflow_id != id
    ensures r.Some? ==> r.value < |rows| && rows[r.value].workflow_id == id
                        && forall j :: 0 <= j < r.value ==> rows[j].workflow_id != id
  {
    Seqs.FirstIndex(rows, (w: Workflow) => w.workflow_id == id)
  }

  /** The response for workflow `id` once the caller is authenticated. */
  function WorkflowResponse(rows: seq<Workflow>, id: Id): (r: Response)
    ensures (forall i :: 0 <= i < |rows| ==> rows[i].workflow_id != id) ==>
      r == Response(404, ErrorBody("Workflow not found"))
    ensures forall i :: 0 <= i < |rows| && rows[i].workflow_id == id
                        && (forall j :: 0 <= j < i ==> rows[j].workflow_id != id) ==>
      r == Response(200, WorkflowBody(rows[i]))
  {
    match WorkflowById(rows, id)
    case None => Response(404, ErrorBody("Workflow not found"))
    case Some(i) => Response(200, WorkflowBody(rows[i]))
  }

  /** A workflow appended under an id not used before is what a get by that
      id returns. */
  lemma GetAfterCreate(rows: seq<Workflow>, w: Workflow)
    requires forall i :: 0 <= i < |rows| ==> rows[i].workflow_id != w.workflow_id
    ensures WorkflowResponse(rows + [w], w.workflow_id) == Response(200, WorkflowBody(w))
  {
    Seqs.FirstIndexSnoc(rows, w, (x: Workflow) => x.workflow_id == w.workflow_id);
    assert (rows + [w])[|rows|] == w;
  }

  // ---------------------------------------------------------------------
  // PUT /api/workflows/:workflow_id, on rows

  /** `UPDATE workflows SET title, category, description WHERE workflow_id = $4`:
      only the three scalar columns of the rows with that id change; ids,
      owners, flags, timestamps and every other row stay as they were. */
  function WithScalars(rows: seq<Workflow>, id: Id, title: string, category: string, description: string): (r: seq<Workflow>)
    ensures |r| == |rows|
    ensures forall i :: 0 <= i < |rows| ==>
      && r[i].workflow_id == rows[i].workflow_id && r[i].user_id == rows[i].user_id
      && r[i].is_predefined == rows[i].is_predefined && r[i].created_at == rows[i].created_at
      && (rows[i].workflow_id == id ==> r[i].title == title && r[i].category == category && r[i].description == description)
      && (rows[i].workflow_id != id ==> r[i] == rows[i])
  {
    seq(|rows|, i requires 0 <= i < |rows| =>
      if rows[i].workflow_id == id then rows[i].(title := title, category := category, description := description)
      else rows[i])
  }

  /** Updating an id no row has changes no row. */
  lemma UpdateAbsentIdIsNoop(rows: seq<Workflow>, id: Id, title: string, category: string, description: string)
    requires forall i :: 0 <= i < |rows| ==> rows[i].workflow_id != id
    ensures WithScalars(rows, id, title, category, description) == rows
  {
  }

  /** A get after an update sees the new title, category and description on
      the same row. */
  lemma GetAfterUpdate(rows: seq<Workflow>, id: Id, title: string, category: string, description: string)
    requires WorkflowById(rows, id).Some?
    ensures var w := rows[WorkflowById(rows, id).value];
      WorkflowResponse(WithScalars(rows, id, title, category, description), id)
        == Response(200, WorkflowBody(w.(title := title, category := category, description := description)))
  {
    var r := WithScalars(rows, id, title, category, description);
    var k := WorkflowById(rows, id).value;
    assert forall j :: 0 <= j < |rows| ==> (r[j].workflow_id == id <==> rows[j].workflow_id == id);
    assert r[k].workflow_id == id;
  }

  // ---------------------------------------------------------------------
  // POST /api/workflows, on rows

  /** The node rows create inserts: row k comes from input node k, with the
      k-th fresh id and the new workflow's id. */
  function NodeRows(nodes: seq<NodeInput>, ids: seq<Id>, workflowId: Id, createdAt: Timestamp): (r: seq<WorkflowNode>)
    requires |ids| == |nodes|
    ensures |r| == |nodes|
    ensures forall k :: 0 <= k < |r| ==>
      r[k] == WorkflowNode(ids[k], workflowId, nodes[k].title, nodes[k].description, createdAt)
    decreases |nodes|
  {
    if nodes == [] then []
    else
      var n := |nodes| - 1;
      NodeRows(nodes[..n], ids[..n], workflowId, createdAt)
        + [WorkflowNode(ids[n], workflowId, nodes[n].title, nodes[n].description, createdAt)]
  }

  /** One more input node adds one row at the end. */
  lemma NodeRowsSnoc(nodes: seq<NodeInput>, ids: seq<Id>, i: nat, workflowId: Id, createdAt: Timestamp)
    requires |ids| == |nodes| && i < |nodes|
    ensures NodeRows(nodes[..i + 1], ids[..i + 1], workflowId, createdAt)
      == NodeRows(nodes[..i], ids[..i], workflowId, createdAt)
         + [WorkflowNode(ids[i], workflowId, nodes[i].title, nodes[i].description, createdAt)]
  {
    assert nodes[..i + 1][..i] == nodes[..i] && ids[..i + 1][..i] == ids[..i];
  }

  /** After create, the node rows of the new workflow are exactly one per
      input node, in input order, provided no earlier node row pointed at
      the fresh workflow id. */
  lemma NodesOfCreatedWorkflow(old_nodes: seq<WorkflowNode>, nodes: seq<NodeInput>, ids: seq<Id>,
                               workflowId: Id, createdAt: Timestamp)
    requires |ids| == |nodes|
    requires forall i :: 0 <= i < |old_nodes| ==> old_nodes[i].workflow_id != workflowId
    ensures var rows := NodeRows(nodes, ids, workflowId, createdAt);
      Seqs.Filter(old_nodes + rows, (n: WorkflowNode) => n.workflow_id == workflowId) == rows
  {
    var rows := NodeRows(nodes, ids, workflowId, createdAt);
    var mine := (n: WorkflowNode) => n.workflow_id == workflowId;
    Seqs.FilterConcat(old_nodes, rows, mine);
    Seqs.FilterRejectsAll(old_nodes, mine);
    Seqs.FilterKeepsAll(rows, mine);
  }

  // ---------------------------------------------------------------------
  // GET .../nodes/:node_id/suggestions, on rows

  function ToolsOf(rs: seq<Ranked>): (r: seq<AITool>)
    ensures |r| == |rs|
    ensures forall i :: 0 <= i < |r| ==> r[i] == rs[i].tool
  {
    if rs == [] then [] else [rs[0].tool] + ToolsOf(rs[1..])
  }

  /** The tools of joined rows are catalog tools with a link to the node. */
  lemma ToolsOfLinked(tools: seq<AITool>, links: seq<NodeSuggestion>, nodeId: Id, rs: seq<Ranked>, r: seq<AITool>)
    requires |r| == |rs| && forall i :: 0 <= i < |r| ==> r[i] == rs[i].tool
    requires forall i :: 0 <= i < |rs| ==> rs[i].tool in tools && LinkedTo(links, nodeId, rs[i])
    ensures forall i :: 0 <= i < |r| ==>
      && r[i] in tools
      && exists j :: 0 <= j < |links| && links[j].node_id == nodeId && links[j].tool_id == r[i].tool_id
  {
    forall i | 0 <= i < |r|
      ensures exists j :: 0 <= j < |links| && links[j].node_id == nodeId && links[j].tool_id == r[i].tool_id
    {
      assert LinkedTo(links, nodeId, rs[i]);
    }
  }

  /** The suggestion list for a node: the tools of joined rows linked to
      it, taken in non-decreasing rank, at most five and fewer only when
      fewer rows are linked, no row left out ranked below one returned, and
      empty when nothing is linked. */
  function SuggestionsFor(tools: seq<AITool>, links: seq<NodeSuggestion>, nodeId: Id): (r: seq<AITool>)
    ensures |r| == Min(PageSize, |JoinForNode(tools, links, nodeId)|)
    ensures exists rs: seq<Ranked> {:trigger SortedByRank(rs)} ::
      && ToolsOf(rs) == r
      && SortedByRank(rs)
      && (forall i :: 0 <= i < |rs| ==> LinkedTo(links, nodeId, rs[i]))
      && multiset(rs) <= multiset(JoinForNode(tools, links, nodeId))
      && RanksBelowRest(rs, JoinForNode(tools, links, nodeId))
    ensures forall i :: 0 <= i < |r| ==>
      && r[i] in tools
      && exists j :: 0 <= j < |links| && links[j].node_id == nodeId && links[j].tool_id == r[i].tool_id
    ensures (forall j :: 0 <= j < |links| ==> links[j].node_id != nodeId) ==> r == []
  {
    var rs := RankedSuggestions(tools, links, nodeId);
    var r := ToolsOf(rs);
    assert && ToolsOf(rs) == r
           && SortedByRank(rs)
           && (forall i :: 0 <= i < |rs| ==> LinkedTo(links, nodeId, rs[i]))
           && multiset(rs) <= multiset(JoinForNode(tools, links, nodeId))
           && RanksBelowRest(rs, JoinForNode(tools, links, nodeId));
    ToolsOfLinked(tools, links, nodeId, rs, r);
    r
  }

  // ---------------------------------------------------------------------
  // The database and its routes

  class Database {
    var users: seq<User>
    var workflows: seq<Workflow>
    var workflow_nodes: seq<WorkflowNode>
    var ai_tools: seq<AITool>
    var suggestions: seq<NodeSuggestion>

    /** Every id that appears in any column of any table. */
    ghost function IdsInUse(): set<Id>
      reads this
    {
      (set u | u in users :: u.user_id)
      + (set w | w in workflows :: w.workflow_id) + (set w | w in workflows :: w.user_id)
      + (set n | n in workflow_nodes :: n.node_id) + (set n | n in workflow_nodes :: n.workflow_id)
      + (set t | t in ai_tools :: t.tool_id)
      + (set s | s in suggestions :: s.node_id) + (set s | s in suggestions :: s.tool_id)
    }

    /** Opens the database with the rows it already holds. */
    constructor (users: seq<User>, workflows: seq<Workflow>, workflow_nodes: seq<WorkflowNode>,
                 ai_tools: seq<AITool>, suggestions: seq<NodeSuggestion>)
      ensures this.users == users && this.workflows == workflows && this.workflow_nodes == workflow_nodes
      ensures this.ai_tools == ai_tools && this.suggestions == suggestions
    {
      this.users, this.workflows, this.workflow_nodes := users, workflows, workflow_nodes;
      this.ai_tools, this.suggestions := ai_tools, suggestions;
    }

    /** GET /api/ai_tools: builds one condition per truthy filter, then runs
        the query with `LIMIT 5`. */
    method SearchTools(pricing: Option<string>, tags: Option<string>, name: Option<string>) returns (resp: Response)
      ensures resp.status == 200 && resp.body.ToolsBody?
      ensures |resp.body.tools| <= PageSize
      ensures forall i :: 0 <= i < |resp.body.tools| ==>
        resp.body.tools[i] in ai_tools && MatchesQuery(resp.body.tools[i], pricing, tags, name)
      ensures |resp.body.tools| == Min(PageSize, |MatchingTools(ai_tools, pricing, tags, name)|)
      ensures multiset(resp.body.tools) <= multiset(MatchingTools(ai_tools, pricing, tags, name))
    {
      var conds: seq<Condition> := [];
      if Text.Truthy(pricing) {
        conds := conds + [PricingEquals(pricing.value)];
      }
      if Text.Truthy(tags) {
        conds := conds + [TagsILike("%" + tags.value + "%")];
      }
      if Text.Truthy(name) {
        conds := conds + [NameILike("%" + name.value + "%")];
      }
      forall t ensures SatisfiesAll(t, conds) <==> MatchesQuery(t, pricing, tags, name) {
        var c1: seq<Condition> := if Text.Truthy(pricing) then [PricingEquals(pricing.value)] else [];
        var c2: seq<Condition> := if Text.Truthy(tags) then [TagsILike("%" + tags.value + "%")] else [];
        var c3: seq<Condition> := if Text.Truthy(name) then [NameILike("%" + name.value + "%")] else [];
        assert conds == c1 + c2 + c3;
        SatisfiesAllConcat(t, c1 + c2, c3);
        SatisfiesAllConcat(t, c1, c2);
        assert SatisfiesAll(t, c1) <==> (Text.Truthy(pricing) ==> t.pricing == pricing.value) by {
          if Text.Truthy(pricing) { assert c1[0] == PricingEquals(pricing.value); }
        }
        assert SatisfiesAll(t, c2) <==> (Text.Truthy(tags) ==> Text.ILike("%" + tags.value + "%", t.tags)) by {
          if Text.Truthy(tags) { assert c2[0] == TagsILike("%" + tags.value + "%"); }
        }
        assert SatisfiesAll(t, c3) <==> (Text.Truthy(name) ==> Text.ILike("%" + name.value + "%", t.name)) by {
          if Text.Truthy(name) { assert c3[0] == NameILike("%" + name.value + "%"); }
        }
      }
      Seqs.FilterAgrees(ai_tools, t => SatisfiesAll(t, conds), t => MatchesQuery(t, pricing, tags, name));
      var rows := SelectTools(ai_tools, conds, PageSize);
      resp := Response(200, ToolsBody(rows));
    }

    /** POST /api/users: inserts the user and answers 201 with a token for
        it. `password_hash` is what bcrypt returns for `password`; without a
        password, hashing throws before the insert and the answer is 500. */
    method Register(email: string, password: Option<string>, password_hash: string,
                    first_name: Option<string>, last_name: Option<string>,
                    user_id: Id, created_at: Timestamp, sign: Id -> string) returns (resp: Response)
      modifies this
      ensures password.None? ==> resp == Response(500, ErrorBody("User creation failed")) && unchanged(this)
      ensures password.Some? ==>
        && users == old(users) + [User(user_id, email, password_hash, first_name, last_name, created_at)]
        && workflows == old(workflows) && workflow_nodes == old(workflow_nodes)
        && ai_tools == old(ai_tools) && suggestions == old(suggestions)
        && resp == Response(201, TokenBody(sign(user_id)))
    {
      if password.None? {
        return Response(500, ErrorBody("User creation failed"));
      }
      users := users + [User(user_id, email, password_hash, first_name, last_name, created_at)];
      resp := Response(201, TokenBody(sign(user_id)));
    }

    /** POST /api/users/login. */
    function Login(email: string, password: Option<string>, matches: (string, string) -> bool, sign: Id -> string): (r: Response)
      reads this
      ensures r == LoginUser(users, email, password, matches, sign)
      ensures r.status == 200 || r == InvalidCredentials || r == LoginFailed
      ensures r.status == 200 <==> UserByEmail(users, email).Some? && password.Some?
                                   && matches(password.value, users[UserByEmail(users, email).value].password_hash)
      ensures r == LoginFailed <==> UserByEmail(users, email).Some? && password.None?
    {
      LoginUser(users, email, password, matches, sign)
    }

    /** POST /api/workflows: inserts the workflow row, then one node row per
        input node. With `nodes` missing, `nodes.map` throws after the
        workflow row is in: the row stays and the answer is 500. */
    method CreateWorkflow(header: Option<string>, verify: string -> Option<Id>,
                          title: string, category: string, description: string,
                          nodes: Option<seq<NodeInput>>,
                          workflow_id: Id, node_ids: seq<Id>, created_at: Timestamp) returns (resp: Response)
      requires nodes.Some? ==> |node_ids| == |nodes.value|
      requires workflow_id !in IdsInUse() && workflow_id !in node_ids
      requires forall k :: 0 <= k < |node_ids| ==> node_ids[k] !in IdsInUse()
      requires forall k, l :: 0 <= k < l < |node_ids| ==> node_ids[k] != node_ids[l]
      modifies this
      ensures Authenticate(header, verify).Reject? ==>
        resp == Authenticate(header, verify).response && unchanged(this)
      ensures Authenticate(header, verify).Pass? ==>
        && workflows == old(workflows) + [Workflow(workflow_id, Authenticate(header, verify).userId,
                                                   title, category, description, false, created_at)]
        && users == old(users) && ai_tools == old(ai_tools) && suggestions == old(suggestions)
      ensures Authenticate(header, verify).Pass? && nodes.None? ==>
        workflow_nodes == old(workflow_nodes) && resp == Response(500, ErrorBody("Error creating workflow"))
      ensures Authenticate(header, verify).Pass? && nodes.Some? ==>
        && workflow_nodes == old(workflow_nodes) + NodeRows(nodes.value, node_ids, workflow_id, created_at)
        && resp == Response(201, CreatedBody(workflow_id, title, category, description,
                                             Authenticate(header, verify).userId))
    {
      var gate := Authenticate(header, verify);
      if gate.Reject? {
        return gate.response;
      }
      var user_id := gate.userId;
      workflows := workflows + [Workflow(workflow_id, user_id, title, category, description, false, created_at)];
      if nodes.None? {
        return Response(500, ErrorBody("Error creating workflow"));
      }
      var ns := nodes.value;
      ghost var before := workflow_nodes;
      var i := 0;
      while i < |ns|
        invariant 0 <= i <= |ns|
        invariant workflow_nodes == before + NodeRows(ns[..i], node_ids[..i], workflow_id, created_at)
        invariant workflows == old(workflows) + [Workflow(workflow_id, user_id, title, category, description, false, created_at)]
        invariant users == old(users) && ai_tools == old(ai_tools) && suggestions == old(suggestions)
      {
        workflow_nodes := workflow_nodes + [WorkflowNode(node_ids[i], workflow_id, ns[i].title, ns[i].description, created_at)];
        NodeRowsSnoc(ns, node_ids, i, workflow_id, created_at);
        i := i + 1;
      }
      assert ns[..i] == ns && node_ids[..i] == node_ids;
      resp := Response(201, CreatedBody(workflow_id, title, category, description, user_id));
    }

    /** GET /api/workflows: the caller's own workflows. */
    function ListWorkflows(header: Option<string>, verify: string -> Option<Id>): (r: Response)
      reads this
      ensures Authenticate(header, verify).Reject? ==> r == Authenticate(header, verify).response
      ensures Authenticate(header, verify).Pass? ==> r.status == 200 && r.body.WorkflowsBody?
      ensures Authenticate(header, verify).Pass? ==>
        r.body.workflows == WorkflowsOf(workflows, Authenticate(header, verify).userId)
      ensures Authenticate(header, verify).Pass? ==>
        var u := Authenticate(header, verify).userId;
        && (forall i :: 0 <= i < |r.body.workflows| ==> r.body.workflows[i] in workflows && r.body.workflows[i].user_id == u)
        && (forall i :: 0 <= i < |workflows| && workflows[i].user_id == u ==> workflows[i] in r.body.workflows)
    {
      match Authenticate(header, verify)
      case Reject(resp) => resp
      case Pass(u) => Response(200, WorkflowsBody(WorkflowsOf(workflows, u)))
    }

    /** GET /api/workflows/:workflow_id: any authenticated caller gets the
        row, whoever owns it. */
    function GetWorkflow(header: Option<string>, verify: string -> Option<Id>, workflow_id: Id): (r: Response)
      reads this
      ensures Authenticate(header, verify).Reject? ==> r == Authenticate(header, verify).response
      ensures Authenticate(header, verify).Pass? ==> r == WorkflowResponse(workflows, workflow_id)
      ensures Authenticate(header, verify).Pass? ==>
        (r.status == 404 <==> forall i :: 0 <= i < |workflows| ==> workflows[i].workflow_id != workflow_id)
    {
      match Authenticate(header, verify)
      case Reject(resp) => resp
      case Pass(_) => WorkflowResponse(workflows, workflow_id)
    }

    /** GET .../nodes/:node_id/suggestions: the workflow id in the path is
        not used. */
    function Suggestions(header: Option<string>, verify: string -> Option<Id>, workflow_id: Id, node_id: Id): (r: Response)
      reads this
      ensures Authenticate(header, verify).Reject? ==> r == Authenticate(header, verify).response
      ensures Authenticate(header, verify).Pass? ==>
        r == Response(200, SuggestionsBody(SuggestionsFor(ai_tools, suggestions, node_id)))
    {
      match Authenticate(header, verify)
      case Reject(resp) => resp
      case Pass(_) => Response(200, SuggestionsBody(SuggestionsFor(ai_tools, suggestions, node_id)))
    }

    /** PUT /api/workflows/:workflow_id: overwrites the three scalar columns
        of the matching rows, ignores `nodes`, and answers 200 with the
        request's values whether or not a row matched. */
    method UpdateWorkflow(header: Option<string>, verify: string -> Option<Id>, workflow_id: Id,
                          title: string, category: string, description: string,
                          nodes: Option<seq<NodeInput>>) returns (resp: Response)
      modifies this
      ensures Authenticate(header, verify).Reject? ==>
        resp == Authenticate(header, verify).response && unchanged(this)
      ensures Authenticate(header, verify).Pass? ==>
        && workflows == WithScalars(old(workflows), workflow_id, title, category, description)
        && users == old(users) && workflow_nodes == old(workflow_nodes)
        && ai_tools == old(ai_tools) && suggestions == old(suggestions)
        && resp == Response(200, UpdatedBody(workflow_id, title, category, description))
    {
      var gate := Authenticate(header, verify);
      if gate.Reject? {
        return gate.response;
      }
      var i := 0;
      while i < |workflows|
        invariant 0 <= i <= |workflows| == |old(workflows)|
        invariant forall k :: 0 <= k < i ==> workflows[k] == WithScalars(old(workflows), workflow_id, title, category, description)[k]
        invariant forall k :: i <= k < |workflows| ==> workflows[k] == old(workflows)[k]
        invariant users == old(users) && workflow_nodes == old(workflow_nodes)
        invariant ai_tools == old(ai_tools) && suggestions == old(suggestions)
      {
        if workflows[i].workflow_id == workflow_id {
          workflows := workflows[i := workflows[i].(title := title, category := category, description := description)];
        }
        i := i + 1;
      }
      resp := Response(200, UpdatedBody(workflow_id, title, category, description));
    }
  }

  /** The owner is never compared with the caller: two authenticated users
      get the same answer for the same id. */
  lemma GetIgnoresOwnership(db: Database, h1: Option<string>, h2: Option<string>,
                            verify: string -> Option<Id>, workflow_id: Id)
    requires Authenticate(h1, verify).Pass? && Authenticate(h2, verify).Pass?
    ensures db.GetWorkflow(h1, verify, workflow_id) == db.GetWorkflow(h2, verify, workflow_id)
  {
  }
}
