/** The client's Redux store: three slices combined into one root state.
    `authenticated_user` and `ai_tool_filters` are replaced wholesale by their
    reducers; `workflow_in_progress` (the editable draft) is changed in place
    field by field, so it is a class. */
module Store {
  import opened Wrappers
  import Seqs
  import opened Text

  // ---------------------------------------------------------------------
  // Payloads and slice values

  /** The signed-in user as the login page stores it. */
  datatype AuthenticatedUser = AuthenticatedUser(
    user_id: string, email: string, token: string,
    first_name: Option<string>, last_name: Option<string>)

  /** `null` when nobody is signed in. */
  type UserSlice = Option<AuthenticatedUser>

  /** Catalog filters; every field may be absent. */
  datatype Filters = Filters(
    pricing: Option<string>, tags: Option<string>,
    ease_of_use: Option<string>, search_text: Option<string>)

  /** A suggested tool as the builder page keeps it on a node. */
  datatype ToolSummary = ToolSummary(tool_id: string, name: string, description: string)

  /** A node of the draft. */
  datatype DraftNode = DraftNode(
    node_id: string, title: string, description: string,
    ai_tool_suggestions: seq<ToolSummary>)

  /** Payload of `addNode`: the suggestion list is optional. */
  datatype NodePayload = NodePayload(
    node_id: string, title: string, description: string,
    ai_tool_suggestions: Option<seq<ToolSummary>>)

  /** Payload of `setWorkflowMeta`: every field is optional. */
  datatype MetaPayload = MetaPayload(
    title: Option<string>, category: Option<string>,
    description: Option<string>, is_template: Option<bool>)

  /** The actions the three slices define. Every slice reducer sees every
      action and returns its state unchanged for the ones it does not own. */
  datatype Action =
    | Login(user: AuthenticatedUser)
    | Logout
    | SetFilters(filters: Filters)
    | ResetFilters
    | SetWorkflowMeta(meta: MetaPayload)
    | AddNode(node: NodePayload)
    | RemoveNode(node_id: string)
    | ResetWorkflow

  // ---------------------------------------------------------------------
  // authenticated_user

  const InitialUser: UserSlice := None

  function UserReducer(state: UserSlice, action: Action): (r: UserSlice)
    ensures action.Login? ==> r == Some(action.user)
    ensures action.Logout? ==> r == None
    ensures !action.Login? && !action.Logout? ==> r == state
  {
    match action
    case Login(u) => Some(u)
    case Logout => None
    case _ => state
  }

  /** Login and logout do not depend on the previous user: logging in over
      a session replaces it, and logging out always returns to the initial
      state. */
  lemma LoginLogoutForgetPriorState(s1: UserSlice, s2: UserSlice, u: AuthenticatedUser)
    ensures UserReducer(s1, Login(u)) == UserReducer(s2, Login(u))
    ensures UserReducer(UserReducer(s1, Login(u)), Logout) == InitialUser
    ensures UserReducer(s1, Logout) == UserReducer(s2, Logout) == InitialUser
  {
  }

  // ---------------------------------------------------------------------
  // ai_tool_filters

  const InitialFilters := Filters(Some(""), Some(""), Some(""), Some(""))

  function FiltersReducer(state: Filters, action: Action): (r: Filters)
    ensures action.SetFilters? ==> r == action.filters
    ensures action.ResetFilters? ==> r == InitialFilters
    ensures !action.SetFilters? && !action.ResetFilters? ==> r == state
  {
    match action
    case SetFilters(f) => f
    case ResetFilters => InitialFilters
    case _ => state
  }

  /** `setFilters` replaces instead of merging: a field the payload leaves
      out becomes absent, even when it was set before. */
  lemma SetFiltersDoesNotMerge(state: Filters, payload: Filters)
    requires || (state.pricing.Some? && payload.pricing.None?)
             || (state.tags.Some? && payload.tags.None?)
             || (state.ease_of_use.Some? && payload.ease_of_use.None?)
             || (state.search_text.Some? && payload.search_text.None?)
    ensures var r := FiltersReducer(state, SetFilters(payload));
      && (payload.pricing.None? ==> r.pricing.None?)
      && (payload.tags.None? ==> r.tags.None?)
      && (payload.ease_of_use.None? ==> r.ease_of_use.None?)
      && (payload.search_text.None? ==> r.search_text.None?)
    ensures FiltersReducer(state, SetFilters(payload)) != state
  {
  }

  /** `resetFilters` yields the initial filters from any state, all empty
      strings rather than absent fields. */
  lemma ResetFiltersIsInitial(state: Filters)
    ensures FiltersReducer(state, ResetFilters) == InitialFilters
    ensures InitialFilters.pricing == InitialFilters.tags == Some("")
    ensures InitialFilters.ease_of_use == InitialFilters.search_text == Some("")
  {
  }

  // ---------------------------------------------------------------------
  // workflow_in_progress: the pure parts of its reducers

  /** A meta field after `if (payload.f) state.f = payload.f`. */
  function MetaField(current: string, v: Option<string>): (r: string)
    ensures Truthy(v) ==> r == v.value
    ensures !Truthy(v) ==> r == current
    ensures r == current || (v.Some? && r == v.value)
  {
    if Truthy(v) then v.value else current
  }

  /** The node `addNode` pushes: the payload, with `ai_tool_suggestions`
      defaulting to `[]` when it is absent. */
  function NewNode(p: NodePayload): (n: DraftNode)
    ensures n.node_id == p.node_id && n.title == p.title && n.description == p.description
    ensures p.ai_tool_suggestions.None? ==> n.ai_tool_suggestions == []
    ensures p.ai_tool_suggestions.Some? ==> n.ai_tool_suggestions == p.ai_tool_suggestions.value
  {
    DraftNode(p.node_id, p.title, p.description, p.ai_tool_suggestions.GetOr([]))
  }

  predicate HasId(n: DraftNode, id: string) { n.node_id == id }

  /** `nodes.filter(node => node.node_id !== id)`. */
  function WithoutNode(nodes: seq<DraftNode>, id: string): (r: seq<DraftNode>)
    ensures |r| <= |nodes|
    ensures forall i :: 0 <= i < |r| ==> r[i] in nodes && !HasId(r[i], id)
    ensures forall i :: 0 <= i < |nodes| && !HasId(nodes[i], id) ==> nodes[i] in r
  {
    Seqs.Filter(nodes, n => !HasId(n, id))
  }

  /** Removing keeps the surviving nodes in their relative order: it can be
      done piecewise on any split of the list. */
  lemma RemoveNodeKeepsOrder(a: seq<DraftNode>, b: seq<DraftNode>, id: string)
    ensures WithoutNode(a + b, id) == WithoutNode(a, id) + WithoutNode(b, id)
  {
    Seqs.FilterConcat(a, b, n => !HasId(n, id));
  }

  lemma RemoveNodeIdempotent(nodes: seq<DraftNode>, id: string)
    ensures WithoutNode(WithoutNode(nodes, id), id) == WithoutNode(nodes, id)
  {
    Seqs.FilterIdempotent(nodes, n => !HasId(n, id));
  }

  /** Removing an id no node carries changes nothing. */
  lemma RemoveAbsentNode(nodes: seq<DraftNode>, id: string)
    requires forall i :: 0 <= i < |nodes| ==> nodes[i].node_id != id
    ensures WithoutNode(nodes, id) == nodes
  {
    Seqs.FilterKeepsAll(nodes, n => !HasId(n, id));
  }

  /** Removing a node that was just added under an id no other node has
      gives back the nodes from before the addition. */
  lemma RemoveUndoesAdd(nodes: seq<DraftNode>, p: NodePayload)
    requires forall i :: 0 <= i < |nodes| ==> nodes[i].node_id != p.node_id
    ensures WithoutNode(nodes + [NewNode(p)], p.node_id) == nodes
  {
    Seqs.FilterSnoc(nodes, NewNode(p), n => !HasId(n, p.node_id));
    RemoveAbsentNode(nodes, p.node_id);
  }

  // ---------------------------------------------------------------------
  // workflow_in_progress: the draft itself

  class WorkflowInProgress {
    var workflow_id: Option<string>
    var title: string
    var category: string
    var description: string
    var nodes: seq<DraftNode>
    var is_template: bool

    /** The slice's initial state, which `resetWorkflow` also returns. */
    predicate IsInitial()
      reads this
    {
      workflow_id == None && title == "" && category == "" && description == ""
      && nodes == [] && !is_template
    }

    constructor ()
      ensures IsInitial()
    {
      workflow_id, title, category, description := None, "", "", "";
      nodes, is_template := [], false;
    }

    /** Overwrites title, category and description only with truthy payload
        values, and `is_template` whenever the payload defines it. */
    method SetMeta(p: MetaPayload)
      modifies this
      ensures title == MetaField(old(title), p.title)
      ensures category == MetaField(old(category), p.category)
      ensures description == MetaField(old(description), p.description)
      ensures is_template == p.is_template.GetOr(old(is_template))
      ensures nodes == old(nodes) && workflow_id == old(workflow_id)
    {
      if Truthy(p.title) { title := p.title.value; }
      if Truthy(p.category) { category := p.category.value; }
      if Truthy(p.description) { description := p.description.value; }
      if p.is_template.Some? { is_template := p.is_template.value; }
    }

    /** Pushes one node at the end. */
    method PushNode(p: NodePayload)
      modifies this
      ensures nodes == old(nodes) + [NewNode(p)]
      ensures |nodes| == |old(nodes)| + 1 && nodes[..|old(nodes)|] == old(nodes)
      ensures workflow_id == old(workflow_id) && title == old(title) && category == old(category)
      ensures description == old(description) && is_template == old(is_template)
    {
      nodes := nodes + [NewNode(p)];
    }

    /** Reassigns `nodes` to the nodes whose id differs from `id`. */
    method DropNode(id: string)
      modifies this
      ensures nodes == WithoutNode(old(nodes), id)
      ensures workflow_id == old(workflow_id) && title == old(title) && category == old(category)
      ensures description == old(description) && is_template == old(is_template)
    {
      nodes := WithoutNode(nodes, id);
    }

    /** Returns the draft to its initial state, whatever it held. */
    method Reset()
      modifies this
      ensures IsInitial()
    {
      workflow_id, title, category, description := None, "", "", "";
      nodes, is_template := [], false;
    }

    /** The slice reducer: the draft's own actions, and no change for the
        actions of the other slices. */
    method Reduce(action: Action)
      modifies this
      ensures action.SetWorkflowMeta? ==>
        && title == MetaField(old(title), action.meta.title)
        && category == MetaField(old(category), action.meta.category)
        && description == MetaField(old(description), action.meta.description)
        && is_template == action.meta.is_template.GetOr(old(is_template))
        && nodes == old(nodes) && workflow_id == old(workflow_id)
      ensures action.AddNode? ==>
        && nodes == old(nodes) + [NewNode(action.node)]
        && workflow_id == old(workflow_id) && title == old(title) && category == old(category)
        && description == old(description) && is_template == old(is_template)
      ensures action.RemoveNode? ==>
        && nodes == WithoutNode(old(nodes), action.node_id)
        && workflow_id == old(workflow_id) && title == old(title) && category == old(category)
        && description == old(description) && is_template == old(is_template)
      ensures action.ResetWorkflow? ==> IsInitial()
      ensures !action.SetWorkflowMeta? && !action.AddNode? && !action.RemoveNode? && !action.ResetWorkflow? ==>
        unchanged(this)
    {
      match action
      case SetWorkflowMeta(m) => SetMeta(m);
      case AddNode(n) => PushNode(n);
      case RemoveNode(id) => DropNode(id);
      case ResetWorkflow => Reset();
      case _ =>
    }
  }

  // ---------------------------------------------------------------------
  // The root store (combineReducers)

  class RootStore {
    var authenticated_user: UserSlice
    var ai_tool_filters: Filters
    const workflow_in_progress: WorkflowInProgress

    constructor ()
      ensures authenticated_user == InitialUser && ai_tool_filters == InitialFilters
      ensures fresh(workflow_in_progress) && workflow_in_progress.IsInitial()
    {
      authenticated_user := InitialUser;
      ai_tool_filters := InitialFilters;
      workflow_in_progress := new WorkflowInProgress();
    }

    /** Hands the action to every slice reducer; each slice changes only
        for its own actions, and the draft as its own reducer says. */
    method Dispatch(action: Action)
      modifies this, workflow_in_progress
      ensures authenticated_user == UserReducer(old(authenticated_user), action)
      ensures ai_tool_filters == FiltersReducer(old(ai_tool_filters), action)
      ensures (action.Login? || action.Logout? || action.SetFilters? || action.ResetFilters?) ==>
        unchanged(workflow_in_progress)
      ensures action.SetWorkflowMeta? ==>
        var d := workflow_in_progress;
        && d.title == MetaField(old(d.title), action.meta.title)
        && d.category == MetaField(old(d.category), action.meta.category)
        && d.description == MetaField(old(d.description), action.meta.description)
        && d.is_template == action.meta.is_template.GetOr(old(d.is_template))
        && d.nodes == old(d.nodes) && d.workflow_id == old(d.workflow_id)
      ensures action.AddNode? ==>
        var d := workflow_in_progress;
        && d.nodes == old(d.nodes) + [NewNode(action.node)]
        && d.workflow_id == old(d.workflow_id) && d.title == old(d.title) && d.category == old(d.category)
        && d.description == old(d.description) && d.is_template == old(d.is_template)
      ensures action.RemoveNode? ==>
        var d := workflow_in_progress;
        && d.nodes == WithoutNode(old(d.nodes), action.node_id)
        && d.workflow_id == old(d.workflow_id) && d.title == old(d.title) && d.category == old(d.category)
        && d.description == old(d.description) && d.is_template == old(d.is_template)
      ensures action.ResetWorkflow? ==> workflow_in_progress.IsInitial()
    {
      authenticated_user := UserReducer(authenticated_user, action);
      ai_tool_filters := FiltersReducer(ai_tool_filters, action);
      workflow_in_progress.Reduce(action);
    }
  }
}
