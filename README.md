# AI Tools Workflow: a Dafny model of the draft store and the workflow API

This project models the two pieces of the AI Tools Workflow application that carry its behaviour.

- **The client store** (`vitereact/src/store/main.tsx`). It is a Redux store made of three slices.
  - `authenticated_user`: `login` and `logout`.
  - `ai_tool_filters`: `setFilters` and `resetFilters`.
  - `workflow_in_progress`: the editable draft, with `setWorkflowMeta`, `addNode`, `removeNode` and `resetWorkflow`.

  The first two slices are replaced wholesale, so they are pure reducer functions (`Store.UserReducer`, `Store.FiltersReducer`). The draft is changed in place field by field, so it is a class (`Store.WorkflowInProgress`). Its methods state the whole new state. `Store.RootStore.Dispatch` hands every action to every slice, as `combineReducers` does.
- **The Express server** (`backend/server.js`). Each route is an operation on five in-memory tables held by `Server.Database`: `users`, `workflows`, `workflow_nodes`, `ai_tools` and `ai_tool_node_suggestions`.
  - The routes that write are imperative methods: create, update and register. Create inserts one node row per input node in a loop. Update rewrites matching rows in a loop.
  - The routes that only read are functions: list, get and suggestions. So is the auth gate `authenticateJWT`.
  - The catalog search builds its conditions step by step and then runs the query.
  - The meaning of the SQL is in module `Query`. A table is a sequence of rows, and the model chooses storage order as the order in which a `WHERE` clause returns its matching rows; `LIMIT 5` then takes the first five of them. `ORDER BY rank` is an insertion sort on the joined rows. `ILIKE` is a LIKE matcher (`%`, `_`, backslash escape) applied after ASCII lower-casing, in module `Text`.

The code has no ownership check, so the model has none. Get and update work on any workflow for any authenticated caller. Update answers 200 even when no row matched, and it ignores `nodes`. `Server.GetIgnoresOwnership`, `Server.Database.UpdateWorkflow` and `Server.UpdateAbsentIdIsNoop` state these facts.

Foreign code is passed in as oracles. `verify: string -> Option<Id>` stands for JWT verification, `sign: Id -> string` for JWT signing, and `matches: (string, string) -> bool` for `bcrypt.compare`. The fresh uuids, the bcrypt hash and the `toISOString()` timestamp are parameters. The create handler requires its fresh ids to be absent from every table; this is the uuid property it relies on.

The model follows the code in these points:
- `GET /api/workflows/:workflow_id` returns only the workflow row, without its nodes.
- Create is not atomic. When the request has no `nodes`, the workflow row is already inserted before `nodes.map` throws, and the answer is 500. `Server.Database.CreateWorkflow` keeps that row.
- Register does not check for a duplicate email.
- Ownership is never checked.

## Model

| member | source | states |
|---|---|---|
| `Store.UserReducer` | vitereact/src/store/main.tsx:8-24 | `login` makes the slice exactly the payload, whatever it held; `logout` makes it null; other actions leave it alone |
| `Store.LoginLogoutForgetPriorState` | vitereact/src/store/main.tsx:18-23 | login and logout results do not depend on the prior user; logout after login returns to the initial state |
| `Store.FiltersReducer` | vitereact/src/store/main.tsx:28-59 | `setFilters` yields exactly the payload; `resetFilters` yields the initial filters; other actions leave the filters alone |
| `Store.SetFiltersDoesNotMerge` | vitereact/src/store/main.tsx:42-49 | each of the four fields (pricing, tags, ease of use, search text) left out of the payload becomes absent even if it was set before, so the state changes: filters are replaced, not merged |
| `Store.ResetFiltersIsInitial` | vitereact/src/store/main.tsx:30-57 | `resetFilters` gives the initial state from any state, with all four fields the empty string |
| `Store.MetaField` | vitereact/src/store/main.tsx:96-98 | a meta field takes the payload value exactly when that value is truthy; an absent or empty value keeps the old field |
| `Store.NewNode` | vitereact/src/store/main.tsx:101-107 | the pushed node copies the payload's id, title and description; its suggestions are the payload's list, or `[]` when absent |
| `Store.WithoutNode` | vitereact/src/store/main.tsx:109-110 | the result never grows; it holds only nodes of the input whose id differs; every input node whose id differs is in it |
| `Store.RemoveNodeKeepsOrder` | vitereact/src/store/main.tsx:109-111 | removal distributes over concatenation, so survivors keep their relative order |
| `Store.RemoveNodeIdempotent` | vitereact/src/store/main.tsx:109-111 | removing the same id twice is the same as removing it once |
| `Store.RemoveAbsentNode` | vitereact/src/store/main.tsx:109-111 | removing an id that no node carries leaves the nodes unchanged |
| `Store.RemoveUndoesAdd` | vitereact/src/store/main.tsx:101-111 | removing a node just added under an unused id restores the previous node list |
| `Store.WorkflowInProgress.constructor` | vitereact/src/store/main.tsx:64-75 | the initial draft has no workflow id, empty strings, no nodes and `is_template` false |
| `Store.WorkflowInProgress.SetMeta` | vitereact/src/store/main.tsx:90-100 | title, category and description are overwritten only by truthy values; `is_template` whenever it is defined, including `false`; nodes and workflow id are unchanged |
| `Store.WorkflowInProgress.PushNode` | vitereact/src/store/main.tsx:101-108 | exactly one node is appended at the end, previous nodes are unchanged and in order, and no other field changes |
| `Store.WorkflowInProgress.DropNode` | vitereact/src/store/main.tsx:109-111 | nodes become the filtered list and no other field changes |
| `Store.WorkflowInProgress.Reset` | vitereact/src/store/main.tsx:112-121 | from any state the draft becomes the initial draft |
| `Store.WorkflowInProgress.Reduce` | vitereact/src/store/main.tsx:89-122 | the draft's own four actions have the effects above; any other slice's action leaves the draft unchanged |
| `Store.RootStore.constructor` | vitereact/src/store/main.tsx:126-130 | the store starts with every slice in its initial state |
| `Store.RootStore.Dispatch` | vitereact/src/store/main.tsx:126-130 | every slice reducer sees the action: the user and filter slices become their reducers' results; `setWorkflowMeta`, `addNode`, `removeNode` and `resetWorkflow` change the draft's fields exactly as the draft reducer's cases say, and leave the other fields as they were; user and filter actions leave the draft unchanged |
| `Server.Authenticate` | backend/server.js:29-43 | a missing or empty header gives 401; a header whose second space-separated part is missing or fails verification gives 403; otherwise the handler runs with the verified user id |
| `Server.BearerHeaderAuthenticates` | backend/server.js:30-39 | `Bearer <token>` with a space-free token passes with the verified id exactly when the token verifies, and gives 403 otherwise |
| `Server.SchemeIsNotChecked` | backend/server.js:32 | any scheme word in place of `Bearer` gives the same outcome |
| `Server.BareTokenIsForbidden` | backend/server.js:32-35 | a non-empty header without a space is refused with 403 whatever it holds |
| `Server.BearerToken` | backend/server.js:32 | there is no token exactly when the header has no space; otherwise the token is the text after the first space, up to the next space or the end, and holds no space |
| `Text.Split` | backend/server.js:32 | `split(' ')` yields at least one part, no part holds the separator, and there is exactly one part when the string has no separator |
| `Text.Like` | backend/server.js:67 | a LIKE pattern without `%`, `_` or `\` matches exactly the string equal to it |
| `Text.ILike` | backend/server.js:71 | an ILIKE pattern without `%`, `_` or `\` matches exactly the strings equal to it after ASCII lower-casing |
| `Text.ILikeContains` | backend/server.js:66-72 | for a value without LIKE metacharacters, matching `%value%` with ILIKE is a case-insensitive substring test |
| `Query.SelectTools` | backend/server.js:59-77 | every returned tool is a table row satisfying every condition; the result is a sub-multiset of the matching rows, so no row appears more often than it is stored; it has the limit's size, or every match when fewer rows match |
| `Query.NoConditionsTakeFirstRows` | backend/server.js:59-75 | without conditions the query returns the first rows of the table, up to the limit |
| `Server.MatchingTools` | backend/server.js:62-73 | the rows the `WHERE` keeps are exactly the catalog rows that meet every truthy filter: pricing equal, tags and name matching `%value%` under ILIKE |
| `Server.CatalogFilterMeaning` | backend/server.js:62-73 | when the tags and name values hold no `%`, `_` or `\`: pricing is an exact match, tags and name are case-insensitive substring matches, and an empty or absent filter is no constraint |
| `Server.EmptyFiltersMatchAll` | backend/server.js:58-75 | with every filter empty or absent, every tool matches |
| `Server.Database.SearchTools` | backend/server.js:56-82 | the answer is 200; every tool is in the catalog and satisfies all the supplied filters; the list is a sub-multiset of the matching rows; there are five, or every match when fewer match |
| `Server.CatalogAsWritten` | backend/server.js:59-80 | as written, any truthy filter makes the query fail with 500; with no filter the answer is the first five rows |
| `Server.PlaceholderFilterFails` | backend/server.js:62-64 | a pricing filter that matches a catalog tool still gets 500 from the code as written |
| `Server.Database.Register` | backend/server.js:85-106 | with a password, exactly one user row is appended, no other table changes, and the answer is 201 with a token for the new id; without one, hashing throws, nothing changes and the answer is 500 `User creation failed` |
| `Server.UserByEmail` | backend/server.js:113-118 | the lookup finds nothing exactly when no user has the email; otherwise it gives the first user row with that email |
| `Server.LoginUser` | backend/server.js:109-131 | an unknown email gives 401 `Invalid credentials`; otherwise the first user with that email decides: a missing password gives 500 `Login failed`, a matching one 200 with a token for that user's id, a wrong one the same 401 |
| `Server.Database.Login` | backend/server.js:109-131 | the route answers as `Server.LoginUser` on the users table: 200, the 401 `Invalid credentials` or the 500 `Login failed`; 200 exactly when a user has that email and a password is given that matches the first one's hash; 500 exactly when the email is known and the password missing |
| `Server.LoginDoesNotRevealAccounts` | backend/server.js:115-127 | an unknown email and a wrong password give identical responses |
| `Server.RegisteredUserCanLogIn` | backend/server.js:98-131 | after a user row with a new email is appended, login with its password gives that user's token, and the token passes the auth gate with that user id |
| `Server.Database.CreateWorkflow` | backend/server.js:134-161 | an auth failure changes nothing; otherwise one workflow row is added with the fresh id, the caller as owner and `is_predefined` false; with nodes, one node row per input node is added in input order and the answer is 201 echoing id, title, category, description and user id; without nodes the row stays and the answer is 500 |
| `Server.NodeRows` | backend/server.js:146-153 | row k carries the k-th fresh id, the new workflow id and input node k's title and description |
| `Server.NodesOfCreatedWorkflow` | backend/server.js:141-155 | after create, the node rows of the new workflow are exactly the N new rows, in input order |
| `Server.Database.ListWorkflows` | backend/server.js:164-172 | an authenticated caller gets 200 with exactly `Server.WorkflowsOf` of the table for its id: only and all the workflows it owns, each as often as it is stored, in the model's storage order; an auth failure gives the gate's answer |
| `Server.WorkflowsOf` | backend/server.js:167 | the result holds only rows of that owner, and every row of that owner |
| `Server.CreateExtendsOwnersList` | backend/server.js:141-168 | in the model's storage order, a new workflow joins the end of its owner's list and leaves every other user's list unchanged |
| `Server.WorkflowById` | backend/server.js:178-185 | the lookup finds nothing exactly when no workflow row has the id; otherwise it gives the first row with that id |
| `Server.WorkflowResponse` | backend/server.js:178-185 | 404 `Workflow not found` when no row has the id; otherwise 200 with the first such row |
| `Server.Database.GetWorkflow` | backend/server.js:175-189 | an authenticated caller gets the row for the id, and 404 exactly when no row has it |
| `Server.GetIgnoresOwnership` | backend/server.js:175-185 | any two authenticated callers get the same answer for the same id |
| `Server.GetAfterCreate` | backend/server.js:141-185 | a workflow inserted under an unused id is what a get by that id returns |
| `Query.ToolsWithId` | backend/server.js:197 | the rows paired with one link are catalog tools with the link's tool id and its rank, and every catalog tool with that id is among them |
| `Query.JoinForNode` | backend/server.js:195-199 | every joined row is a catalog tool linked to the node with that rank; every pair of a link of the node and a catalog tool with the link's tool id is joined; a node without links joins nothing |
| `Query.SortByRank` | backend/server.js:200 | the result is ordered by non-decreasing rank and is a permutation of the input |
| `Query.RankedSuggestions` | backend/server.js:195-202 | the suggestions are sorted by rank, linked to the node and drawn from the join; there are min(5, joined rows) of them, with ranks no larger than any joined row left out |
| `Query.NoLinksNoSuggestions` | backend/server.js:195-205 | a node with no links gets an empty list, not an error |
| `Server.SuggestionsFor` | backend/server.js:192-205 | the list length is min(5, joined rows); every tool is in the catalog and linked to the node; the list is the tools of joined rows, drawn from the join, linked to the node, in non-decreasing rank, with no row left out ranked below one returned; it is empty when nothing is linked |
| `Server.Database.Suggestions` | backend/server.js:192-209 | an authenticated caller gets 200 with the node's suggestion list; the workflow id in the path is not used |
| `Server.WithScalars` | backend/server.js:217-220 | rows with the id get the new title, category and description; ids, owners, flags and timestamps are kept; other rows are unchanged |
| `Server.UpdateAbsentIdIsNoop` | backend/server.js:217-224 | updating an id that no row has changes no row |
| `Server.GetAfterUpdate` | backend/server.js:178-220 | a get after an update returns the same row with the new scalar values |
| `Server.Database.UpdateWorkflow` | backend/server.js:212-228 | an auth failure changes nothing; otherwise only the workflows table changes, by the scalar update; nodes and other tables are unchanged; the answer is 200 with the request's values whether or not a row matched |

## Left out

- JWT signing and verification, bcrypt hashing and comparison, and uuid generation are oracles. Token expiry, `iat` and the reasons verification fails are hidden inside `verify`. A verified token whose payload has no `userId` is not modelled.
- Server.Authenticate: `verify` may accept any string. The model does not build in that the JWT library rejects an empty token, as in the header `Bearer ` with nothing after the space.
- Storage failures are not modelled: the `catch` branches that answer 500 for a failing query. The 500s that follow from the request alone are modelled: create with `nodes` missing, a filtered catalog search as written, and register, or login with a known email, without `password`.
- Concurrency is not modelled. Create treats the node inserts issued through `Promise.all` as sequential, in input order. The model claims no atomicity: a failure between inserts is not modelled.
- Row order: every query whose `WHERE` has no `ORDER BY` returns rows in storage order in the model, with appended rows last and an updated row kept in place. SQL leaves that order unspecified, and a PostgreSQL `UPDATE` writes a new row version that may move. This covers the list of a user's workflows (`Server.WorkflowsOf`, `Server.CreateExtendsOwnersList`), and the `rows[0]` that decides login (`Server.UserByEmail`, `Server.LoginUser`) and get (`Server.WorkflowById`, `Server.WorkflowResponse`). With duplicate emails, the model's login is decided by the first stored row; the code leaves open which row decides.
- Server.Database.SearchTools: the rows chosen by `LIMIT 5` follow storage order in the model. SQL without `ORDER BY` leaves that choice unspecified, so the contract promises only the matching condition and the count.
- Query.SortByRank: rows of equal rank keep storage order in the model. The contract does not claim this, because SQL leaves ties unspecified.
- `ILIKE` lower-cases ASCII letters only. Locale-dependent case folding is not modelled.
- Query-string values that arrive as arrays (`?tags=a&tags=b`) are not modelled. Each filter is an optional string.
- Request body fields that are `undefined` are modelled as strings, where the code would store SQL `NULL` or compare with it. The exceptions are `password` and `nodes`, whose absence makes the handler throw. Both are optional in the model.
- Server.Database.Register: an insert that the database rejects is not modelled, for example a duplicate email under a unique constraint. The table schema is not part of this model. The bcrypt hash is a parameter drawn by the caller.
- The `is_template` field of `setWorkflowMeta` is assumed to be a boolean or absent. The reducer would also copy `null`, which the payload type rules out.
- The draft's title, category and description are strings. The declared type allows `undefined`, but no reducer produces it.
- `redux-persist`, `localStorage` and `configureStore` are library configuration.
- The React views are left out: the builder's save call and its per-node suggestion fetches are axios calls in the views, not store actions.
- Delete and duplicate of workflows are left out. The server has no such routes.
- Ownership enforcement and 400 validation errors are absent from the code, so the model has none either.

## Findings

| source | as written | input that shows it | evidently intended | confidence | as-written member | corrected member |
|---|---|---|---|---|---|---|
| backend/server.js:63-71 | the catalog conditions use `?` placeholders, which PostgreSQL does not accept. Any request with a filter fails and gets 500 | `GET /api/ai_tools?pricing=Free` with a Free tool in the catalog | numbered `$1`, `$2`, … placeholders, so the filtered rows are returned with 200 | likely; not executed | `Server.CatalogAsWritten` (shown by `Server.PlaceholderFilterFails`) | `Server.Database.SearchTools` |
