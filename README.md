# Issue tracker panel and subscription-plan modes, modelled in Dafny

This project models the two pieces of logic in a set of Shopify admin extensions.

- **Issue tracker** (`issue_tracker.dfy`, module `IssueTracker`). This is a product-details action panel with a title field and a description field. The form state is the draft `issue`, the loaded list `allIssues` and the `formErrors` flags. Submitting checks that both fields are non-empty. On success the panel writes the old list followed by one new record to the product's `$app:issues`/`issues` JSON metafield, then closes. The new record's id is the last stored id + 1, or 0 for an empty list. The component is a class (`App`). Its host and backend calls are recorded as a sequence of `Effect`s: `UpdateIssues(write)` and `Close`. A small map-based `MetafieldStore` models the remote metafields so that a submit followed by a reload can be stated.
- **Subscription-plan modes** (`subscription_product.dfy`, module `SubscriptionProduct`). This covers the Add mode's checkbox selection list and the plan form used by both Create and Edit. It also covers the primary and secondary actions of all four modes (Add, Remove, Create, Edit). The host calls (token fetch, `done`, `close`) live in `host_container.dfy` (module `HostContainer`). There, `Protocol` is the trace invariant every mode's object keeps: the trace is made of whole `[GetSessionToken, Done]` and `[Close]` blocks.

Each user action is one atomic method. The stored JSON text is abstracted to the sequence of records it encodes.

`NextId` takes the last record's id + 1 (`ActionExtension.tsx:41`), not the largest id + 1; `NextIdUsesLastNotMaximum` shows the difference on [0,3] and [3,0].

## Model

| member | source | states |
|---|---|---|
| `IssueTracker.NextId` | extensions/issue-tracker-action/src/ActionExtension.tsx:37-42 | `generateId`: 0 for an empty list, otherwise the last record's id + 1; its properties are the `NextId…` lemmas below |
| `IssueTracker.Complete` | extensions/issue-tracker-action/src/ActionExtension.tsx:49 | the form is complete iff title and description are both non-empty strings |
| `IssueTracker.NewIssue` | extensions/issue-tracker-action/src/ActionExtension.tsx:57-62 | the appended record: id from `NextId`, the draft's title and description, `completed` false |
| `IssueTracker.IssuesWrite` | extensions/issue-tracker-action/src/ActionExtension.tsx:128-134 | the write payload: owner id, namespace `$app:issues`, key `issues`, type `json`, and the whole new list as value |
| `IssueTracker.ApplyWrite` | extensions/issue-tracker-action/src/ActionExtension.tsx:119 | `metafieldsSet` replaces the whole value under (owner, namespace, key) |
| `IssueTracker.QueryIssues` | extensions/issue-tracker-action/src/ActionExtension.tsx:138-151 | `getIssues` returns the value stored under (product, `$app:issues`, `issues`), or nothing when there is none |
| `IssueTracker.App.TitleError` | extensions/issue-tracker-action/src/ActionExtension.tsx:88 | "Please enter a title" is shown exactly when the title flag is set |
| `IssueTracker.App.DescriptionError` | extensions/issue-tracker-action/src/ActionExtension.tsx:95-97 | "Please enter a description" is shown exactly when the description flag is set |
| `IssueTracker.App.constructor` | extensions/issue-tracker-action/src/ActionExtension.tsx:21-23 | the draft starts with empty title and description and a null id; `allIssues` starts empty; `formErrors` is null; nothing has been written or closed |
| `IssueTracker.App.PanelTitle` | extensions/issue-tracker-action/src/ActionExtension.tsx:80 | because the id is never set (`Valid`), `isEditing` is false and the panel is titled "Create an issue" |
| `IssueTracker.App.PrimaryLabel` | extensions/issue-tracker-action/src/ActionExtension.tsx:82 | for the same reason the primary button reads "Create" |
| `IssueTracker.App.OnLoad` | extensions/issue-tracker-action/src/ActionExtension.tsx:27-34 | the loaded list replaces `allIssues` only when a stored value is present; otherwise the list is kept; nothing else changes |
| `IssueTracker.App.OnTitleChange` | extensions/issue-tracker-action/src/ActionExtension.tsx:89 | replaces the title only; description, id, list, errors and effects are kept |
| `IssueTracker.App.OnDescriptionChange` | extensions/issue-tracker-action/src/ActionExtension.tsx:98-100 | replaces the description only; title, id, list, errors and effects are kept |
| `IssueTracker.App.ValidateForm` | extensions/issue-tracker-action/src/ActionExtension.tsx:44-50 | returns true iff both fields are non-empty; each error flag is set iff its field is empty |
| `IssueTracker.App.OnSubmit` | extensions/issue-tracker-action/src/ActionExtension.tsx:52-66 | an incomplete form adds no effect (no write, no close) and flags exactly the empty fields; a complete form adds exactly one write of the old list followed by `{id: NextId, title, description, completed: false}` to the selected product's `$app:issues`/`issues`/`json` metafield, then `Close`; draft and list are unchanged |
| `IssueTracker.App.OnCancel` | extensions/issue-tracker-action/src/ActionExtension.tsx:84 | Cancel adds `Close` and nothing else |
| `IssueTracker.NextIdUsesLastNotMaximum` | extensions/issue-tracker-action/src/ActionExtension.tsx:37-42 | ids [0,3] give 4 and ids [3,0] give 1: the rule uses the last record, not the largest id |
| `IssueTracker.OutOfOrderIdCollides` | extensions/issue-tracker-action/src/ActionExtension.tsx:41 | on ids [1,0] the generated id equals an existing id |
| `IssueTracker.NextIdFresh` | extensions/issue-tracker-action/src/ActionExtension.tsx:37-42 | on a list with ascending ids, the generated id is greater than every stored id |
| `IssueTracker.AppendKeepsAscending` | extensions/issue-tracker-action/src/ActionExtension.tsx:55-63 | appending the submitted record keeps the ids ascending, so lists built only by submits never get a repeated id |
| `IssueTracker.WriteThenQuery` | extensions/issue-tracker-action/src/ActionExtension.tsx:108-151 | the write replaces the whole stored list; reading the same product afterwards returns exactly the written sequence, and other products' values are unchanged |
| `IssueTracker.CreateFirstIssue` | extensions/issue-tracker-action/src/ActionExtension.tsx:52-66 | on an empty product, submitting "Bug"/"Crashes" writes `[{id:0, "Bug", "Crashes", completed:false}]` under `$app:issues`/`issues`/`json` for that product, then closes |
| `IssueTracker.SubmitWithoutTitle` | extensions/issue-tracker-action/src/ActionExtension.tsx:44-53 | submitting with an empty title and a filled description writes nothing, does not close, shows "Please enter a title" and no description error |
| `IssueTracker.SubmitAfterOutOfOrderIds` | extensions/issue-tracker-action/src/ActionExtension.tsx:37-63 | with stored ids [0,3], the written list is the two stored records in order followed by a new record with id 4 |
| `IssueTracker.SubmitThenReopen` | extensions/issue-tracker-action/src/ActionExtension.tsx:27-66 | load, fill in, submit, apply the effects to the store, then reopen the panel: the reloaded list is the first list plus the one new record, or the first list unchanged when a field was empty |
| `HostContainer.ProtocolAfterPrimary` | extensions/subscription-product/src/index.tsx:56-65 | appending a primary action's calls keeps a trace well-formed |
| `HostContainer.ProtocolAfterSecondary` | extensions/subscription-product/src/index.tsx:68-71 | appending a secondary action's call keeps a trace well-formed |
| `HostContainer.ProtocolTokenBeforeDone` | extensions/subscription-product/src/index.tsx:56-65 | in a well-formed trace every `done` comes right after a session-token fetch |
| `HostContainer.ProtocolBalanced` | extensions/subscription-product/src/index.tsx:56-65 | in a well-formed trace there are as many token fetches as `done` calls |
| `HostContainer.ActionCallCounts` | extensions/subscription-product/src/index.tsx:56-71 | a primary action makes one token fetch, then one `done`, and no `close`; a secondary action makes one `close` and nothing else |
| `SubscriptionProduct.Without` | extensions/subscription-product/src/index.tsx:89 | the filter removes every occurrence of the id and keeps all other ids with their multiplicities |
| `SubscriptionProduct.WithoutAppend` | extensions/subscription-product/src/index.tsx:89 | the filter distributes over concatenation, so the remaining ids keep their relative order |
| `SubscriptionProduct.WithoutAbsent` | extensions/subscription-product/src/index.tsx:89 | unchecking an id that is not selected leaves the list unchanged |
| `SubscriptionProduct.CheckAppends` | extensions/subscription-product/src/index.tsx:86-88 | checking appends the plan id at the end, one longer, with all previous entries in place |
| `SubscriptionProduct.CheckedAfterChange` | extensions/subscription-product/src/index.tsx:86-92 | after a change the plan's id is selected iff the change was a check; other plans' selection is unchanged |
| `SubscriptionProduct.NextSelection` | extensions/subscription-product/src/index.tsx:87-89 | a check appends the plan id and an uncheck filters it out; its properties are `CheckAppends`, `CheckedAfterChange` and the `Without…` lemmas |
| `SubscriptionProduct.AddPlan.IsChecked` | extensions/subscription-product/src/index.tsx:92 | a checkbox is checked iff its plan id is in `selectedPlans` |
| `SubscriptionProduct.PlanForm.PrimaryLabel` | extensions/subscription-product/src/index.tsx:123 | the primary button's title in `Actions`: "Create plan" for Create (line 123), "Edit plan" for Edit (line 226); which constructor gives which is stated by `PlanForm.Create` and `PlanForm.Edit` |
| `SubscriptionProduct.AddPlan.constructor` | extensions/subscription-product/src/index.tsx:45-50 | `selectedPlans` starts empty, so no mock plan's checkbox is checked; no host call yet |
| `SubscriptionProduct.AddPlan.OnCheckboxChange` | extensions/subscription-product/src/index.tsx:86-92 | stores the new selection list; the plan's checkbox then shows `checked`; no host call |
| `SubscriptionProduct.AddPlan.OnPrimaryAction` | extensions/subscription-product/src/index.tsx:54-66 | "Add to plan" appends one token fetch then `done` to the trace; selection unchanged |
| `SubscriptionProduct.AddPlan.OnSecondaryAction` | extensions/subscription-product/src/index.tsx:68-71 | Cancel appends `close` only |
| `SubscriptionProduct.RemovePlan.constructor` | extensions/subscription-product/src/index.tsx:169-172 | Remove mode starts with no host call |
| `SubscriptionProduct.RemovePlan.OnPrimaryAction` | extensions/subscription-product/src/index.tsx:175-184 | "Remove from plan" appends one token fetch then `done` |
| `SubscriptionProduct.RemovePlan.OnSecondaryAction` | extensions/subscription-product/src/index.tsx:186-189 | Cancel appends `close` only |
| `SubscriptionProduct.PlanForm.Create` | extensions/subscription-product/src/index.tsx:106-124 | Create starts with title, delivery frequency and percentage off all empty, and its primary button reads "Create plan" |
| `SubscriptionProduct.PlanForm.Edit` | extensions/subscription-product/src/index.tsx:212-226 | Edit starts with "Current plan", percentage off "10" and delivery frequency "1", and its primary button reads "Edit plan" |
| `SubscriptionProduct.PlanForm.SetPlanTitle` | extensions/subscription-product/src/index.tsx:139-143 | replaces the plan title only |
| `SubscriptionProduct.PlanForm.SetDeliveryFrequency` | extensions/subscription-product/src/index.tsx:147-152 | replaces the delivery frequency only |
| `SubscriptionProduct.PlanForm.SetPercentageOff` | extensions/subscription-product/src/index.tsx:153-158 | replaces the percentage off only |
| `SubscriptionProduct.PlanForm.OnPrimaryAction` | extensions/subscription-product/src/index.tsx:110-116 | appends one token fetch then `done`; the form values are not sent and stay as they were |
| `SubscriptionProduct.PlanForm.OnCancel` | extensions/subscription-product/src/index.tsx:270-276 | the Cancel button of `Actions` appends `close` only |
| `SubscriptionProduct.AddScenario` | extensions/subscription-product/src/index.tsx:86-92 | checking A, checking B, unchecking A, then confirming leaves `["b"]` selected, with the host trace `[token, done]` |
| `SubscriptionProduct.EditThenCancel` | extensions/subscription-product/src/index.tsx:212-273 | editing the title in Edit mode and cancelling makes one `close` and no token fetch or `done`; the title is the edited one and delivery frequency and percentage off keep their Edit defaults "1" and "10" |

## Left out

- GraphQL transport (`makeGraphQLQuery`, `fetch`, the query and mutation text) is network I/O. A write is recorded as an `UpdateIssues` effect carrying the mutation's variables, and a read is an input to `OnLoad`.
- The `res.ok` check only logs to the console, so it is not modelled. A mutation that the backend answers with `userErrors`, or a non-ok response, still leads to the close, as in the source.
- IssueTracker.App.OnSubmit, SubscriptionProduct.AddPlan.OnPrimaryAction, SubscriptionProduct.RemovePlan.OnPrimaryAction, SubscriptionProduct.PlanForm.OnPrimaryAction: every awaited call is assumed to succeed. A rejected `updateIssues` (a failing `fetch` or `res.json()`) skips `close`, and a rejected `getSessionToken` skips `done`; neither outcome is modelled, so the trace `[GetSessionToken]` without `done` cannot arise and `Protocol`/`ProtocolBalanced` say nothing about it.
- `JSON.stringify`/`JSON.parse` are library calls. The stored value is the sequence of records itself. An absent or empty-string metafield value is `None`.
- `metafieldDefinitionCreate` has no effect the panel can observe. Only the `metafieldsSet` part of the write is in `ApplyWrite`.
- Issue ids are unbounded integers. JavaScript numbers lose precision above 2^53, and non-numeric ids from hand-edited JSON (which `+ 1` would concatenate) are not modelled.
- Host APIs (`useApi`, `useContainer`, `useSessionToken`, `extend`/`reactExtension`) and React rendering are only modelled through the calls they receive. Also left out: hook dependency arrays, `useMemo`/`useCallback` caching, markup and the product-id texts.
- Async interleaving is not modelled: each action runs to completion before the next. This covers a submit still in flight after close, and a load racing with edits. Presses after the host has terminated the extension are not excluded either; they just extend the trace.
- The Add mode renders `mockPlans`, and `AddPlan.IsChecked` gives the rendered `checked` flag. Rendering the list itself is markup.
- app/routes/app.shopee.jsx is a static page with no logic and is not part of this model.
