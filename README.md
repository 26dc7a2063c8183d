# Bdash Query page: intent resolution

This project models how the Query page of Bdash, a desktop SQL workbench,
decides what a user action does. The handlers for adding a query, executing
it, cancelling it, and sharing it on Gist or on Bdash Server read the page
state. They then either call into the query actions, the sharing clients,
the confirmation dialog and the URL opener, or raise an alert.

Each handler is a pure function. It takes the page state (`PageState`: the
setting, the data sources, the charts and the editor's cursor line) and the
outcome of every collaborator it awaits. It returns the ordered list of
effects it issues (`QueryPage.Effect`). Alerts are effects too. The
collaborator outcomes are the dialog's answer, and for each awaited call
whether it resolved or threw, and with what. The ordering of the list
stands for the `await` ordering of the source. A thrown error inside the
`try` ends the list with an alert that carries the error's message.

Modules:

- `Wrappers` (`wrappers.dfy`): `Option` for `null` values, with `GetOr`
  for the `??` operator. `Completion` for how an awaited call settled.
- `Entities` (`entities.dfy`): the query, data source, chart and setting
  records the handlers read, and JavaScript truthiness of an optional
  string (`NonEmpty`).
- `ArrayFind` (`array_find.dfy`): `Array.prototype.find`, which gives the first
  match in list order.
- `QueryPage` (`query_page.dfy`): the handlers of
  `src/renderer/pages/Query/Query.tsx`.
- `QueryPageProperties` (`query_page_properties.dfy`): lemmas that follow a
  handler's effects from end to end or relate several calls.

Two behaviours of the handlers are worth calling out:

- A configured default data source id that is missing from the list gives
  the "Please create data source" alert. There is no fallback to the first
  data source (`AddQueryHasNoFallback`).
- A rejected `openExternal` is caught together with a rejection of the
  share call. The returned remote id is then not recorded on the query, and
  the error is alerted (`BdashRejectionAlerts`).

## Model

| member | source | states |
|---|---|---|
| `ArrayFind.Find` | src/renderer/pages/Query/Query.tsx:31-33 | `find` gives nothing exactly when no element matches; otherwise it gives the element at the first matching index |
| `ArrayFind.FindIsFirstMatch` | src/renderer/pages/Query/Query.tsx:31-33 | `find` gives `x` if and only if `x` sits at the first matching index, so the result is unique |
| `QueryPage.FindDataSourceById` | src/renderer/pages/Query/Query.tsx:31-33 | gives nothing exactly when no data source has the id; otherwise gives the first data source in list order with that id |
| `QueryPage.FindChartByQueryId` | src/renderer/pages/Query/Query.tsx:52 | there is no chart only when no chart belongs to the query; otherwise it is the first chart of the query in list order |
| `QueryPage.HandleAddQuery` | src/renderer/pages/Query/Query.tsx:21-29 | exactly one effect. With a default id: adds with that id if and only if a data source has it, and never another id. Without a default: adds with the first data source's id, or alerts when there are none. Every added id exists in the list |
| `QueryPage.HandleExecute` | src/renderer/pages/Query/Query.tsx:35-43 | executes if and only if the query's data source id is in the list. The execution uses the first data source with that id and the editor line; a missing line becomes 0 and an explicit line is kept. Otherwise the "DataSource is missing" alert |
| `QueryPage.HandleCancel` | src/renderer/pages/Query/Query.tsx:45-49 | forwards the cancel if and only if the status is working; otherwise does nothing |
| `QueryPage.ShareGuard` | src/renderer/pages/Query/Query.tsx:56-63 | the guard order of both sharing handlers (also lines 77-84). The token alert wins even when the data source is also missing. The data source alert comes only with a token. Sharing proceeds if and only if both are present |
| `QueryPage.AlertOnRejection` | src/renderer/pages/Query/Query.tsx:65-69 | a caught rejection becomes exactly one alert with the error's message; a resolved call adds nothing |
| `QueryPage.HandleShareOnGist` | src/renderer/pages/Query/Query.tsx:51-70 | no token gives only the token alert. A token without data source gives only the data source alert. The Gist call is made if and only if both guards pass. It gets the query, the GitHub setting, the first data source with the query's data source id, and the query's first chart (or none). A failure adds one alert with its message |
| `QueryPage.ResolveOverwrite` | src/renderer/pages/Query/Query.tsx:86-93 | no or empty remote id: proceed without overwrite. With one: abort if and only if the answer is "cancel"; overwrite if and only if the answer is "update", and then it overwrites the query's own remote id; any other answer creates anew |
| `QueryPage.AfterBdashShare` | src/renderer/pages/Query/Query.tsx:95-103 | a rejected share call gives only its alert. Otherwise the returned page is opened first. A rejected open gives its alert and no patch. When both succeed, an empty or absent returned id ends the effects there. A non-empty one is followed by exactly the patch carrying that id for the query, and by an alert with the message if that update is rejected. The patch is issued if and only if both succeeded and the returned id is non-empty |
| `QueryPage.HandleShareOnBdashServer` | src/renderer/pages/Query/Query.tsx:72-104 | the token guard comes before the data source guard. The dialog is shown if and only if both guards pass and the query has a remote id, and it is then the first effect. "cancel" leaves only the dialog. The share call is made if and only if the guards pass and the dialog did not cancel. It carries the query, the Bdash Server setting, the first data source with the query's data source id, the query's first chart (or none), and an overwrite equal to the query's remote id exactly on "update". It is followed by the post-share effects |
| `QueryPageProperties.AddQueryHasNoFallback` | src/renderer/pages/Query/Query.tsx:22-28 | a configured default id absent from the list gives the alert and adds no data source of the list, the first included |
| `QueryPageProperties.AddQueryWithoutDataSources` | src/renderer/pages/Query/Query.tsx:22-28 | no data sources and no default: only the "Please create data source" alert |
| `QueryPageProperties.ExecuteIgnoresSetting` | src/renderer/pages/Query/Query.tsx:35-43 | execution does not depend on the setting: it always uses the query's own data source, never the default |
| `QueryPageProperties.ShareHandlersRejectAlike` | src/renderer/pages/Query/Query.tsx:56-84 | with both tokens set, the Gist and Bdash Server handlers reject for a missing data source in exactly the same cases |
| `QueryPageProperties.DialogIrrelevantWithoutRemoteId` | src/renderer/pages/Query/Query.tsx:86-93 | without a remote id the dialog's answer changes nothing |
| `QueryPageProperties.BdashShape` | src/renderer/pages/Query/Query.tsx:86-103 | once past the guards and not cancelled, the effects are the optional dialog, one share call, then the post-share effects |
| `QueryPageProperties.BdashPatchedIff` | src/renderer/pages/Query/Query.tsx:95-103 | the query is patched if and only if the guards pass, the dialog did not cancel, the share call and the page opening both succeeded, and the returned id is non-empty |
| `QueryPageProperties.BdashPatchAfterOpen` | src/renderer/pages/Query/Query.tsx:96-100 | a patch carries the returned id and targets the shared query. It comes right after the opening of the returned page, which comes right after the share call |
| `QueryPageProperties.BdashRejectionAlerts` | src/renderer/pages/Query/Query.tsx:95-103 | a rejected share call or page opening issues no patch, and the last effect is the alert with that error's message |
| `QueryPageProperties.UpdateOverwritesExistingRemoteQuery` | src/renderer/pages/Query/Query.tsx:87-92 | a query shared as "abc" with "update" chosen shows the dialog, then shares with overwrite "abc" |

## Left out

- Rendering (`renderMain`, `render`, the splitter layout and component wiring, lines 106-197): presentation only. The title, data source and body edits there are one-line calls to the query actions with no decision in them.
- `src/renderer/pages/App/App.tsx`: page routing of the user interface. App.tsx is not part of this model.
- The query actions, the query store and the sharing clients (Gist and Bdash Server HTTP calls, copying as JSON, TSV, CSV or Markdown): their code is not part of this model. Their calls appear only as effects, and their outcomes as parameters. The execution state machine, busy rejection and result formatting live there and are not modelled.
- The confirmation dialog and the URL opener are foreign calls. The dialog's answer and the opener's outcome are parameters.
- Asynchrony: each handler is one sequential decision; interleaving of concurrent handlers is not modelled.
- `Action.executeQuery` and `Action.cancelQuery` are awaited outside any `try`; their own rejections are not modelled.
- `QueryPage.HandleAddQuery`: a default data source id that is `undefined` rather than `null` is not modelled; the setting's id is either `null` (`None`) or a number.
- The shared query, setting and data source records keep only the fields the handlers read or pass along; the remaining fields are not modelled.
