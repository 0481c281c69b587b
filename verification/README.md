# Crypto price alert dashboard — alert engine model

The dashboard is a single React view (`CryptoDashboard`). It polls a market-data
API for a list of assets and their current prices. Users register threshold
alerts ("tell me when bitcoin goes above 40000"), and a check runs whenever the
price list or the alert list changes. When an alert's condition holds, the
check shows a one-line banner and deletes the alert.

This project models the view's state logic in Dafny as pure
`(state, event) → state` functions:

- `Wrappers`: `Option`, the result of a lookup that may find nothing.
- `Seqs`: order-preserving `Filter`, the list operation used for every
  deletion, with its algebra: concatenation, no-op, congruence and fusion.
- `Market`: the `Asset` record of a snapshot and `Find`, the
  first-match lookup by identifier.
- `Alerts`: the `Alert` record, the trigger rule (`Crosses`, `Fires`), the
  banner text, and the alert check. `CheckEach` performs the check as the
  effect does. `Evaluate` states what one pass achieves, and lemmas state its
  idempotence, order preservation and inertness.
- `Dashboard`: the whole view state (`cryptoData`, `loading`, `error`, alerts,
  the banner, the form). It also holds the events: fetch outcome, form edit,
  submit and remove. `Step` applies an event and then runs the alert check.
  `Run` applies a sequence of events, and `ViewOf` selects the loading, error
  or ready view.
- `Scenarios`: concrete runs. An `above` alert fires as soon as it is
  submitted. A `below` alert waits and is then removed by hand. A failed fetch
  keeps the old snapshot.

Modelling choices:

- Each event's update is followed by the alert check, as the effect's
  dependency list `[cryptoData, alerts]` arranges. `StepWithoutCheck` proves
  that, from a settled state, running the check after events that change
  neither dependency does nothing. Every state reachable from the initial one
  is settled (`ReachableIsSettled`). `Step` is settled by construction. `SettleIdleIff` shows that the
  effect's re-run after its own deletions changes nothing.
- The check deletes a fired alert with `prev.filter(a => a !== alert)`. The
  model uses value equality in place of reference identity. On an arbitrary
  list the two differ: value equality also drops an equal copy that is not
  the captured object. `Evaluate` applies the queued filters to the captured
  list itself, where equal alerts fire or stay silent together, so there the
  result is the same.
- A target price is a `PriceInput`: the text typed into the form and the
  number JavaScript coerces it to in `current_price > alert.price`. The text
  is used in the banner message. The empty form's price is `PriceInput("", 0.0)`
  because an empty string coerces to 0.
- `error` is `Option<string>`, with `None` for `null`. The view uses
  JavaScript truthiness: an empty error string does not select the error view.
- Two behaviours follow the code even where a reader might expect otherwise:
  - A successful fetch does NOT clear an earlier error, so the error view is
    sticky (`ErrorNeverCleared`, `RunTakesLastFailure`, `ErrorViewSticky`).
  - Remove deletes every alert with the given identifier, not only one.

## Model

| member | source | states |
|---|---|---|
| Market.Find | my-app/src/Dashboard.jsx:57 | result is None exactly when no asset has the identifier; otherwise it is the asset at the first index carrying that identifier |
| Alerts.TriggerRule | my-app/src/Dashboard.jsx:57-61 | measured against the first asset with the alert's identifier: `above` fires iff the price is strictly greater, `below` iff strictly smaller; an equal price never fires, and no other kind ever fires |
| Alerts.UnlistedNeverFires | my-app/src/Dashboard.jsx:57-58 | an alert whose asset the snapshot does not list never fires |
| Alerts.LastFired | my-app/src/Dashboard.jsx:56-64 | None iff no alert of the list fires; otherwise a firing alert at some index with no firing alert after it |
| Alerts.CheckEach | my-app/src/Dashboard.jsx:56-68 | the forEach pass as written only ever deletes alerts (the result lists nothing the starting list lacks and is no longer), and leaves the banner either untouched or showing |
| Alerts.CheckEachPending | my-app/src/Dashboard.jsx:56-65 | the queued filters of one forEach pass remove, by value equality, exactly the alerts equal to a firing alert of the captured list; applied to the captured list itself (as `Evaluate` does) this is exactly the firing alerts |
| Alerts.CheckEachNotice | my-app/src/Dashboard.jsx:56-64 | after the forEach pass the banner is the one raised by the last firing alert of the captured list, or untouched if none fires |
| Alerts.Evaluate | my-app/src/Dashboard.jsx:55-69 | one pass leaves pending the order-preserving selection of the non-firing alerts; the banner is that of the last firing alert (shown), or unchanged when nothing fires |
| Alerts.EvaluateRemovesExactlyFired | my-app/src/Dashboard.jsx:56-65 | after a pass every copy of each firing alert is gone and every copy of each other alert remains |
| Alerts.EvaluateInertIff | my-app/src/Dashboard.jsx:55-69 | a pass leaves alerts and banner unchanged if and only if no pending alert fires |
| Alerts.EvaluateIdempotent | my-app/src/Dashboard.jsx:65-69 | the pass re-run after the pass's own deletions, with the same snapshot, changes nothing |
| Alerts.EvaluateKeepsOrder | my-app/src/Dashboard.jsx:65 | survivors keep their relative order: the pass over a joined list is the join of the two passes' survivors |
| Alerts.Passes | my-app/src/Dashboard.jsx:55-69 | any positive number of back-to-back passes over one snapshot equals a single pass |
| Alerts.UnlistedAlertStays | my-app/src/Dashboard.jsx:57-58 | an alert whose asset is not listed keeps all its copies pending after any number of passes |
| Alerts.UnlistedAlertsAreInert | my-app/src/Dashboard.jsx:56-58 | when no pending alert's asset is listed, any number of passes changes neither alerts nor banner |
| Seqs.Filter | my-app/src/Dashboard.jsx:65 | every element of the result passes the test, and the result is no longer than the input |
| Seqs.FilterCount | my-app/src/Dashboard.jsx:65 | the result holds each element exactly as many times as the input does when it passes the test, and never otherwise |
| Dashboard.ViewOf | my-app/src/Dashboard.jsx:81-95 | the loading view shows exactly while loading; the error view shows exactly when loading is over and the error is a non-empty string, and it carries that string; otherwise the dashboard shows |
| Dashboard.Fetch | my-app/src/Dashboard.jsx:31-36 | either outcome ends loading and leaves alerts, banner and form untouched; a success sets the snapshot to the response and keeps the error; a failure sets the error to its message and keeps the snapshot |
| Dashboard.RemoveThenCheck | my-app/src/Dashboard.jsx:204 | from a settled state a remove followed by the check changes only the alert list: snapshot, loading, error, banner and form stay as they were |
| Dashboard.Submit | my-app/src/Dashboard.jsx:71-78 | the old alerts stay as a prefix and exactly one alert built from the form and the given id follows; the form is reset to its defaults; the banner reads "Alert created successfully!" and shows; fetch state is untouched |
| Dashboard.Remove | my-app/src/Dashboard.jsx:204 | every alert with the id is gone, every other alert keeps all its copies, and nothing but the alert list changes |
| Dashboard.RemoveKeepsOrder | my-app/src/Dashboard.jsx:204 | alerts surviving a remove keep their relative order |
| Dashboard.RemoveUndoesSubmit | my-app/src/Dashboard.jsx:74 | removing by a fresh id right after a submit with that id restores the original alert list |
| Dashboard.Settle | my-app/src/Dashboard.jsx:55-69 | after the check no pending alert fires, and snapshot, loading, error and form are untouched |
| Dashboard.SettleIdleIff | my-app/src/Dashboard.jsx:55-69 | the check changes a state if and only if some pending alert fires in it |
| Dashboard.Step | my-app/src/Dashboard.jsx:54-69 | every event followed by the check leaves a state in which no pending alert fires |
| Dashboard.StepWithoutCheck | my-app/src/Dashboard.jsx:69 | from a settled state, a failed fetch or a form edit needs no check: running it anyway changes nothing |
| Dashboard.StepFetchState | my-app/src/Dashboard.jsx:31-36 | only a successful fetch changes the snapshot (to the response), only a failure changes the error (to its message), and any fetch outcome ends loading |
| Dashboard.RunKeepsSnapshot | my-app/src/Dashboard.jsx:34-36 | a run without successful fetches leaves the snapshot as it was |
| Dashboard.RunTakesLastSuccess | my-app/src/Dashboard.jsx:31-33 | after a run the snapshot is exactly the data of the last successful fetch, whatever failures came after it |
| Dashboard.RunKeepsError | my-app/src/Dashboard.jsx:31-33 | a run without failed fetches leaves the error as it was |
| Dashboard.RunTakesLastFailure | my-app/src/Dashboard.jsx:34-36 | after a run the error is the message of the last failed fetch, whatever successes came after it |
| Dashboard.ErrorNeverCleared | my-app/src/Dashboard.jsx:18-38 | once the error is non-null it stays non-null through any run |
| Dashboard.LoadingEndsForGood | my-app/src/Dashboard.jsx:33-36 | once any fetch outcome arrives, loading is false and stays false |
| Dashboard.ErrorViewSticky | my-app/src/Dashboard.jsx:89-95 | once the error view shows, it keeps showing through any run whose failures carry non-empty messages |
| Dashboard.ReachableIsSettled | my-app/src/Dashboard.jsx:54-69 | in every state reachable from the initial one, no pending alert fires |
| Dashboard.SubmitThenCheckPending | my-app/src/Dashboard.jsx:74-77 | from a settled state (every reachable state is one), a submit whose alert does not fire at once leaves that alert last in the list, the creation banner showing and the form reset |
| Dashboard.SubmitThenCheckFires | my-app/src/Dashboard.jsx:59-65 | from a settled state (every reachable state is one), a submit whose alert fires at once leaves the list as before, with the alert's own banner replacing the creation banner |
| Scenarios.AboveAlertFiresAtOnce | my-app/src/Dashboard.jsx:59-64 | an `above` 40000 alert on Bitcoin at 50000 is deleted at once, and the banner reads "Alert: Bitcoin is above 40000!" |
| Scenarios.BelowAlertWaitsAndIsRemoved | my-app/src/Dashboard.jsx:204 | a `below` 40000 alert on Bitcoin at 50000 stays pending; removing it by hand empties the list, keeps the creation banner and leaves the snapshot |
| Scenarios.FailureKeepsSnapshot | my-app/src/Dashboard.jsx:34-36 | a failed fetch after a good one shows the error view with its message, ends loading, and still holds the earlier snapshot |

## Left out

- The HTTP request, its status check and the JSON parsing are not modelled.
  A fetch is an abstract `Success(data)` or `Failure(message)` outcome.
- The initial fetch, the 30-second `setInterval` and its cleanup are not
  modelled. They are timer plumbing: they only decide when outcomes arrive.
  Outcomes are applied in arrival order, so a stale response that arrives late
  wins, as in the dashboard.
- React's batching and re-render scheduling are not modelled. The check is
  applied after each event's update. A state change that interleaves between
  the effect's queued updaters is not modelled.
- All rendering is left out: CSS, the asset cards, the "Loading..." label of
  unmatched alerts, and the `toLocaleString`/`toFixed`/`toUpperCase`
  formatting.
- Floating-point prices and the string-to-number coercion are left out.
  Prices are reals, and each target carries the number its text denotes.
  Non-numeric or missing values (NaN, a null `current_price`) are not
  modelled.
- `Date.now()` is not modelled; the alert id is a parameter of `Submitted`.
- `console.log` is not modelled.
- The form's per-field `onChange` handlers are collapsed into one
  `FormEdited` event that replaces the whole form.
- The HTML `required` validation is not modelled, so `Submit` accepts any
  form.
- `Event` allows form edits, submits and removes in every view. The dashboard
  renders the form and the Remove buttons only in the ready view, so once the
  sticky error view shows it can no longer submit or remove. The model
  over-approximates here: its lemmas over all runs also cover runs the
  dashboard cannot produce.
