/** The whole state of the dashboard view and its transitions: fetch
    outcomes, the alert form's submit, the remove buttons, the alert check
    that follows every change, and the choice of what the view shows. */
module Dashboard {
  import opened Wrappers
  import opened Seqs
  import opened Market
  import opened Alerts

  /** The alert form's fields. */
  datatype AlertForm = AlertForm(cryptoId: string, kind: string, price: PriceInput, email: string)

  /** The form as it starts and as a submit leaves it; an empty number input
      denotes 0. */
  const EmptyForm := AlertForm("", Above, PriceInput("", 0.0), "")

  const CreatedMessage := "Alert created successfully!"

  /** What a fetch of the price list comes back with: the parsed list, or
      the message of the error that was caught. */
  datatype FetchOutcome = Success(data: seq<Asset>) | Failure(message: string)

  datatype Event =
    | Fetched(outcome: FetchOutcome)
    | FormEdited(form: AlertForm)
    | Submitted(id: int)
    | Removed(id: int)

  /** What the view renders: the loading message, the error message, or the
      dashboard proper. */
  datatype View = Loading | Failed(message: string) | Ready

  /** The view's state hooks. `error` is None while the hook holds null. */
  datatype State = State(
    cryptoData: seq<Asset>,
    loading: bool,
    error: Option<string>,
    alerts: seq<Alert>,
    notice: Notice,
    form: AlertForm)

  const Initial := State([], true, None, [], Notice(false, ""), EmptyForm)

  /** No pending alert fires against the held snapshot: the alert check has
      nothing left to do. */
  predicate Settled(s: State) {
    forall a <- s.alerts :: !Fires(s.cryptoData, a)
  }

  /** The view shown for a state. A JavaScript string is truthy only when it
      is non-empty, so an empty error message does not select the error
      view. */
  function ViewOf(s: State): (v: View)
    ensures v == Loading <==> s.loading
    ensures v.Failed? <==> !s.loading && s.error.Some? && s.error.value != ""
    ensures v.Failed? ==> s.error == Some(v.message)
  {
    if s.loading then Loading
    else if s.error.Some? && s.error.value != "" then Failed(s.error.value)
    else Ready
  }

  /** A fetch outcome: success replaces the snapshot, failure records the
      error; both end loading. Neither clears an earlier error. */
  function Fetch(s: State, outcome: FetchOutcome): (r: State)
    ensures !r.loading
    ensures r.alerts == s.alerts && r.notice == s.notice && r.form == s.form
    ensures r.cryptoData == s.cryptoData || r.error == s.error
    ensures outcome.Success? ==> r.cryptoData == outcome.data && r.error == s.error
    ensures outcome.Failure? ==> r.error == Some(outcome.message) && r.cryptoData == s.cryptoData
  {
    match outcome
    case Success(data) => s.(cryptoData := data, loading := false)
    case Failure(message) => s.(error := Some(message), loading := false)
  }

  /** The alert a submit creates from the form's fields. */
  function NewAlert(form: AlertForm, id: int): Alert {
    Alert(id, form.cryptoId, form.kind, form.price, form.email)
  }

  /** Submitting the form, with `id` the timestamp Dashboard.jsx reads from
      the clock: the form's alert joins the end of the list, the form is
      cleared and the creation banner shows. */
  function Submit(s: State, id: int): (r: State)
    ensures |r.alerts| == |s.alerts| + 1
    ensures r.alerts[..|s.alerts|] == s.alerts
    ensures r.alerts[|s.alerts|] == NewAlert(s.form, id)
    ensures r.form == EmptyForm
    ensures r.notice == Notice(true, CreatedMessage)
    ensures r.cryptoData == s.cryptoData && r.loading == s.loading && r.error == s.error
  {
    s.(alerts := s.alerts + [NewAlert(s.form, id)], form := EmptyForm, notice := Notice(true, CreatedMessage))
  }

  /** Keeps the alerts whose identifier is not `id`. */
  function WithoutId(id: int): Alert -> bool {
    (a: Alert) => a.id != id
  }

  /** A remove button: every alert with that identifier goes, every other
      alert stays with all its copies, and nothing else changes. */
  function Remove(s: State, id: int): (r: State)
    ensures forall a :: multiset(r.alerts)[a] == if a.id == id then 0 else multiset(s.alerts)[a]
    ensures r == s.(alerts := r.alerts)
  {
    FilterCount(WithoutId(id), s.alerts);
    s.(alerts := Filter(WithoutId(id), s.alerts))
  }

  /** Alerts that survive a remove keep their relative order. */
  lemma RemoveKeepsOrder(s: State, front: seq<Alert>, back: seq<Alert>, id: int)
    requires s.alerts == front + back
    ensures Remove(s, id).alerts == Filter(WithoutId(id), front) + Filter(WithoutId(id), back)
  {
    FilterConcat(WithoutId(id), front, back);
  }

  /** The event's own state update, before the alert check reacts to it. */
  function Apply(s: State, e: Event): State {
    match e
    case Fetched(outcome) => Fetch(s, outcome)
    case FormEdited(form) => s.(form := form)
    case Submitted(id) => Submit(s, id)
    case Removed(id) => Remove(s, id)
  }

  /** The alert check run on the current snapshot and alert list; the
      result is settled. */
  function Settle(s: State): (r: State)
    ensures Settled(r)
    ensures r.cryptoData == s.cryptoData && r.loading == s.loading && r.error == s.error && r.form == s.form
  {
    var pass := Evaluate(s.cryptoData, s.alerts, s.notice);
    s.(alerts := pass.pending, notice := pass.notice)
  }

  /** The check changes a state exactly when that state is not settled, so
      its re-run after its own change does nothing. */
  lemma SettleIdleIff(s: State)
    ensures Settle(s) == s <==> Settled(s)
  {
    EvaluateInertIff(s.cryptoData, s.alerts, s.notice);
  }

  /** One event followed by the alert check. The check re-runs after its
      own change to the alert list, but that second run does nothing. */
  function Step(s: State, e: Event): (r: State)
    ensures Settled(r)
  {
    Settle(Apply(s, e))
  }

  /** What one step does to the fetch state: only a success touches the
      snapshot, only a failure touches the error, any outcome ends loading. */
  lemma StepFetchState(s: State, e: Event)
    ensures Step(s, e).cryptoData == (if IsSuccess(e) then e.outcome.data else s.cryptoData)
    ensures Step(s, e).error == (if IsFailure(e) then Some(e.outcome.message) else s.error)
    ensures Step(s, e).loading == (s.loading && !e.Fetched?)
  {
  }

  /** The events the alert check does not depend on (a failed fetch leaves
      the snapshot and the list alone, a form edit touches neither) need no
      check: from a settled state, running it anyway changes nothing. */
  lemma StepWithoutCheck(s: State, e: Event)
    requires Settled(s)
    requires e.FormEdited? || (e.Fetched? && e.outcome.Failure?)
    ensures Step(s, e) == Apply(s, e)
  {
    SettleIdleIff(Apply(s, e));
  }

  /** A run of events from a state. */
  function Run(s: State, events: seq<Event>): State
    decreases |events|
  {
    if events == [] then s else Run(Step(s, events[0]), events[1..])
  }

  lemma {:induction false} RunConcat(s: State, front: seq<Event>, back: seq<Event>)
    ensures Run(s, front + back) == Run(Run(s, front), back)
    decreases |front|
  {
    if front == [] {
      assert front + back == back;
    } else {
      assert (front + back)[1..] == front[1..] + back;
      RunConcat(Step(s, front[0]), front[1..], back);
    }
  }

  predicate IsSuccess(e: Event) {
    e.Fetched? && e.outcome.Success?
  }

  predicate IsFailure(e: Event) {
    e.Fetched? && e.outcome.Failure?
  }

  /** A run without successful fetches leaves the snapshot alone. */
  lemma {:induction false} RunKeepsSnapshot(s: State, events: seq<Event>)
    requires forall e <- events :: !IsSuccess(e)
    ensures Run(s, events).cryptoData == s.cryptoData
    decreases |events|
  {
    if events != [] {
      assert events[0] in events;
      StepFetchState(s, events[0]);
      RunKeepsSnapshot(Step(s, events[0]), events[1..]);
    }
  }

  /** Replacement semantics: after a run, the snapshot is exactly the list
      delivered by the last successful fetch, whatever failures followed. */
  lemma RunTakesLastSuccess(s: State, events: seq<Event>, i: int)
    requires 0 <= i < |events| && IsSuccess(events[i])
    requires forall j :: i < j < |events| ==> !IsSuccess(events[j])
    ensures Run(s, events).cryptoData == events[i].outcome.data
  {
    var before, after := events[..i + 1], events[i + 1..];
    assert events == before + after;
    RunConcat(s, before, after);
    assert before == events[..i] + [events[i]];
    RunConcat(s, events[..i], [events[i]]);
    StepFetchState(Run(s, events[..i]), events[i]);
    RunKeepsSnapshot(Run(s, before), after);
  }

  /** A run without failed fetches leaves the error alone. */
  lemma {:induction false} RunKeepsError(s: State, events: seq<Event>)
    requires forall e <- events :: !IsFailure(e)
    ensures Run(s, events).error == s.error
    decreases |events|
  {
    if events != [] {
      assert events[0] in events;
      StepFetchState(s, events[0]);
      RunKeepsError(Step(s, events[0]), events[1..]);
    }
  }

  /** After a run, the error is the message of the last failed fetch: later
      successes do not clear it. */
  lemma RunTakesLastFailure(s: State, events: seq<Event>, i: int)
    requires 0 <= i < |events| && IsFailure(events[i])
    requires forall j :: i < j < |events| ==> !IsFailure(events[j])
    ensures Run(s, events).error == Some(events[i].outcome.message)
  {
    var before, after := events[..i + 1], events[i + 1..];
    assert events == before + after;
    RunConcat(s, before, after);
    assert before == events[..i] + [events[i]];
    RunConcat(s, events[..i], [events[i]]);
    StepFetchState(Run(s, events[..i]), events[i]);
    RunKeepsError(Run(s, before), after);
  }

  /** Once set, the error is never reset to null. */
  lemma {:induction false} ErrorNeverCleared(s: State, events: seq<Event>)
    requires s.error.Some?
    ensures Run(s, events).error.Some?
    decreases |events|
  {
    if events != [] {
      assert events[0] in events;
      StepFetchState(s, events[0]);
      ErrorNeverCleared(Step(s, events[0]), events[1..]);
    }
  }

  /** Loading ends with the first fetch outcome, success or failure, and
      never comes back. */
  lemma {:induction false} LoadingEndsForGood(s: State, events: seq<Event>)
    requires !s.loading || exists e <- events :: e.Fetched?
    ensures !Run(s, events).loading
    decreases |events|
  {
    if events != [] {
      var next := Step(s, events[0]);
      StepFetchState(s, events[0]);
      if !next.loading {
        LoadingEndsForGood(next, events[1..]);
      } else {
        assert events == [events[0]] + events[1..];
        LoadingEndsForGood(next, events[1..]);
      }
    }
  }

  /** The error view is sticky: once shown it stays, whatever succeeds
      later, as long as no failure carries an empty message. */
  lemma {:induction false} ErrorViewSticky(s: State, events: seq<Event>)
    requires ViewOf(s).Failed?
    requires forall e <- events :: IsFailure(e) ==> e.outcome.message != ""
    ensures ViewOf(Run(s, events)).Failed?
    decreases |events|
  {
    if events != [] {
      var next := Step(s, events[0]);
      assert events[0] in events;
      StepFetchState(s, events[0]);
      assert !next.loading && next.error.Some? && next.error.value != "";
      ErrorViewSticky(next, events[1..]);
    }
  }

  /** Every state reachable from the initial one is settled. */
  lemma ReachableIsSettled(events: seq<Event>)
    ensures Settled(Run(Initial, events))
  {
    if events != [] {
      RunSettled(Step(Initial, events[0]), events[1..]);
    }
  }

  lemma {:induction false} RunSettled(s: State, events: seq<Event>)
    requires Settled(s)
    ensures Settled(Run(s, events))
    decreases |events|
  {
    if events != [] {
      RunSettled(Step(s, events[0]), events[1..]);
    }
  }

  /** A submit followed by the check, when the new alert does not fire at
      once: it is pending at the end of the list, the form is cleared and
      the creation banner shows. */
  lemma SubmitThenCheckPending(s: State, id: int)
    requires Settled(s)
    requires !Fires(s.cryptoData, NewAlert(s.form, id))
    ensures Step(s, Submitted(id)).alerts == s.alerts + [NewAlert(s.form, id)]
    ensures Step(s, Submitted(id)).notice == Notice(true, CreatedMessage)
    ensures Step(s, Submitted(id)).form == EmptyForm
  {
    var appended := Submit(s, id);
    SubmitPending(s, id);
    FilterKeepsAll(Unfired(s.cryptoData), appended.alerts);
  }

  /** A submit followed by the check, when the new alert fires at once: the
      list is as before and the banner is the alert's own, replacing the
      creation banner. */
  lemma SubmitThenCheckFires(s: State, id: int)
    requires Settled(s)
    requires Fires(s.cryptoData, NewAlert(s.form, id))
    ensures Step(s, Submitted(id)).alerts == s.alerts
    ensures Step(s, Submitted(id)).notice == FiredNotice(s.cryptoData, NewAlert(s.form, id))
    ensures Step(s, Submitted(id)).form == EmptyForm
  {
    SubmitPending(s, id);
    LastFiredAtEnd(s.cryptoData, s.alerts, NewAlert(s.form, id));
  }

  /** The check after a submit keeps the settled list and decides only
      about the new alert. */
  lemma SubmitPending(s: State, id: int)
    requires Settled(s)
    ensures var created := NewAlert(s.form, id);
      Filter(Unfired(s.cryptoData), Submit(s, id).alerts)
        == s.alerts + if Fires(s.cryptoData, created) then [] else [created]
  {
    var created := NewAlert(s.form, id);
    assert Submit(s, id).alerts == s.alerts + [created];
    FilterConcat(Unfired(s.cryptoData), s.alerts, [created]);
    FilterKeepsAll(Unfired(s.cryptoData), s.alerts);
    FilterSingleton(Unfired(s.cryptoData), created);
  }

  /** An alert that fires at the end of the list is the last one to fire. */
  lemma LastFiredAtEnd(snapshot: seq<Asset>, alerts: seq<Alert>, alert: Alert)
    requires Fires(snapshot, alert)
    ensures LastFired(snapshot, alerts + [alert]) == Some(alert)
  {
    var all := alerts + [alert];
    var last := LastFired(snapshot, all);
    assert all[|alerts|] == alert;
    var i :| 0 <= i < |all| && all[i] == last.value && Fires(snapshot, all[i])
      && forall j :: i < j < |all| ==> !Fires(snapshot, all[j]);
    assert i == |alerts|;
  }

  /** A remove followed by the check: from a settled state the check has
      nothing to do, so no notification is raised and the snapshot is
      untouched. */
  lemma RemoveThenCheck(s: State, id: int)
    requires Settled(s)
    ensures Step(s, Removed(id)) == Remove(s, id)
  {
    var r := Remove(s, id);
    assert forall a <- r.alerts :: a in s.alerts;
    SettleIdleIff(r);
  }

  /** Removing by a fresh identifier undoes a submit. */
  lemma RemoveUndoesSubmit(s: State, id: int)
    requires forall a <- s.alerts :: a.id != id
    ensures Remove(Submit(s, id), id).alerts == s.alerts
  {
    var appended := Submit(s, id);
    assert appended.alerts == s.alerts + [NewAlert(s.form, id)];
    FilterConcat(WithoutId(id), s.alerts, [NewAlert(s.form, id)]);
    FilterKeepsAll(WithoutId(id), s.alerts);
    assert [NewAlert(s.form, id)][1..] == [];
  }
}
