/** Worked examples of the dashboard's behaviour on concrete inputs. */
module Scenarios {
  import opened Wrappers
  import opened Market
  import opened Alerts
  import opened Dashboard

  const Bitcoin := Asset("bitcoin", "Bitcoin", "btc", 50000.0, None, None, None, "")

  function FormFor(kind: string): AlertForm {
    AlertForm("bitcoin", kind, PriceInput("40000", 40000.0), "user@example.com")
  }

  /** The dashboard after a first fetch listing Bitcoin at 50000 and a form
      filled in for an alert of the given kind at 40000. */
  function Filled(kind: string): (s: State)
    ensures s.cryptoData == [Bitcoin] && !s.loading && s.error == None
    ensures s.alerts == [] && s.form == FormFor(kind)
  {
    var loaded := Step(Initial, Fetched(Success([Bitcoin])));
    StepFetchState(Initial, Fetched(Success([Bitcoin])));
    Step(loaded, FormEdited(FormFor(kind)))
  }

  /** An `above` alert at 40000 on Bitcoin at 50000 fires on the check that
      follows its creation: it leaves the list and its banner replaces the
      creation banner. */
  lemma AboveAlertFiresAtOnce()
    ensures Step(Filled(Above), Submitted(1)).alerts == []
    ensures Step(Filled(Above), Submitted(1)).notice == Notice(true, "Alert: Bitcoin is above 40000!")
  {
    var s := Filled(Above);
    var created := NewAlert(s.form, 1);
    assert created.cryptoId == "bitcoin" && created.kind == Above && created.price == PriceInput("40000", 40000.0);
    assert Find([Bitcoin], "bitcoin") == Some(Bitcoin);
    assert Fires(s.cryptoData, created);
    assert Message("Bitcoin", created) == "Alert: Bitcoin is above 40000!";
    SubmitThenCheckFires(s, 1);
  }

  /** A `below` alert at 40000 on Bitcoin at 50000 stays pending; removing
      it by hand empties the list, raises no banner of its own and leaves
      the snapshot alone. */
  lemma BelowAlertWaitsAndIsRemoved()
    ensures Step(Filled(Below), Submitted(1)).alerts == [NewAlert(FormFor(Below), 1)]
    ensures Step(Step(Filled(Below), Submitted(1)), Removed(1)).alerts == []
    ensures Step(Step(Filled(Below), Submitted(1)), Removed(1)).notice == Notice(true, CreatedMessage)
    ensures Step(Step(Filled(Below), Submitted(1)), Removed(1)).cryptoData == [Bitcoin]
  {
    var s := Filled(Below);
    assert Find(s.cryptoData, "bitcoin") == Some(Bitcoin);
    SubmitThenCheckPending(s, 1);
    var pending := Step(s, Submitted(1));
    RemoveThenCheck(pending, 1);
    RemoveUndoesSubmit(s, 1);
  }

  /** A failed fetch after a good one: the error view shows the message,
      loading is over and the earlier snapshot is still held. */
  lemma FailureKeepsSnapshot()
    ensures var s := Step(Filled(Above), Fetched(Failure("Failed to fetch crypto data")));
      && ViewOf(s) == Failed("Failed to fetch crypto data")
      && s.cryptoData == [Bitcoin]
      && !s.loading
  {
    StepFetchState(Filled(Above), Fetched(Failure("Failed to fetch crypto data")));
  }
}
