/** Price alerts and the alert check that runs whenever the snapshot or the
    list of pending alerts changes (Dashboard.jsx, the "Check alerts"
    effect). */
module Alerts {
  import opened Wrappers
  import opened Seqs
  import opened Market

  /** The two directions the alert form offers. */
  const Above := "above"
  const Below := "below"

  /** A target price as the form holds it: the text typed into the number
      input, and the number that text denotes when JavaScript compares it
      with a price. */
  datatype PriceInput = PriceInput(text: string, value: real)

  /** A pending alert. `kind` is the alert's `type` field; it is kept as a
      string so that values other than the two directions can be stated. */
  datatype Alert = Alert(id: int, cryptoId: string, kind: string, price: PriceInput, email: string)

  /** The single notification slot: the banner's text and whether it shows. */
  datatype Notice = Notice(show: bool, message: string)

  /** What one pass of the alert check leaves behind. */
  datatype Pass = Pass(pending: seq<Alert>, notice: Notice)

  /** The price condition of an alert: strictly above or strictly below
      its target; any other kind never holds. */
  predicate Crosses(current: real, alert: Alert) {
    || (alert.kind == Above && current > alert.price.value)
    || (alert.kind == Below && current < alert.price.value)
  }

  /** An alert fires when the snapshot lists its asset and the first such
      asset's current price meets the alert's condition. */
  predicate Fires(snapshot: seq<Asset>, alert: Alert) {
    var crypto := Find(snapshot, alert.cryptoId);
    crypto.Some? && Crosses(crypto.value.currentPrice, alert)
  }

  /** The banner text raised for an alert on the asset called `name`. */
  function Message(name: string, alert: Alert): string {
    "Alert: " + name + " is " + alert.kind + " " + alert.price.text + "!"
  }

  /** The notification a firing alert raises. */
  function FiredNotice(snapshot: seq<Asset>, alert: Alert): Notice
    requires Fires(snapshot, alert)
  {
    Notice(true, Message(Find(snapshot, alert.cryptoId).value.name, alert))
  }

  /** Keeps the alerts that are not `alert` itself. */
  function Other(alert: Alert): Alert -> bool {
    a => a != alert
  }

  /** Keeps the alerts that do not fire against `snapshot`. */
  function Unfired(snapshot: seq<Asset>): Alert -> bool {
    a => !Fires(snapshot, a)
  }

  /** Keeps the alerts that are not both listed in `xs` and firing. */
  function NotFiredIn(snapshot: seq<Asset>, xs: seq<Alert>): Alert -> bool {
    a => !(a in xs && Fires(snapshot, a))
  }

  /** The alert check as the effect performs it: every alert of the list
      captured at the start is looked up and compared in list order; each
      match overwrites the notification and queues a filter that drops
      that alert from the pending list. */
  function CheckEach(snapshot: seq<Asset>, captured: seq<Alert>, acc: Pass): (r: Pass)
    ensures |r.pending| <= |acc.pending|
    ensures forall i :: 0 <= i < |r.pending| ==> r.pending[i] in acc.pending
    ensures r.notice == acc.notice || r.notice.show
  {
    if captured == [] then acc
    else
      var alert := captured[0];
      var next :=
        match Find(snapshot, alert.cryptoId)
        case None => acc
        case Some(crypto) =>
          if Crosses(crypto.currentPrice, alert)
          then
            FilterCount(Other(alert), acc.pending);
            Pass(Filter(Other(alert), acc.pending), Notice(true, Message(crypto.name, alert)))
          else acc;
      CheckEach(snapshot, captured[1..], next)
  }

  /** The last alert of the list, in list order, that fires. */
  function LastFired(snapshot: seq<Asset>, alerts: seq<Alert>): (r: Option<Alert>)
    ensures r.None? <==> forall a <- alerts :: !Fires(snapshot, a)
    ensures r.Some? ==>
      exists i :: 0 <= i < |alerts| && alerts[i] == r.value && Fires(snapshot, alerts[i])
        && forall j :: i < j < |alerts| ==> !Fires(snapshot, alerts[j])
  {
    if alerts == [] then None
    else
      var later := LastFired(snapshot, alerts[1..]);
      assert alerts == [alerts[0]] + alerts[1..];
      if later.Some? then
        var i :| 0 <= i < |alerts[1..]| && alerts[1..][i] == later.value && Fires(snapshot, alerts[1..][i])
          && forall j :: i < j < |alerts[1..]| ==> !Fires(snapshot, alerts[1..][j]);
        assert alerts[i + 1] == later.value;
        later
      else if Fires(snapshot, alerts[0]) then
        assert forall j :: 0 < j < |alerts| ==> alerts[j] == alerts[1..][j - 1];
        Some(alerts[0])
      else None
  }

  /** The pass that runs over `alerts`, starting from notification `notice`:
      exactly the firing alerts leave, the rest keep their order, and the
      notification is the one raised by the last firing alert, or unchanged
      when none fires. */
  function Evaluate(snapshot: seq<Asset>, alerts: seq<Alert>, notice: Notice): (r: Pass)
    ensures r.pending == Filter(Unfired(snapshot), alerts)
    ensures LastFired(snapshot, alerts).None? ==> r.notice == notice
    ensures LastFired(snapshot, alerts).Some? ==> r.notice == FiredNotice(snapshot, LastFired(snapshot, alerts).value)
  {
    CheckEachPending(snapshot, alerts, Pass(alerts, notice));
    FilterCongruent(NotFiredIn(snapshot, alerts), Unfired(snapshot), alerts);
    CheckEachNotice(snapshot, alerts, Pass(alerts, notice));
    CheckEach(snapshot, alerts, Pass(alerts, notice))
  }

  /** A pass removes every copy of each firing alert and keeps every copy
      of each other alert. */
  lemma EvaluateRemovesExactlyFired(snapshot: seq<Asset>, alerts: seq<Alert>, notice: Notice)
    ensures var pending := Evaluate(snapshot, alerts, notice).pending;
      forall a :: multiset(pending)[a] == if Fires(snapshot, a) then 0 else multiset(alerts)[a]
  {
    FilterCount(Unfired(snapshot), alerts);
  }

  /** The queued filters of one pass remove, from whatever list they are
      applied to, exactly the alerts equal to a firing alert of the captured
      list. */
  lemma {:induction false} CheckEachPending(snapshot: seq<Asset>, captured: seq<Alert>, acc: Pass)
    ensures CheckEach(snapshot, captured, acc).pending == Filter(NotFiredIn(snapshot, captured), acc.pending)
  {
    var keep := NotFiredIn(snapshot, captured);
    if captured == [] {
      FilterKeepsAll(keep, acc.pending);
    } else {
      var alert, rest := captured[0], captured[1..];
      assert captured == [alert] + rest;
      if Fires(snapshot, alert) {
        var dropped := Filter(Other(alert), acc.pending);
        CheckEachPending(snapshot, rest, Pass(dropped, FiredNotice(snapshot, alert)));
        FilterFilter(NotFiredIn(snapshot, rest), Other(alert), keep, acc.pending);
      } else {
        CheckEachPending(snapshot, rest, acc);
        FilterCongruent(NotFiredIn(snapshot, rest), keep, acc.pending);
      }
    }
  }

  /** After one pass the notification is the one raised by the last firing
      alert of the captured list; with no firing alert it is untouched. */
  lemma {:induction false} CheckEachNotice(snapshot: seq<Asset>, captured: seq<Alert>, acc: Pass)
    ensures CheckEach(snapshot, captured, acc).notice ==
      match LastFired(snapshot, captured)
      case None => acc.notice
      case Some(a) => FiredNotice(snapshot, a)
  {
    if captured != [] {
      var alert, rest := captured[0], captured[1..];
      if Fires(snapshot, alert) {
        var dropped := Filter(Other(alert), acc.pending);
        CheckEachNotice(snapshot, rest, Pass(dropped, FiredNotice(snapshot, alert)));
      } else {
        CheckEachNotice(snapshot, rest, acc);
      }
    }
  }

  /** The trigger rule, stated against the first asset carrying the alert's
      identifier: `above` fires exactly on a strictly higher price, `below`
      exactly on a strictly lower one, an equal price never fires and
      neither does any other kind. */
  lemma TriggerRule(snapshot: seq<Asset>, alert: Alert, i: int)
    requires 0 <= i < |snapshot| && FirstWith(snapshot, alert.cryptoId, i)
    ensures alert.kind == Above ==> (Fires(snapshot, alert) <==> snapshot[i].currentPrice > alert.price.value)
    ensures alert.kind == Below ==> (Fires(snapshot, alert) <==> snapshot[i].currentPrice < alert.price.value)
    ensures alert.kind != Above && alert.kind != Below ==> !Fires(snapshot, alert)
    ensures snapshot[i].currentPrice == alert.price.value ==> !Fires(snapshot, alert)
  {
    var found := Find(snapshot, alert.cryptoId);
    var k :| 0 <= k < |snapshot| && snapshot[k] == found.value && FirstWith(snapshot, alert.cryptoId, k);
    assert k == i;
  }

  /** An alert whose asset the snapshot does not list never fires. */
  lemma UnlistedNeverFires(snapshot: seq<Asset>, alert: Alert)
    requires !Lists(snapshot, alert.cryptoId)
    ensures !Fires(snapshot, alert)
  {
  }

  /** A pass changes nothing at all exactly when no pending alert fires. */
  lemma EvaluateInertIff(snapshot: seq<Asset>, alerts: seq<Alert>, notice: Notice)
    ensures Evaluate(snapshot, alerts, notice) == Pass(alerts, notice)
        <==> forall a <- alerts :: !Fires(snapshot, a)
  {
    FilterKeepsAll(Unfired(snapshot), alerts);
  }

  /** A second pass over the same snapshot finds nothing more to do: the
      state a pass leaves behind is a fixpoint of the check. */
  lemma EvaluateIdempotent(snapshot: seq<Asset>, alerts: seq<Alert>, notice: Notice)
    ensures var once := Evaluate(snapshot, alerts, notice);
      Evaluate(snapshot, once.pending, once.notice) == once
  {
    var once := Evaluate(snapshot, alerts, notice);
    EvaluateInertIff(snapshot, once.pending, once.notice);
  }

  /** Survivors keep their relative order: a pass over two lists joined is
      the two passes' survivors joined. */
  lemma EvaluateKeepsOrder(snapshot: seq<Asset>, front: seq<Alert>, back: seq<Alert>, notice: Notice)
    ensures Evaluate(snapshot, front + back, notice).pending
         == Evaluate(snapshot, front, notice).pending + Evaluate(snapshot, back, notice).pending
  {
    FilterConcat(Unfired(snapshot), front, back);
  }

  /** `k` passes of the check in a row over the same snapshot, as the effect
      re-runs after each change of the alert list. */
  function Passes(k: nat, snapshot: seq<Asset>, alerts: seq<Alert>, notice: Notice): (r: Pass)
    ensures k > 0 ==> r == Evaluate(snapshot, alerts, notice)
  {
    if k == 0 then Pass(alerts, notice)
    else
      var once := Evaluate(snapshot, alerts, notice);
      EvaluateIdempotent(snapshot, alerts, notice);
      Passes(k - 1, snapshot, once.pending, once.notice)
  }

  /** An alert whose asset is missing from the snapshot stays pending, with
      every copy of it, however many passes run. */
  lemma {:induction false} UnlistedAlertStays(k: nat, snapshot: seq<Asset>, alerts: seq<Alert>, notice: Notice, alert: Alert)
    requires !Lists(snapshot, alert.cryptoId)
    ensures multiset(Passes(k, snapshot, alerts, notice).pending)[alert] == multiset(alerts)[alert]
  {
    if k > 0 {
      UnlistedNeverFires(snapshot, alert);
      EvaluateRemovesExactlyFired(snapshot, alerts, notice);
    }
  }

  /** When no pending alert's asset is listed, no number of passes changes
      the alerts or the notification. */
  lemma {:induction false} UnlistedAlertsAreInert(k: nat, snapshot: seq<Asset>, alerts: seq<Alert>, notice: Notice)
    requires forall a <- alerts :: !Lists(snapshot, a.cryptoId)
    ensures Passes(k, snapshot, alerts, notice) == Pass(alerts, notice)
  {
    if k > 0 {
      EvaluateInertIff(snapshot, alerts, notice);
    }
  }
}
