/**
 * The single-product stock monitor (class App): the countdown counter, the
 * poll pipeline fetch -> convertStatus -> updateStatus, and the alerts.
 * Timers, the HTTP response, the permission answer and the sound checkbox
 * are inputs of the methods; the page's two badges are fields.
 */
module Checker {
  import opened Wrappers
  import opened Status
  import opened Display
  import opened Detector
  import opened Alerts
  import opened Inventory

  const ApiUrl := "https://api-prod.nvidia.com/direct-sales-shop/DR/products/en_us/USD/5438481700"
  const StoreUrl := "https://www.nvidia.com/en-us/geforce/graphics-cards/30-series/rtx-3080/"
  const PollInterval := 60

  /** The alerts one `updateStatus(status)` emits through notify. */
  function StatusAlerts(current: Option<string>, status: string, canNotify: bool, soundChecked: bool, storeUrl: string)
    : (alerts: seq<Alert>)
    ensures alerts != [] ==> Held(current) && current.value != status
    ensures Held(current) && current.value != status ==>
      alerts == NotifyAlerts(canNotify, soundChecked, current.value, status, storeUrl)
  {
    match Transition(current, status)
    case None => []
    case Some((oldStatus, newStatus)) => NotifyAlerts(canNotify, soundChecked, oldStatus, newStatus, storeUrl)
  }

  /**
   * Over any run of polls, failed or empty ones included, updateStatus
   * notifies exactly once per change between consecutive observed statuses,
   * and never for the first one.
   */
  lemma PollsNotifyOnChanges(resps: seq<Response>)
    ensures Feed(None, Observations(resps)) == Changes(Observations(resps))
  {
    ObservationsAreTruthy(resps);
    FeedIsChanges(Observations(resps));
  }

  class App {
    const url: string := ApiUrl
    const storeUrl: string := StoreUrl
    const interval: int := PollInterval
    var currentTimer: int
    var currentStatus: Option<string>
    var canNotify: bool
    /** The status badge; `None` until first written. */
    var statusText: Option<string>
    /** The countdown badge; `None` until first written. */
    var remainingText: Option<string>
    /** Whether the tick and poll intervals have been scheduled. */
    var timersStarted: bool

    /** Whether the permission prompt was opened (the browser supports notifications). */
    ghost var requested: bool
    /** The permission answer received, if any; `None` while the prompt is still open. */
    ghost var consent: Option<string>
    /** Every status handed to updateStatus, oldest first. */
    ghost var observed: seq<string>
    /** Every notify call made by updateStatus, as (old, new). */
    ghost var transitions: seq<(string, string)>
    /** Every alert emitted, oldest first. */
    ghost var alerts: seq<Alert>

    ghost predicate Valid()
      reads this`currentTimer, this`canNotify, this`requested, this`consent
      reads this`currentStatus, this`statusText, this`observed, this`transitions
    {
      && currentTimer >= 0
      && (canNotify <==> consent.Some? && Grants(consent.value))
      && (consent.Some? ==> requested)
      && currentStatus == HeldAfter(None, observed)
      && statusText == currentStatus
      && AllTruthy(observed)
      && transitions == Feed(None, observed)
    }

    /**
     * The class-level form of the detector's promise: the notify calls
     * updateStatus has made are exactly the changes between consecutive
     * observed statuses, none for the first.
     */
    lemma TransitionsAreChanges()
      requires Valid()
      ensures transitions == Changes(observed)
    {
      FeedIsChanges(observed);
    }

    /**
     * The field initialisers, then the startup sequence of the constructor.
     * `answer` is the permission answer if the user gives it during startup,
     * `None` if the prompt is still open afterwards (see ReceiveConsent).
     */
    constructor (supported: bool, answer: Option<string>, first: Response, soundChecked: bool)
      ensures Valid()
      ensures requested == supported
      ensures consent == if supported then answer else None
      ensures canNotify <==> supported && answer.Some? && Grants(answer.value)
      ensures currentTimer == 0
      ensures observed == Observation(first) && transitions == [] && alerts == []
      ensures timersStarted == FirstStatus(first).Resolved?
      ensures remainingText == if timersStarted then Some(RemainingText(interval)) else None
    {
      currentTimer := 0;
      currentStatus := None;
      canNotify := false;
      statusText, remainingText := None, None;
      timersStarted := false;
      requested, consent, observed, transitions, alerts := false, None, [], [], [];
      new;
      InitNotifications(supported);
      FirstPoll(first, soundChecked);
      // the first poll only sets the baseline, so when the answer arrives relative to it does not matter
      if supported && answer.Some? {
        ReceiveConsent(answer.value);
      }
    }

    /**
     * The constructor's `fetch().then(...)`: the first poll, and once it
     * resolves the countdown badge and both intervals. With no status held
     * yet it alerts nothing.
     */
    method FirstPoll(first: Response, soundChecked: bool)
      requires Valid() && observed == [] && alerts == []
      requires !timersStarted && remainingText == None
      modifies this`currentTimer, this`currentStatus, this`statusText, this`observed, this`transitions
      modifies this`alerts, this`remainingText, this`timersStarted
      ensures Valid()
      ensures currentTimer == 0
      ensures observed == Observation(first) && transitions == [] && alerts == []
      ensures timersStarted == FirstStatus(first).Resolved?
      ensures remainingText == if timersStarted then Some(RemainingText(interval)) else None
    {
      assert !Held(currentStatus);
      var completed := Fetch(first, soundChecked);
      assert |observed| <= 1 && transitions == [] && alerts == [];
      if completed {
        UpdateRemaining();
        StartTimers();
      }
    }

    /** Opens the permission prompt when the browser supports notifications. */
    method InitNotifications(supported: bool)
      requires Valid() && !requested
      modifies this`requested
      ensures Valid()
      ensures requested == supported
    {
      if supported {
        requested := true;
      }
    }

    /**
     * The user answered the permission prompt: only 'granted' enables
     * notifications. Until then `canNotify` stays undefined, so notify drops
     * the notification half of every alert.
     */
    method ReceiveConsent(answer: string)
      requires Valid() && requested && consent.None?
      modifies this`canNotify, this`consent
      ensures Valid()
      ensures consent == Some(answer)
      ensures canNotify <==> Grants(answer)
    {
      consent := Some(answer);
      if answer == "granted" {
        canNotify := true;
      } else {
        canNotify := false;
      }
    }

    /** The manual test button: notify with a fixed placeholder pair. */
    method TestNotifications(soundChecked: bool)
      requires Valid()
      modifies this`alerts
      ensures Valid()
      ensures alerts == old(alerts) + NotifyAlerts(canNotify, soundChecked, "TEST", "TEST", storeUrl)
    {
      Notify("TEST", "TEST", soundChecked);
    }

    method StartTimers()
      modifies this`timersStarted
      ensures timersStarted
    {
      timersStarted := true;
    }

    /** One second passed: count it and refresh the countdown badge. */
    method Tick()
      requires Valid() && timersStarted
      modifies this`currentTimer, this`remainingText
      ensures Valid()
      ensures currentTimer == old(currentTimer) + 1
      ensures remainingText == Some(RemainingText(interval - currentTimer))
    {
      currentTimer := currentTimer + 1;
      UpdateRemaining();
    }

    method UpdateRemaining()
      requires Valid()
      modifies this`remainingText
      ensures Valid()
      ensures remainingText == Some(RemainingText(interval - currentTimer))
    {
      var remaining := interval - currentTimer;
      if remaining == 0 {
        remainingText := Some(Scanning);
      } else {
        remainingText := Some(IntText(remaining));
      }
    }

    /**
     * Shows a freshly observed status, notifies on a change, then holds it.
     * Its one caller, fetch, hands it only truthy statuses and re-establishes
     * `Valid()` around it.
     */
    method UpdateStatus(status: string, soundChecked: bool)
      requires status != ""
      modifies this`currentStatus, this`statusText, this`observed, this`transitions, this`alerts
      ensures statusText == Some(status)
      ensures observed == old(observed) + [status]
      ensures currentStatus == Some(status)
      ensures transitions == old(transitions) + CallsOf(Transition(old(currentStatus), status))
      ensures alerts == old(alerts) + StatusAlerts(old(currentStatus), status, canNotify, soundChecked, storeUrl)
    {
      ghost var before := currentStatus;
      statusText := Some(status);
      if !Held(currentStatus) {
        currentStatus := Some(status);
      }
      if currentStatus.value != status {
        Notify(currentStatus.value, status, soundChecked);
      }
      currentStatus := Some(status);
      // the logs: one more observed status, and the call just made, if any
      observed := observed + [status];
      transitions := transitions + CallsOf(Transition(before, status));
    }

    /** One poll: restart the countdown, then hand a truthy first-product status to updateStatus. */
    method Fetch(resp: Response, soundChecked: bool) returns (completed: bool)
      requires Valid()
      modifies this`currentTimer, this`currentStatus, this`statusText, this`observed, this`transitions, this`alerts
      ensures Valid()
      ensures currentTimer == 0
      ensures completed <==> FirstStatus(resp).Resolved?
      ensures observed == old(observed) + Observation(resp)
      ensures currentStatus == HeldAfter(old(currentStatus), Observation(resp))
      ensures Observation(resp) == [] ==> currentStatus == old(currentStatus) && alerts == old(alerts)
      ensures Observation(resp) != [] ==>
        alerts == old(alerts) + StatusAlerts(old(currentStatus), Observation(resp)[0], canNotify, soundChecked, storeUrl)
    {
      currentTimer := 0;
      var data := FirstStatus(resp);
      match data {
        case Rejected =>
          completed := false;
        case Resolved(status) =>
          if status != "" {
            FeedStep(observed, ConvertStatus(status));
            UpdateStatus(ConvertStatus(status), soundChecked);
          }
          completed := true;
      }
    }

    method Notify(oldStatus: string, newStatus: string, soundChecked: bool)
      modifies this`alerts
      ensures alerts == old(alerts) + NotifyAlerts(canNotify, soundChecked, oldStatus, newStatus, storeUrl)
    {
      if canNotify {
        var text := NotificationBody(oldStatus, newStatus);
        alerts := alerts + [Notified(Title, text, storeUrl)];
      }
      if soundChecked {
        Chime();
      }
    }

    method Chime()
      modifies this`alerts
      ensures alerts == old(alerts) + [Chimed]
    {
      alerts := alerts + [Chimed];
    }
  }

  /**
   * A client of App relying on the contracts alone: a baseline, a failed
   * poll, a change, a repeat and the test button.
   */
  method StockScenario(outOfStock: Response, inStock: Response, notFound: Response)
    requires FirstStatus(outOfStock) == Resolved(OutOfStockCode)
    requires FirstStatus(inStock) == Resolved(InStockCode)
    requires notFound.code == 404
  {
    assert Observation(outOfStock) == [OutOfStock];
    assert Observation(inStock) == [InStock];

    var app := new App(true, Some("granted"), outOfStock, false);
    assert app.currentStatus == Some(OutOfStock) && app.alerts == [];
    assert app.timersStarted && app.remainingText == Some(RemainingText(60));

    var completed := app.Fetch(notFound, true);
    assert !completed && app.currentStatus == Some(OutOfStock) && app.alerts == [];

    var body := NotificationBody(OutOfStock, InStock);
    assert OutOfStock != InStock;
    assert StatusAlerts(Some(OutOfStock), InStock, true, false, StoreUrl) == [Notified(Title, body, StoreUrl)];
    completed := app.Fetch(inStock, false);
    assert app.alerts == [Notified(Title, body, StoreUrl)];
    RepeatScenario(app, inStock);
  }

  /**
   * Continues with an app that already holds "In stock": the same answer
   * again alerts nothing, and the test button always notifies.
   */
  method RepeatScenario(app: App, inStock: Response)
    requires app.Valid() && app.canNotify
    requires app.currentStatus == Some(InStock)
    requires FirstStatus(inStock) == Resolved(InStockCode)
    modifies app
  {
    assert Observation(inStock) == [InStock];
    ghost var before := app.alerts;
    var completed := app.Fetch(inStock, true);
    assert StatusAlerts(Some(InStock), InStock, true, true, StoreUrl) == [];
    assert app.alerts == before;

    app.TestNotifications(false);
    assert app.alerts == before + [Notified(Title, NotificationBody("TEST", "TEST"), StoreUrl)];
  }

  /**
   * The permission prompt stays open past startup: a change before the user
   * answers only chimes; after 'granted' the next change is notified.
   */
  method PendingConsentScenario(outOfStock: Response, inStock: Response)
    requires FirstStatus(outOfStock) == Resolved(OutOfStockCode)
    requires FirstStatus(inStock) == Resolved(InStockCode)
  {
    assert Observation(outOfStock) == [OutOfStock];
    assert Observation(inStock) == [InStock];
    assert OutOfStock != InStock;

    var app := new App(true, None, outOfStock, true);
    assert !app.canNotify && app.requested && app.consent.None?;

    var completed := app.Fetch(inStock, true);
    assert app.alerts == [Chimed];

    app.ReceiveConsent("granted");
    completed := app.Fetch(outOfStock, false);
    assert app.alerts == [Chimed, Notified(Title, NotificationBody(InStock, OutOfStock), StoreUrl)];
  }

  /** The countdown after a poll reads 60, 59, ..., 1, SCANNING, -1. */
  method CountdownScenario(first: Response)
    requires FirstStatus(first).Resolved?
  {
    var app := new App(false, None, first, false);
    var k := 0;
    while k < 60
      invariant 0 <= k <= 60 && app.Valid() && app.timersStarted && app.currentTimer == k
      invariant k > 0 ==> app.remainingText == Some(RemainingText(60 - k))
    {
      app.Tick();
      k := k + 1;
    }
    assert app.remainingText == Some(Scanning);
    app.Tick();
    assert app.remainingText == Some(IntText(-1));
  }
}
