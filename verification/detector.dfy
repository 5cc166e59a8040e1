/**
 * The transition detector (App.updateStatus) as pure functions over the held
 * status. A held status is JavaScript's `currentStatus`: `None` while it is
 * still undefined. Only a truthy held status (defined and not "") counts as a
 * baseline; a falsy one is overwritten by the new status before comparing.
 */
module Detector {
  import opened Wrappers

  /** The test `!this.currentStatus` fails exactly for a truthy held status. */
  predicate Held(current: Option<string>)
  {
    current.Some? && current.value != ""
  }

  /** The status held once `statuses` have been fed after `current`. */
  function HeldAfter(current: Option<string>, statuses: seq<string>): Option<string>
  {
    if statuses == [] then current else Some(statuses[|statuses| - 1])
  }

  /**
   * The call `notify(old, new)` that one `updateStatus(status)` makes, if any:
   * the baseline is seeded first, then compared with the new status.
   */
  function Transition(current: Option<string>, status: string): (call: Option<(string, string)>)
    ensures call.Some? <==> Held(current) && current.value != status
    ensures call.Some? ==> call.value == (current.value, status)
  {
    var baseline := if !Held(current) then status else current.value;
    if baseline != status then Some((baseline, status)) else None
  }

  function CallsOf(call: Option<(string, string)>): seq<(string, string)>
  {
    if call.Some? then [call.value] else []
  }

  /** Every notify call made while `statuses` are fed to updateStatus in order. */
  function Feed(current: Option<string>, statuses: seq<string>): (calls: seq<(string, string)>)
    ensures |calls| <= |statuses|
    // the first observation without a baseline never notifies
    ensures !Held(current) && statuses != [] ==> |calls| < |statuses|
    decreases |statuses|
  {
    if statuses == [] then []
    else CallsOf(Transition(current, statuses[0])) + Feed(Some(statuses[0]), statuses[1..])
  }

  /**
   * Reference definition: one (old, new) pair for each pair of consecutive
   * statuses that differ.
   */
  function Changes(statuses: seq<string>): seq<(string, string)>
  {
    if |statuses| < 2 then []
    else
      (if statuses[0] != statuses[1] then [(statuses[0], statuses[1])] else [])
      + Changes(statuses[1..])
  }

  predicate AllTruthy(statuses: seq<string>)
  {
    "" !in statuses
  }

  lemma {:induction false} FeedFromBaseline(held: string, statuses: seq<string>)
    requires held != "" && AllTruthy(statuses)
    ensures Feed(Some(held), statuses) == Changes([held] + statuses)
    decreases |statuses|
  {
    if statuses != [] {
      FeedFromBaseline(statuses[0], statuses[1..]);
      assert ([held] + statuses)[1..] == [statuses[0]] + statuses[1..];
    }
  }

  /**
   * Fed truthy statuses from an undefined baseline, updateStatus notifies
   * exactly for the consecutive pairs that differ, with (previous, new)
   * as arguments, and never for the first observation.
   */
  lemma {:induction false} FeedIsChanges(statuses: seq<string>)
    requires AllTruthy(statuses)
    ensures Feed(None, statuses) == Changes(statuses)
  {
    if statuses != [] {
      FeedFromBaseline(statuses[0], statuses[1..]);
      assert [statuses[0]] + statuses[1..] == statuses;
    }
  }

  /** Feeding in two stretches is feeding once: the held status carries over. */
  lemma {:induction false} FeedAppend(current: Option<string>, first: seq<string>, second: seq<string>)
    ensures Feed(current, first + second) == Feed(current, first) + Feed(HeldAfter(current, first), second)
    decreases |first|
  {
    if first == [] {
      assert first + second == second;
    } else {
      var head, rest := first[0], first[1..];
      var whole := first + second;
      assert whole[0] == head && whole[1..] == rest + second;
      FeedAppend(Some(head), rest, second);
      HeldAfterCons(current, first);
      FeedCons(current, whole);
      FeedCons(current, first);
      var step := CallsOf(Transition(current, head));
      assert step + (Feed(Some(head), rest) + Feed(HeldAfter(current, first), second))
        == (step + Feed(Some(head), rest)) + Feed(HeldAfter(current, first), second);
    }
  }

  /** Feeding a non-empty run is the first step followed by the rest. */
  lemma FeedCons(current: Option<string>, statuses: seq<string>)
    requires statuses != []
    ensures Feed(current, statuses)
      == CallsOf(Transition(current, statuses[0])) + Feed(Some(statuses[0]), statuses[1..])
  {
  }

  /** The status held after a non-empty run does not depend on the one before it. */
  lemma HeldAfterCons(current: Option<string>, statuses: seq<string>)
    requires statuses != []
    ensures HeldAfter(Some(statuses[0]), statuses[1..]) == HeldAfter(current, statuses)
  {
    var rest := statuses[1..];
    if rest != [] { assert rest[|rest| - 1] == statuses[|statuses| - 1]; }
  }

  /**
   * One more truthy status extends the notify calls of a truthy run by
   * exactly the call updateStatus makes for it.
   */
  lemma FeedStep(statuses: seq<string>, status: string)
    requires AllTruthy(statuses) && status != ""
    ensures AllTruthy(statuses + [status])
    ensures Feed(None, statuses + [status])
      == Feed(None, statuses) + CallsOf(Transition(HeldAfter(None, statuses), status))
  {
    FeedAppend(None, statuses, [status]);
    assert Feed(HeldAfter(None, statuses), [status]) == CallsOf(Transition(HeldAfter(None, statuses), status));
  }

  /** Feeding the same status twice in a row notifies nothing the second time. */
  lemma RepeatIsSilent(current: Option<string>, statuses: seq<string>, status: string)
    ensures Feed(current, statuses + [status, status]) == Feed(current, statuses + [status])
  {
    assert statuses + [status, status] == (statuses + [status]) + [status];
    FeedAppend(current, statuses + [status], [status]);
  }

  /**
   * The held status is overwritten only after notifying, so going to a new
   * status and straight back notifies twice.
   */
  lemma FlipBackNotifiesTwice(a: string, b: string)
    requires a != "" && b != "" && a != b
    ensures Feed(Some(a), [b, a]) == [(a, b), (b, a)]
  {
  }
}
