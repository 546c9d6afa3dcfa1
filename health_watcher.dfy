/**
 * The health watcher thread (app/health_watcher.py): every ten seconds it
 * evaluates the system health and, when the answer differs from the last one
 * it saw, requests a HEALTHY or OUT_OF_SERVICE broadcast.
 *
 * The broadcast is an async call made from a plain thread without `await`:
 * the coroutine is created and dropped, so no client ever receives these
 * events. The model keeps the requested events in `unawaited` and touches no
 * socket.
 */
module HealthWatcher {
  import opened Common
  import Health

  /** The event requested for a health answer. */
  function EventFor(healthy: bool): (e: Event)
    ensures e == Healthy <==> healthy
    ensures e == Healthy || e == OutOfService
  {
    if healthy then Healthy else OutOfService
  }

  /**
   * The events requested while observing the health answers `hs`, starting
   * from the remembered answer `last` (None before the first check): one
   * event per change of answer.
   */
  function Transitions(last: Option<bool>, hs: seq<bool>): (r: seq<Event>)
    ensures |r| <= |hs|
    decreases |hs|
  {
    if hs == [] then []
    else
      var rest := Transitions(Some(hs[0]), hs[1..]);
      if Some(hs[0]) != last then [EventFor(hs[0])] + rest else rest
  }

  /**
   * What the watcher announces: only HEALTHY and OUT_OF_SERVICE, never the
   * same event twice in a row, never a repeat of the remembered state, the
   * last event matches the last answer, and nothing at all exactly when every
   * answer equals the remembered one.
   */
  lemma {:induction false} TransitionsShape(last: Option<bool>, hs: seq<bool>)
    ensures var r := Transitions(last, hs);
      && (forall i :: 0 <= i < |r| ==> r[i] == Healthy || r[i] == OutOfService)
      && (forall i, j :: 0 <= i && j == i + 1 && j < |r| ==> r[i] != r[j])
      && (last.Some? && r != [] ==> r[0] != EventFor(last.value))
      && (r != [] ==> r[|r| - 1] == EventFor(hs[|hs| - 1]))
      && (r == [] <==> forall i :: 0 <= i < |hs| ==> Some(hs[i]) == last)
    decreases |hs|
  {
    if hs != [] {
      TransitionsShape(Some(hs[0]), hs[1..]);
      var rest := Transitions(Some(hs[0]), hs[1..]);
      if rest == [] {
        assert forall i :: 1 <= i < |hs| ==> hs[i] == hs[1..][i - 1];
      } else {
        assert hs[|hs| - 1] == hs[1..][|hs[1..]| - 1];
      }
      if Some(hs[0]) == last {
        assert forall i :: 1 <= i < |hs| ==> hs[i] == hs[1..][i - 1];
      }
    }
  }

  /** Observing answers one at a time: the first answer, then the rest from there. */
  lemma TransitionsStep(last: Option<bool>, hs: seq<bool>)
    requires hs != []
    ensures Transitions(last, hs)
         == (if Some(hs[0]) != last then [EventFor(hs[0])] else []) + Transitions(Some(hs[0]), hs[1..])
  {
  }

  /** The very first check always requests an event. */
  lemma FirstCheckAnnounces(hs: seq<bool>)
    requires hs != []
    ensures var r := Transitions(None, hs); r != [] && r[0] == EventFor(hs[0])
  {
  }

  class Watcher {
    /** last_state: the health answer seen at the previous change, None at start. */
    var lastState: Option<bool>
    /** Broadcast requests issued and never awaited, in order. */
    var unawaited: seq<Event>

    constructor()
      ensures lastState == None && unawaited == []
    {
      lastState := None;
      unawaited := [];
    }

    /** One pass of the loop body, given what the two probes answer. */
    method Check(internet: HttpReply, lsusb: ProcOutput)
      modifies this
      ensures lastState == Some(Answer(internet, lsusb))
      ensures old(lastState) != lastState ==> unawaited == old(unawaited) + [EventFor(Answer(internet, lsusb))]
      ensures old(lastState) == lastState ==> unawaited == old(unawaited)
    {
      var healthy := Health.SystemHealthy(internet, lsusb).healthy;
      if Some(healthy) != lastState {
        unawaited := unawaited + [EventFor(healthy)];
        lastState := Some(healthy);
      }
    }

    /**
     * A finite run of the loop: one check per probe pair. The requests made
     * are exactly the transitions of the answers.
     */
    method Watch(internet: seq<HttpReply>, lsusb: seq<ProcOutput>)
      requires |internet| == |lsusb|
      modifies this
      ensures unawaited == old(unawaited) + Transitions(old(lastState), Answers(internet, lsusb))
      ensures |internet| > 0 ==> lastState == Some(Answers(internet, lsusb)[|internet| - 1])
      ensures |internet| == 0 ==> lastState == old(lastState)
    {
      ghost var hs := Answers(internet, lsusb);
      ghost var target := old(unawaited) + Transitions(old(lastState), hs);
      var i := 0;
      while i < |internet|
        invariant 0 <= i <= |internet|
        invariant target == unawaited + Transitions(lastState, hs[i..])
        invariant i > 0 ==> lastState == Some(hs[i - 1])
        invariant i == 0 ==> lastState == old(lastState)
      {
        ghost var before := unawaited;
        ghost var last := lastState;
        TransitionsStep(last, hs[i..]);
        assert hs[i..][0] == hs[i];
        assert hs[i..][1..] == hs[i + 1..];
        Check(internet[i], lsusb[i]);
        i := i + 1;
      }
      assert hs[i..] == [];
    }
  }

  /** The answer of system_healthy for one pair of probe results. */
  function Answer(internet: HttpReply, lsusb: ProcOutput): bool
  {
    Health.SystemHealthy(internet, lsusb).healthy
  }

  /** The health answers a sequence of probe results produces. */
  function Answers(internet: seq<HttpReply>, lsusb: seq<ProcOutput>): (hs: seq<bool>)
    requires |internet| == |lsusb|
    ensures |hs| == |internet|
    ensures forall i :: 0 <= i < |hs| ==> hs[i] == Answer(internet[i], lsusb[i])
  {
    seq(|internet|, i requires 0 <= i < |internet| => Answer(internet[i], lsusb[i]))
  }
}
