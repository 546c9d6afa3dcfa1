/**
 * The recovery poller (app/recovery_poller.py): once the kiosk has declared
 * itself out of service, a background task probes the remote service's
 * health endpoint at a fixed interval until it answers 200, then clears the
 * out-of-service flag and broadcasts HEALTHY.
 *
 * The module globals `_is_out_of_service` and `_poller_task` become the
 * fields of one object; the task's run is a separate method fed with the
 * probe answers.
 */
module Recovery {
  import opened Common
  import opened Text
  import ServerApi

  /** The health endpoint: the service URL with every "/kiosk" replaced by "/health". */
  function HealthUrl(serverUrl: string): string
  {
    ReplaceAll(serverUrl, "/kiosk", "/health")
  }

  /** Text before the first possible match is copied through unchanged by replace(). */
  lemma {:induction false} ReplaceSkipsPrefix(a: string, b: string, pat: string, rep: string)
    requires pat != []
    requires forall i: nat :: i < |a| ==> !OccursAt(a + b, pat, i)
    ensures ReplaceAll(a + b, pat, rep) == a + ReplaceAll(b, pat, rep)
    decreases |a|
  {
    if a == [] {
      assert a + b == b;
    } else {
      var s := a + b;
      assert !OccursAt(s, pat, 0);
      ReplaceNoMatchAtStart(s, pat, rep);
      assert s[1..] == a[1..] + b;
      forall i: nat | i < |a[1..]| ensures !OccursAt(a[1..] + b, pat, i) {
        NoMatchShifts(a, b, pat, i);
      }
      ReplaceSkipsPrefix(a[1..], b, pat, rep);
      assert a == [a[0]] + a[1..];
    }
  }

  /** A string that does not start with the pattern keeps its first character. */
  lemma ReplaceNoMatchAtStart(s: string, pat: string, rep: string)
    requires pat != [] && s != []
    requires !OccursAt(s, pat, 0)
    ensures ReplaceAll(s, pat, rep) == [s[0]] + ReplaceAll(s[1..], pat, rep)
  {
    if |s| < |pat| {
      assert s == [s[0]] + s[1..];
    } else {
      assert s[0..|pat|] == s[..|pat|];
    }
  }

  /** No match one place further into `a + b` is no match in `a[1..] + b`. */
  lemma NoMatchShifts(a: string, b: string, pat: string, i: nat)
    requires a != []
    requires !OccursAt(a + b, pat, i + 1)
    ensures !OccursAt(a[1..] + b, pat, i)
  {
    if i + |pat| <= |a[1..] + b| {
      assert (a[1..] + b)[i..i + |pat|] == (a + b)[i + 1..i + 1 + |pat|];
    }
  }

  /** In the service URL, "/kiosk" occurs only at the very end. */
  lemma KioskOnlyAtEnd()
    ensures forall i: nat :: i < |ServerApi.ApiRoot| ==> !OccursAt(ServerApi.ServerUrl, "/kiosk", i)
  {
    var s := ServerApi.ServerUrl;
    var head := ServerApi.ApiRoot + "/";
    assert 'k' !in head;
    forall i: nat | i < |ServerApi.ApiRoot| ensures !OccursAt(s, "/kiosk", i) {
      assert s[i + 1] == head[i + 1];
      assert s[i..i + 6][1] == s[i + 1];
    }
  }

  /** The kiosk's own service URL is probed at ".../api/health". */
  lemma HealthUrlOfServer()
    ensures HealthUrl(ServerApi.ServerUrl) == ServerApi.ApiRoot + "/health"
  {
    KioskOnlyAtEnd();
    ReplaceSkipsPrefix(ServerApi.ApiRoot, "/kiosk", "/kiosk", "/health");
    ReplaceWhole("/kiosk", "/health");
  }

  /** The pattern itself is replaced as a whole. */
  lemma ReplaceWhole(pat: string, rep: string)
    requires pat != []
    ensures ReplaceAll(pat, pat, rep) == rep
  {
    assert pat[..|pat|] == pat;
    assert ReplaceAll(pat[|pat|..], pat, rep) == [];
  }

  /** check_server_health: true exactly for status 200; a transport error is false. */
  function CheckServerHealth(reply: HttpReply): (ok: bool)
    ensures ok <==> reply == Reply(200)
  {
    match reply
    case TransportError => false
    case Reply(status) => status == 200
  }

  /** A poller task created by start_recovery_polling. */
  datatype PollTask = PollTask(serverUrl: string, interval: nat)

  /**
   * What a poller does given the probe answers: sleep, probe, and on the
   * first 200 broadcast HEALTHY and stop.
   */
  function PollEffects(task: PollTask, probes: seq<HttpReply>): seq<Effect>
  {
    if probes == [] then []
    else
      [Sleep(task.interval), Probed(HealthUrl(task.serverUrl))]
      + (if CheckServerHealth(probes[0]) then [Broadcast(Healthy)] else PollEffects(task, probes[1..]))
  }

  /**
   * HEALTHY is broadcast at most once, only as the very last effect, and
   * only when some probe answered 200; every probe is preceded by a sleep of
   * the task's interval.
   */
  lemma {:induction false} PollEffectsShape(task: PollTask, probes: seq<HttpReply>)
    ensures var e := PollEffects(task, probes);
      && (forall i :: 0 <= i < |e| && e[i] == Broadcast(Healthy) ==> i == |e| - 1)
      && (Broadcast(Healthy) in e <==> Reply(200) in probes)
      && (forall i :: 0 <= i < |e| && e[i].Probed? ==> i > 0 && e[i - 1] == Sleep(task.interval))
  {
    if probes != [] {
      PollEffectsShape(task, probes[1..]);
      var e := PollEffects(task, probes);
      var head := [Sleep(task.interval), Probed(HealthUrl(task.serverUrl))];
      if CheckServerHealth(probes[0]) {
        assert e == head + [Broadcast(Healthy)];
      } else {
        var rest := PollEffects(task, probes[1..]);
        assert e == head + rest;
        assert probes == [probes[0]] + probes[1..];
        forall i | 0 <= i < |e| && e[i] == Broadcast(Healthy) ensures i == |e| - 1 {
          assert i >= 2 && e[i] == rest[i - 2];
        }
        forall i | 0 <= i < |e| && e[i].Probed? ensures i > 0 && e[i - 1] == Sleep(task.interval) {
          if i >= 3 {
            assert e[i] == rest[i - 2] && e[i - 1] == rest[i - 3];
          }
        }
        if Broadcast(Healthy) in rest {
          var k :| 0 <= k < |rest| && rest[k] == Broadcast(Healthy);
          assert e[k + 2] == rest[k];
        }
      }
    }
  }

  /** The number of probes a poller makes before it stops: up to and including the first 200. */
  function ProbesMade(probes: seq<HttpReply>): (n: nat)
    ensures n <= |probes|
    ensures forall i :: 0 <= i < n - 1 ==> probes[i] != Reply(200)
    ensures n < |probes| ==> n > 0 && probes[n - 1] == Reply(200)
  {
    if probes == [] then 0
    else if CheckServerHealth(probes[0]) then 1
    else 1 + ProbesMade(probes[1..])
  }

  class RecoveryPoller {
    /** _is_out_of_service */
    var outOfService: bool
    /** The poller tasks created, in order (`_poller_task` is the last). */
    var tasks: seq<PollTask>
    /** What the pollers did, in order. */
    var log: seq<Effect>

    constructor()
      ensures !outOfService && tasks == [] && log == []
    {
      outOfService := false;
      tasks := [];
      log := [];
    }

    /** start_recovery_polling: nothing while already polling; otherwise set the flag and create one task. */
    method StartRecoveryPolling(serverUrl: string, interval: nat)
      modifies this
      ensures old(outOfService) ==> outOfService && tasks == old(tasks)
      ensures !old(outOfService) ==> outOfService && tasks == old(tasks) + [PollTask(serverUrl, interval)]
      ensures log == old(log)
    {
      if outOfService {
        return;
      }
      outOfService := true;
      tasks := tasks + [PollTask(serverUrl, interval)];
    }

    /** is_in_recovery_mode */
    method IsInRecoveryMode() returns (r: bool)
      ensures r == outOfService
    {
      r := outOfService;
    }

    /**
     * poll_server_recovery for the given probe answers: loop while the flag
     * is set; each round sleeps, probes, and on a 200 clears the flag,
     * broadcasts HEALTHY and leaves. The flag stays set when no probe
     * answered 200 (the loop has no retry bound).
     */
    method Poll(task: PollTask, probes: seq<HttpReply>)
      modifies this
      ensures tasks == old(tasks)
      ensures old(outOfService) ==>
        && log == old(log) + PollEffects(task, probes)
        && outOfService == (Reply(200) !in probes)
      ensures !old(outOfService) ==> log == old(log) && !outOfService
    {
      ghost var start := log;
      ghost var polling := outOfService;
      var i := 0;
      while outOfService && i < |probes|
        invariant 0 <= i <= |probes|
        invariant tasks == old(tasks)
        invariant !polling ==> log == start && !outOfService
        invariant polling ==> outOfService
        invariant polling ==> forall k :: 0 <= k < i ==> probes[k] != Reply(200)
        invariant polling ==> log + PollEffects(task, probes[i..]) == start + PollEffects(task, probes)
        decreases |probes| - i
      {
        var healthy := Round(task, probes, i);
        if healthy {
          return;
        }
        i := i + 1;
      }
      if polling {
        assert probes[i..] == [];
        assert Reply(200) !in probes;
      }
    }

    /**
     * One round of poll_server_recovery: sleep, probe, and on a 200 clear
     * the flag and broadcast HEALTHY; what it logs is how PollEffects reads
     * the probes from this round on.
     */
    method Round(task: PollTask, probes: seq<HttpReply>, i: nat) returns (healthy: bool)
      requires i < |probes|
      modifies this
      ensures healthy <==> probes[i] == Reply(200)
      ensures tasks == old(tasks)
      ensures outOfService == (old(outOfService) && !healthy)
      ensures healthy ==> log == old(log) + PollEffects(task, probes[i..])
      ensures !healthy ==> log + PollEffects(task, probes[i + 1..]) == old(log) + PollEffects(task, probes[i..])
    {
      var round := [Sleep(task.interval), Probed(HealthUrl(task.serverUrl))];
      PollRound(task, probes, i);
      log := log + round;
      healthy := CheckServerHealth(probes[i]);
      if healthy {
        outOfService := false;
        log := log + [Broadcast(Healthy)];
        assert log == old(log) + (round + [Broadcast(Healthy)]);
      } else {
        assert log + PollEffects(task, probes[i + 1..]) == old(log) + (round + PollEffects(task, probes[i + 1..]));
      }
    }
  }

  /** One round of the poller, as PollEffects sees it from round i on. */
  lemma PollRound(task: PollTask, probes: seq<HttpReply>, i: nat)
    requires i < |probes|
    ensures PollEffects(task, probes[i..]) ==
      [Sleep(task.interval), Probed(HealthUrl(task.serverUrl))]
      + (if CheckServerHealth(probes[i]) then [Broadcast(Healthy)] else PollEffects(task, probes[i + 1..]))
  {
    assert probes[i..][1..] == probes[i + 1..];
  }
}
