/**
 * The notification outbox (app/notification_queue.py): job-status reports
 * that could not be delivered are kept in a list with an attempt counter,
 * persisted to a file after every change, and retried in single passes that
 * give up on a record after ten attempts.
 *
 * The file is modelled as a ghost `disk`, changed only by saves; how each
 * save ends is an input, and the HTTP answers of one pass come in as one
 * reply per record.
 */
module Outbox {
  import opened Common

  /** A queued report: where it goes, what it says, when it was queued, how often it was tried. */
  datatype Notification = Notification(url: string, payload: Payload, timestamp: string, attempts: nat)

  /** The queue file as the loader finds it. */
  datatype Disk = NoFile | File(records: seq<Notification>) | Unreadable

  /** How one save_queue call ends; every failure is swallowed. */
  datatype SaveOutcome =
    /** open and json.dump succeed: the file holds the queue. */
    | Written
    /** open(..., 'w') fails (permissions, no such directory): the file is untouched. */
    | OpenFailed
    /** open truncated the file, then writing or closing failed (a full disk): an empty or partial file. */
    | WriteFailed

  /** The queue file after a save of `q` that ended as `s`. */
  function AfterSave(d: Disk, q: seq<Notification>, s: SaveOutcome): Disk
  {
    match s
    case Written => File(q)
    case OpenFailed => d
    case WriteFailed => Unreadable
  }

  /**
   * What a restart recovers after a save: the saved queue when the write
   * went through, what the file held before when it could not be opened,
   * and nothing at all when the write failed after the truncation.
   */
  lemma LoadAfterSave(d: Disk, q: seq<Notification>, s: SaveOutcome)
    ensures s.Written? ==> LoadQueue(AfterSave(d, q, s)) == q
    ensures s.OpenFailed? ==> LoadQueue(AfterSave(d, q, s)) == LoadQueue(d)
    ensures s.WriteFailed? ==> LoadQueue(AfterSave(d, q, s)) == []
  {
  }

  /** Two saves that end the same way leave the file as the second one alone would. */
  lemma SaveTwice(d: Disk, q1: seq<Notification>, q2: seq<Notification>, s: SaveOutcome)
    ensures AfterSave(AfterSave(d, q1, s), q2, s) == AfterSave(d, q2, s)
  {
  }

  /** The attempt count at which a pass gives up on a record. */
  const GiveUpAttempts: nat := 10

  /** load_queue: the stored list if the file exists and parses, the empty list otherwise. */
  function LoadQueue(d: Disk): (q: seq<Notification>)
    ensures d.File? ==> q == d.records
    ensures !d.File? ==> q == []
  {
    match d
    case File(records) => records
    case _ => []
  }

  /** No two records of the queue are equal (as Python compares the dictionaries). */
  predicate Distinct(q: seq<Notification>)
  {
    forall i, j :: 0 <= i < j < |q| ==> q[i] != q[j]
  }

  /** A record after one more attempt. */
  function Tried(n: Notification): Notification
  {
    n.(attempts := n.attempts + 1)
  }

  /** The queue after the counting loop: every record's attempts raised by one. */
  function Bump(q: seq<Notification>): (r: seq<Notification>)
    ensures |r| == |q|
    ensures forall i :: 0 <= i < |q| ==> r[i] == Tried(q[i])
  {
    seq(|q|, i requires 0 <= i < |q| => Tried(q[i]))
  }

  /** Bumping keeps distinct records distinct: it only changes the counter, by the same amount. */
  lemma BumpDistinct(q: seq<Notification>)
    requires Distinct(q)
    ensures Distinct(Bump(q))
  {
    var r := Bump(q);
    forall i, j | 0 <= i < j < |r| ensures r[i] != r[j] {
      assert q[i] != q[j];
    }
  }

  /** Was this (already bumped) record acknowledged? Only status 200 counts. */
  predicate Acked(reply: HttpReply)
  {
    reply == Reply(200)
  }

  /** What the pass appends to `sent` for one record: once for a 200, once more at the limit. */
  function Marks(n: Notification, reply: HttpReply): seq<Notification>
  {
    (if Acked(reply) then [n] else []) + (if n.attempts >= GiveUpAttempts then [n] else [])
  }

  /** The `sent` list after the counting loop over the bumped records. */
  function SentList(q: seq<Notification>, replies: seq<HttpReply>): (s: seq<Notification>)
    requires |replies| == |q|
    ensures forall x :: x in s ==> x in q
  {
    if q == [] then [] else Marks(q[0], replies[0]) + SentList(q[1..], replies[1..])
  }

  /** The `sent` list grows record by record, as the counting loop builds it. */
  lemma {:induction false} SentListSnoc(q: seq<Notification>, replies: seq<HttpReply>, i: nat)
    requires |replies| == |q| && i < |q|
    ensures SentList(q[..i + 1], replies[..i + 1]) == SentList(q[..i], replies[..i]) + Marks(q[i], replies[i])
  {
    if i > 0 {
      SentListSnoc(q[1..], replies[1..], i - 1);
      assert q[..i + 1][1..] == q[1..][..i];
      assert replies[..i + 1][1..] == replies[1..][..i];
      assert q[..i][1..] == q[1..][..i - 1];
      assert replies[..i][1..] == replies[1..][..i - 1];
    } else {
      assert SentList(q[..0], replies[..0]) == [];
      assert q[..1][1..] == [] && replies[..1][1..] == [];
    }
  }

  /**
   * The removal loop: `list.remove` for every element of `sent`, in order,
   * stopping at the first element that is no longer in the queue (the
   * ValueError). Returns the queue at that point and whether all removals
   * succeeded.
   */
  function RemoveEach(q: seq<Notification>, sent: seq<Notification>): (seq<Notification>, bool)
    decreases |sent|
  {
    if sent == [] then (q, true)
    else if sent[0] in q then RemoveEach(RemoveFirst(q, sent[0]), sent[1..])
    else (q, false)
  }

  /** Removing elements that differ from the head leaves the head in place. */
  lemma {:induction false} RemoveEachSkipsHead(x: Notification, q: seq<Notification>, sent: seq<Notification>)
    requires x !in sent
    ensures RemoveEach([x] + q, sent) == ([x] + RemoveEach(q, sent).0, RemoveEach(q, sent).1)
    decreases |sent|
  {
    if sent != [] {
      if sent[0] in q {
        assert RemoveFirst([x] + q, sent[0]) == [x] + RemoveFirst(q, sent[0]);
        RemoveEachSkipsHead(x, RemoveFirst(q, sent[0]), sent[1..]);
      } else {
        assert sent[0] !in [x] + q;
      }
    }
  }

  /** Does the pass give up on this record or count it as delivered? */
  predicate Gone(n: Notification, reply: HttpReply)
  {
    Acked(reply) || n.attempts >= GiveUpAttempts
  }

  /** The records the pass is meant to keep, in their original order. */
  function Survivors(q: seq<Notification>, replies: seq<HttpReply>): (s: seq<Notification>)
    requires |replies| == |q|
  {
    if q == [] then []
    else (if Gone(q[0], replies[0]) then [] else [q[0]]) + Survivors(q[1..], replies[1..])
  }

  /** Acknowledged on the very attempt that reaches the limit: appended to `sent` twice. */
  predicate AckedAtLimit(q: seq<Notification>, replies: seq<HttpReply>)
    requires |replies| == |q|
  {
    exists i :: 0 <= i < |q| && Acked(replies[i]) && q[i].attempts >= GiveUpAttempts
  }

  /**
   * When no record is acknowledged at the limit, every removal succeeds and
   * the queue left is exactly the survivors in their original order: a
   * record is gone iff it got status 200 or reached ten attempts.
   */
  lemma {:induction false} RemovalKeepsSurvivors(q: seq<Notification>, replies: seq<HttpReply>)
    requires |replies| == |q| && Distinct(q) && !AckedAtLimit(q, replies)
    ensures RemoveEach(q, SentList(q, replies)) == (Survivors(q, replies), true)
  {
    if q != [] {
      var t, rt := q[1..], replies[1..];
      assert Distinct(t);
      assert !AckedAtLimit(t, rt) by {
        forall i | 0 <= i < |t| ensures !(Acked(rt[i]) && t[i].attempts >= GiveUpAttempts) {
          assert t[i] == q[i + 1] && rt[i] == replies[i + 1];
        }
      }
      RemovalKeepsSurvivors(t, rt);
      assert q[0] !in t;
      assert q == [q[0]] + t;
      if Gone(q[0], replies[0]) {
        assert !(Acked(replies[0]) && q[0].attempts >= GiveUpAttempts);
        assert Marks(q[0], replies[0]) == [q[0]];
        var s := SentList(t, rt);
        assert SentList(q, replies) == [q[0]] + s;
        assert RemoveFirst(q, q[0]) == t;
        assert ([q[0]] + s)[1..] == s;
        assert RemoveEach(q, [q[0]] + s) == RemoveEach(t, s);
        assert Survivors(q, replies) == Survivors(t, rt);
      } else {
        assert SentList(q, replies) == SentList(t, rt);
        RemoveEachSkipsHead(q[0], t, SentList(t, rt));
      }
    }
  }

  /**
   * Asking to remove a record more often than the queue holds it makes some
   * `remove` fail, whatever else is removed on the way.
   */
  lemma {:induction false} OutnumberedRemovalFails(q: seq<Notification>, sent: seq<Notification>, x: Notification)
    requires multiset(q)[x] < multiset(sent)[x]
    ensures !RemoveEach(q, sent).1
    decreases |sent|
  {
    assert sent == [sent[0]] + sent[1..];
    if sent[0] in q {
      RemoveFirstMultiset(q, sent[0]);
      OutnumberedRemovalFails(RemoveFirst(q, sent[0]), sent[1..], x);
    }
  }

  /** A record at the limit is marked at least once, whatever its reply. */
  lemma MarksAtLimit(n: Notification, reply: HttpReply, x: Notification)
    requires x.attempts >= GiveUpAttempts
    ensures multiset([n])[x] <= multiset(Marks(n, reply))[x]
  {
    if n == x {
      assert x in Marks(n, reply);
    }
  }

  /** Every copy of a record at the limit is appended to `sent` at least once. */
  lemma {:induction false} SentCoversLimit(q: seq<Notification>, replies: seq<HttpReply>, x: Notification)
    requires |replies| == |q| && x.attempts >= GiveUpAttempts
    ensures multiset(q)[x] <= multiset(SentList(q, replies))[x]
  {
    if q != [] {
      var t, rt := q[1..], replies[1..];
      var m, s := Marks(q[0], replies[0]), SentList(t, rt);
      SentCoversLimit(t, rt, x);
      MarksAtLimit(q[0], replies[0], x);
      assert q == [q[0]] + t;
      assert SentList(q, replies) == m + s;
      assert multiset(m + s) == multiset(m) + multiset(s);
    }
  }

  /** A record acknowledged at the limit is in `sent` more often than in the queue. */
  lemma {:induction false} SentOutnumbers(q: seq<Notification>, replies: seq<HttpReply>, i: nat)
    requires |replies| == |q| && i < |q| && Acked(replies[i]) && q[i].attempts >= GiveUpAttempts
    ensures multiset(q)[q[i]] < multiset(SentList(q, replies))[q[i]]
  {
    assert q == [q[0]] + q[1..];
    if i == 0 {
      SentCoversLimit(q[1..], replies[1..], q[0]);
    } else {
      assert q[1..][i - 1] == q[i] && replies[1..][i - 1] == replies[i];
      SentOutnumbers(q[1..], replies[1..], i - 1);
    }
  }

  /**
   * A record acknowledged at the limit makes its second `remove` fail: the
   * pass ends in a ValueError, whatever the other records did. Equal records
   * share their attempt count, so copies do not change this.
   */
  lemma AckAtLimitRaises(q: seq<Notification>, replies: seq<HttpReply>)
    requires |replies| == |q| && AckedAtLimit(q, replies)
    ensures !RemoveEach(q, SentList(q, replies)).1
  {
    var i :| 0 <= i < |q| && Acked(replies[i]) && q[i].attempts >= GiveUpAttempts;
    SentOutnumbers(q, replies, i);
    OutnumberedRemovalFails(q, SentList(q, replies), q[i]);
  }

  /** Removing records the queue holds, each no more often than it holds them, always succeeds. */
  lemma {:induction false} RemoveHeldRecords(q: seq<Notification>, sent: seq<Notification>)
    requires multiset(sent) <= multiset(q)
    ensures RemoveEach(q, sent).1 && multiset(RemoveEach(q, sent).0) == multiset(q) - multiset(sent)
    decreases |sent|
  {
    if sent != [] {
      var x, t := sent[0], sent[1..];
      assert sent == [x] + t;
      assert multiset(sent) == multiset{x} + multiset(t);
      assert x in multiset(q);
      RemoveFirstMultiset(q, x);
      SubtractInTurn(multiset(q), multiset{x}, multiset(t));
      RemoveHeldRecords(RemoveFirst(q, x), t);
    }
  }

  /** No acknowledgement at the limit in a queue means none in its tail. */
  lemma NoLimitAckInTail(q: seq<Notification>, replies: seq<HttpReply>)
    requires |replies| == |q| && q != [] && !AckedAtLimit(q, replies)
    ensures !AckedAtLimit(q[1..], replies[1..])
  {
    var t, rt := q[1..], replies[1..];
    forall i | 0 <= i < |t| ensures !(Acked(rt[i]) && t[i].attempts >= GiveUpAttempts) {
      assert t[i] == q[i + 1] && rt[i] == replies[i + 1];
    }
  }

  /** A record not acknowledged at the limit is either marked once or kept. */
  lemma MarkedOrKept(n: Notification, reply: HttpReply)
    requires !(Acked(reply) && n.attempts >= GiveUpAttempts)
    ensures multiset(Marks(n, reply)) + multiset(if Gone(n, reply) then [] else [n]) == multiset([n])
  {
    if Gone(n, reply) {
      assert Marks(n, reply) == [n];
    } else {
      assert Marks(n, reply) == [];
    }
  }

  /** Taking off b and then c is taking off both, and c still fits in what b leaves. */
  lemma SubtractInTurn(a: multiset<Notification>, b: multiset<Notification>, c: multiset<Notification>)
    requires b + c <= a
    ensures c <= a - b && (a - b) - c == a - (b + c)
  {
  }

  /** Without an acknowledgement at the limit, every record is either sent once or survives. */
  lemma {:induction false} SentOrSurvives(q: seq<Notification>, replies: seq<HttpReply>)
    requires |replies| == |q| && !AckedAtLimit(q, replies)
    ensures multiset(SentList(q, replies)) + multiset(Survivors(q, replies)) == multiset(q)
  {
    if q != [] {
      var t, rt := q[1..], replies[1..];
      NoLimitAckInTail(q, replies);
      SentOrSurvives(t, rt);
      MarkedOrKept(q[0], replies[0]);
      var m, k := Marks(q[0], replies[0]), if Gone(q[0], replies[0]) then [] else [q[0]];
      assert SentList(q, replies) == m + SentList(t, rt);
      assert Survivors(q, replies) == k + Survivors(t, rt);
      assert q == [q[0]] + t;
      Regroup(multiset(m), multiset(SentList(t, rt)), multiset(k), multiset(Survivors(t, rt)), multiset([q[0]]));
    }
  }

  /** Regrouping the four parts of the sent and kept multisets. */
  lemma Regroup(a: multiset<Notification>, b: multiset<Notification>, c: multiset<Notification>,
                d: multiset<Notification>, e: multiset<Notification>)
    requires a + c == e
    ensures (a + b) + (c + d) == e + (b + d)
  {
  }

  /** A record survives the pass iff it was not acknowledged and is still below the limit. */
  lemma {:induction false} SurvivorsIff(q: seq<Notification>, replies: seq<HttpReply>, i: nat)
    requires |replies| == |q| && Distinct(q) && i < |q|
    ensures q[i] in Survivors(q, replies) <==> !Acked(replies[i]) && q[i].attempts < GiveUpAttempts
  {
    SurvivorsFromQueue(q[1..], replies[1..]);
    assert q == [q[0]] + q[1..];
    if i == 0 {
      assert q[0] !in q[1..];
    } else {
      assert q[1..][i - 1] == q[i] && replies[1..][i - 1] == replies[i];
      assert Distinct(q[1..]);
      SurvivorsIff(q[1..], replies[1..], i - 1);
    }
  }

  /** Survivors are records of the queue. */
  lemma {:induction false} SurvivorsFromQueue(q: seq<Notification>, replies: seq<HttpReply>)
    requires |replies| == |q|
    ensures forall x :: x in Survivors(q, replies) ==> x in q
  {
    if q != [] {
      SurvivorsFromQueue(q[1..], replies[1..]);
    }
  }

  /**
   * One pass over any queue: it completes (and saves) exactly when no record
   * is acknowledged on the attempt that reaches the limit. It then leaves the
   * bumped records that were neither acknowledged nor at the limit, with the
   * same copies as the survivors and, when the records are distinct, in
   * their original order.
   */
  lemma PassOutcome(q: seq<Notification>, replies: seq<HttpReply>)
    requires |replies| == |q|
    ensures var b := Bump(q); var r := RemoveEach(b, SentList(b, replies));
      && (r.1 <==> !AckedAtLimit(b, replies))
      && (r.1 ==> multiset(r.0) == multiset(Survivors(b, replies)))
      && (r.1 && Distinct(q) ==> r.0 == Survivors(b, replies))
  {
    var b := Bump(q);
    if AckedAtLimit(b, replies) {
      AckAtLimitRaises(b, replies);
    } else {
      CompletedPassKeepsSurvivors(b, replies);
      if Distinct(q) {
        BumpDistinct(q);
        RemovalKeepsSurvivors(b, replies);
      }
    }
  }

  /** Without an acknowledgement at the limit, every removal succeeds and the survivors' copies are left. */
  lemma CompletedPassKeepsSurvivors(q: seq<Notification>, replies: seq<HttpReply>)
    requires |replies| == |q| && !AckedAtLimit(q, replies)
    ensures var r := RemoveEach(q, SentList(q, replies));
      r.1 && multiset(r.0) == multiset(Survivors(q, replies))
  {
    var sent, kept := SentList(q, replies), Survivors(q, replies);
    SentOrSurvives(q, replies);
    assert multiset(sent) <= multiset(q);
    RemoveHeldRecords(q, sent);
    assert multiset(q) - multiset(sent) == multiset(kept);
  }

  /**
   * `list.remove` takes the first equal record, not the acknowledged one:
   * with two equal records of which only the later is acknowledged, the
   * pass keeps the later copy, behind the record between them.
   */
  lemma DuplicatesReorder(a: Notification, b: Notification)
    requires a != b && a.attempts < GiveUpAttempts && b.attempts < GiveUpAttempts
    ensures var q := [a, b, a]; var replies := [Reply(500), Reply(500), Reply(200)];
      && SentList(q, replies) == [a]
      && RemoveEach(q, SentList(q, replies)) == ([b, a], true)
      && Survivors(q, replies) == [a, b]
  {
    var q, replies := [a, b, a], [Reply(500), Reply(500), Reply(200)];
    assert q[1..] == [b, a] && q[1..][1..] == [a] && q[1..][1..][1..] == [];
    assert replies[1..] == [Reply(500), Reply(200)] && replies[1..][1..] == [Reply(200)];
    assert Marks(a, Reply(500)) == [] && Marks(b, Reply(500)) == [] && Marks(a, Reply(200)) == [a];
    assert SentList([a], [Reply(200)]) == [a];
    assert SentList([b, a], replies[1..]) == [a];
    assert Survivors([a], [Reply(200)]) == [];
    assert Survivors([b, a], replies[1..]) == [b];
    assert RemoveFirst(q, a) == [b, a];
  }

  class NotificationQueue {
    /** The pending reports, oldest first. */
    var queue: seq<Notification>
    /** The queue file as the saves have left it. */
    ghost var disk: Disk

    /** __init__ / load_queue: start from whatever the file holds; a missing or bad file gives []. */
    constructor(d: Disk)
      ensures queue == LoadQueue(d) && disk == d
    {
      queue := LoadQueue(d);
      disk := d;
    }

    /**
     * save_queue: write the queue. A failure is swallowed: when the file
     * could not be opened it is untouched, but when it was opened (and so
     * truncated) and the write failed, it is left unreadable.
     */
    method Save(outcome: SaveOutcome)
      modifies this
      ensures queue == old(queue)
      ensures disk == AfterSave(old(disk), queue, outcome)
    {
      match outcome
      case Written => disk := File(queue);
      case OpenFailed =>
      case WriteFailed => disk := Unreadable;
    }

    /** add: append one fresh record with zero attempts, then save. */
    method Add(url: string, payload: Payload, timestamp: string, save: SaveOutcome)
      modifies this
      ensures queue == old(queue) + [Notification(url, payload, timestamp, 0)]
      ensures disk == AfterSave(old(disk), queue, save)
    {
      queue := queue + [Notification(url, payload, timestamp, 0)];
      Save(save);
    }

    /** The first loop of a pass: count one more attempt on every record and collect `sent`. */
    method CountAttempts(replies: seq<HttpReply>) returns (sent: seq<Notification>)
      requires |replies| == |queue|
      modifies this
      ensures queue == Bump(old(queue))
      ensures sent == SentList(queue, replies)
      ensures disk == old(disk)
    {
      ghost var q0 := queue;
      sent := [];
      var i := 0;
      while i < |queue|
        invariant 0 <= i <= |queue| == |q0|
        invariant queue[..i] == Bump(q0)[..i] && queue[i..] == q0[i..]
        invariant sent == SentList(queue[..i], replies[..i])
        invariant disk == old(disk)
      {
        var n := queue[i].(attempts := queue[i].attempts + 1);
        queue := queue[i := n];
        if replies[i] == Reply(200) {
          sent := sent + [n];
        }
        if n.attempts >= GiveUpAttempts {
          sent := sent + [n];
        }
        SentListSnoc(queue, replies, i);
        assert queue[..i + 1] == Bump(q0)[..i + 1];
        i := i + 1;
      }
      assert queue == queue[..i];
      assert replies == replies[..i];
    }

    /** The second loop of a pass: `remove` each element of `sent`; false when one is missing. */
    method RemoveSent(sent: seq<Notification>) returns (ok: bool)
      modifies this
      ensures (queue, ok) == RemoveEach(old(queue), sent)
      ensures disk == old(disk)
    {
      var j := 0;
      while j < |sent|
        invariant 0 <= j <= |sent|
        invariant RemoveEach(queue, sent[j..]) == RemoveEach(old(queue), sent)
        invariant disk == old(disk)
      {
        if sent[j] !in queue {
          return false;
        }
        assert sent[j..][1..] == sent[j + 1..];
        queue := RemoveFirst(queue, sent[j]);
        j := j + 1;
      }
      assert sent[j..] == [];
      return true;
    }

    /**
     * process_queue: one pass over the queue with one reply per record.
     * Returns whether the pass ended in the ValueError of a second `remove`;
     * the queue file is written only when the pass completes.
     */
    method ProcessQueue(replies: seq<HttpReply>, save: SaveOutcome) returns (raised: bool)
      requires |replies| == |queue|
      modifies this
      ensures old(queue) == [] ==> queue == [] && disk == old(disk) && !raised
      ensures old(queue) != [] ==>
        var r := RemoveEach(Bump(old(queue)), SentList(Bump(old(queue)), replies));
        && queue == r.0
        && raised == !r.1
        && disk == (if r.1 then AfterSave(old(disk), queue, save) else old(disk))
    {
      raised := false;
      if queue == [] {
        return;
      }
      var sent := CountAttempts(replies);
      var ok := RemoveSent(sent);
      if !ok {
        raised := true;
        return;
      }
      Save(save);
    }
  }
}
