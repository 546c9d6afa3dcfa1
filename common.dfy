/**
 * Vocabulary shared by the kiosk components: optional values and results,
 * the JSON values that travel in print options, the broadcast event names,
 * the observable effects the background loops record, and the shapes in
 * which the outside world (subprocesses, HTTP) answers.
 */
module Common {

  datatype Option<+T> = None | Some(value: T)

  datatype Result<+T, +E> = Ok(value: T) | Err(error: E)

  /** The JSON scalars a print option can hold. */
  datatype Value = Null | Bool(b: bool) | Int(i: int) | Str(s: string)

  /** Python truthiness of a JSON scalar. */
  predicate Truthy(v: Value)
  {
    match v
    case Null => false
    case Bool(b) => b
    case Int(i) => i != 0
    case Str(s) => s != ""
  }

  /** The event vocabulary pushed to the kiosk's websocket subscribers. */
  datatype Event = Fetching | Printing | Done | PrintFailed | InvalidCode | Healthy | OutOfService

  /** The value of the "event" key of the broadcast message. */
  function EventName(e: Event): string
  {
    match e
    case Fetching => "FETCHING"
    case Printing => "PRINTING"
    case Done => "DONE"
    case PrintFailed => "PRINT_FAILED"
    case InvalidCode => "INVALID_CODE"
    case Healthy => "HEALTHY"
    case OutOfService => "OUT_OF_SERVICE"
  }

  /** The body of a job-status report to the remote service. */
  datatype Payload = StatusPayload(code: string, jobId: Value, kioskId: string, status: string, message: string)

  /** What a background loop or request handler visibly does, in order. */
  datatype Effect =
    | Broadcast(event: Event)
    | Sleep(seconds: nat)
    | SetFlag(value: bool)
    | CancelJob(jobId: Option<string>)
    | Notified(payload: Payload)
    | Probed(url: string)

  /** The answer to one HTTP request: an exception in transport, or a status code. */
  datatype HttpReply = TransportError | Reply(status: int)

  /** The outcome of running one external command with a timeout. */
  datatype ProcOutput =
    | Completed(returncode: int, stdout: string, stderr: string)
    | TimedOut
    | Failed(message: string)

  /** Python's list.remove: drop the first element equal to x. */
  function RemoveFirst<T(==)>(s: seq<T>, x: T): (r: seq<T>)
    requires x in s
  {
    if s[0] == x then s[1..] else [s[0]] + RemoveFirst(s[1..], x)
  }

  /** The position of the first element equal to x. */
  function IndexOf<T(==)>(s: seq<T>, x: T): (i: nat)
    requires x in s
    ensures i < |s| && s[i] == x && x !in s[..i]
  {
    if s[0] == x then 0 else 1 + IndexOf(s[1..], x)
  }

  /** Removing x cuts out exactly the first copy of x and keeps the order of the rest. */
  lemma {:induction false} RemoveFirstAt<T>(s: seq<T>, x: T)
    requires x in s
    ensures RemoveFirst(s, x) == s[..IndexOf(s, x)] + s[IndexOf(s, x) + 1..]
  {
    if s[0] != x {
      var t := s[1..];
      RemoveFirstAt(t, x);
      var i := IndexOf(t, x);
      assert IndexOf(s, x) == i + 1;
      calc {
        RemoveFirst(s, x);
        [s[0]] + RemoveFirst(t, x);
        [s[0]] + (t[..i] + t[i + 1..]);
        ([s[0]] + t[..i]) + t[i + 1..];
        { assert [s[0]] + t[..i] == s[..i + 1]; assert t[i + 1..] == s[i + 2..]; }
        s[..i + 1] + s[i + 2..];
      }
    }
  }

  /** Removing x lowers its multiplicity by exactly one and leaves every other element's alone. */
  lemma {:induction false} RemoveFirstMultiset<T>(s: seq<T>, x: T)
    requires x in s
    ensures multiset(RemoveFirst(s, x)) == multiset(s) - multiset{x}
    ensures |RemoveFirst(s, x)| == |s| - 1
  {
    if s[0] == x {
      assert s == [s[0]] + s[1..];
    } else {
      RemoveFirstMultiset(s[1..], x);
      assert s == [s[0]] + s[1..];
    }
  }
}
