/**
 * The HTTP and websocket entry points of the kiosk backend (app/main.py):
 * the /print handler that fetches a job, prints it and maps every failure
 * to a status code, the owner health summary, and the websocket session.
 */
module App {
  import opened Common
  import ServerApi
  import Printer
  import Monitor
  import Recovery
  import Diagnostics
  import Health
  import Ws

  /** Seconds between recovery probes, as start_print asks for them. */
  const RecoveryInterval: nat := 300

  /** An HTTP status and the value of the body's "status" key. */
  datatype Response = Response(code: int, status: string)

  /** The print options start_print builds from the fetched job; orientation is always "". */
  function JobOptions(job: ServerApi.FetchedJob): Printer.PrintOptions
  {
    Printer.PrintOptions(Some(job.colorMode), Some(job.duplex), Some(job.copies), None, Some(Str(job.orientation)), None, None)
  }

  /** The outcome of one /print request. */
  datatype Flow = Flow(response: Response, events: seq<Event>, monitored: Option<Monitor.Job>)

  /**
   * start_print: broadcast FETCHING, fetch the job, broadcast PRINTING,
   * print; InvalidCode answers 400, UpstreamFailure and PrinterUnavailable
   * answer 503, anything else 500, and a successful submission answers 200
   * with a monitor started for lp's job id.
   */
  function PrintFlow(code: string, kioskId: string, post: ServerApi.PostReply, download: HttpReply, tmpName: string,
                     lsusb: ProcOutput, lpstatD: ProcOutput, lpstatP: ProcOutput, lp: ProcOutput): Flow
  {
    match ServerApi.FetchPrintJob(post, download, tmpName)
    case Err(InvalidCodeError) => Flow(Response(400, "INVALID_CODE"), [Fetching, InvalidCode], None)
    case Err(UpstreamFailure(_)) => Flow(Response(503, "OUT_OF_SERVICE"), [Fetching, OutOfService], None)
    case Err(Unexpected) => Flow(Response(500, "OUT_OF_SERVICE"), [Fetching, OutOfService], None)
    case Ok(job) =>
      match Printer.PrintOutcome(lsusb, lpstatD, lpstatP, lp, job.filePath, JobOptions(job))
      case Err(_) => Flow(Response(503, "OUT_OF_SERVICE"), [Fetching, Printing, OutOfService], None)
      case Ok(s) => Flow(Response(200, "DONE"), [Fetching, Printing], Some(Monitor.Job(s.jobId, code, job.jobId, kioskId)))
  }

  /**
   * Every /print answer is one of four; recovery is wanted exactly for the
   * two OUT_OF_SERVICE answers; INVALID_CODE is broadcast exactly for the
   * 400; a monitor runs exactly after a 200; and DONE is never broadcast
   * by the request itself (the monitor announces it).
   */
  lemma PrintResponses(code: string, kioskId: string, post: ServerApi.PostReply, download: HttpReply, tmpName: string,
                       lsusb: ProcOutput, lpstatD: ProcOutput, lpstatP: ProcOutput, lp: ProcOutput)
    ensures var f := PrintFlow(code, kioskId, post, download, tmpName, lsusb, lpstatD, lpstatP, lp);
      && f.response in {Response(200, "DONE"), Response(400, "INVALID_CODE"), Response(503, "OUT_OF_SERVICE"), Response(500, "OUT_OF_SERVICE")}
      && |f.events| >= 2 && f.events[0] == Fetching
      && (f.response.code == 400 <==> InvalidCode in f.events)
      && (f.response.code >= 500 <==> f.events[|f.events| - 1] == OutOfService)
      && (f.response.code == 200 <==> f.monitored.Some?)
      && Done !in f.events
  {
    match ServerApi.FetchPrintJob(post, download, tmpName)
    case Err(_) =>
    case Ok(job) =>
      match Printer.PrintOutcome(lsusb, lpstatD, lpstatP, lp, job.filePath, JobOptions(job))
      case Err(_) =>
      case Ok(_) =>
  }

  /** A code the service rejects with 404 or 400 is the only way to get INVALID_CODE. */
  lemma InvalidCodeOnlyFromService(code: string, kioskId: string, post: ServerApi.PostReply, download: HttpReply, tmpName: string,
                                   lsusb: ProcOutput, lpstatD: ProcOutput, lpstatP: ProcOutput, lp: ProcOutput)
    ensures PrintFlow(code, kioskId, post, download, tmpName, lsusb, lpstatD, lpstatP, lp).response.code == 400
        <==> post.Answered? && (post.status == 404 || post.status == 400)
  {
  }

  /**
   * The options the kiosk sends for a fetched job (whose orientation
   * fetch_print_job always leaves empty) never ask for landscape, a page
   * range, a media size or a print quality; the command fails exactly when
   * the job's copies value is null or a string.
   */
  lemma KioskOptions(job: ServerApi.FetchedJob)
    requires job.orientation == ""
    ensures Printer.LpArgs(JobOptions(job)).Err? <==> job.copies.Null? || job.copies.Str?
    ensures Printer.LpArgs(JobOptions(job)).Ok? ==>
      var args := Printer.LpArgs(JobOptions(job)).value;
      && Printer.Arg("-o", "landscape") !in args
      && !Printer.HasFlag(args, "-P")
      && Printer.Arg("-o", "print-quality=3") !in args && Printer.Arg("-o", "print-quality=5") !in args
      && (forall m :: Printer.Arg("-o", "media=" + m) !in args)
  {
    var o := JobOptions(job);
    if Printer.LpArgs(o).Ok? {
      Printer.LandscapeIff(o);
      Printer.PageRangeIff(o);
      Printer.QualityIff(o);
      forall m | true
        ensures Printer.Arg("-o", "media=" + m) !in Printer.LpArgs(o).value
      {
        Printer.MediaIff(o, m);
      }
    }
  }

  /** A fetched job whose copies field is a string is always answered OUT_OF_SERVICE with 503. */
  lemma StringCopiesOutOfService(code: string, kioskId: string, post: ServerApi.PostReply, download: HttpReply, tmpName: string,
                                 lsusb: ProcOutput, lpstatD: ProcOutput, lpstatP: ProcOutput, lp: ProcOutput)
    requires ServerApi.FetchPrintJob(post, download, tmpName).Ok?
    requires ServerApi.FetchPrintJob(post, download, tmpName).value.copies.Str?
    ensures PrintFlow(code, kioskId, post, download, tmpName, lsusb, lpstatD, lpstatP, lp).response == Response(503, "OUT_OF_SERVICE")
  {
    var job := ServerApi.FetchPrintJob(post, download, tmpName).value;
    var o := JobOptions(job);
    KioskOptions(job);
    var p := Printer.DefaultPrinter(lpstatD, lpstatP);
    if Health.PrinterConnected(lsusb) && p.Ok? {
      Printer.LpCommandFlattens(p.value, job.filePath, o);
    }
  }

  /** owner_health: "OK" exactly when every diagnostic check passed. */
  function OwnerStatus(r: Diagnostics.Report): (s: string)
    ensures s == "OK" <==> r.internet && r.backend && r.frontend && r.printer
    ensures s == "OK" || s == "FAIL"
  {
    if r.internet && r.backend && r.frontend && r.printer then "OK" else "FAIL"
  }

  /** An owner report of OK implies the /health endpoint reports the kiosk healthy at the same moment. */
  lemma OwnerOkMeansHealthy(internet: HttpReply, listening: set<nat>, lsusb: ProcOutput)
    requires OwnerStatus(Diagnostics.RunDiagnostics(internet, listening, lsusb)) == "OK"
    ensures Health.SystemHealthy(internet, lsusb).healthy
  {
    Diagnostics.ReportAgreesWithHealth(internet, listening, lsusb);
  }

  /** The request path's shared state: what it broadcast, which monitors it started, and the recovery poller. */
  class Kiosk {
    const kioskId: string
    const recovery: Recovery.RecoveryPoller
    var broadcasts: seq<Event>
    var monitors: seq<Monitor.Job>

    constructor(kioskId: string, recovery: Recovery.RecoveryPoller)
      ensures this.kioskId == kioskId && this.recovery == recovery
      ensures broadcasts == [] && monitors == []
    {
      this.kioskId := kioskId;
      this.recovery := recovery;
      broadcasts := [];
      monitors := [];
    }

    /** Broadcast OUT_OF_SERVICE and start recovery polling unless it already runs. */
    method ReportOutOfService()
      modifies this, recovery
      ensures broadcasts == old(broadcasts) + [OutOfService] && monitors == old(monitors)
      ensures recovery.outOfService && recovery.log == old(recovery.log)
      ensures recovery.tasks == old(recovery.tasks)
                + (if old(recovery.outOfService) then [] else [Recovery.PollTask(ServerApi.ServerUrl, RecoveryInterval)])
    {
      broadcasts := broadcasts + [OutOfService];
      var active := recovery.IsInRecoveryMode();
      if !active {
        recovery.StartRecoveryPolling(ServerApi.ServerUrl, RecoveryInterval);
      }
    }

    /** The /print handler, with every outside answer given. */
    method StartPrint(code: string, post: ServerApi.PostReply, download: HttpReply, tmpName: string,
                      lsusb: ProcOutput, lpstatD: ProcOutput, lpstatP: ProcOutput, lp: ProcOutput)
      returns (response: Response, file: Printer.TempFile?)
      modifies this, recovery
      ensures var f := PrintFlow(code, kioskId, post, download, tmpName, lsusb, lpstatD, lpstatP, lp);
        && response == f.response
        && broadcasts == old(broadcasts) + f.events
        && monitors == old(monitors) + (if f.monitored.Some? then [f.monitored.value] else [])
        && recovery.outOfService == (old(recovery.outOfService) || response.code >= 500)
        && recovery.tasks == old(recovery.tasks)
             + (if response.code >= 500 && !old(recovery.outOfService) then [Recovery.PollTask(ServerApi.ServerUrl, RecoveryInterval)] else [])
        && recovery.log == old(recovery.log)
      ensures file != null <==> ServerApi.FetchPrintJob(post, download, tmpName).Ok?
      ensures file != null ==> fresh(file) && file.path == tmpName && (file.present <==> response.code == 200 && tmpName != "")
    {
      ghost var f := PrintFlow(code, kioskId, post, download, tmpName, lsusb, lpstatD, lpstatP, lp);
      broadcasts := broadcasts + [Fetching];
      var fetched := ServerApi.FetchPrintJob(post, download, tmpName);
      match fetched {
        case Err(e) =>
          file := null;
          if e.InvalidCodeError? {
            broadcasts := broadcasts + [InvalidCode];
            response := Response(400, "INVALID_CODE");
            assert f == Flow(response, [Fetching, InvalidCode], None);
          } else {
            ReportOutOfService();
            response := if e.UpstreamFailure? then Response(503, "OUT_OF_SERVICE") else Response(500, "OUT_OF_SERVICE");
            assert f == Flow(response, [Fetching, OutOfService], None);
          }
        case Ok(job) =>
          assert job.filePath == tmpName;
          response, file := PrintFetched(code, job, lsusb, lpstatD, lpstatP, lp);
      }
    }

    /** The part of the /print handler after the job was fetched: broadcast PRINTING, print, answer. */
    method PrintFetched(code: string, job: ServerApi.FetchedJob, lsusb: ProcOutput, lpstatD: ProcOutput, lpstatP: ProcOutput, lp: ProcOutput)
      returns (response: Response, file: Printer.TempFile)
      modifies this, recovery
      ensures var r := Printer.PrintOutcome(lsusb, lpstatD, lpstatP, lp, job.filePath, JobOptions(job));
        && response == (if r.Ok? then Response(200, "DONE") else Response(503, "OUT_OF_SERVICE"))
        && broadcasts == old(broadcasts) + (if r.Ok? then [Printing] else [Printing, OutOfService])
        && monitors == old(monitors) + (if r.Ok? then [Monitor.Job(r.value.jobId, code, job.jobId, kioskId)] else [])
        && recovery.outOfService == (old(recovery.outOfService) || r.Err?)
        && recovery.tasks == old(recovery.tasks)
             + (if r.Err? && !old(recovery.outOfService) then [Recovery.PollTask(ServerApi.ServerUrl, RecoveryInterval)] else [])
        && recovery.log == old(recovery.log)
      ensures fresh(file) && file.path == job.filePath && (file.present <==> response.code == 200 && job.filePath != "")
    {
      broadcasts := broadcasts + [Printing];
      file := new Printer.TempFile(job.filePath);
      var printed := Printer.PrintDocument(lsusb, lpstatD, lpstatP, lp, JobOptions(job), file);
      if printed.Ok? {
        monitors := monitors + [Monitor.Job(printed.value.jobId, code, job.jobId, kioskId)];
        response := Response(200, "DONE");
      } else {
        ReportOutOfService();
        response := Response(503, "OUT_OF_SERVICE");
      }
    }
  }

  /**
   * websocket_endpoint: register the socket, then (once receiving fails)
   * unregister it. A session leaves the registry as it found it, up to
   * order, even when the same socket was already registered.
   */
  method WebsocketSession(hub: Ws.WSManager, ws: Ws.Socket, accepted: bool)
    modifies hub
    ensures multiset(hub.clients) == multiset(old(hub.clients))
  {
    var ok := hub.Connect(ws, accepted);
    if ok {
      var removed := hub.Disconnect(ws);
      assert removed;
    }
  }
}
