/**
 * The owner's diagnostics report (app/diagnostics.py): four independent
 * probes — internet, the local backend port, the local frontend port and a
 * USB printer — each of which answers false on any failure.
 */
module Diagnostics {
  import opened Common
  import opened Text
  import Health

  /** The vendor ids this module keeps for itself: the same three as the health checks. */
  const DiagnosticVendors: seq<string> := ["03f0", "04a9", "04f9"]

  /** Local ports of the backend (the kiosk API) and of the frontend development server. */
  const BackendPort: nat := 8000
  const FrontendPort: nat := 5173

  /** The diagnostics dictionary. */
  datatype Report = Report(internet: bool, backend: bool, frontend: bool, printer: bool)

  /** check_internet: one request to a public site; only a 2xx answer counts. */
  function CheckInternet(reply: HttpReply): (r: bool)
    ensures r <==> reply.Reply? && 200 <= reply.status < 300
  {
    Health.InternetOk(reply)
  }

  /**
   * A TCP connect to 127.0.0.1 succeeds when something listens on the port;
   * `listening` is the set of local ports that accept a connection within
   * the timeout.
   */
  function CheckPort(port: nat, listening: set<nat>): (r: bool)
    ensures r <==> port in listening
  {
    port in listening
  }

  /** check_backend: is the kiosk API's own port accepting connections? */
  function CheckBackend(listening: set<nat>): (r: bool)
    ensures r <==> 8000 in listening
  {
    CheckPort(BackendPort, listening)
  }

  /** check_frontend: is the frontend's port accepting connections? */
  function CheckFrontend(listening: set<nat>): (r: bool)
    ensures r <==> 5173 in listening
  {
    CheckPort(FrontendPort, listening)
  }

  /**
   * check_printer: lsusb must exit 0 and one of its lines must name a
   * printer vendor; any failure reads as "no printer".
   */
  function CheckPrinter(lsusb: ProcOutput): (r: bool)
    ensures r <==> Health.PrinterConnected(lsusb)
  {
    match lsusb
    case Completed(rc, out, _) =>
      assert DiagnosticVendors == Health.PrinterUsbVendors;
      rc == 0 && Health.AnyLineNamesVendor(SplitLines(out), DiagnosticVendors)
    case _ => false
  }

  /** run_diagnostics: all four probes, each run once. */
  function RunDiagnostics(internet: HttpReply, listening: set<nat>, lsusb: ProcOutput): (r: Report)
    ensures r.internet <==> Health.InternetOk(internet)
    ensures r.backend <==> BackendPort in listening
    ensures r.frontend <==> FrontendPort in listening
    ensures r.printer <==> Health.PrinterConnected(lsusb)
  {
    Report(CheckInternet(internet), CheckBackend(listening), CheckFrontend(listening), CheckPrinter(lsusb))
  }

  /**
   * Whenever the kiosk is healthy in the health checks' sense, the report
   * shows internet and printer as up (the two modules agree); the converse
   * also holds for those two fields.
   */
  lemma {:induction false} ReportAgreesWithHealth(internet: HttpReply, listening: set<nat>, lsusb: ProcOutput)
    ensures var r := RunDiagnostics(internet, listening, lsusb);
      Health.SystemHealthy(internet, lsusb).healthy <==> r.internet && r.printer
  {
  }
}
