/**
 * Point-in-time health checks (app/health.py): internet reachability through
 * one HTTP request, and printer presence through the USB vendor ids that
 * `lsusb` lists. Every failure of a probe reads as "not healthy".
 */
module Health {
  import opened Common
  import opened Text

  /** USB vendor ids of HP, Canon and Brother, in the order the scan tries them. */
  const PrinterUsbVendors: seq<string> := ["03f0", "04a9", "04f9"]

  /** The text an lsusb line carries for a device of vendor v. */
  function VendorPattern(v: string): string
  {
    "ID " + v + ":"
  }

  /** Does this lsusb line name one of the vendors? (the inner loop over vendors) */
  function LineNamesVendor(line: string, vendors: seq<string>): bool
  {
    if vendors == [] then false
    else Contains(line, VendorPattern(vendors[0])) || LineNamesVendor(line, vendors[1..])
  }

  /** The early-return scan: is there a line that names a vendor? (the outer loop over lines) */
  function AnyLineNamesVendor(lines: seq<string>, vendors: seq<string>): bool
  {
    if lines == [] then false
    else LineNamesVendor(lines[0], vendors) || AnyLineNamesVendor(lines[1..], vendors)
  }

  /** Reference reading: does the output text mention one of the vendor patterns at all? */
  function TextNamesVendor(text: string, vendors: seq<string>): bool
  {
    if vendors == [] then false
    else Contains(text, VendorPattern(vendors[0])) || TextNamesVendor(text, vendors[1..])
  }

  /**
   * printer_connected: lsusb must run and exit 0 (check_output raises
   * otherwise, and the handler answers false), and some line of its output
   * must name a known vendor.
   */
  function PrinterConnected(lsusb: ProcOutput): bool
  {
    match lsusb
    case Completed(rc, out, _) => rc == 0 && AnyLineNamesVendor(SplitLines(out), PrinterUsbVendors)
    case _ => false
  }

  /** The line scan for a list of vendors splits into the first vendor and the rest. */
  lemma {:induction false} ScanFirstVendor(lines: seq<string>, vendors: seq<string>)
    requires vendors != []
    ensures AnyLineNamesVendor(lines, vendors)
        <==> AnyContains(lines, VendorPattern(vendors[0])) || AnyLineNamesVendor(lines, vendors[1..])
  {
    if lines != [] {
      ScanFirstVendor(lines[1..], vendors);
      assert lines == [lines[0]] + lines[1..];
      AnyContainsCons(lines[0], lines[1..], VendorPattern(vendors[0]));
    } else {
      assert !AnyContains(lines, VendorPattern(vendors[0]));
    }
  }

  /** A vendor pattern has no line break when the vendor id has none. */
  lemma PatternHasNoBreak(v: string)
    requires NoLineBreak(v)
    ensures NoLineBreak(VendorPattern(v))
  {
    var p := VendorPattern(v);
    forall i | 0 <= i < |p| ensures !IsLineBreak(p[i]) {
      if 3 <= i < 3 + |v| {
        assert p[i] == v[i - 3];
      }
    }
  }

  /**
   * Scanning line by line finds a vendor exactly when the whole output
   * mentions "ID <v>:" for one of the vendors: no pattern spans a line
   * boundary.
   */
  lemma {:induction false} ScanFindsVendorAnywhere(out: string, vendors: seq<string>)
    requires forall j :: 0 <= j < |vendors| ==> NoLineBreak(vendors[j])
    ensures AnyLineNamesVendor(SplitLines(out), vendors) <==> TextNamesVendor(out, vendors)
  {
    if vendors == [] {
      if SplitLines(out) != [] {
        NoVendorsNoMatch(SplitLines(out));
      }
    } else {
      ScanFirstVendor(SplitLines(out), vendors);
      PatternHasNoBreak(vendors[0]);
      SomeLineContains(out, VendorPattern(vendors[0]));
      ScanFindsVendorAnywhere(out, vendors[1..]);
    }
  }

  /** With no vendors to look for, no line matches. */
  lemma {:induction false} NoVendorsNoMatch(lines: seq<string>)
    ensures !AnyLineNamesVendor(lines, [])
  {
    if lines != [] {
      NoVendorsNoMatch(lines[1..]);
    }
  }

  /**
   * printer_connected is true exactly when lsusb exits 0 and its output
   * contains "ID 03f0:", "ID 04a9:" or "ID 04f9:"; a non-zero exit, a
   * timeout or any other failure all give false.
   */
  lemma PrinterConnectedIff(lsusb: ProcOutput)
    ensures PrinterConnected(lsusb) <==>
      && lsusb.Completed? && lsusb.returncode == 0
      && (Contains(lsusb.stdout, "ID 03f0:") || Contains(lsusb.stdout, "ID 04a9:") || Contains(lsusb.stdout, "ID 04f9:"))
  {
    if lsusb.Completed? {
      var vs := PrinterUsbVendors;
      assert forall j :: 0 <= j < |vs| ==> NoLineBreak(vs[j]);
      ScanFindsVendorAnywhere(lsusb.stdout, vs);
      assert VendorPattern(vs[0]) == "ID 03f0:";
      assert VendorPattern(vs[1]) == "ID 04a9:";
      assert VendorPattern(vs[2]) == "ID 04f9:";
      var out := lsusb.stdout;
      assert vs[1..][1..][1..] == [];
      assert !TextNamesVendor(out, vs[1..][1..][1..]);
      assert TextNamesVendor(out, vs[1..][1..]) == Contains(out, "ID 04f9:");
      assert TextNamesVendor(out, vs[1..]) == (Contains(out, "ID 04a9:") || Contains(out, "ID 04f9:"));
    }
  }

  /** Empty lsusb output never reports a printer. */
  lemma EmptyOutputNoPrinter(stderr: string)
    ensures !PrinterConnected(Completed(0, "", stderr))
  {
  }

  /**
   * internet_ok: urlopen returns normally only for a final 2xx status (it
   * follows redirects and raises on any other status or transport error).
   */
  function InternetOk(reply: HttpReply): (r: bool)
    ensures r ==> reply.Reply?
  {
    reply.Reply? && 200 <= reply.status < 300
  }

  /** One evaluation of system_healthy, and whether it got as far as running lsusb. */
  datatype HealthCheck = HealthCheck(healthy: bool, printerProbed: bool)

  /**
   * system_healthy: `internet_ok() and printer_connected()`; the `and`
   * short-circuits, so lsusb runs only when the internet probe succeeded.
   */
  function SystemHealthy(internet: HttpReply, lsusb: ProcOutput): (r: HealthCheck)
    ensures r.healthy <==> InternetOk(internet) && PrinterConnected(lsusb)
    ensures r.printerProbed <==> InternetOk(internet)
  {
    if InternetOk(internet) then HealthCheck(PrinterConnected(lsusb), true)
    else HealthCheck(false, false)
  }
}
