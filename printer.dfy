/**
 * Submitting a document to CUPS (app/printer.py, first half): finding the
 * printer from `lpstat` output, turning the print options into an `lp`
 * command line, reading the job id from `lp`'s answer, and the error
 * messages print_document raises. The temporary file is an object whose
 * deletions are counted.
 */
module Printer {
  import opened Common
  import opened Text
  import Health

  // ---------------------------------------------------------------- get_default_printer

  /** The first piece of split("\n"): the text before the first newline. */
  function FirstLine(s: string): string
  {
    Split(s, '\n')[0]
  }

  /**
   * get_default_printer, given what `lpstat -d` and (when it is consulted)
   * `lpstat -p` answer. Every failure becomes the message of the
   * PrinterUnavailable it raises; NO_PRINTER_FOUND and an IndexError are
   * caught by the function's own generic handler and re-wrapped.
   */
  function DefaultPrinter(lpstatD: ProcOutput, lpstatP: ProcOutput): Result<string, string>
  {
    match lpstatD
    case TimedOut => Err("PRINTER_CHECK_TIMEOUT")
    case Failed(m) => Err("PRINTER_ERROR: " + m)
    case Completed(rc, out, _) =>
      if rc == 0 && out != "" then Ok(Strip(Last(Split(Strip(out), ':'))))
      else
        match lpstatP
        case TimedOut => Err("PRINTER_CHECK_TIMEOUT")
        case Failed(m) => Err("PRINTER_ERROR: " + m)
        case Completed(rc2, out2, _) =>
          if rc2 == 0 && Contains(out2, "printer") then
            var words := SplitWs(FirstLine(out2));
            if |words| < 2 then Err("PRINTER_ERROR: list index out of range") else Ok(words[1])
          else Err("PRINTER_ERROR: NO_PRINTER_FOUND")
  }

  /** strip() only removes characters. */
  lemma StripSubset(s: string, c: char)
    requires c !in s
    ensures c !in Strip(s)
  {
    var t := TrimStart(s);
    assert c !in t;
  }

  /** A string starts with the text it was built from. */
  lemma PrefixOfConcat(p: string, m: string)
    ensures IsPrefix(p, p + m)
  {
    assert (p + m)[..|p|] == p;
  }

  /** get_default_printer raises either PRINTER_CHECK_TIMEOUT or a PRINTER_ERROR message. */
  lemma DefaultPrinterErrors(lpstatD: ProcOutput, lpstatP: ProcOutput)
    ensures var r := DefaultPrinter(lpstatD, lpstatP);
      r.Err? ==> r.error == "PRINTER_CHECK_TIMEOUT" || IsPrefix("PRINTER_ERROR: ", r.error)
  {
    var r := DefaultPrinter(lpstatD, lpstatP);
    if r.Err? && r.error != "PRINTER_CHECK_TIMEOUT" {
      if lpstatD.Failed? {
        PrefixOfConcat("PRINTER_ERROR: ", lpstatD.message);
      } else if lpstatP.Failed? {
        PrefixOfConcat("PRINTER_ERROR: ", lpstatP.message);
      } else {
        assert r.error == "PRINTER_ERROR: list index out of range" || r.error == "PRINTER_ERROR: NO_PRINTER_FOUND";
        PrefixOfConcat("PRINTER_ERROR: ", "list index out of range");
        PrefixOfConcat("PRINTER_ERROR: ", "NO_PRINTER_FOUND");
      }
    }
  }

  /** Does `lpstat -d` name the default printer (exit 0 and some output)? */
  predicate NamesDefault(lpstatD: ProcOutput)
  {
    lpstatD.Completed? && lpstatD.returncode == 0 && lpstatD.stdout != ""
  }

  /**
   * When `lpstat -d` answers, the printer is the stripped text after the last
   * ':' of the stripped output, or the whole stripped output when it has no
   * ':'; `lpstat -p` is not consulted.
   */
  lemma {:induction false} DefaultFromLpstatD(lpstatD: ProcOutput, lpstatP: ProcOutput)
    requires NamesDefault(lpstatD)
    ensures var s := Strip(lpstatD.stdout); var r := DefaultPrinter(lpstatD, lpstatP);
      && r.Ok? && ':' !in r.value && Stripped(r.value)
      && (':' !in s ==> r.value == s)
      && (':' in s ==> exists k :: 0 <= k < |s| && s[k] == ':' && ':' !in s[k + 1..] && r.value == Strip(s[k + 1..]))
  {
    var s := Strip(lpstatD.stdout);
    var l := Last(Split(s, ':'));
    SplitLastIsSuffix(s, ':');
    SplitWithoutSeparator(s, ':');
    assert l in Split(s, ':');
    StripSubset(l, ':');
    if ':' !in s {
      StripIdempotent(lpstatD.stdout);
    } else {
      var k := |s| - |l| - 1;
      assert s[k + 1..] == l;
    }
  }

  /**
   * Without a default, the printer is the second word of the first line of
   * `lpstat -p` when that output mentions "printer"; a first line of fewer
   * than two words gives the IndexError message, and output without
   * "printer" (or a non-zero exit) gives NO_PRINTER_FOUND.
   */
  lemma {:induction false} DefaultFromLpstatP(lpstatD: ProcOutput, lpstatP: ProcOutput)
    requires lpstatD.Completed? && !NamesDefault(lpstatD) && lpstatP.Completed?
    ensures var r := DefaultPrinter(lpstatD, lpstatP); var words := SplitWs(FirstLine(lpstatP.stdout));
      && (lpstatP.returncode != 0 || !Contains(lpstatP.stdout, "printer") ==> r == Err("PRINTER_ERROR: NO_PRINTER_FOUND"))
      && (lpstatP.returncode == 0 && Contains(lpstatP.stdout, "printer") ==>
            && (|words| < 2 ==> r == Err("PRINTER_ERROR: list index out of range"))
            && (|words| >= 2 ==> r == Ok(words[1]) && r.value != "" && NoSpace(r.value) && '\n' !in r.value))
  {
    var words := SplitWs(FirstLine(lpstatP.stdout));
    SplitWsWords(FirstLine(lpstatP.stdout));
    if |words| >= 2 {
      assert NoSpace(words[1]);
      assert IsSpace('\n');
    }
  }

  // ---------------------------------------------------------------- build_lp_command

  /** The print-options dictionary; None stands for a missing key. */
  datatype PrintOptions = PrintOptions(
    colorMode: Option<Value>,
    duplex: Option<Value>,
    copies: Option<Value>,
    pageRange: Option<string>,
    orientation: Option<Value>,
    media: Option<string>,
    quality: Option<Value>)

  /** One option of the lp command line: a flag and its argument. */
  datatype Arg = Arg(flag: string, value: string)

  function Flatten(args: seq<Arg>): (r: seq<string>)
    ensures |r| == 2 * |args|
  {
    if args == [] then [] else [args[0].flag, args[0].value] + Flatten(args[1..])
  }

  lemma {:induction false} FlattenAppend(a: seq<Arg>, b: seq<Arg>)
    ensures Flatten(a + b) == Flatten(a) + Flatten(b)
  {
    if a != [] {
      FlattenAppend(a[1..], b);
      assert (a + b)[1..] == a[1..] + b;
    } else {
      assert a + b == b;
    }
  }

  /** options.get("duplex", "one-sided") */
  function DuplexOrDefault(o: PrintOptions): Value
  {
    if o.duplex.Some? then o.duplex.value else Str("one-sided")
  }

  /** options.get("copies", 1) */
  function CopiesOrDefault(o: PrintOptions): Value
  {
    if o.copies.Some? then o.copies.value else Int(1)
  }

  function ColorArgs(o: PrintOptions): seq<Arg>
  {
    if o.colorMode == Some(Str("monochrome")) then [Arg("-o", "ColorModel=Gray")]
    else if o.colorMode == Some(Str("color")) then [Arg("-o", "ColorModel=RGB")]
    else []
  }

  function SidesArgs(o: PrintOptions): seq<Arg>
  {
    if Truthy(DuplexOrDefault(o)) then [Arg("-o", "sides=two-sided-long-edge")] else [Arg("-o", "sides=one-sided")]
  }

  /**
   * `copies > 1`, which raises TypeError for None and for a string
   * (a bool compares as 0 or 1).
   */
  function CopiesArgs(o: PrintOptions): Result<seq<Arg>, string>
  {
    match CopiesOrDefault(o)
    case Int(n) => Ok(if n > 1 then [Arg("-n", IntToString(n))] else [])
    case Bool(_) => Ok([])
    case Null => Err("'>' not supported between instances of 'NoneType' and 'int'")
    case Str(_) => Err("'>' not supported between instances of 'str' and 'int'")
  }

  function PageArgs(o: PrintOptions): seq<Arg>
  {
    if o.pageRange.Some? then [Arg("-P", o.pageRange.value)] else []
  }

  function OrientationArgs(o: PrintOptions): seq<Arg>
  {
    if o.orientation == Some(Str("landscape")) then [Arg("-o", "landscape")] else []
  }

  function MediaArgs(o: PrintOptions): seq<Arg>
  {
    if o.media.Some? then [Arg("-o", "media=" + o.media.value)] else []
  }

  function QualityArgs(o: PrintOptions): seq<Arg>
  {
    if o.quality == Some(Str("draft")) then [Arg("-o", "print-quality=3")]
    else if o.quality == Some(Str("high")) then [Arg("-o", "print-quality=5")]
    else []
  }

  /** The options of the command line, in the order the builder adds them. */
  function LpArgs(o: PrintOptions): Result<seq<Arg>, string>
  {
    match CopiesArgs(o)
    case Err(e) => Err(e)
    case Ok(copies) =>
      Ok(ColorArgs(o) + SidesArgs(o) + copies + PageArgs(o) + OrientationArgs(o) + MediaArgs(o) + QualityArgs(o))
  }

  /** The whole command line: `lp -d <printer>`, the words of each option in turn, the file. */
  function LpCommand(printer: string, filePath: string, o: PrintOptions): Result<seq<string>, string>
  {
    match CopiesArgs(o)
    case Err(e) => Err(e)
    case Ok(copies) =>
      Ok(["lp", "-d", printer] + Words(ColorArgs(o)) + Words(SidesArgs(o)) + Words(copies) + Words(PageArgs(o))
         + Words(OrientationArgs(o)) + Words(MediaArgs(o)) + Words(QualityArgs(o)) + [filePath])
  }

  /** Seven options of at most one element each flatten to their words in turn. */
  lemma FlattenSegments(s1: seq<Arg>, s2: seq<Arg>, s3: seq<Arg>, s4: seq<Arg>, s5: seq<Arg>, s6: seq<Arg>, s7: seq<Arg>)
    requires |s1| <= 1 && |s2| <= 1 && |s3| <= 1 && |s4| <= 1 && |s5| <= 1 && |s6| <= 1 && |s7| <= 1
    ensures Flatten(s1 + s2 + s3 + s4 + s5 + s6 + s7)
         == Words(s1) + Words(s2) + Words(s3) + Words(s4) + Words(s5) + Words(s6) + Words(s7)
  {
    FlattenFour(s1, s2, s3, s4);
    Extend(s1 + s2 + s3 + s4, s5);
    Extend(s1 + s2 + s3 + s4 + s5, s6);
    Extend(s1 + s2 + s3 + s4 + s5 + s6, s7);
  }

  /** The first four of them. */
  lemma FlattenFour(s1: seq<Arg>, s2: seq<Arg>, s3: seq<Arg>, s4: seq<Arg>)
    requires |s1| <= 1 && |s2| <= 1 && |s3| <= 1 && |s4| <= 1
    ensures Flatten(s1 + s2 + s3 + s4) == Words(s1) + Words(s2) + Words(s3) + Words(s4)
  {
    Extend([], s1);
    assert [] + s1 == s1;
    Extend(s1, s2);
    Extend(s1 + s2, s3);
    Extend(s1 + s2 + s3, s4);
  }

  /** Concatenation regrouped around its seven middle parts. */
  lemma Regroup<T>(p: seq<T>, w1: seq<T>, w2: seq<T>, w3: seq<T>, w4: seq<T>, w5: seq<T>, w6: seq<T>, w7: seq<T>, q: seq<T>)
    ensures p + w1 + w2 + w3 + w4 + w5 + w6 + w7 + q == p + (w1 + w2 + w3 + w4 + w5 + w6 + w7) + q
  {
  }

  /** The command line is `lp -d <printer>`, then the option list word by word, then the file. */
  lemma LpCommandFlattens(printer: string, filePath: string, o: PrintOptions)
    ensures LpCommand(printer, filePath, o).Err? <==> LpArgs(o).Err?
    ensures LpArgs(o).Ok? ==> LpCommand(printer, filePath, o).value == ["lp", "-d", printer] + Flatten(LpArgs(o).value) + [filePath]
  {
    if LpArgs(o).Ok? {
      var s1, s2, s3, s4 := ColorArgs(o), SidesArgs(o), CopiesArgs(o).value, PageArgs(o);
      var s5, s6, s7 := OrientationArgs(o), MediaArgs(o), QualityArgs(o);
      FlattenSegments(s1, s2, s3, s4, s5, s6, s7);
      Regroup(["lp", "-d", printer], Words(s1), Words(s2), Words(s3), Words(s4), Words(s5), Words(s6), Words(s7), [filePath]);
    }
  }

  /** build_lp_command: grow the command one option at a time. */
  method BuildLpCommand(printer: string, filePath: string, o: PrintOptions) returns (r: Result<seq<string>, string>)
    ensures r == LpCommand(printer, filePath, o)
  {
    var cmd := ["lp", "-d", printer];
    cmd := AddColor(cmd, o);
    cmd := AddSides(cmd, o);
    var withCopies := AddCopies(cmd, o);
    if withCopies.Err? {
      return Err(withCopies.error);
    }
    cmd := withCopies.value;
    cmd := AddPageRange(cmd, o);
    cmd := AddOrientation(cmd, o);
    cmd := AddMedia(cmd, o);
    cmd := AddQuality(cmd, o);
    cmd := cmd + [filePath];
    r := Ok(cmd);
  }

  method AddColor(cmd: seq<string>, o: PrintOptions) returns (r: seq<string>)
    ensures r == cmd + Words(ColorArgs(o))
  {
    r := cmd;
    if o.colorMode == Some(Str("monochrome")) {
      r := r + ["-o", "ColorModel=Gray"];
    } else if o.colorMode == Some(Str("color")) {
      r := r + ["-o", "ColorModel=RGB"];
    }
  }

  method AddSides(cmd: seq<string>, o: PrintOptions) returns (r: seq<string>)
    ensures r == cmd + Words(SidesArgs(o))
  {
    var duplex := if o.duplex.Some? then o.duplex.value else Str("one-sided");
    if Truthy(duplex) {
      r := cmd + ["-o", "sides=two-sided-long-edge"];
    } else {
      r := cmd + ["-o", "sides=one-sided"];
    }
  }

  method AddCopies(cmd: seq<string>, o: PrintOptions) returns (r: Result<seq<string>, string>)
    ensures CopiesArgs(o).Err? ==> r == Err(CopiesArgs(o).error)
    ensures CopiesArgs(o).Ok? ==> r == Ok(cmd + Words(CopiesArgs(o).value))
  {
    var copies := if o.copies.Some? then o.copies.value else Int(1);
    match copies {
      case Null =>
        return Err("'>' not supported between instances of 'NoneType' and 'int'");
      case Str(_) =>
        return Err("'>' not supported between instances of 'str' and 'int'");
      case Bool(_) =>
        assert cmd + [] == cmd;
        return Ok(cmd);
      case Int(n) =>
        if n > 1 {
          return Ok(cmd + ["-n", IntToString(n)]);
        }
        assert cmd + [] == cmd;
        return Ok(cmd);
    }
  }

  method AddPageRange(cmd: seq<string>, o: PrintOptions) returns (r: seq<string>)
    ensures r == cmd + Words(PageArgs(o))
  {
    r := cmd;
    if o.pageRange.Some? {
      r := r + ["-P", o.pageRange.value];
    }
  }

  method AddOrientation(cmd: seq<string>, o: PrintOptions) returns (r: seq<string>)
    ensures r == cmd + Words(OrientationArgs(o))
  {
    r := cmd;
    if o.orientation == Some(Str("landscape")) {
      r := r + ["-o", "landscape"];
    }
  }

  method AddMedia(cmd: seq<string>, o: PrintOptions) returns (r: seq<string>)
    ensures r == cmd + Words(MediaArgs(o))
  {
    r := cmd;
    if o.media.Some? {
      r := r + ["-o", "media=" + o.media.value];
    }
  }

  method AddQuality(cmd: seq<string>, o: PrintOptions) returns (r: seq<string>)
    ensures r == cmd + Words(QualityArgs(o))
  {
    r := cmd;
    if o.quality == Some(Str("draft")) {
      r := r + ["-o", "print-quality=3"];
    } else if o.quality == Some(Str("high")) {
      r := r + ["-o", "print-quality=5"];
    }
  }

  /** The words of at most one option. */
  function Words(more: seq<Arg>): seq<string>
    requires |more| <= 1
  {
    if more == [] then [] else [more[0].flag, more[0].value]
  }

  /** Adding at most one option adds its flag and argument as two words. */
  lemma Extend(args: seq<Arg>, more: seq<Arg>)
    requires |more| <= 1
    ensures Flatten(args + more) == Flatten(args) + Words(more)
  {
    FlattenAppend(args, more);
    if more != [] {
      assert Flatten(more) == [more[0].flag, more[0].value] + Flatten([]);
    }
  }

  /** Does the option list contain this flag with some argument? */
  predicate HasFlag(args: seq<Arg>, flag: string)
  {
    exists k :: 0 <= k < |args| && args[k].flag == flag
  }

  /** How many options set the sides= property. */
  function SidesCount(args: seq<Arg>): nat
  {
    if args == [] then 0
    else (if args[0].flag == "-o" && IsPrefix("sides=", args[0].value) then 1 else 0) + SidesCount(args[1..])
  }

  lemma {:induction false} SidesCountAppend(a: seq<Arg>, b: seq<Arg>)
    ensures SidesCount(a + b) == SidesCount(a) + SidesCount(b)
  {
    if a == [] {
      assert a + b == b;
    } else {
      assert (a + b)[1..] == a[1..] + b;
      SidesCountAppend(a[1..], b);
    }
  }

  /**
   * The command line starts with `lp -d <printer>` and ends with the file;
   * building fails only for copies that are None or a string.
   */
  lemma LpCommandFrame(printer: string, filePath: string, o: PrintOptions)
    ensures var r := LpCommand(printer, filePath, o);
      && (r.Err? <==> CopiesOrDefault(o).Null? || CopiesOrDefault(o).Str?)
      && (r.Ok? ==> |r.value| >= 6 && r.value[..3] == ["lp", "-d", printer] && r.value[|r.value| - 1] == filePath)
  {
  }

  /** Counting sides= options over seven consecutive parts. */
  lemma SidesCountSegments(s1: seq<Arg>, s2: seq<Arg>, s3: seq<Arg>, s4: seq<Arg>, s5: seq<Arg>, s6: seq<Arg>, s7: seq<Arg>)
    ensures SidesCount(s1 + s2 + s3 + s4 + s5 + s6 + s7)
         == SidesCount(s1) + SidesCount(s2) + SidesCount(s3) + SidesCount(s4) + SidesCount(s5) + SidesCount(s6) + SidesCount(s7)
  {
    SidesCountAppend(s1, s2);
    SidesCountAppend(s1 + s2, s3);
    SidesCountAppend(s1 + s2 + s3, s4);
    SidesCountAppend(s1 + s2 + s3 + s4, s5);
    SidesCountAppend(s1 + s2 + s3 + s4 + s5, s6);
    SidesCountAppend(s1 + s2 + s3 + s4 + s5 + s6, s7);
  }

  /** An option whose argument starts with another word than "sides=" does not count. */
  lemma NotSides(a: Arg)
    requires |a.value| >= 6 && a.value[..6] != "sides="
    ensures SidesCount([a]) == 0
  {
    assert [a][1..] == [];
  }

  /** Exactly one sides= option is emitted, whatever the options. */
  lemma SidesExactlyOnce(o: PrintOptions)
    requires LpArgs(o).Ok?
    ensures SidesCount(LpArgs(o).value) == 1
  {
    SidesCountSegments(ColorArgs(o), SidesArgs(o), CopiesArgs(o).value, PageArgs(o), OrientationArgs(o), MediaArgs(o), QualityArgs(o));
    SegmentsWithoutSides(o);
    var s := SidesArgs(o)[0];
    assert IsPrefix("sides=", s.value);
    assert SidesArgs(o)[1..] == [];
  }

  /** An element of seven consecutive parts is an element of one of them. */
  lemma InSegments<T>(x: T, s1: seq<T>, s2: seq<T>, s3: seq<T>, s4: seq<T>, s5: seq<T>, s6: seq<T>, s7: seq<T>)
    ensures x in s1 + s2 + s3 + s4 + s5 + s6 + s7 <==> x in s1 || x in s2 || x in s3 || x in s4 || x in s5 || x in s6 || x in s7
  {
  }

  /**
   * The sides= option is one-sided only for a falsy duplex value, so a
   * missing duplex (default "one-sided", a non-empty string) prints on
   * both sides.
   */
  lemma OneSidedIff(o: PrintOptions)
    requires LpArgs(o).Ok?
    ensures Arg("-o", "sides=one-sided") in LpArgs(o).value <==> !Truthy(DuplexOrDefault(o))
    ensures o.duplex.None? ==> Arg("-o", "sides=two-sided-long-edge") in LpArgs(o).value
  {
    var one := Arg("-o", "sides=one-sided");
    var c := CopiesArgs(o).value;
    InSegments(one, ColorArgs(o), SidesArgs(o), c, PageArgs(o), OrientationArgs(o), MediaArgs(o), QualityArgs(o));
    assert one !in ColorArgs(o) && one !in c && one !in PageArgs(o) && one !in OrientationArgs(o) && one !in QualityArgs(o);
    if o.media.Some? {
      assert ("media=" + o.media.value)[0] == 'm';
    }
    assert one !in MediaArgs(o);
  }

  /** Only the duplex option sets sides=. */
  lemma SegmentsWithoutSides(o: PrintOptions)
    requires CopiesArgs(o).Ok?
    ensures SidesCount(ColorArgs(o)) == 0 && SidesCount(CopiesArgs(o).value) == 0 && SidesCount(PageArgs(o)) == 0
    ensures SidesCount(OrientationArgs(o)) == 0 && SidesCount(MediaArgs(o)) == 0 && SidesCount(QualityArgs(o)) == 0
  {
    if ColorArgs(o) != [] {
      assert ColorArgs(o)[0].value[..6] == "ColorM";
      NotSides(ColorArgs(o)[0]);
    }
    if CopiesArgs(o).value != [] {
      assert CopiesArgs(o).value[1..] == [];
    }
    if PageArgs(o) != [] {
      assert PageArgs(o)[1..] == [];
    }
    if OrientationArgs(o) != [] {
      assert "landscape"[..6] == "landsc";
      NotSides(OrientationArgs(o)[0]);
    }
    if MediaArgs(o) != [] {
      assert ("media=" + o.media.value)[..6] == "media=";
      NotSides(MediaArgs(o)[0]);
    }
    if QualityArgs(o) != [] {
      assert QualityArgs(o)[0].value[..6] == "print-";
      NotSides(QualityArgs(o)[0]);
    }
  }

  /** A flag occurs in a concatenation exactly when it occurs in one of the parts. */
  lemma HasFlagAppend(a: seq<Arg>, b: seq<Arg>, flag: string)
    ensures HasFlag(a + b, flag) <==> HasFlag(a, flag) || HasFlag(b, flag)
  {
    if HasFlag(a + b, flag) {
      var k :| 0 <= k < |a + b| && (a + b)[k].flag == flag;
      if k < |a| {
        assert a[k] == (a + b)[k];
      } else {
        assert b[k - |a|] == (a + b)[k];
      }
    }
    if HasFlag(a, flag) {
      var k :| 0 <= k < |a| && a[k].flag == flag;
      assert (a + b)[k] == a[k];
    }
    if HasFlag(b, flag) {
      var k :| 0 <= k < |b| && b[k].flag == flag;
      assert (a + b)[|a| + k] == b[k];
    }
  }

  /** A flag occurs in seven consecutive options of at most one element each exactly when one of them carries it. */
  lemma FlagSegments(s1: seq<Arg>, s2: seq<Arg>, s3: seq<Arg>, s4: seq<Arg>, s5: seq<Arg>, s6: seq<Arg>, s7: seq<Arg>, flag: string)
    requires |s1| <= 1 && |s2| <= 1 && |s3| <= 1 && |s4| <= 1 && |s5| <= 1 && |s6| <= 1 && |s7| <= 1
    ensures HasFlag(s1 + s2 + s3 + s4 + s5 + s6 + s7, flag) <==>
      || (s1 != [] && s1[0].flag == flag) || (s2 != [] && s2[0].flag == flag) || (s3 != [] && s3[0].flag == flag)
      || (s4 != [] && s4[0].flag == flag) || (s5 != [] && s5[0].flag == flag) || (s6 != [] && s6[0].flag == flag)
      || (s7 != [] && s7[0].flag == flag)
  {
    HasFlagAppend(s1, s2, flag);
    HasFlagAppend(s1 + s2, s3, flag);
    HasFlagAppend(s1 + s2 + s3, s4, flag);
    HasFlagAppend(s1 + s2 + s3 + s4, s5, flag);
    HasFlagAppend(s1 + s2 + s3 + s4 + s5, s6, flag);
    HasFlagAppend(s1 + s2 + s3 + s4 + s5 + s6, s7, flag);
  }

  /** `-n` appears exactly when copies is an integer above one, carrying its decimal text. */
  lemma CopiesFlagIff(o: PrintOptions)
    requires LpArgs(o).Ok?
    ensures HasFlag(LpArgs(o).value, "-n") <==> CopiesOrDefault(o).Int? && CopiesOrDefault(o).i > 1
    ensures CopiesOrDefault(o).Int? && CopiesOrDefault(o).i > 1 ==> Arg("-n", IntToString(CopiesOrDefault(o).i)) in LpArgs(o).value
  {
    var c := CopiesArgs(o).value;
    FlagSegments(ColorArgs(o), SidesArgs(o), c, PageArgs(o), OrientationArgs(o), MediaArgs(o), QualityArgs(o), "-n");
  }

  /** `-P` appears exactly when a page range is given, carrying it. */
  lemma PageRangeIff(o: PrintOptions)
    requires LpArgs(o).Ok?
    ensures HasFlag(LpArgs(o).value, "-P") <==> o.pageRange.Some?
    ensures o.pageRange.Some? ==> Arg("-P", o.pageRange.value) in LpArgs(o).value
  {
    var c := CopiesArgs(o).value;
    FlagSegments(ColorArgs(o), SidesArgs(o), c, PageArgs(o), OrientationArgs(o), MediaArgs(o), QualityArgs(o), "-P");
  }

  /** ColorModel appears exactly for color_mode "monochrome" (Gray) or "color" (RGB). */
  lemma ColorModelIff(o: PrintOptions)
    requires LpArgs(o).Ok?
    ensures Arg("-o", "ColorModel=Gray") in LpArgs(o).value <==> o.colorMode == Some(Str("monochrome"))
    ensures Arg("-o", "ColorModel=RGB") in LpArgs(o).value <==> o.colorMode == Some(Str("color"))
  {
    var g, rgb, c := Arg("-o", "ColorModel=Gray"), Arg("-o", "ColorModel=RGB"), CopiesArgs(o).value;
    InSegments(g, ColorArgs(o), SidesArgs(o), c, PageArgs(o), OrientationArgs(o), MediaArgs(o), QualityArgs(o));
    InSegments(rgb, ColorArgs(o), SidesArgs(o), c, PageArgs(o), OrientationArgs(o), MediaArgs(o), QualityArgs(o));
    NoOtherOption(o, g);
    NoOtherOption(o, rgb);
  }

  /** Options of the fixed shapes other than color appear nowhere after the color option. */
  lemma NoOtherOption(o: PrintOptions, a: Arg)
    requires CopiesArgs(o).Ok?
    requires a.flag == "-o" && |a.value| >= 6 && a.value[..6] == "ColorM"
    ensures a !in SidesArgs(o) && a !in CopiesArgs(o).value && a !in PageArgs(o)
    ensures a !in OrientationArgs(o) && a !in MediaArgs(o) && a !in QualityArgs(o)
  {
    if o.media.Some? {
      assert ("media=" + o.media.value)[..6] == "media=";
    }
    assert "landscape"[..6] == "landsc";
    assert "print-quality=3"[..6] == "print-" && "print-quality=5"[..6] == "print-";
    assert "sides=one-sided"[..6] == "sides=" && "sides=two-sided-long-edge"[..6] == "sides=";
  }

  /** landscape appears exactly for orientation "landscape". */
  lemma LandscapeIff(o: PrintOptions)
    requires LpArgs(o).Ok?
    ensures Arg("-o", "landscape") in LpArgs(o).value <==> o.orientation == Some(Str("landscape"))
  {
    var a := Arg("-o", "landscape");
    if o.media.Some? {
      assert ("media=" + o.media.value)[0] == 'm';
    }
    assert a !in ColorArgs(o) && a !in SidesArgs(o) && a !in CopiesArgs(o).value && a !in PageArgs(o) && a !in QualityArgs(o);
  }

  /** print-quality appears exactly for quality "draft" (3) or "high" (5). */
  lemma QualityIff(o: PrintOptions)
    requires LpArgs(o).Ok?
    ensures Arg("-o", "print-quality=3") in LpArgs(o).value <==> o.quality == Some(Str("draft"))
    ensures Arg("-o", "print-quality=5") in LpArgs(o).value <==> o.quality == Some(Str("high"))
  {
    if o.media.Some? {
      assert ("media=" + o.media.value)[0] == 'm';
    }
    var a, b := Arg("-o", "print-quality=3"), Arg("-o", "print-quality=5");
    assert a !in ColorArgs(o) && a !in SidesArgs(o) && a !in CopiesArgs(o).value && a !in PageArgs(o) && a !in OrientationArgs(o);
    assert b !in ColorArgs(o) && b !in SidesArgs(o) && b !in CopiesArgs(o).value && b !in PageArgs(o) && b !in OrientationArgs(o);
  }

  /** media=<m> appears exactly when the media key holds m. */
  lemma MediaIff(o: PrintOptions, m: string)
    requires LpArgs(o).Ok?
    ensures Arg("-o", "media=" + m) in LpArgs(o).value <==> o.media == Some(m)
  {
    var a := Arg("-o", "media=" + m);
    assert ("media=" + m)[0] == 'm';
    assert a !in ColorArgs(o) && a !in SidesArgs(o) && a !in CopiesArgs(o).value && a !in PageArgs(o);
    assert a !in OrientationArgs(o) && a !in QualityArgs(o);
    if o.media.Some? && a in MediaArgs(o) {
      assert m == ("media=" + m)[6..] == ("media=" + o.media.value)[6..] == o.media.value;
    }
  }

  // ---------------------------------------------------------------- lp's answer

  const RequestMarker: string := "request id is"

  /**
   * The job id in lp's answer: the first word after the first
   * "request id is" (up to the next occurrence), or None when the phrase is
   * missing; no word there is an IndexError.
   */
  function LpJobId(stdout: string): (r: Result<Option<string>, string>)
    ensures r == Ok(None) <==> !Contains(stdout, RequestMarker)
    ensures r.Err? ==> r.error == "list index out of range" && Contains(stdout, RequestMarker)
    ensures r.Ok? && r.value.Some? ==> r.value.value != "" && NoSpace(r.value.value)
  {
    if !Contains(stdout, RequestMarker) then Ok(None)
    else
      var words := SplitWs(PieceAfterFirst(stdout, RequestMarker));
      if words == [] then Err("list index out of range")
      else
        SplitWsWords(PieceAfterFirst(stdout, RequestMarker));
        assert NoSpace(words[0]);
        StripKeepsStripped(words[0]);
        Ok(Some(Strip(words[0])))
  }

  /** No character of "request id is" after the first is an 'r': the phrase cannot overlap itself. */
  lemma MarkerStartsOnce()
    ensures RequestMarker[0] == 'r' && !IsSpace('r')
    ensures forall d :: 1 <= d < |RequestMarker| ==> RequestMarker[d] != 'r'
  {
  }

  /** The first "request id is" in `pre + marker + tail` is the one after `pre`. */
  lemma FirstMarkerAfter(pre: string, tail: string)
    requires !Contains(pre, RequestMarker)
    ensures FindFirst(pre + RequestMarker + tail, RequestMarker) == Some(|pre|)
  {
    var m := RequestMarker;
    var s := pre + m + tail;
    MarkerStartsOnce();
    assert s[|pre|..|pre| + |m|] == m;
    assert OccursAt(s, m, |pre|);
    assert s[|pre|] == 'r';
    forall j: nat | j < |pre| ensures !OccursAt(s, m, j) {
      if j + |m| <= |pre| {
        assert s[j..j + |m|] == pre[j..j + |m|];
        assert !OccursAt(pre, m, j);
      } else if j + |m| <= |s| {
        assert s[j..j + |m|][|pre| - j] == s[|pre|];
      }
    }
    FindFirstIsFirst(s, m);
  }

  /** White space holds no "request id is". */
  lemma SpaceHasNoMarker(ws: string)
    requires forall i :: 0 <= i < |ws| ==> IsSpace(ws[i])
    ensures !Contains(ws, RequestMarker)
  {
    MarkerStartsOnce();
    forall i: nat | i + |RequestMarker| <= |ws| ensures !OccursAt(ws, RequestMarker, i) {
      assert ws[i..i + |RequestMarker|][0] == ws[i];
    }
  }

  /**
   * lp's answer names its job after the first "request id is": the id read
   * is the word that follows the phrase, however much white space comes
   * between them.
   */
  lemma LpJobIdReadsWord(pre: string, ws: string, w: string, rest: string)
    requires !Contains(pre, RequestMarker)
    requires forall i :: 0 <= i < |ws| ==> IsSpace(ws[i])
    requires w != "" && NoSpace(w)
    requires rest == [] || IsSpace(rest[0])
    requires !Contains(ws + w + rest, RequestMarker)
    ensures LpJobId(pre + RequestMarker + ws + w + rest) == Ok(Some(w))
  {
    var tail := ws + w + rest;
    var s := pre + RequestMarker + tail;
    assert s == pre + RequestMarker + ws + w + rest;
    FirstMarkerAfter(pre, tail);
    assert s[|pre| + |RequestMarker|..] == tail;
    FindFirstIsFirst(tail, RequestMarker);
    assert PieceAfterFirst(s, RequestMarker) == tail;
    FirstWord(ws, w, rest);
    StripKeepsStripped(w);
  }

  /** The phrase followed only by white space has no word to read: the IndexError. */
  lemma LpJobIdNoWord(pre: string, ws: string)
    requires !Contains(pre, RequestMarker)
    requires forall i :: 0 <= i < |ws| ==> IsSpace(ws[i])
    ensures LpJobId(pre + RequestMarker + ws) == Err("list index out of range")
  {
    var s := pre + RequestMarker + ws;
    FirstMarkerAfter(pre, ws);
    assert s[|pre| + |RequestMarker|..] == ws;
    SpaceHasNoMarker(ws);
    FindFirstIsFirst(ws, RequestMarker);
    assert PieceAfterFirst(s, RequestMarker) == ws;
    NoWords(ws);
  }

  // ---------------------------------------------------------------- the temporary file

  /** The downloaded document on disk, with a count of delete_temp_file calls. */
  class TempFile {
    const path: string
    var present: bool
    /** delete_temp_file calls made for this file. */
    var deleteCalls: nat
    /** Calls that actually removed it. */
    var removals: nat

    constructor(path: string)
      ensures this.path == path && present == (path != "") && deleteCalls == 0 && removals == 0
    {
      this.path := path;
      present := path != "";
      deleteCalls := 0;
      removals := 0;
    }

    /** delete_temp_file: remove the file when the path is non-empty and it exists; otherwise only warn. */
    method Delete()
      modifies this
      ensures deleteCalls == old(deleteCalls) + 1
      ensures !present
      ensures removals == old(removals) + (if old(present) && path != "" then 1 else 0)
    {
      deleteCalls := deleteCalls + 1;
      if path != "" && present {
        present := false;
        removals := removals + 1;
      } else {
        present := false;
      }
    }
  }

  // ---------------------------------------------------------------- print_document

  /** A submitted job: the printer used, the command line run, and lp's job id. */
  datatype Submission = Submission(printer: string, command: seq<string>, jobId: Option<string>)

  /**
   * print_document's outcome, given the answers of lsusb, lpstat -d,
   * lpstat -p and lp. Every error is a PrinterUnavailable; its message is
   * the error value. Raising PRINTER_OFFlINE inside the try makes the
   * generic handler wrap it again.
   */
  function PrintOutcome(lsusb: ProcOutput, lpstatD: ProcOutput, lpstatP: ProcOutput, lp: ProcOutput,
                        filePath: string, o: PrintOptions): Result<Submission, string>
  {
    if !Health.PrinterConnected(lsusb) then Err("PRINT_ERROR: PRINTER_OFFlINE")
    else
      match DefaultPrinter(lpstatD, lpstatP)
      case Err(m) => Err("PRINT_ERROR: " + m)
      case Ok(printer) =>
        match LpCommand(printer, filePath, o)
        case Err(m) => Err("PRINT_ERROR: " + m)
        case Ok(cmd) =>
          match lp
          case TimedOut => Err("PRINT_TIMEOUT")
          case Failed(m) => Err("PRINT_ERROR: " + m)
          case Completed(rc, out, err) =>
            if rc != 0 then Err("PRINT_ERROR: " + ("PRINT_FAILED: " + err))
            else
              match LpJobId(out)
              case Err(m) => Err("PRINT_ERROR: " + m)
              case Ok(id) => Ok(Submission(printer, cmd, id))
  }

  /** How many times print_document calls delete_temp_file. */
  function PrintDeletes(lsusb: ProcOutput, lpstatD: ProcOutput, lpstatP: ProcOutput, lp: ProcOutput,
                        filePath: string, o: PrintOptions): nat
  {
    if !Health.PrinterConnected(lsusb) then 2
    else if PrintOutcome(lsusb, lpstatD, lpstatP, lp, filePath, o).Err? then 1
    else 0
  }

  /** print_document, deleting the temporary file on every error path. */
  method PrintDocument(lsusb: ProcOutput, lpstatD: ProcOutput, lpstatP: ProcOutput, lp: ProcOutput,
                       o: PrintOptions, file: TempFile) returns (r: Result<Submission, string>)
    modifies file
    ensures r == PrintOutcome(lsusb, lpstatD, lpstatP, lp, file.path, o)
    ensures file.deleteCalls == old(file.deleteCalls) + PrintDeletes(lsusb, lpstatD, lpstatP, lp, file.path, o)
    ensures file.removals <= old(file.removals) + 1
    ensures r.Err? ==> !file.present
    ensures r.Ok? ==> file.present == old(file.present) && file.removals == old(file.removals)
  {
    if !Health.PrinterConnected(lsusb) {
      file.Delete();
      file.Delete();
      return Err("PRINT_ERROR: PRINTER_OFFlINE");
    }
    var printer := DefaultPrinter(lpstatD, lpstatP);
    if printer.Err? {
      file.Delete();
      return Err("PRINT_ERROR: " + printer.error);
    }
    var cmd := BuildLpCommand(printer.value, file.path, o);
    if cmd.Err? {
      file.Delete();
      return Err("PRINT_ERROR: " + cmd.error);
    }
    match lp {
      case TimedOut =>
        file.Delete();
        return Err("PRINT_TIMEOUT");
      case Failed(m) =>
        file.Delete();
        return Err("PRINT_ERROR: " + m);
      case Completed(rc, out, err) =>
        if rc != 0 {
          file.Delete();
          return Err("PRINT_ERROR: " + ("PRINT_FAILED: " + err));
        }
        var id := LpJobId(out);
        if id.Err? {
          file.Delete();
          return Err("PRINT_ERROR: " + id.error);
        }
        return Ok(Submission(printer.value, cmd.value, id.value));
    }
  }

  /**
   * Every failure of print_document is reported as PRINT_TIMEOUT or with
   * the PRINT_ERROR prefix, after one delete call, or two when the printer
   * is absent (then the message is PRINTER_OFFlINE).
   */
  lemma PrintErrors(lsusb: ProcOutput, lpstatD: ProcOutput, lpstatP: ProcOutput, lp: ProcOutput,
                    filePath: string, o: PrintOptions)
    ensures var r := PrintOutcome(lsusb, lpstatD, lpstatP, lp, filePath, o);
      var d := PrintDeletes(lsusb, lpstatD, lpstatP, lp, filePath, o);
      && (r.Err? ==> (r.error == "PRINT_TIMEOUT" || IsPrefix("PRINT_ERROR: ", r.error)) && d >= 1)
      && (!Health.PrinterConnected(lsusb) ==> r == Err("PRINT_ERROR: PRINTER_OFFlINE") && d == 2)
      && (d == 0 <==> r.Ok?)
  {
    var r := PrintOutcome(lsusb, lpstatD, lpstatP, lp, filePath, o);
    var m: string;
    if !Health.PrinterConnected(lsusb) {
      m := "PRINTER_OFFlINE";
      assert r.error == "PRINT_ERROR: " + m;
    } else if DefaultPrinter(lpstatD, lpstatP).Err? {
      m := DefaultPrinter(lpstatD, lpstatP).error;
      assert r.error == "PRINT_ERROR: " + m;
    } else {
      var printer := DefaultPrinter(lpstatD, lpstatP).value;
      var cmd := LpCommand(printer, filePath, o);
      if cmd.Err? {
        m := cmd.error;
        assert DefaultPrinter(lpstatD, lpstatP) == Ok(printer);
        assert r == Err("PRINT_ERROR: " + m);
      } else if lp.TimedOut? || r.Ok? {
        return;
      } else if lp.Failed? {
        m := lp.message;
        assert r.error == "PRINT_ERROR: " + m;
      } else if lp.returncode != 0 {
        m := "PRINT_FAILED: " + lp.stderr;
        assert r.error == "PRINT_ERROR: " + m;
      } else {
        m := LpJobId(lp.stdout).error;
        assert r.error == "PRINT_ERROR: " + m;
      }
    }
    PrefixOfConcat("PRINT_ERROR: ", m);
  }

  /**
   * A successful print_document ran lp with exit 0 on the command line
   * built for the printer get_default_printer chose, and its job id is the
   * one read from lp's answer.
   */
  lemma PrintSuccess(lsusb: ProcOutput, lpstatD: ProcOutput, lpstatP: ProcOutput, lp: ProcOutput,
                     filePath: string, o: PrintOptions)
    requires PrintOutcome(lsusb, lpstatD, lpstatP, lp, filePath, o).Ok?
    ensures var s := PrintOutcome(lsusb, lpstatD, lpstatP, lp, filePath, o).value;
      && Health.PrinterConnected(lsusb)
      && lp.Completed? && lp.returncode == 0
      && DefaultPrinter(lpstatD, lpstatP) == Ok(s.printer)
      && LpCommand(s.printer, filePath, o) == Ok(s.command)
      && LpJobId(lp.stdout) == Ok(s.jobId)
  {
  }
}
