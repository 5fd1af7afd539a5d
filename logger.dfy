/**
 * The tool's logger: severity and return-code constants, the table of
 * return-code messages, the Logger object and the text it formats for the
 * console and for the raw log file. Writing that text out (console, file
 * append), reading the clock and exiting the process are left to the caller:
 * the timestamp is a parameter and the formatted text is returned.
 */
module Logger {
  import opened Text

  datatype Option<T> = None | Some(value: T)

  // Severities
  const PASS: int := 100
  const INFO: int := 0
  const FAIL: int := -100
  const HEAD: int := 50
  const FOOT: int := -50

  /** Width of the console banner the tool label is centred in. */
  const WIDTH: int := 120

  const UNKNOWN: string := "Ran into an unknown error."
  const TOOL: string := "PortHawk"
  const VERSION: string := "0.1a"
  const HEADER: string := TOOL + VERSION
  const FOOTER: string := "Exiting the tool"
  /** The banner line, WIDTH `=` characters, and the separator under each file record, 60 of them. */
  const LINE: string := Repeat('=', 120)
  const HALF_LINE: string := Repeat('=', 60)

  // ANSI colour codes
  const RST: string := "\U{1B}[0m"
  const RED: string := "\U{1B}[31m"
  const GRN: string := "\U{1B}[32m"
  const YEL: string := "\U{1B}[33m"
  const BLU: string := "\U{1B}[34m"
  const MAG: string := "\U{1B}[35m"
  const CYN: string := "\U{1B}[36m"

  /** The raw log file, under the directory the tool was started in. */
  function LogRaw(cwd: string): (path: string)
    ensures |path| == |cwd| + 15
    ensures path[..|cwd|] == cwd
    ensures path[|cwd|..] == "Logs/PH_raw.log"
  {
    cwd + "Logs/" + "PH_raw.log"
  }

  /** The enumerators of the return-code enum. */
  datatype ReturnCode =
    | DeepSrvScanFail | XmlPortFail | NmapPortFail | MultiThreadProbeFail
    | OpenFoundFail | FilterFoundFail | PortsFoundFail | XmlOpenFail | NmapOpenFail
    | CmdExecFail | DirCreateFail | TargetAddrFail | ArgNumFail
    | ArgNumPass | TargetAddrPass | DirCreatePass | CmdExecPass | NmapOpenPass
    | XmlOpenPass | PortsFoundPass | FilterFoundPass | OpenFoundPass
    | MultiThreadProbeInfo | MultiThreadProbePass | DeepSrvInfo
    | NmapPortPass | XmlPortPass | DeepSrvScanPass
  {
    /** The integer each enumerator is declared with. */
    function Value(): int {
      match this
      case DeepSrvScanFail => -15
      case XmlPortFail => -14
      case NmapPortFail => -13
      case MultiThreadProbeFail => -11
      case OpenFoundFail => -9
      case FilterFoundFail => -8
      case PortsFoundFail => -7
      case XmlOpenFail => -6
      case NmapOpenFail => -5
      case CmdExecFail => -4
      case DirCreateFail => -3
      case TargetAddrFail => -2
      case ArgNumFail => -1
      case ArgNumPass => 1
      case TargetAddrPass => 2
      case DirCreatePass => 3
      case CmdExecPass => 4
      case NmapOpenPass => 5
      case XmlOpenPass => 6
      case PortsFoundPass => 7
      case FilterFoundPass => 8
      case OpenFoundPass => 9
      case MultiThreadProbeInfo => 10
      case MultiThreadProbePass => 11
      case DeepSrvInfo => 12
      case NmapPortPass => 13
      case XmlPortPass => 14
      case DeepSrvScanPass => 15
    }
  }

  /** `static_cast<ReturnCodes>(v)`: the enumerator declared with value `v`, if any. */
  function FromValue(v: int): (c: Option<ReturnCode>)
    ensures c.Some? ==> c.value.Value() == v
  {
    if v == -15 then Some(DeepSrvScanFail)
    else if v == -14 then Some(XmlPortFail)
    else if v == -13 then Some(NmapPortFail)
    else if v == -11 then Some(MultiThreadProbeFail)
    else if v == -9 then Some(OpenFoundFail)
    else if v == -8 then Some(FilterFoundFail)
    else if v == -7 then Some(PortsFoundFail)
    else if v == -6 then Some(XmlOpenFail)
    else if v == -5 then Some(NmapOpenFail)
    else if v == -4 then Some(CmdExecFail)
    else if v == -3 then Some(DirCreateFail)
    else if v == -2 then Some(TargetAddrFail)
    else if v == -1 then Some(ArgNumFail)
    else if v == 1 then Some(ArgNumPass)
    else if v == 2 then Some(TargetAddrPass)
    else if v == 3 then Some(DirCreatePass)
    else if v == 4 then Some(CmdExecPass)
    else if v == 5 then Some(NmapOpenPass)
    else if v == 6 then Some(XmlOpenPass)
    else if v == 7 then Some(PortsFoundPass)
    else if v == 8 then Some(FilterFoundPass)
    else if v == 9 then Some(OpenFoundPass)
    else if v == 10 then Some(MultiThreadProbeInfo)
    else if v == 11 then Some(MultiThreadProbePass)
    else if v == 12 then Some(DeepSrvInfo)
    else if v == 13 then Some(NmapPortPass)
    else if v == 14 then Some(XmlPortPass)
    else if v == 15 then Some(DeepSrvScanPass)
    else None
  }

  /** Every enumerator is found again from its value, so no two share a value. */
  lemma ValueRoundTrip(c: ReturnCode)
    ensures FromValue(c.Value()) == Some(c)
  {
    match c
    case DeepSrvScanFail =>
    case XmlPortFail =>
    case NmapPortFail =>
    case MultiThreadProbeFail =>
    case OpenFoundFail =>
    case FilterFoundFail =>
    case PortsFoundFail =>
    case XmlOpenFail =>
    case NmapOpenFail =>
    case CmdExecFail =>
    case DirCreateFail =>
    case TargetAddrFail =>
    case ArgNumFail =>
    case ArgNumPass =>
    case TargetAddrPass =>
    case DirCreatePass =>
    case CmdExecPass =>
    case NmapOpenPass =>
    case XmlOpenPass =>
    case PortsFoundPass =>
    case FilterFoundPass =>
    case OpenFoundPass =>
    case MultiThreadProbeInfo =>
    case MultiThreadProbePass =>
    case DeepSrvInfo =>
    case NmapPortPass =>
    case XmlPortPass =>
    case DeepSrvScanPass =>
  }

  /** The return codes are pairwise distinct. */
  lemma ValuesDistinct(a: ReturnCode, b: ReturnCode)
    requires a != b
    ensures a.Value() != b.Value()
  {
    ValueRoundTrip(a);
    ValueRoundTrip(b);
  }

  /** The pass code named like a failure code: `..._FAIL` to `..._PASS`. */
  function PassCounterpart(c: ReturnCode): ReturnCode
    requires c.Value() < 0
  {
    match c
    case DeepSrvScanFail => DeepSrvScanPass
    case XmlPortFail => XmlPortPass
    case NmapPortFail => NmapPortPass
    case MultiThreadProbeFail => MultiThreadProbePass
    case OpenFoundFail => OpenFoundPass
    case FilterFoundFail => FilterFoundPass
    case PortsFoundFail => PortsFoundPass
    case XmlOpenFail => XmlOpenPass
    case NmapOpenFail => NmapOpenPass
    case CmdExecFail => CmdExecPass
    case DirCreateFail => DirCreatePass
    case TargetAddrFail => TargetAddrPass
    case ArgNumFail => ArgNumPass
  }

  /** Each failure code is the negation of its like-named pass code, and of no other code. */
  lemma FailCodeHasPassCounterpart(c: ReturnCode)
    requires c.Value() < 0
    ensures PassCounterpart(c).Value() == -c.Value()
    ensures FromValue(-c.Value()) == Some(PassCounterpart(c))
  {
    match c
    case DeepSrvScanFail =>
    case XmlPortFail =>
    case NmapPortFail =>
    case MultiThreadProbeFail =>
    case OpenFoundFail =>
    case FilterFoundFail =>
    case PortsFoundFail =>
    case XmlOpenFail =>
    case NmapOpenFail =>
    case CmdExecFail =>
    case DirCreateFail =>
    case TargetAddrFail =>
    case ArgNumFail =>
  }

  /** The two informational codes have no failing counterpart; 0 is no code at all. */
  lemma InfoCodesUnpaired()
    ensures FromValue(10) == Some(MultiThreadProbeInfo) && FromValue(-10) == None
    ensures FromValue(12) == Some(DeepSrvInfo) && FromValue(-12) == None
    ensures FromValue(0) == None
  {
  }

  /** The text the message table holds for each enumerator. */
  function Message(c: ReturnCode): string {
    match c
    case DeepSrvScanFail => "Deep service probe against the target port has failed. Check port log for more info."
    case XmlPortFail => "Parsing XML file from NMAP deeper scan has failed."
    case NmapPortFail => "NMAP deeper scan against target port has failed."
    case MultiThreadProbeFail => "Running multithreaded probe against open ports has failed."
    case OpenFoundFail => "No open port found on the target. Check raw log for more details. Exiting tool."
    case FilterFoundFail => "No filtered port found on the target."
    case PortsFoundFail => "No usable ports found on the target. Check scan results on raw log for more details."
    case XmlOpenFail => "Parsing open ports xml file has failed."
    case NmapOpenFail => "Executing NMAP open ports scan has failed. Check raw log for more details"
    case CmdExecFail => "Executing system command has failed."
    case DirCreateFail => "Creating directories has failed. Check raw log for error details."
    case TargetAddrFail => "Target is invalid. Check input and try again."
    case ArgNumFail => "Argument(s) mismatch. Check input and try again."
    case ArgNumPass => "Argument(s) counts has been validated."
    case TargetAddrPass => "Target address is validated."
    case DirCreatePass => "Directories have been created."
    case CmdExecPass => "System command has been executed."
    case NmapOpenPass => "NMAP Open ports scan has been completed."
    case XmlOpenPass => "Parsing open ports xml has been completed."
    case PortsFoundPass => "Identified usable ports on the target."
    case FilterFoundPass => "Identified filtered port(s) on the target."
    case OpenFoundPass => "Identified open port(s) on the target."
    case MultiThreadProbeInfo => "Initiated multi-threaded service probe on all open port(s)."
    case MultiThreadProbePass => "Running multithreaded probe against open ports has been completed."
    case DeepSrvInfo => "Initiated deep service probe on the port."
    case NmapPortPass => "NMAP deeper scan against target port has been completed."
    case XmlPortPass => "Parsing XML file from NMAP deeper scan has been completed."
    case DeepSrvScanPass => "Deep service probe against the target port has been completed."
  }

  /** Every enumerator: the keys of the message table. */
  const AllCodes: set<ReturnCode> := {
    DeepSrvScanFail, XmlPortFail, NmapPortFail, MultiThreadProbeFail,
    OpenFoundFail, FilterFoundFail, PortsFoundFail, XmlOpenFail,
    NmapOpenFail, CmdExecFail, DirCreateFail, TargetAddrFail,
    ArgNumFail, ArgNumPass, TargetAddrPass, DirCreatePass,
    CmdExecPass, NmapOpenPass, XmlOpenPass, PortsFoundPass,
    FilterFoundPass, OpenFoundPass, MultiThreadProbeInfo, MultiThreadProbePass,
    DeepSrvInfo, NmapPortPass, XmlPortPass, DeepSrvScanPass
  }

  /** The message table. */
  const ReturnMessages: map<ReturnCode, string> := map c | c in AllCodes :: Message(c)

  /** A message the tool label can centre: no longer than the banner. */
  predicate FitsBanner(m: string) {
    |m| <= WIDTH
  }

  /**
   * Every enumerator has an entry, and no entry is the UNKNOWN fallback text.
   */
  lemma TableComplete(c: ReturnCode)
    ensures c in ReturnMessages
    ensures ReturnMessages[c] != UNKNOWN
  {
    match c
    case DeepSrvScanFail =>
    case XmlPortFail =>
    case NmapPortFail =>
    case MultiThreadProbeFail =>
    case OpenFoundFail =>
    case FilterFoundFail =>
    case PortsFoundFail =>
    case XmlOpenFail =>
    case NmapOpenFail =>
    case CmdExecFail =>
    case DirCreateFail =>
    case TargetAddrFail =>
    case ArgNumFail =>
    case ArgNumPass =>
    case TargetAddrPass =>
    case DirCreatePass =>
    case CmdExecPass =>
    case NmapOpenPass =>
    case XmlOpenPass =>
    case PortsFoundPass =>
    case FilterFoundPass =>
    case OpenFoundPass =>
    case MultiThreadProbeInfo =>
    case MultiThreadProbePass =>
    case DeepSrvInfo =>
    case NmapPortPass =>
    case XmlPortPass =>
    case DeepSrvScanPass =>
  }

  /**
   * The message for a return code given as an integer: the table entry of the
   * enumerator with that value, or UNKNOWN when no enumerator has it.
   */
  function GetReturnMessage(code: int): (m: string)
    ensures FromValue(code).Some? ==> FromValue(code).value in ReturnMessages && m == ReturnMessages[FromValue(code).value]
    ensures m == UNKNOWN <==> FromValue(code).None?
  {
    match FromValue(code)
    case None => UNKNOWN
    case Some(c) =>
      TableComplete(c);
      if c in ReturnMessages then ReturnMessages[c] else UNKNOWN
  }

  /** The severity tag and its colour written in front of a log line; empty for HEAD, FOOT and the rest. */
  function SeverityStyle(severity: int): (style: (string, string))
    ensures style.0 == "" <==> style.1 == ""
    ensures style.0 != "" ==> |style.0| == 6 && style.0[0] == '[' && style.0[5] == ']'
    ensures severity == PASS ==> style == ("[PASS]", GRN)
    ensures severity == FAIL ==> style == ("[FAIL]", RED)
    ensures severity == INFO ==> style == ("[INFO]", YEL)
    ensures severity != PASS && severity != FAIL && severity != INFO ==> style == ("", "")
  {
    if severity == PASS then ("[PASS]", GRN)
    else if severity == FAIL then ("[FAIL]", RED)
    else if severity == INFO then ("[INFO]", YEL)
    else ("", "")
  }

  /** The five severities are pairwise distinct. */
  lemma SeveritiesDistinct()
    ensures PASS != INFO && PASS != FAIL && PASS != HEAD && PASS != FOOT
    ensures INFO != FAIL && INFO != HEAD && INFO != FOOT
    ensures FAIL != HEAD && FAIL != FOOT && HEAD != FOOT
  {
  }

  /** A non-empty tag names exactly one severity, PASS, FAIL or INFO. */
  lemma SeverityTagIdentifies(a: int, b: int)
    requires SeverityStyle(a).0 != "" && SeverityStyle(a).0 == SeverityStyle(b).0
    ensures a == b
    ensures a == PASS || a == FAIL || a == INFO
  {
  }

  /** The console text of one log record. */
  function VerboseRecord(severity: int, timestamp: string, moduleName: string, message: string): string {
    var (tag, colour) := SeverityStyle(severity);
    colour + tag + RST + timestamp + MAG + "[" + moduleName + "] " + RST + message + "\n"
  }

  /** The first line a log record writes to the file. */
  function FileLine(severity: int, timestamp: string, moduleName: string, message: string): string {
    SeverityStyle(severity).0 + timestamp + "[" + moduleName + "] " + message
  }

  /** The lines of one record in the log file: the record line, the optional text, the separator. */
  function FileLines(severity: int, timestamp: string, moduleName: string, message: string,
                     optionalGood: bool, optional: string): seq<string>
  {
    [FileLine(severity, timestamp, moduleName, message)]
      + (if optionalGood then [optional] else [])
      + [HALF_LINE]
  }

  /** The file text of one log record. */
  function FileRecord(severity: int, timestamp: string, moduleName: string, message: string,
                      optionalGood: bool, optional: string): string
  {
    JoinLines(FileLines(severity, timestamp, moduleName, message, optionalGood, optional))
  }

  /**
   * Read back line by line, a file record is its record line, then the optional
   * text exactly when the optional stream is usable, then the HALF_LINE separator.
   */
  lemma {:induction false} FileRecordLines(severity: int, timestamp: string, moduleName: string, message: string,
                                           optionalGood: bool, optional: string)
    requires NoNewline(timestamp) && NoNewline(moduleName) && NoNewline(message) && NoNewline(optional)
    ensures var lines := SplitLines(FileRecord(severity, timestamp, moduleName, message, optionalGood, optional));
      && |lines| == (if optionalGood then 3 else 2)
      && lines[0] == FileLine(severity, timestamp, moduleName, message)
      && lines[0][..|SeverityStyle(severity).0|] == SeverityStyle(severity).0
      && (optionalGood ==> lines[1] == optional)
      && lines[|lines| - 1] == HALF_LINE
  {
    var lines := FileLines(severity, timestamp, moduleName, message, optionalGood, optional);
    var head := FileLine(severity, timestamp, moduleName, message);
    assert NoNewline(head) by {
      var tag := SeverityStyle(severity).0;
      assert NoNewline(tag);
      assert head == tag + timestamp + "[" + moduleName + "] " + message;
    }
    assert NoNewline(HALF_LINE);
    forall k | 0 <= k < |lines| ensures NoNewline(lines[k]) {
    }
    SplitJoinLines(lines);
  }

  /** Colour of the tool label: blue for the header, red for anything else. */
  function LabelColour(severity: int): string {
    if severity == HEAD then BLU else RED
  }

  /**
   * The label field `std::setw(padding + message.length()) << message` with
   * `padding = (WIDTH - message.length()) / 2`. Up to WIDTH characters this
   * centres the message. For a longer message the unsigned subtraction wraps
   * around and the field width computed from it ends up below the message's
   * length (for messages shorter than 2^31 characters), so no fill is written.
   */
  function LabelField(message: string): (field: string)
    ensures |field| == if |message| <= WIDTH then (WIDTH - |message|) / 2 + |message| else |message|
    ensures field[|field| - |message|..] == message
  {
    if |message| <= WIDTH then PadLeft(message, (WIDTH - |message|) / 2 + |message|) else message
  }

  /** A message that fits the banner is centred: the margins left and right of it differ by at most one. */
  lemma LabelCentred(message: string)
    requires |message| <= WIDTH
    ensures var padding := (WIDTH - |message|) / 2;
      && LabelField(message) == Spaces(padding) + message
      && 0 <= (WIDTH - |LabelField(message)|) - padding <= 1
  {
    var padding := (WIDTH - |message|) / 2;
    PadLeftFill(message, padding + |message|);
  }

  /** The label as printed on the console. */
  function LabelConsole(severity: int, message: string): string {
    LINE + "\n" + LabelColour(severity) + LabelField(message) + RST + "\n" + LINE + "\n"
  }

  /** The label as appended to the raw log file. */
  function LabelFile(message: string): string {
    JoinLines([LINE, LabelField(message), LINE])
  }

  /** Read back, the file label is three lines: the banner, the centred message within the banner's width, the banner. */
  lemma LabelFileLines(message: string)
    requires FitsBanner(message) && NoNewline(message)
    ensures SplitLines(LabelFile(message)) == [LINE, LabelField(message), LINE]
    ensures |LabelField(message)| <= |LINE|
  {
    var field := LabelField(message);
    assert NoNewline(LINE);
    assert NoNewline(field) by {
      LabelCentred(message);
    }
    SplitJoinLines([LINE, field, LINE]);
  }

  /** A log record, or the tool's header or footer label. */
  class Logger {
    var severity: int
    var retCode: int
    var verbose: bool
    var nameLog: string
    var message: string
    var moduleName: string
    /** The text held by the optional stream. */
    var optional: string
    /** Whether the optional stream is usable (not in a failed state). */
    var optionalGood: bool

    /** The header/footer logger, writing to LOG_RAW under the directory `cwd`. */
    constructor Label(kind: int, cwd: string)
      ensures severity == kind
      ensures message == (if kind == HEAD then HEADER else FOOTER)
      ensures FitsBanner(message)
      ensures nameLog == LogRaw(cwd) && retCode == 0 && verbose
      ensures moduleName == "" && optional == "" && optionalGood
    {
      severity := kind;
      message := if kind == HEAD then HEADER else FOOTER;
      nameLog := LogRaw(cwd);
      retCode := 0;
      verbose := true;
      moduleName := "";
      optional := "";
      optionalGood := true;
    }

    /**
     * A log record. Copying an empty optional text into the optional stream
     * inserts no characters, which puts that stream in a failed state.
     */
    constructor (kind: int, nameModule: string, code: int, nameFile: string,
                 output: bool := false, opt: string := "")
      ensures severity == kind && moduleName == nameModule && retCode == code
      ensures nameLog == nameFile && verbose == output
      ensures message == GetReturnMessage(code)
      ensures optional == opt && optionalGood == (opt != "")
    {
      severity := kind;
      moduleName := nameModule;
      retCode := code;
      nameLog := nameFile;
      verbose := output;
      message := GetReturnMessage(code);
      optional := opt;
      optionalGood := opt != "";
    }

    /** The tool label: the text printed on the console and the text appended to the log file. */
    method PrintToolLabel() returns (console: string, file: string)
      ensures console == LabelConsole(severity, message)
      ensures file == LabelFile(message)
    {
      var colour := LabelColour(severity);
      var field := LabelField(message);
      console := LINE + "\n" + colour + field + RST + "\n" + LINE + "\n";
      file := LINE + "\n" + field + "\n" + LINE + "\n";
      JoinLinesAppend([LINE], [field, LINE]);
      JoinLinesAppend([field], [LINE]);
    }

    /**
     * Appends this record to the console text (only when verbose) and to the
     * file text. The clock is read once for each of the two records, so each
     * has its own timestamp.
     */
    method FormatLog(consoleTime: string, fileTime: string, strVerbose: string, strFile: string)
      returns (verboseOut: string, fileOut: string)
      ensures verboseOut == strVerbose + (if verbose then VerboseRecord(severity, consoleTime, moduleName, message) else "")
      ensures fileOut == strFile + FileRecord(severity, fileTime, moduleName, message, optionalGood, optional)
    {
      verboseOut := strVerbose;
      if verbose {
        verboseOut := verboseOut + VerboseRecord(severity, consoleTime, moduleName, message);
      }
      var head := FileLine(severity, fileTime, moduleName, message);
      var record := head + "\n";
      if optionalGood {
        record := record + (optional + "\n");
      }
      record := record + (HALF_LINE + "\n");
      fileOut := strFile + record;
      assert record == FileRecord(severity, fileTime, moduleName, message, optionalGood, optional) by {
        var extra := if optionalGood then [optional] else [];
        JoinLinesAppend([head] + extra, [HALF_LINE]);
        JoinLinesAppend([head], extra);
        JoinLinesOne(head);
        JoinLinesOne(HALF_LINE);
        JoinLinesOne(optional);
      }
    }
  }
}
