# PortHawk port registry and logger, in Dafny

PortHawk drives Nmap against one target host. Its first stage runs an
open-ports scan, reads the XML report and files every port that is not
closed in the target's registry: open ports in one list, filtered ports in
another, each list with its counter. It then prints a summary of both lists.
Every step reports through a logger. The logger looks up a message for each
return code and formats records for the console and for the raw log file. It
also prints the tool's header and footer banners.

The model has three modules.

- `Text` (`text.dfy`) holds the pieces of C++ stream formatting the tool relies on:
  - `std::setw` with right alignment (`PadLeft`);
  - inserting a non-negative integer (`Decimal`);
  - lines ended by `std::endl` (`JoinLines`), with a reader that splits them again (`SplitLines`).
- `Logger` (`logger.dfy`) holds the constants, the return codes with their integer values, and the message table with its lookup. The `Logger` class has both constructors, and two methods:
  - `PrintToolLabel` returns the console text and the file text of the banner;
  - `FormatLog` returns the console record and the file record.
- `Scanner` (`scanner.dfy`) holds:
  - `Port` as a value type;
  - the report's port elements as `PortNode`;
  - the `Host` class with `AddPortToHost`, `GetOpenPorts` and `PrintOpenScanSummary`.

  `GetOpenPorts` takes two inputs: the Nmap command's return code and the loaded report (or the fact that loading failed). Its loop keeps a quirk of the source's traversal. The loop starts at the first child of `ports`, whatever its tag. From there it moves from one `port` sibling to the next.

  The summary is a sequence of items:
  - a count log;
  - a "none found" log;
  - a listed port.

  Functions give the text the summary writes directly to `std::cout` for those items.

The Nmap report's schema puts a leading `extraports` element before the port
elements when it has one. In the source, the summary text (for example
"Found 3 open port(s).") is passed to the logger as the record's optional
text. Here it is modelled by `FoundText`.

An empty service name becomes `"N/A"`. The registry is two lists, and a port
id reported twice is filed twice (`Scanner.KeptCountsEveryElement`).

## Model

| member | source | states |
|---|---|---|
| Text.PadLeft | source/scanner.cpp:123 | the field is as wide as the requested width or the text, whichever is larger; it ends with the text and begins with blanks only |
| Text.DecimalRoundTrip | source/scanner.cpp:117 | the decimal text of a non-negative count parses back to that count |
| Text.JoinLinesAppend | source/logger.cpp:130-133 | writing two runs of `std::endl`-terminated lines is writing the first run, then the second |
| Text.SplitJoinLines | source/logger.cpp:130-133 | reading back lines written with `std::endl` gives exactly those lines, provided none contains a newline |
| Logger.LogRaw | include/logger.hpp:53-55 | the raw log path is the start directory followed by `Logs/PH_raw.log` |
| Logger.FromValue | include/logger.hpp:59-88 | an integer maps to an enumerator only when that enumerator is declared with that integer |
| Logger.ValueRoundTrip | include/logger.hpp:59-88 | every enumerator is found again from its declared integer |
| Logger.ValuesDistinct | include/logger.hpp:59-88 | no two enumerators share an integer |
| Logger.FailCodeHasPassCounterpart | include/logger.hpp:59-88 | each failure code is the negation of its like-named pass code (`..._FAIL` to `..._PASS`), and that pass code is the only code with this value |
| Logger.InfoCodesUnpaired | include/logger.hpp:82-84 | the two informational codes, 10 and 12, have no failing counterpart, and 0 is not a code |
| Logger.TableComplete | include/logger.hpp:91-120 | the message table has an entry for every enumerator, and no entry is the UNKNOWN fallback text |
| Logger.GetReturnMessage | source/logger.cpp:27-31 | for a declared code the result is that code's table entry; the result is UNKNOWN exactly when no enumerator has the value |
| Logger.SeveritiesDistinct | include/logger.hpp:22-26 | PASS, INFO, FAIL, HEAD and FOOT are pairwise distinct |
| Logger.SeverityStyle | source/logger.cpp:110-125 | PASS, FAIL and INFO give their bracketed six-character tag and colour; any other severity gives an empty tag and an empty colour |
| Logger.SeverityTagIdentifies | source/logger.cpp:110-125 | two severities with the same non-empty tag are the same severity |
| Logger.FileRecordLines | source/logger.cpp:130-133 | read back line by line, a file record is its tagged record line, then the optional text exactly when the optional stream is usable, then the half-line separator |
| Logger.LabelField | source/logger.cpp:91-94 | the label field ends with the message; it is `(WIDTH - len) / 2 + len` wide when the message fits the banner, and no wider than the message otherwise |
| Logger.LabelCentred | source/logger.cpp:91-94 | a message that fits the banner is preceded by `(WIDTH - len) / 2` blanks, leaving margins that differ by at most one |
| Logger.LabelFileLines | source/logger.cpp:94 | read back, the file label is the banner line, the centred message no wider than the banner, and the banner line again |
| Logger.Logger.Label | source/logger.cpp:51-58 | the header/footer logger holds HEADER for HEAD and FOOTER otherwise, logs to the raw log, is verbose, and its message fits the banner |
| Logger.Logger.constructor | source/logger.cpp:70-80 | a record logger keeps its arguments, takes its message from the table, and has a usable optional stream exactly when the optional text is not empty |
| Logger.Logger.PrintToolLabel | source/logger.cpp:86-99 | returns the banner, coloured label field and banner for the console, and the same three lines uncoloured for the log file |
| Logger.Logger.FormatLog | source/logger.cpp:108-134 | the console text gains the coloured record, stamped with the console clock reading, only when verbose; the file text always gains the record stamped with its own clock reading, the optional line only when usable, and the separator |
| Scanner.StatesDistinct | include/scanner.hpp:18-20 | the three port states are pairwise different |
| Scanner.NewPort | source/scanner.cpp:25-28 | a new Port holds the given id, state and service, with every other field empty |
| Scanner.NewPortDefaultService | include/scanner.hpp:35 | leaving out the service gives the service "N/A" |
| Scanner.NormaliseService | source/scanner.cpp:94 | an empty service name becomes "N/A"; any other name is kept |
| Scanner.NodePort | source/scanner.cpp:90-96 | the Port built from an element has its id and state and a non-empty service, which is the element's own name when it has one |
| Scanner.NextPortSibling | source/scanner.cpp:89 | the next sibling lies after the current element and is a "port" element, or there is none |
| Scanner.NextPortSiblingSkips | source/scanner.cpp:89 | no "port" element lies between an element and its next "port" sibling |
| Scanner.VisitFromIsPortElements | source/scanner.cpp:89 | from any element on, the loop visits that element, then exactly the "port" elements after it |
| Scanner.VisitedIsFirstThenPortElements | source/scanner.cpp:87-89 | the loop visits the first child whatever its tag, then every "port" element after it, in document order |
| Scanner.KeptStates | source/scanner.cpp:89-97 | every Port collected for a state is in that state and has a non-empty service |
| Scanner.KeptCountsEveryElement | source/scanner.cpp:89-97 | the number of Ports collected for a state equals the number of visited elements in that state; duplicates are not merged |
| Scanner.FirstChildQuirkHarmless | source/scanner.cpp:87-97 | starting at the first child instead of the first "port" element collects the same ports when that child is a "port" element or is not in the collected state |
| Scanner.Host.constructor | source/scanner.cpp:35-38 | a new Host has the given address, both counters at zero and both lists empty |
| Scanner.Host.AddPortToHost | source/scanner.cpp:46-56 | an open port is appended to the open list and a filtered port to the filtered list, with the counters following; a port in any other state leaves the Host unchanged |
| Scanner.Host.GetOpenPorts | source/scanner.cpp:65-106 | a failed command gives OpenNmapFail and an unloadable report OpenXmlFail, both leaving the Host unchanged; otherwise each list gains the Ports of the visited elements in its state, in visiting order, and the result is PortFoundFail exactly when both counters are zero |
| Scanner.NoClosedPortStored | source/scanner.cpp:46-56 | a consistent Host holds no closed port, and no port sits in both lists |
| Scanner.Listing | source/scanner.cpp:121-124 | the listing has one line per port, naming that port's id and service, in list order |
| Scanner.Host.PrintOpenScanSummary | source/scanner.cpp:112-144 | the summary is the filtered section, then the open section; each section is its count and listing when the counter is positive, and its "none found" log otherwise; the Host is unchanged |
| Scanner.SummaryListsStoredPorts | source/scanner.cpp:112-144 | for a consistent Host, the summary lists under each category exactly that category's ports, in stored order |
| Scanner.SummaryOrder | source/scanner.cpp:112-144 | every filtered item comes before every open item, and each section opens with its count log or its "none found" log |
| Scanner.SummaryNoneFound | source/scanner.cpp:115-143 | a category reports "none found" exactly when its counter is zero; it reports its count exactly when the counter is positive, and with a zero counter it lists no port |
| Scanner.SummaryLogCodes | source/scanner.cpp:115-143 | count logs carry pass codes and "none found" logs carry failure codes; each code has its own table message; every summary log is echoed on the console except "no filtered port found" |
| Scanner.FoundText | source/scanner.cpp:117 | the count text starts with "Found " |
| Scanner.FoundTextReadsBack | source/scanner.cpp:117 | the count text holds the count's digits up to the next blank, and those digits parse back to the count |
| Scanner.SummaryConsole | source/scanner.cpp:115-140 | the summary's console text is that of the filtered ports followed by that of the open ports; each section's direct `std::cout` writes are its count line and then every port line in stored order, or nothing when the counter is zero; the logger's console echo of the summary logs belongs to the log calls left out |

## Left out

- Running Nmap through `ExecuteSystemCommand` (`popen` in source/utilities.cpp) is not modelled. `GetOpenPorts` receives the command's return code as a parameter, and the command's text and output are not modelled.
- The XML library's parsing is not modelled. The report enters as its `ports` children, with the attributes the scan reads; an absent attribute reads as empty text. A report without the `nmaprun/host/ports` path is a loaded report with no children.
- The `objLog.Log` calls in `GetOpenPorts` and `PrintOpenScanSummary` are not modelled. They name return codes and module names that the logger header does not declare, and a `Log` method the `Logger` class does not have. The scan's outcomes are therefore a local `ScanResult` enumeration. The summary's logs are `SummaryItem`s, with the code and console-echo flag each one is made with (`LogCode`, `LogVerbose`); the text the logger would echo on the console for them is not modelled.
- `GetCurrentTime` is not modelled. Its two calls in `FormatLog`, one for the console record and one for the file record, become the two parameters `consoleTime` and `fileTime`, which may differ.
- `LogMessage` and `ExitExecution` are not modelled: writing to the console, appending to the log file, and exiting the process. `PrintToolLabel` and `FormatLog` return the text they would write.
- `std::filesystem::absolute("")` is not modelled. The start directory is a parameter of `LogRaw`, and the rendering of ANSI colour codes on a terminal is not modelled either.
- The module-name constants and the directory constants other than the raw log path are not modelled, because nothing in the model uses them.
- The counters are unbounded integers. A C++ `int` overflow after more than 2^31 - 1 ports cannot happen with real port numbers.
- The drivers (source/main.cpp, source/porthawk.cpp, source/portHawk.cpp) and the declarations in include/tool.hpp and include/utilities.hpp are not part of this model.
- Logger.LabelField: the wrap-around of the unsigned padding subtraction is captured only as "no fill is written". This holds for messages shorter than 2^31 characters; the exact truncated field width is not modelled.
- Logger.TableComplete: no claim is made about how long the table's messages are. Only the header and footer are shown to fit the banner, in `Logger.Logger.Label`.
