/**
 * The port registry of one target host and the classification step of the
 * open-ports scan. Running the Nmap command and loading its XML report are
 * outside the model: `GetOpenPorts` receives the command's return code and
 * the loaded report (or the fact that loading failed) as inputs.
 */
module Scanner {
  import opened Text
  import Logger

  const STATE_OPEN: string := "open"
  const STATE_FLTR: string := "filtered"
  const STATE_CLSD: string := "closed"

  /** The service name a port carries when none is known. */
  const DEFAULT_SERVICE: string := "N/A"

  /** The three port states are pairwise distinct, so a port takes at most one classification branch. */
  lemma StatesDistinct()
    ensures STATE_OPEN != STATE_FLTR && STATE_OPEN != STATE_CLSD && STATE_FLTR != STATE_CLSD
  {
    assert STATE_OPEN[0] != STATE_FLTR[0] && STATE_OPEN[0] != STATE_CLSD[0] && STATE_FLTR[0] != STATE_CLSD[0];
  }

  /** One port as reported by the scan; copied by value into the host's lists. */
  datatype Port = Port(
    portid: string,
    state: string,
    service: string,
    product: string,
    version: string,
    vulnerabilities: seq<string>,
    scansCompleted: seq<string>,
    scansFailed: seq<string>)

  /** The Port constructor: the service defaults to "N/A", everything else starts empty. */
  function NewPort(id: string, status: string, name: string := DEFAULT_SERVICE): (p: Port)
    ensures p.portid == id && p.state == status && p.service == name
    ensures p.product == "" && p.version == ""
    ensures p.vulnerabilities == [] && p.scansCompleted == [] && p.scansFailed == []
  {
    Port(id, status, name, "", "", [], [], [])
  }

  /** Leaving out the service argument gives the "N/A" service. */
  lemma NewPortDefaultService(id: string, status: string)
    ensures NewPort(id, status).service == DEFAULT_SERVICE
    ensures NewPort(id, status) == NewPort(id, status, "N/A")
  {
  }

  /** An empty service name is replaced by "N/A"; any other is kept as it is. */
  function NormaliseService(name: string): (s: string)
    ensures s != ""
    ensures name != "" ==> s == name
    ensures name == "" ==> s == DEFAULT_SERVICE
  {
    if name == "" then DEFAULT_SERVICE else name
  }

  /**
   * One child element of the report's `ports` element, with the values the
   * scan reads from it: its tag, the `portid` attribute, the `state` attribute
   * of its `state` child and the `name` attribute of its `service` child. An
   * attribute or child that is absent reads as the empty string.
   */
  datatype PortNode = PortNode(tag: string, portid: string, state: string, serviceName: string)

  /** The XML report of the open-ports scan, as loading it turned out. */
  datatype XmlReport =
    | LoadFailed
    /** `children` are the elements under nmaprun/host/ports, empty when that path is missing. */
    | Loaded(children: seq<PortNode>)

  /** The outcomes of the open-ports scan. */
  datatype ScanResult = OpenNmapFail | OpenXmlFail | PortFoundFail | PortsFoundPass

  /** The Port the scan builds from one element. */
  function NodePort(n: PortNode): (p: Port)
    ensures p.portid == n.portid && p.state == n.state && p.service != ""
    ensures n.serviceName != "" ==> p.service == n.serviceName
  {
    NewPort(n.portid, n.state, NormaliseService(n.serviceName))
  }

  /**
   * `next_sibling("port")`: the index of the next element after `i` whose tag
   * is "port", or `|children|` (the null node) when there is none.
   */
  function NextPortSibling(children: seq<PortNode>, i: nat): (j: nat)
    requires i < |children|
    ensures i < j <= |children|
    ensures j < |children| ==> children[j].tag == "port"
    decreases |children| - i
  {
    if i + 1 == |children| || children[i + 1].tag == "port" then i + 1
    else NextPortSibling(children, i + 1)
  }

  /** `next_sibling("port")` skips every element in between, none of which is a "port" element. */
  lemma {:induction false} NextPortSiblingSkips(children: seq<PortNode>, i: nat)
    requires i < |children|
    ensures forall k :: i < k < NextPortSibling(children, i) ==> children[k].tag != "port"
    decreases |children| - i
  {
    if !(i + 1 == |children| || children[i + 1].tag == "port") {
      NextPortSiblingSkips(children, i + 1);
    }
  }

  /**
   * The elements the scan loop visits from index `i` on: the element at `i`,
   * then from sibling to next "port" sibling.
   */
  function VisitFrom(children: seq<PortNode>, i: nat): seq<PortNode>
    decreases |children| - i
  {
    if i >= |children| then [] else [children[i]] + VisitFrom(children, NextPortSibling(children, i))
  }

  /** The elements the scan loop visits: it starts at the first child whatever its tag. */
  function Visited(children: seq<PortNode>): seq<PortNode> {
    VisitFrom(children, 0)
  }

  /** The elements tagged "port", in document order. */
  function PortElements(children: seq<PortNode>): seq<PortNode> {
    if children == [] then []
    else (if children[0].tag == "port" then [children[0]] else []) + PortElements(children[1..])
  }

  lemma {:induction false} PortElementsAppend(a: seq<PortNode>, b: seq<PortNode>)
    ensures PortElements(a + b) == PortElements(a) + PortElements(b)
    decreases |a|
  {
    if a == [] {
      assert a + b == b;
    } else {
      var head := if a[0].tag == "port" then [a[0]] else [];
      assert (a + b)[0] == a[0] && (a + b)[1..] == a[1..] + b;
      assert PortElements(a + b) == head + PortElements(a[1..] + b);
      PortElementsAppend(a[1..], b);
      assert PortElements(a) == head + PortElements(a[1..]);
      assert head + (PortElements(a[1..]) + PortElements(b)) == (head + PortElements(a[1..])) + PortElements(b);
    }
  }

  lemma PortElementsAt(children: seq<PortNode>, m: nat)
    requires m < |children|
    ensures PortElements(children[m..])
      == (if children[m].tag == "port" then [children[m]] else []) + PortElements(children[m + 1..])
  {
    assert children[m..][1..] == children[m + 1..];
  }

  /** Elements other than "port" elements contribute nothing. */
  lemma {:induction false} PortElementsSkip(children: seq<PortNode>, a: nat, j: nat)
    requires a <= j <= |children|
    requires forall k :: a <= k < j ==> children[k].tag != "port"
    ensures PortElements(children[a..]) == PortElements(children[j..])
    decreases j - a
  {
    if a < j {
      PortElementsAt(children, a);
      PortElementsSkip(children, a + 1, j);
    }
  }

  /** From index `i` on, the loop visits element `i` and then exactly the "port" elements after it. */
  lemma {:induction false} VisitFromIsPortElements(children: seq<PortNode>, i: nat)
    requires i < |children|
    ensures VisitFrom(children, i) == [children[i]] + PortElements(children[i + 1..])
    decreases |children| - i
  {
    var j := NextPortSibling(children, i);
    NextPortSiblingSkips(children, i);
    PortElementsSkip(children, i + 1, j);
    assert VisitFrom(children, i) == [children[i]] + VisitFrom(children, j);
    if j == |children| {
      assert children[j..] == [];
    } else {
      VisitFromIsPortElements(children, j);
      PortElementsAt(children, j);
    }
  }

  /** One loop step moves the visited element from the elements still to visit to those visited. */
  lemma VisitStep(children: seq<PortNode>, i: nat, visited: seq<PortNode>)
    requires i < |children|
    requires visited + VisitFrom(children, i) == Visited(children)
    ensures (visited + [children[i]]) + VisitFrom(children, NextPortSibling(children, i)) == Visited(children)
  {
    var rest := VisitFrom(children, NextPortSibling(children, i));
    assert VisitFrom(children, i) == [children[i]] + rest;
    assert (visited + [children[i]]) + rest == visited + ([children[i]] + rest);
  }

  /** The scan loop visits the first child, then every "port" element after it in document order. */
  lemma VisitedIsFirstThenPortElements(children: seq<PortNode>)
    ensures Visited(children) == if children == [] then [] else [children[0]] + PortElements(children[1..])
  {
    if children != [] {
      VisitFromIsPortElements(children, 0);
    }
  }

  /** The Ports built from the elements in `nodes` whose state is `state`, in order, duplicates included. */
  function Kept(nodes: seq<PortNode>, state: string): seq<Port> {
    if nodes == [] then []
    else (if nodes[0].state == state then [NodePort(nodes[0])] else []) + Kept(nodes[1..], state)
  }

  /** Every Port collected for a state is in that state and names a service. */
  lemma {:induction false} KeptStates(nodes: seq<PortNode>, state: string)
    ensures forall p :: p in Kept(nodes, state) ==> p.state == state && p.service != ""
    decreases |nodes|
  {
    if nodes != [] {
      KeptStates(nodes[1..], state);
    }
  }

  lemma {:induction false} KeptAppend(a: seq<PortNode>, b: seq<PortNode>, state: string)
    ensures Kept(a + b, state) == Kept(a, state) + Kept(b, state)
    decreases |a|
  {
    if a == [] {
      assert a + b == b;
    } else {
      var head := if a[0].state == state then [NodePort(a[0])] else [];
      assert (a + b)[0] == a[0] && (a + b)[1..] == a[1..] + b;
      assert Kept(a + b, state) == head + Kept(a[1..] + b, state);
      KeptAppend(a[1..], b, state);
      assert Kept(a, state) == head + Kept(a[1..], state);
      assert head + (Kept(a[1..], state) + Kept(b, state)) == (head + Kept(a[1..], state)) + Kept(b, state);
    }
  }

  /** One more visited element adds its Port at the end exactly when it is in the state collected. */
  lemma KeptStep(visited: seq<PortNode>, node: PortNode, state: string)
    ensures Kept(visited + [node], state) == Kept(visited, state) + if node.state == state then [NodePort(node)] else []
  {
    KeptAppend(visited, [node], state);
    assert [node][1..] == [];
  }

  /** The states of the elements, in order. */
  function States(nodes: seq<PortNode>): (r: seq<string>)
    ensures |r| == |nodes|
  {
    if nodes == [] then [] else [nodes[0].state] + States(nodes[1..])
  }

  /**
   * No port id is checked for duplicates: every element in a given state
   * yields its own Port, so as many are kept as there are such elements.
   */
  lemma {:induction false} KeptCountsEveryElement(nodes: seq<PortNode>, state: string)
    ensures |Kept(nodes, state)| == multiset(States(nodes))[state]
    decreases |nodes|
  {
    if nodes != [] {
      KeptCountsEveryElement(nodes[1..], state);
      assert States(nodes) == [nodes[0].state] + States(nodes[1..]);
      assert multiset(States(nodes)) == multiset{nodes[0].state} + multiset(States(nodes[1..]));
    }
  }

  /**
   * Starting at the first child instead of at the first "port" element changes
   * nothing when that first child is itself a "port" element or is not in the
   * state being collected (a leading `extraports` element has no `state` child,
   * so its state reads as empty).
   */
  lemma FirstChildQuirkHarmless(children: seq<PortNode>, state: string)
    requires children != [] ==> children[0].tag == "port" || children[0].state != state
    ensures Kept(Visited(children), state) == Kept(PortElements(children), state)
  {
    VisitedIsFirstThenPortElements(children);
    if children != [] {
      assert children == [children[0]] + children[1..];
      PortElementsAppend([children[0]], children[1..]);
      KeptAppend([children[0]], PortElements(children[1..]), state);
      KeptAppend(PortElements([children[0]]), PortElements(children[1..]), state);
    }
  }

  /** The summary's two categories, in the order the summary reports them. */
  datatype Category = FilteredPorts | OpenPorts

  /** One entry of the scan summary. */
  datatype SummaryItem =
    /** The informational log that `count` ports were found, echoed to the console. */
    | CountFound(category: Category, count: int)
    /** The informational log that no port of the category was found. */
    | NoneFound(category: Category)
    /** One console line listing a port. */
    | Listed(category: Category, portid: string, service: string)

  /** The listing lines of one category. */
  function Listing(category: Category, ports: seq<Port>): (r: seq<SummaryItem>)
    ensures |r| == |ports|
    ensures forall k :: 0 <= k < |r| ==> r[k] == Listed(category, ports[k].portid, ports[k].service)
  {
    if ports == [] then [] else [Listed(category, ports[0].portid, ports[0].service)] + Listing(category, ports[1..])
  }

  lemma ListingSnoc(category: Category, ports: seq<Port>, k: nat)
    requires k < |ports|
    ensures Listing(category, ports[..k + 1])
      == Listing(category, ports[..k]) + [Listed(category, ports[k].portid, ports[k].service)]
  {
    var a := Listing(category, ports[..k + 1]);
    var b := Listing(category, ports[..k]) + [Listed(category, ports[k].portid, ports[k].service)];
    assert |a| == |b|;
    forall i | 0 <= i < |a| ensures a[i] == b[i] {
    }
  }

  /** One section of the summary: the count and the listing, or the "none found" log. */
  function Section(category: Category, count: int, ports: seq<Port>): seq<SummaryItem> {
    if count > 0 then [CountFound(category, count)] + Listing(category, ports) else [NoneFound(category)]
  }

  /** The whole summary: the filtered section, then the open section. */
  function Summary(numFilter: int, filterPorts: seq<Port>, numOpen: int, openPorts: seq<Port>): seq<SummaryItem> {
    Section(FilteredPorts, numFilter, filterPorts) + Section(OpenPorts, numOpen, openPorts)
  }

  /** The (portid, service) pairs the summary lists under a category, in order. */
  function ListedPairs(items: seq<SummaryItem>, category: Category): seq<(string, string)> {
    ConcatMap(ListedPair(category), items)
  }

  /** The pair an item lists under a category: its (portid, service) if it lists a port of that category, else none. */
  function ListedPair(category: Category): SummaryItem -> seq<(string, string)> {
    (item: SummaryItem) => if item.Listed? && item.category == category then [(item.portid, item.service)] else []
  }

  /** The (portid, service) pairs of ports, in order. */
  function Pairs(ports: seq<Port>): seq<(string, string)> {
    if ports == [] then [] else [(ports[0].portid, ports[0].service)] + Pairs(ports[1..])
  }

  lemma ListedPairsAppend(a: seq<SummaryItem>, b: seq<SummaryItem>, category: Category)
    ensures ListedPairs(a + b, category) == ListedPairs(a, category) + ListedPairs(b, category)
  {
    ConcatMapAppend(ListedPair(category), a, b);
  }

  lemma {:induction false} ListedPairsOfListing(listed: Category, ports: seq<Port>, category: Category)
    ensures ListedPairs(Listing(listed, ports), category) == if listed == category then Pairs(ports) else []
    decreases |ports|
  {
    if ports != [] {
      ListedPairsOfListing(listed, ports[1..], category);
      assert Listing(listed, ports)[1..] == Listing(listed, ports[1..]);
    }
  }

  lemma ListedPairsOfSection(listed: Category, count: int, ports: seq<Port>, category: Category)
    ensures ListedPairs(Section(listed, count, ports), category)
      == if listed == category && count > 0 then Pairs(ports) else []
  {
    if count > 0 {
      ListedPairsAppend([CountFound(listed, count)], Listing(listed, ports), category);
      ListedPairsOfListing(listed, ports, category);
      ConcatMapOne(ListedPair(category), CountFound(listed, count));
    } else {
      ConcatMapOne(ListedPair(category), NoneFound(listed));
    }
  }

  /**
   * Of a consistent registry, the summary lists under each category exactly
   * that category's ports, as (portid, service) pairs in stored order.
   */
  lemma SummaryListsStoredPorts(numFilter: int, filterPorts: seq<Port>, numOpen: int, openPorts: seq<Port>)
    requires numFilter == |filterPorts| && numOpen == |openPorts|
    ensures ListedPairs(Summary(numFilter, filterPorts, numOpen, openPorts), FilteredPorts) == Pairs(filterPorts)
    ensures ListedPairs(Summary(numFilter, filterPorts, numOpen, openPorts), OpenPorts) == Pairs(openPorts)
  {
    var f := Section(FilteredPorts, numFilter, filterPorts);
    var o := Section(OpenPorts, numOpen, openPorts);
    ListedPairsAppend(f, o, FilteredPorts);
    ListedPairsAppend(f, o, OpenPorts);
    ListedPairsOfSection(FilteredPorts, numFilter, filterPorts, FilteredPorts);
    ListedPairsOfSection(FilteredPorts, numFilter, filterPorts, OpenPorts);
    ListedPairsOfSection(OpenPorts, numOpen, openPorts, FilteredPorts);
    ListedPairsOfSection(OpenPorts, numOpen, openPorts, OpenPorts);
  }

  /**
   * The summary is the filtered section followed by the open section: no item
   * about filtered ports comes after an item about open ports, and each
   * section starts with its count log, or is its single "none found" log.
   */
  lemma SummaryOrder(numFilter: int, filterPorts: seq<Port>, numOpen: int, openPorts: seq<Port>)
    ensures var s := Summary(numFilter, filterPorts, numOpen, openPorts);
      var f := |Section(FilteredPorts, numFilter, filterPorts)|;
      && (forall k :: 0 <= k < f ==> s[k].category == FilteredPorts)
      && (forall k :: f <= k < |s| ==> s[k].category == OpenPorts)
      && s[0] == (if numFilter > 0 then CountFound(FilteredPorts, numFilter) else NoneFound(FilteredPorts))
      && s[f] == (if numOpen > 0 then CountFound(OpenPorts, numOpen) else NoneFound(OpenPorts))
  {
  }

  /** A category reports "none found" exactly when its counter is not positive, and then lists nothing. */
  lemma SummaryNoneFound(numFilter: int, filterPorts: seq<Port>, numOpen: int, openPorts: seq<Port>, category: Category)
    requires numFilter == |filterPorts| && numOpen == |openPorts|
    ensures var s := Summary(numFilter, filterPorts, numOpen, openPorts);
      var count := if category == FilteredPorts then numFilter else numOpen;
      && (NoneFound(category) in s <==> count == 0)
      && (CountFound(category, count) in s <==> count > 0)
      && (count == 0 ==> ListedPairs(s, category) == [])
  {
    var f := Section(FilteredPorts, numFilter, filterPorts);
    var o := Section(OpenPorts, numOpen, openPorts);
    var s := f + o;
    SummaryOrder(numFilter, filterPorts, numOpen, openPorts);
    SummaryListsStoredPorts(numFilter, filterPorts, numOpen, openPorts);
    var count := if category == FilteredPorts then numFilter else numOpen;
    var own := if category == FilteredPorts then f else o;
    assert forall k :: 0 <= k < |s| && s[k].category == category ==> s[k] in own;
    if count == 0 {
      assert own == [NoneFound(category)];
      assert own[0] in s;
    } else {
      assert own[0] == CountFound(category, count);
      assert own[0] in s;
      assert forall k :: 0 <= k < |own| ==> own[k] != NoneFound(category);
    }
  }

  /** The console text the summary prints for a count: "Found <n> filtered port(s)." or "... open port(s)." */
  function FoundText(category: Category, count: nat): (t: string)
    ensures |t| > 6 && t[..6] == "Found "
  {
    "Found " + Decimal(count) + (if category == FilteredPorts then " filtered port(s)." else " open port(s).")
  }

  /** The count can be read back from its text: the digits after "Found " up to the next blank. */
  lemma FoundTextReadsBack(category: Category, count: nat)
    ensures var t := FoundText(category, count);
      var d := |Decimal(count)|;
      && 6 + d < |t|
      && (forall k :: 6 <= k < 6 + d ==> IsDigit(t[k]))
      && t[6 + d] == ' '
      && ParseDecimal(t[6..6 + d]) == count
  {
    var t := FoundText(category, count);
    var d := |Decimal(count)|;
    assert t[6..6 + d] == Decimal(count);
    DecimalRoundTrip(count);
  }

  /** The return code each summary log carries. */
  function LogCode(item: SummaryItem): Logger.ReturnCode
    requires !item.Listed?
  {
    match item
    case CountFound(c, _) => if c == FilteredPorts then Logger.FilterFoundPass else Logger.OpenFoundPass
    case NoneFound(c) => if c == FilteredPorts then Logger.FilterFoundFail else Logger.OpenFoundFail
  }

  /**
   * A count log carries a pass code and a "none found" log a failure code, and
   * each of the four has its own message in the logger's table. Every summary
   * log is echoed on the console except the one saying no filtered port was found.
   */
  lemma SummaryLogCodes(item: SummaryItem)
    requires !item.Listed?
    ensures var code := LogCode(item);
      && (code.Value() > 0 <==> item.CountFound?)
      && Logger.GetReturnMessage(code.Value()) == Logger.ReturnMessages[code]
      && Logger.GetReturnMessage(code.Value()) != Logger.UNKNOWN
      && (LogVerbose(item) <==> code != Logger.FilterFoundFail)
  {
    Logger.ValueRoundTrip(LogCode(item));
    Logger.TableComplete(LogCode(item));
  }

  /** The console-echo flag each summary log is made with. */
  function LogVerbose(item: SummaryItem): bool
    requires !item.Listed?
  {
    match item
    case CountFound(_, _) => true
    case NoneFound(c) => c == OpenPorts
  }

  /** The console line listing one port: a marker coloured by category, the id right-aligned in five columns, the service. */
  function ListedLine(category: Category, portid: string, service: string): string {
    "\t" + (if category == FilteredPorts then Logger.CYN else Logger.BLU) + "[!] " + Logger.RST
      + PadLeft(portid, 5) + " : " + service + "\n"
  }

  /** The console text of one summary item; a log that is not a count prints nothing of its own. */
  function ItemText(item: SummaryItem): string {
    match item
    case CountFound(c, n) => if n >= 0 then "\t" + FoundText(c, n) + "\n" else ""
    case NoneFound(_) => ""
    case Listed(c, id, service) => ListedLine(c, id, service)
  }

  /** The console text the summary items print (logs aside): the count texts and one line per listed port. */
  function ConsoleText(items: seq<SummaryItem>): string {
    ConcatMap(ItemText, items)
  }

  /** The lines listing ports one after the other, as the summary's loop over a list prints them. */
  function PortLines(category: Category, ports: seq<Port>): string {
    if ports == [] then "" else ListedLine(category, ports[0].portid, ports[0].service) + PortLines(category, ports[1..])
  }

  /**
   * What one category writes directly to `std::cout`: with a positive count,
   * the count text and then every port of the list; otherwise nothing. The
   * logger's own console echo of the summary logs is not part of this text.
   */
  function SectionConsole(category: Category, count: int, ports: seq<Port>): string {
    if count > 0 then "\t" + FoundText(category, count) + "\n" + PortLines(category, ports) else ""
  }

  lemma {:induction false} ConsoleTextOfListing(category: Category, ports: seq<Port>)
    ensures ConsoleText(Listing(category, ports)) == PortLines(category, ports)
    decreases |ports|
  {
    if ports != [] {
      assert Listing(category, ports)[1..] == Listing(category, ports[1..]);
      ConsoleTextOfListing(category, ports[1..]);
      assert ConsoleText(Listing(category, ports))
          == ItemText(Listing(category, ports)[0]) + ConsoleText(Listing(category, ports)[1..]);
    }
  }

  lemma ConsoleTextOfSection(category: Category, count: int, ports: seq<Port>)
    ensures ConsoleText(Section(category, count, ports)) == SectionConsole(category, count, ports)
  {
    if count > 0 {
      var head := [CountFound(category, count)];
      ConcatMapAppend(ItemText, head, Listing(category, ports));
      ConsoleTextOfListing(category, ports);
      ConcatMapOne(ItemText, CountFound(category, count));
    } else {
      ConcatMapOne(ItemText, NoneFound(category));
    }
  }

  /**
   * The console text of the summary is that of the filtered ports followed by
   * that of the open ports, each list printed in stored order under its count.
   */
  lemma SummaryConsole(numFilter: int, filterPorts: seq<Port>, numOpen: int, openPorts: seq<Port>)
    ensures ConsoleText(Summary(numFilter, filterPorts, numOpen, openPorts))
      == SectionConsole(FilteredPorts, numFilter, filterPorts) + SectionConsole(OpenPorts, numOpen, openPorts)
  {
    ConcatMapAppend(ItemText, Section(FilteredPorts, numFilter, filterPorts), Section(OpenPorts, numOpen, openPorts));
    ConsoleTextOfSection(FilteredPorts, numFilter, filterPorts);
    ConsoleTextOfSection(OpenPorts, numOpen, openPorts);
  }

  /** The target host: its address and the open and filtered ports found on it. */
  class Host {
    const address: string
    var numOpen: int
    var numFilter: int
    var openPorts: seq<Port>
    var filterPorts: seq<Port>

    /** The counters match the lists, and each list holds ports of its own state only. */
    ghost predicate Valid()
      reads this
    {
      && numOpen == |openPorts|
      && numFilter == |filterPorts|
      && (forall k :: 0 <= k < |openPorts| ==> openPorts[k].state == STATE_OPEN)
      && (forall k :: 0 <= k < |filterPorts| ==> filterPorts[k].state == STATE_FLTR)
    }

    constructor (addr: string)
      ensures Valid()
      ensures address == addr
      ensures numOpen == 0 && numFilter == 0 && openPorts == [] && filterPorts == []
    {
      address := addr;
      numOpen := 0;
      numFilter := 0;
      openPorts := [];
      filterPorts := [];
    }

    /** Files a port under open or filtered by its state; a port in any other state is dropped. */
    method AddPortToHost(port: Port)
      requires Valid()
      modifies this
      ensures Valid()
      ensures openPorts == old(openPorts) + (if port.state == STATE_OPEN then [port] else [])
      ensures filterPorts == old(filterPorts) + (if port.state == STATE_FLTR then [port] else [])
      ensures port.state != STATE_OPEN && port.state != STATE_FLTR ==> unchanged(this)
    {
      if port.state == STATE_OPEN {
        openPorts := openPorts + [port];
        numOpen := numOpen + 1;
      } else if port.state == STATE_FLTR {
        filterPorts := filterPorts + [port];
        numFilter := numFilter + 1;
      }
    }

    /**
     * The open-ports scan, after the Nmap command has run with return code
     * `execResult` and its XML report has been loaded (or not). Each visited
     * element that is not closed is filed with AddPortToHost.
     */
    method GetOpenPorts(execResult: Logger.ReturnCode, report: XmlReport) returns (r: ScanResult)
      requires Valid()
      modifies this
      ensures Valid()
      ensures execResult == Logger.CmdExecFail ==> r == OpenNmapFail && unchanged(this)
      ensures execResult != Logger.CmdExecFail && report.LoadFailed? ==> r == OpenXmlFail && unchanged(this)
      ensures execResult != Logger.CmdExecFail && report.Loaded? ==>
        && openPorts == old(openPorts) + Kept(Visited(report.children), STATE_OPEN)
        && filterPorts == old(filterPorts) + Kept(Visited(report.children), STATE_FLTR)
        && r == (if numOpen == 0 && numFilter == 0 then PortFoundFail else PortsFoundPass)
    {
      if execResult == Logger.CmdExecFail {
        return OpenNmapFail;
      }
      if report.LoadFailed? {
        return OpenXmlFail;
      }
      var children := report.children;
      var i := 0;
      ghost var visited: seq<PortNode> := [];
      StatesDistinct();
      while i < |children|
        invariant i <= |children|
        invariant visited + VisitFrom(children, i) == Visited(children)
        invariant Valid()
        invariant openPorts == old(openPorts) + Kept(visited, STATE_OPEN)
        invariant filterPorts == old(filterPorts) + Kept(visited, STATE_FLTR)
        decreases |children| - i
      {
        var node := children[i];
        var id := node.portid;
        var status := node.state;
        var name := node.serviceName;
        if name == "" {
          name := "N/A";
        }
        assert NewPort(id, status, name) == NodePort(node);
        if status != STATE_CLSD {
          AddPortToHost(NewPort(id, status, name));
        }
        KeptStep(visited, node, STATE_OPEN);
        KeptStep(visited, node, STATE_FLTR);
        AppendAssoc(old(openPorts), Kept(visited, STATE_OPEN), if node.state == STATE_OPEN then [NodePort(node)] else []);
        AppendAssoc(old(filterPorts), Kept(visited, STATE_FLTR), if node.state == STATE_FLTR then [NodePort(node)] else []);
        VisitStep(children, i, visited);
        visited := visited + [node];
        i := NextPortSibling(children, i);
      }
      assert VisitFrom(children, i) == [];
      assert visited == Visited(children);
      if numOpen == 0 && numFilter == 0 {
        return PortFoundFail;
      }
      return PortsFoundPass;
    }

    /** The scan summary; reading it changes nothing. */
    method PrintOpenScanSummary() returns (items: seq<SummaryItem>)
      ensures items == Summary(numFilter, filterPorts, numOpen, openPorts)
    {
      var filtered: seq<SummaryItem>;
      if numFilter > 0 {
        filtered := [CountFound(FilteredPorts, numFilter)];
        for k := 0 to |filterPorts|
          invariant filtered == [CountFound(FilteredPorts, numFilter)] + Listing(FilteredPorts, filterPorts[..k])
        {
          filtered := filtered + [Listed(FilteredPorts, filterPorts[k].portid, filterPorts[k].service)];
          ListingSnoc(FilteredPorts, filterPorts, k);
        }
        assert filterPorts[..|filterPorts|] == filterPorts;
      } else {
        filtered := [NoneFound(FilteredPorts)];
      }
      assert filtered == Section(FilteredPorts, numFilter, filterPorts);
      var open: seq<SummaryItem>;
      if numOpen > 0 {
        open := [CountFound(OpenPorts, numOpen)];
        for k := 0 to |openPorts|
          invariant open == [CountFound(OpenPorts, numOpen)] + Listing(OpenPorts, openPorts[..k])
        {
          open := open + [Listed(OpenPorts, openPorts[k].portid, openPorts[k].service)];
          ListingSnoc(OpenPorts, openPorts, k);
        }
        assert openPorts[..|openPorts|] == openPorts;
      } else {
        open := [NoneFound(OpenPorts)];
      }
      assert open == Section(OpenPorts, numOpen, openPorts);
      items := filtered + open;
    }
  }

  /** A registry never holds a closed port, and each port sits in the list of its own state. */
  lemma NoClosedPortStored(h: Host)
    requires h.Valid()
    ensures forall p :: p in h.openPorts + h.filterPorts ==> p.state != STATE_CLSD
    ensures forall p :: p in h.openPorts ==> p !in h.filterPorts
  {
    StatesDistinct();
  }
}
