/**
 * The mitigation helpers of the client: the iptables commands previewed for
 * one flow, the guard each per-flow action checks before showing them, the
 * distinct addresses a bulk action collects and the commands it previews,
 * and the singular/plural wording of its messages.
 *
 * Addresses are checked with the prediction page's `isValidIPv4`, the
 * validator the page passes in.
 */
module Mitigation {
  import opened Wrappers
  import opened Text
  import PredictPage

  /** A value as JavaScript holds it in a flow's details: absent, a number, or a string. */
  datatype JsValue = Undefined | Num(n: int) | Str(s: string)

  predicate Truthy(v: JsValue) {
    match v
    case Undefined => false
    case Num(n) => n != 0
    case Str(s) => s != ""
  }

  /** The text a template literal puts in place of the value. */
  function Render(v: JsValue): string {
    match v
    case Undefined => "undefined"
    case Num(n) => IntToString(n)
    case Str(s) => s
  }

  /** `isValidIPv4(v)`: only a string can be a valid address. */
  predicate ValidIp(v: JsValue) {
    v.Str? && PredictPage.IsValidIPv4(Some(v.s))
  }

  // ---------------------------------------------------------------------------
  // buildCommandPreview

  const InputFrom: string := "sudo iptables -I INPUT -s "
  const OutputTo: string := "sudo iptables -I OUTPUT -d "
  const InputPort: string := "sudo iptables -I INPUT -p tcp --dport "
  const OutputPort: string := "sudo iptables -I OUTPUT -p tcp --sport "
  const ToPort: string := " -p tcp --dport "
  const FromPort: string := " -p tcp --sport "
  const Drop: string := " -j DROP"
  const Accept: string := " -j ACCEPT"
  const Limit: string := " -m limit --limit "
  const LimitBurst: string := " --limit-burst "
  const DefaultLimit: string := "5/sec"
  const DefaultBurst: string := "10"
  const NatsPreviewHead: string := "POST "
  const NatsPreviewTail: string := "/api/security/nats-publish with server default subject (env NATS_SUBJECT)"

  /** The per-flow actions of the menu; `Other` is any key the dispatcher does not know. */
  datatype Action =
    | BlockSrcIp | BlockDstIp | BlockDstPort | BlockIpPortSrc | BlockIpPortDst
    | DropSession | RateLimitSrc | SendNats | Other(key: string)

  /** The parameters of a preview; `limit` and `burst` fall back to their defaults when absent. */
  datatype PreviewParams = PreviewParams(srcIp: JsValue, dstIp: JsValue, dport: JsValue,
                                         limit: Option<string>, burst: Option<string>)

  function InputDrop(ip: string): string {
    InputFrom + ip + Drop
  }

  function OutputDrop(ip: string): string {
    OutputTo + ip + Drop
  }

  /** Dropping everything from and to `ip`: an INPUT rule and an OUTPUT rule. */
  function IpBlock(ip: string): string {
    InputDrop(ip) + "\n" + OutputDrop(ip)
  }

  function PortBlock(port: string): string {
    InputPort + port + Drop + "\n" + OutputPort + port + Drop
  }

  function IpPortBlock(ip: string, port: string): string {
    InputFrom + ip + ToPort + port + Drop + "\n" + OutputTo + ip + FromPort + port + Drop
  }

  function RateAccept(ip: string, port: string, limit: string, burst: string): string {
    InputFrom + ip + ToPort + port + Limit + limit + LimitBurst + burst + Accept
  }

  function RateDrop(ip: string, port: string): string {
    InputFrom + ip + ToPort + port + Drop
  }

  /** `(dstIp && dstIp) || srcIp`: the destination when it is set, else the source. */
  function SessionTarget(srcIp: JsValue, dstIp: JsValue): JsValue {
    if Truthy(dstIp) then dstIp else srcIp
  }

  /** `buildCommandPreview`: the commands shown for an action; nothing for a key it does not know. */
  function CommandPreview(action: Action, p: PreviewParams, serverUrl: string): (preview: string)
    ensures action.Other? ==> preview == ""
  {
    var limit := p.limit.GetOr(DefaultLimit);
    var burst := p.burst.GetOr(DefaultBurst);
    match action
    case BlockSrcIp => IpBlock(Render(p.srcIp))
    case BlockDstIp => IpBlock(Render(p.dstIp))
    case BlockDstPort => PortBlock(Render(p.dport))
    case BlockIpPortSrc => IpPortBlock(Render(p.srcIp), Render(p.dport))
    case BlockIpPortDst => IpPortBlock(Render(p.dstIp), Render(p.dport))
    case DropSession => IpBlock(Render(SessionTarget(p.srcIp, p.dstIp)))
    case RateLimitSrc =>
      RateAccept(Render(p.srcIp), Render(p.dport), limit, burst) + "\n" + RateDrop(Render(p.srcIp), Render(p.dport))
    case SendNats => NatsPreviewHead + serverUrl + NatsPreviewTail
    case Other(_) => ""
  }

  /** Text without a line break. */
  predicate OneLine(s: string) {
    '\n' !in s
  }

  lemma OneLineConcat(a: string, b: string)
    requires OneLine(a) && OneLine(b)
    ensures OneLine(a + b)
  {
  }

  /** Two one-line rules joined by a line break split back into exactly those two lines. */
  lemma {:induction false} TwoLines(first: string, second: string)
    requires OneLine(first) && OneLine(second)
    ensures Split(first + "\n" + second, '\n') == [first, second]
  {
    SplitJoin([first, second], '\n');
    assert Join([first, second], "\n") == first + "\n" + Join([second], "\n");
  }

  /**
   * An address block is exactly two lines: the INPUT rule dropping what
   * comes from the address and the OUTPUT rule dropping what goes to it.
   */
  lemma IpBlockLines(ip: string)
    requires OneLine(ip)
    ensures Split(IpBlock(ip), '\n') == [InputFrom + ip + Drop, OutputTo + ip + Drop]
  {
    OneLineConcat(InputFrom, ip);
    OneLineConcat(InputFrom + ip, Drop);
    OneLineConcat(OutputTo, ip);
    OneLineConcat(OutputTo + ip, Drop);
    TwoLines(InputDrop(ip), OutputDrop(ip));
  }

  /**
   * The rate-limit preview is an ACCEPT rule within the limit (by default
   * `5/sec` with a burst of `10`) followed by the DROP rule for the rest.
   */
  lemma RateLimitLines(p: PreviewParams, serverUrl: string)
    requires OneLine(Render(p.srcIp)) && OneLine(Render(p.dport))
    requires p.limit.None? && p.burst.None?
    ensures var ip := Render(p.srcIp);
      var port := Render(p.dport);
      Split(CommandPreview(RateLimitSrc, p, serverUrl), '\n') ==
        [InputFrom + ip + ToPort + port + Limit + DefaultLimit + LimitBurst + DefaultBurst + Accept,
         InputFrom + ip + ToPort + port + Drop]
  {
    var ip := Render(p.srcIp);
    var port := Render(p.dport);
    var accept := RateAccept(ip, port, DefaultLimit, DefaultBurst);
    assert OneLine(accept) by {
      OneLineConcat(InputFrom, ip);
      OneLineConcat(InputFrom + ip, ToPort);
      OneLineConcat(InputFrom + ip + ToPort, port);
      OneLineConcat(InputFrom + ip + ToPort + port, Limit);
      OneLineConcat(InputFrom + ip + ToPort + port + Limit, DefaultLimit);
      OneLineConcat(InputFrom + ip + ToPort + port + Limit + DefaultLimit, LimitBurst);
      OneLineConcat(InputFrom + ip + ToPort + port + Limit + DefaultLimit + LimitBurst, DefaultBurst);
      OneLineConcat(InputFrom + ip + ToPort + port + Limit + DefaultLimit + LimitBurst + DefaultBurst, Accept);
    }
    assert OneLine(RateDrop(ip, port)) by {
      OneLineConcat(InputFrom, ip);
      OneLineConcat(InputFrom + ip, ToPort);
      OneLineConcat(InputFrom + ip + ToPort, port);
      OneLineConcat(InputFrom + ip + ToPort + port, Drop);
    }
    TwoLines(accept, RateDrop(ip, port));
  }

  // ---------------------------------------------------------------------------
  // handleMitigationAction

  const SourceTitle: string := "Commands: Block source IP "
  const DestinationTitle: string := "Commands: Block destination IP "
  const PortTitle: string := "Commands: Block destination port "
  const IpPortTitle: string := "Commands: Block "
  const DropTitle: string := "Commands: Drop traffic for "
  const RateTitle: string := "Commands: Rate limit "
  const TcpSuffix: string := "/tcp"
  const SourceMissing: string := "Source IP missing or not valid IPv4"
  const DestinationMissing: string := "Destination IP missing or not valid IPv4"
  const PortMissing: string := "No destination port available"
  const SourcePortMissing: string := "Missing source IP or port"
  const DestinationPortMissing: string := "Missing destination IP or port"
  const DropInvalid: string := "Invalid IP to drop"
  const RateMissing: string := "Missing src IP or port for rate limit"
  const NoFlowData: string := "No flow data to send"

  /** What the dispatcher does: show commands, warn, open the NATS settings, or report an unknown key. */
  datatype Outcome =
    | ShowCommands(title: string, preview: string)
    | Warn(message: string)
    | AskNatsSettings
    | NotRecognized

  /**
   * `handleMitigationAction`: each action shows its preview only when its
   * addresses are valid and its port is set, else warns; sending to NATS
   * needs the flow record.
   */
  function HandleAction(action: Action, srcIp: JsValue, dstIp: JsValue, dport: JsValue,
                        hasFlowRecord: bool, serverUrl: string): (o: Outcome)
    ensures action.Other? <==> o.NotRecognized?
    ensures o.ShowCommands? ==>
      o.preview == CommandPreview(action, PreviewParams(srcIp, dstIp, dport, None, None), serverUrl)
  {
    var preview := CommandPreview(action, PreviewParams(srcIp, dstIp, dport, None, None), serverUrl);
    var at := Render(srcIp) + ":" + Render(dport) + TcpSuffix;
    var dat := Render(dstIp) + ":" + Render(dport) + TcpSuffix;
    match action
    case BlockSrcIp =>
      if ValidIp(srcIp) then ShowCommands(SourceTitle + Render(srcIp), preview) else Warn(SourceMissing)
    case BlockDstIp =>
      if ValidIp(dstIp) then ShowCommands(DestinationTitle + Render(dstIp), preview) else Warn(DestinationMissing)
    case BlockDstPort =>
      if Truthy(dport) then ShowCommands(PortTitle + Render(dport) + TcpSuffix, preview) else Warn(PortMissing)
    case BlockIpPortSrc =>
      if ValidIp(srcIp) && Truthy(dport) then ShowCommands(IpPortTitle + at, preview) else Warn(SourcePortMissing)
    case BlockIpPortDst =>
      if ValidIp(dstIp) && Truthy(dport) then ShowCommands(IpPortTitle + dat, preview) else Warn(DestinationPortMissing)
    case DropSession =>
      if ValidIp(SessionTarget(srcIp, dstIp)) then
        var ipToDrop := if ValidIp(dstIp) then dstIp else srcIp;
        ShowCommands(DropTitle + Render(ipToDrop), preview)
      else Warn(DropInvalid)
    case RateLimitSrc =>
      if ValidIp(srcIp) && Truthy(dport) then ShowCommands(RateTitle + at, preview) else Warn(RateMissing)
    case SendNats =>
      if hasFlowRecord then AskNatsSettings else Warn(NoFlowData)
    case Other(_) => NotRecognized
  }

  /** The addresses an action's commands are written for. */
  function TargetOf(action: Action, srcIp: JsValue, dstIp: JsValue): JsValue {
    match action
    case BlockDstIp => dstIp
    case BlockIpPortDst => dstIp
    case DropSession => SessionTarget(srcIp, dstIp)
    case _ => srcIp
  }

  predicate NeedsPort(action: Action) {
    action == BlockDstPort || action == BlockIpPortSrc || action == BlockIpPortDst || action == RateLimitSrc
  }

  predicate NeedsIp(action: Action) {
    action != BlockDstPort && action != SendNats && !action.Other?
  }

  /**
   * The commands are shown exactly when the action is a command action whose
   * target address is valid (if it has one) and whose port is set (if it
   * needs one); only `send-nats` opens the NATS settings, and only with a
   * flow record.
   */
  lemma ShownIffGuard(action: Action, srcIp: JsValue, dstIp: JsValue, dport: JsValue,
                      hasFlowRecord: bool, serverUrl: string)
    ensures var o := HandleAction(action, srcIp, dstIp, dport, hasFlowRecord, serverUrl);
      && (o.ShowCommands? <==>
            action != SendNats && !action.Other?
            && (NeedsIp(action) ==> ValidIp(TargetOf(action, srcIp, dstIp)))
            && (NeedsPort(action) ==> Truthy(dport)))
      && (o.AskNatsSettings? <==> action == SendNats && hasFlowRecord)
  {
  }

  /**
   * When an address block is shown, it is the two-line block for a valid
   * address; for dropping a session that address is the destination when
   * one is set and the source otherwise, and the title names that same address.
   */
  lemma ShownBlockIsValid(action: Action, srcIp: JsValue, dstIp: JsValue, dport: JsValue,
                          hasFlowRecord: bool, serverUrl: string)
    requires action == BlockSrcIp || action == BlockDstIp || action == DropSession
    requires HandleAction(action, srcIp, dstIp, dport, hasFlowRecord, serverUrl).ShowCommands?
    ensures var o := HandleAction(action, srcIp, dstIp, dport, hasFlowRecord, serverUrl);
      var ip := TargetOf(action, srcIp, dstIp);
      && ip.Str? && PredictPage.IsValidIPv4(Some(ip.s))
      && Split(o.preview, '\n') == [InputFrom + ip.s + Drop, OutputTo + ip.s + Drop]
      && (action == DropSession ==> o.title == DropTitle + ip.s)
  {
    var ip := TargetOf(action, srcIp, dstIp);
    ValidIpOneLine(ip.s);
    IpBlockLines(ip.s);
  }

  /** A valid address is made of digits and dots only. */
  lemma ValidIpChars(s: string)
    requires PredictPage.IsValidIPv4(Some(s))
    ensures forall c :: c in s ==> IsDigit(c) || c == '.'
  {
    var parts := Split(s, '.');
    JoinSplit(s, '.');
    forall p | p in parts ensures forall c :: c in p ==> IsDigit(c) {
      assert PredictPage.Octet(p);
    }
    JoinDigitParts(parts);
  }

  lemma {:induction false} JoinDigitParts(parts: seq<string>)
    requires forall p :: p in parts ==> forall c :: c in p ==> IsDigit(c)
    ensures forall c :: c in Join(parts, ".") ==> IsDigit(c) || c == '.'
  {
    if parts != [] {
      assert parts[0] in parts;
    }
    if |parts| > 1 {
      assert forall p :: p in parts[1..] ==> p in parts;
      JoinDigitParts(parts[1..]);
      var rest := Join(parts[1..], ".");
      assert Join(parts, ".") == parts[0] + "." + rest;
      assert forall c :: c in parts[0] + "." + rest ==> c in parts[0] || c == '.' || c in rest;
    }
  }

  lemma ValidIpOneLine(s: string)
    requires PredictPage.IsValidIPv4(Some(s))
    ensures OneLine(s)
  {
    ValidIpChars(s);
  }

  /** A valid address has no white space at its ends, so `trim` leaves it as it is. */
  lemma ValidIpTrimmed(s: string)
    requires PredictPage.IsValidIPv4(Some(s))
    ensures Trim(s) == s
  {
    ValidIpChars(s);
    if s != [] {
      assert s[0] in s && s[|s| - 1] in s;
    }
    TrimUnchanged(s);
  }

  // ---------------------------------------------------------------------------
  // handleBulkMitigationAction

  /** What `computeFlowDetails` reads from a row; the reading itself is not part of this model. */
  datatype FlowDetails = FlowDetails(srcIp: JsValue, dstIp: JsValue, dport: JsValue)

  /** `set.add(x)` on a set kept as its elements in insertion order. */
  function Add(s: seq<string>, x: string): (r: seq<string>)
    ensures x in s ==> r == s
    ensures x !in s ==> r == s + [x]
  {
    if x in s then s else s + [x]
  }

  /** The three sets the bulk action fills: source addresses, destination addresses and ports. */
  datatype Targets = Targets(srcIps: seq<string>, dstIps: seq<string>, dports: seq<string>)

  /** A port is collected unless it is `undefined` or the empty string. */
  predicate HasPort(v: JsValue) {
    !v.Undefined? && v != Str("")
  }

  function Collect(rows: seq<FlowDetails>): Targets {
    if rows == [] then Targets([], [], [])
    else
      var t := Collect(rows[..|rows| - 1]);
      var row := rows[|rows| - 1];
      Targets(
        if ValidIp(row.srcIp) then Add(t.srcIps, Trim(row.srcIp.s)) else t.srcIps,
        if ValidIp(row.dstIp) then Add(t.dstIps, Trim(row.dstIp.s)) else t.dstIps,
        if HasPort(row.dport) then Add(t.dports, Render(row.dport)) else t.dports)
  }

  /** The `forEach` over the rows that fills the three sets. */
  method CollectTargets(rows: seq<FlowDetails>) returns (t: Targets)
    ensures t == Collect(rows)
  {
    var srcIps: seq<string> := [];
    var dstIps: seq<string> := [];
    var dports: seq<string> := [];
    var i := 0;
    while i < |rows|
      invariant 0 <= i <= |rows|
      invariant Targets(srcIps, dstIps, dports) == Collect(rows[..i])
    {
      assert rows[..i + 1][..i] == rows[..i];
      var row := rows[i];
      if ValidIp(row.srcIp) {
        srcIps := Add(srcIps, Trim(row.srcIp.s));
      }
      if ValidIp(row.dstIp) {
        dstIps := Add(dstIps, Trim(row.dstIp.s));
      }
      if HasPort(row.dport) {
        dports := Add(dports, Render(row.dport));
      }
      i := i + 1;
    }
    assert rows[..i] == rows;
    t := Targets(srcIps, dstIps, dports);
  }

  predicate NoRepeats(s: seq<string>) {
    forall i, j :: 0 <= i < j < |s| ==> s[i] != s[j]
  }

  /** `s` holds, each once, exactly the valid addresses of `rows` on the chosen side. */
  ghost predicate DistinctAddresses(s: seq<string>, rows: seq<FlowDetails>, source: bool) {
    && NoRepeats(s)
    && (forall x :: x in s ==> PredictPage.IsValidIPv4(Some(x)))
    && (forall x :: x in s <==> exists i :: 0 <= i < |rows| && Side(rows[i], source) == Str(x) && ValidIp(Str(x)))
  }

  function Side(row: FlowDetails, source: bool): JsValue {
    if source then row.srcIp else row.dstIp
  }

  function Addresses(t: Targets, source: bool): seq<string> {
    if source then t.srcIps else t.dstIps
  }

  /**
   * Each side's set holds every valid address of the rows once, already
   * trimmed, and nothing else.
   */
  lemma {:induction false} CollectDistinct(rows: seq<FlowDetails>, source: bool)
    ensures DistinctAddresses(Addresses(Collect(rows), source), rows, source)
  {
    if rows != [] {
      var prefix := rows[..|rows| - 1];
      CollectDistinct(prefix, source);
      var s := Addresses(Collect(prefix), source);
      var v := Side(rows[|rows| - 1], source);
      assert forall i :: 0 <= i < |prefix| ==> rows[i] == prefix[i];
      if ValidIp(v) {
        ValidIpTrimmed(v.s);
        AddDistinct(s, prefix, rows, source);
      } else {
        forall x | x in s ensures exists i :: 0 <= i < |rows| && Side(rows[i], source) == Str(x) && ValidIp(Str(x)) {
          var i :| 0 <= i < |prefix| && Side(prefix[i], source) == Str(x) && ValidIp(Str(x));
          assert Side(rows[i], source) == Str(x);
        }
      }
    }
  }

  lemma AddDistinct(s: seq<string>, prefix: seq<FlowDetails>, rows: seq<FlowDetails>, source: bool)
    requires rows != [] && prefix == rows[..|rows| - 1]
    requires DistinctAddresses(s, prefix, source)
    requires ValidIp(Side(rows[|rows| - 1], source))
    ensures DistinctAddresses(Add(s, Side(rows[|rows| - 1], source).s), rows, source)
  {
    AddedFromRows(s, prefix, rows, source);
    RowsInAdded(s, prefix, rows, source);
  }

  lemma AddedFromRows(s: seq<string>, prefix: seq<FlowDetails>, rows: seq<FlowDetails>, source: bool)
    requires rows != [] && prefix == rows[..|rows| - 1]
    requires DistinctAddresses(s, prefix, source)
    requires ValidIp(Side(rows[|rows| - 1], source))
    ensures forall y :: y in Add(s, Side(rows[|rows| - 1], source).s) ==>
      exists i :: 0 <= i < |rows| && Side(rows[i], source) == Str(y) && ValidIp(Str(y))
  {
    var x := Side(rows[|rows| - 1], source).s;
    var r := Add(s, x);
    forall y | y in r ensures exists i :: 0 <= i < |rows| && Side(rows[i], source) == Str(y) && ValidIp(Str(y)) {
      if y == x {
        assert Side(rows[|rows| - 1], source) == Str(y);
      } else {
        var i :| 0 <= i < |prefix| && Side(prefix[i], source) == Str(y) && ValidIp(Str(y));
        assert rows[i] == prefix[i];
      }
    }
  }

  lemma RowsInAdded(s: seq<string>, prefix: seq<FlowDetails>, rows: seq<FlowDetails>, source: bool)
    requires rows != [] && prefix == rows[..|rows| - 1]
    requires DistinctAddresses(s, prefix, source)
    requires ValidIp(Side(rows[|rows| - 1], source))
    ensures forall y :: (exists i :: 0 <= i < |rows| && Side(rows[i], source) == Str(y) && ValidIp(Str(y))) ==>
      y in Add(s, Side(rows[|rows| - 1], source).s)
  {
    var x := Side(rows[|rows| - 1], source).s;
    var r := Add(s, x);
    forall y | exists i :: 0 <= i < |rows| && Side(rows[i], source) == Str(y) && ValidIp(Str(y)) ensures y in r {
      var i :| 0 <= i < |rows| && Side(rows[i], source) == Str(y) && ValidIp(Str(y));
      if i < |prefix| {
        assert rows[i] == prefix[i];
        assert Side(prefix[i], source) == Str(y);
      }
    }
  }

  /** `ips.map(ip => block).join('\n\n')`. */
  function BulkPreview(ips: seq<string>): string {
    if ips == [] then ""
    else if |ips| == 1 then IpBlock(ips[0])
    else IpBlock(ips[0]) + "\n\n" + BulkPreview(ips[1..])
  }

  /** The lines of a bulk preview: two rules per address, a blank line between addresses. */
  function BlockLines(ips: seq<string>): seq<string> {
    if ips == [] then []
    else if |ips| == 1 then [InputDrop(ips[0]), OutputDrop(ips[0])]
    else [InputDrop(ips[0]), OutputDrop(ips[0]), ""] + BlockLines(ips[1..])
  }

  /**
   * A bulk preview reads back as one two-line block per address, in order,
   * the blocks separated by one blank line: `3 * n - 1` lines for `n` addresses.
   */
  lemma {:induction false} BulkPreviewLines(ips: seq<string>)
    requires ips != []
    requires forall ip :: ip in ips ==> OneLine(ip)
    ensures Split(BulkPreview(ips), '\n') == BlockLines(ips)
    ensures |BlockLines(ips)| == 3 * |ips| - 1
  {
    assert ips[0] in ips;
    IpBlockLines(ips[0]);
    if |ips| > 1 {
      assert forall ip :: ip in ips[1..] ==> ip in ips;
      BulkPreviewLines(ips[1..]);
      BlockThenRest(ips[0], BulkPreview(ips[1..]));
    }
  }

  /** A block, a blank line and more text split into the block's two rules, an empty line and the rest's lines. */
  lemma BlockThenRest(ip: string, rest: string)
    requires OneLine(ip)
    ensures Split(IpBlock(ip) + "\n\n" + rest, '\n') == [InputDrop(ip), OutputDrop(ip), ""] + Split(rest, '\n')
  {
    var a := InputDrop(ip);
    var b := OutputDrop(ip);
    DropRulesOneLine(ip);
    var r3 := [] + ['\n'] + rest;
    var r2 := b + ['\n'] + r3;
    assert IpBlock(ip) + "\n\n" + rest == a + ['\n'] + r2;
    SplitAtSep([], '\n', rest);
    SplitAtSep(b, '\n', r3);
    SplitAtSep(a, '\n', r2);
  }

  lemma DropRulesOneLine(ip: string)
    requires OneLine(ip)
    ensures OneLine(InputDrop(ip)) && OneLine(OutputDrop(ip))
  {
    OneLineConcat(InputFrom, ip);
    OneLineConcat(InputFrom + ip, Drop);
    OneLineConcat(OutputTo, ip);
    OneLineConcat(OutputTo + ip, Drop);
  }

  const DefaultEntity: string := "flows"
  const NoRowsHead: string := "No "
  const NoRowsTail: string := " available for bulk action"
  const BulkSourceTitle: string := "Bulk commands: Block all source IPs"
  const BulkDestinationTitle: string := "Bulk commands: Block all destination IPs"
  const ConfirmBulkTitle: string := "Confirm bulk action"

  datatype BulkAction = SendNatsBulk | BlockSrcIpBulk | BlockDstIpBulk | OtherBulk(key: string)

  datatype BulkOutcome =
    | NothingToDo(message: string)
    | BulkCommands(title: string, preview: string)
    | AskNatsBulkSettings
    | ConfirmBulk(title: string, content: string)

  /** `entityLabel` when it is a non-empty string, else `flows`. */
  function ProperEntity(entityLabel: Option<string>): (e: string)
    ensures e != ""
  {
    if entityLabel.Some? && entityLabel.value != "" then entityLabel.value else DefaultEntity
  }

  /** `noun(n)`: one trailing `s` dropped for one item, a trailing `s` made sure of otherwise. */
  function Noun(entity: string, n: int): string {
    if n == 1 then (if EndsWith(entity, "s") then entity[..|entity| - 1] else entity)
    else if EndsWith(entity, "s") then entity
    else entity + "s"
  }

  /** Every plural ends in `s`, and it is the singular with an `s` added. */
  lemma NounPlural(entity: string, n: int)
    requires n != 1
    ensures EndsWith(Noun(entity, n), "s")
    ensures Noun(entity, n) == Noun(entity, 1) + "s"
  {
    if EndsWith(entity, "s") {
      assert entity == entity[..|entity| - 1] + "s";
    }
  }

  /** The label with its first character upper-cased. */
  function Capitalized(e: string): string {
    if e == [] then [] else [ToUpperChar(e[0])] + e[1..]
  }

  /** What the bulk dispatcher shows, given the rows' flow details (an empty list when `rows` is not an array). */
  function BulkResult(action: BulkAction, rows: Option<seq<FlowDetails>>, entityLabel: Option<string>,
                      titleOverride: Option<string>): BulkOutcome
  {
    var list := rows.GetOr([]);
    var entity := ProperEntity(entityLabel);
    var t := Collect(list);
    var title := if titleOverride.Some? && titleOverride.value != "" then Some(titleOverride.value) else None;
    if list == [] then NothingToDo(NoRowsHead + entity + NoRowsTail)
    else match action
      case BlockSrcIpBulk => BulkCommands(title.GetOr(BulkSourceTitle), BulkPreview(t.srcIps))
      case BlockDstIpBulk => BulkCommands(title.GetOr(BulkDestinationTitle), BulkPreview(t.dstIps))
      case SendNatsBulk => AskNatsBulkSettings
      case OtherBulk(_) => ConfirmBulk(title.GetOr(ConfirmBulkTitle), Capitalized(entity) + ": " + IntToString(|list|))
  }

  /** `handleBulkMitigationAction`, with the collecting pass as a loop. */
  method HandleBulk(action: BulkAction, rows: Option<seq<FlowDetails>>, entityLabel: Option<string>,
                    titleOverride: Option<string>) returns (o: BulkOutcome)
    ensures o == BulkResult(action, rows, entityLabel, titleOverride)
  {
    var list := if rows.Some? then rows.value else [];
    var entity := ProperEntity(entityLabel);
    if |list| == 0 {
      return NothingToDo(NoRowsHead + entity + NoRowsTail);
    }
    var t := CollectTargets(list);
    var title := if titleOverride.Some? && titleOverride.value != "" then Some(titleOverride.value) else None;
    match action
    case BlockSrcIpBulk => o := BulkCommands(title.GetOr(BulkSourceTitle), BulkPreview(t.srcIps));
    case BlockDstIpBulk => o := BulkCommands(title.GetOr(BulkDestinationTitle), BulkPreview(t.dstIps));
    case SendNatsBulk => o := AskNatsBulkSettings;
    case OtherBulk(_) => o := ConfirmBulk(title.GetOr(ConfirmBulkTitle), Capitalized(entity) + ": " + IntToString(|list|));
  }

  /**
   * A bulk block over some rows previews one two-line block per distinct
   * valid address of the chosen side, each address once, trimmed; with no
   * rows it only says there is nothing to act on.
   */
  lemma BulkBlockPreview(rows: seq<FlowDetails>, source: bool, entityLabel: Option<string>, titleOverride: Option<string>)
    ensures var o := BulkResult(if source then BlockSrcIpBulk else BlockDstIpBulk, Some(rows), entityLabel, titleOverride);
      var ips := Addresses(Collect(rows), source);
      && (rows == [] <==> o.NothingToDo?)
      && (o.BulkCommands? ==> o.preview == BulkPreview(ips) && DistinctAddresses(ips, rows, source))
      && (o.BulkCommands? && ips != [] ==> Split(o.preview, '\n') == BlockLines(ips))
  {
    var ips := Addresses(Collect(rows), source);
    CollectDistinct(rows, source);
    if ips != [] {
      forall ip | ip in ips ensures OneLine(ip) {
        ValidIpOneLine(ip);
      }
      BulkPreviewLines(ips);
    }
  }
}
