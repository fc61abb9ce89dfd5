/** The Telegram command responder (services/TelegramBotService.java): an incoming update is
    trimmed, split into a command and an argument, and answered from read-only snapshots of
    the agent collection and the metrics collection. Every handler is a function of those
    snapshots; sending the reply is the only effect, and it is the `Sent` outcome here. */
module TelegramBot {
  import opened Domain
  import opened Text

  /** The part of a Telegram message the responder reads. `text` is absent for stickers,
      photos and the like. */
  datatype Message = Message(chatId: int, text: Option<string>)

  /** An incoming update; `message` is absent for edits, callbacks and the like. */
  datatype Update = Update(message: Option<Message>)

  /** A parsed command line: the lower-cased first token and the rest of the line. */
  datatype Command = Command(name: string, arg: string)

  /** What a handler produces: the text of the reply, or the exception a single-result
      query raises when several agents share the hostname asked for. */
  datatype Response = Reply(text: string) | QueryError

  /** What one update leads to: nothing, one message to the chat, or an exception before
      anything is sent. */
  datatype Outcome = Ignored | Sent(chatId: string, text: string) | Failed

  const NO_AGENTS := "No agents registered."
  const STATUS_USAGE := "Usage: /status <hostname> or /status *"
  const PORTS_USAGE := "Usage: /ports <hostname>"
  const UNKNOWN_COMMAND := "Unknown command. Use /help to see available commands."
  const LIST_HEADER := "Monitored hosts:"

  const HELP_LINES: seq<string> := [
    "Available commands:",
    "/status <hostname> - get latest metrics",
    "/ports <hostname>  - list open ports",
    "/list              - list all monitored hosts",
    "/help              - this help message"
  ]

  // ---------------------------------------------------------------- parsing

  /** `text.trim().split("\\s+", 2)`, the first part lower-cased, the second (or "") kept. */
  function ParseCommand(text: string): Command
  {
    CommandOf(Split2(Trim(text)))
  }

  function CommandOf(parts: seq<string>): Command
    requires |parts| >= 1
  {
    if |parts| > 1 then Command(Lower(parts[0]), parts[1]) else Command(Lower(parts[0]), "")
  }

  /** A command free of white space, and an argument that is empty or starts with a
      non-space and ends with a visible character. */
  predicate WellFormed(c: Command)
  {
    && (forall j :: 0 <= j < |c.name| ==> !IsRegexSpace(c.name[j]))
    && (c.arg == [] || (!IsRegexSpace(c.arg[0]) && c.arg[|c.arg| - 1] > ' '))
  }

  /** Every parsed command is well formed. */
  lemma ParseCommandShape(text: string)
    ensures WellFormed(ParseCommand(text))
  {
    var t := Trim(text);
    ParsedParts(t, Split2(t));
  }

  /** The pieces of a trimmed line make a well-formed command. */
  lemma ParsedParts(t: string, parts: seq<string>)
    requires t == [] || t[|t| - 1] > ' '
    requires parts == Split2(t)
    ensures WellFormed(CommandOf(parts))
  {
    LowerKeepsNonSpace(parts[0]);
    if |parts| > 1 {
      ArgEndsVisibly(t, parts);
    }
  }

  lemma LowerKeepsNonSpace(s: string)
    requires forall j :: 0 <= j < |s| ==> !IsRegexSpace(s[j])
    ensures forall j :: 0 <= j < |Lower(s)| ==> !IsRegexSpace(Lower(s)[j])
  {
  }

  lemma ArgEndsVisibly(t: string, parts: seq<string>)
    requires t == [] || t[|t| - 1] > ' '
    requires |parts| == 2 && |parts[1]| <= |t| && t[|t| - |parts[1]|..] == parts[1]
    ensures parts[1] == [] || parts[1][|parts[1]| - 1] > ' '
  {
    if parts[1] != [] {
      assert parts[1][|parts[1]| - 1] == t[|t| - 1];
    }
  }

  lemma {:induction false} TrimStartPad(p: string, t: string)
    requires forall j :: 0 <= j < |p| ==> p[j] <= ' '
    requires t == [] || t[0] > ' '
    ensures TrimStart(p + t) == t
  {
    if p != [] {
      assert (p + t)[0] == p[0];
      assert (p + t)[1..] == p[1..] + t;
      TrimStartPad(p[1..], t);
    }
  }

  lemma {:induction false} TrimEndPad(t: string, q: string)
    requires forall j :: 0 <= j < |q| ==> q[j] <= ' '
    requires t == [] || t[|t| - 1] > ' '
    ensures TrimEnd(t + q) == t
  {
    if q != [] {
      var s := t + q;
      assert s[|s| - 1] == q[|q| - 1];
      assert s[..|s| - 1] == t + q[..|q| - 1];
      TrimEndPad(t, q[..|q| - 1]);
    }
  }

  /** `trim` removes exactly the padding around a piece that starts and ends visibly. */
  lemma TrimPadded(p: string, s: string, q: string)
    requires forall j :: 0 <= j < |p| ==> p[j] <= ' '
    requires forall j :: 0 <= j < |q| ==> q[j] <= ' '
    requires |s| >= 1 && s[0] > ' ' && s[|s| - 1] > ' '
    ensures Trim(p + s + q) == s
  {
    assert p + s + q == p + (s + q);
    TrimStartPad(p, s + q);
    TrimEndPad(s, q);
  }

  /** Splitting a command, a run of white space and an argument gives the two back. */
  lemma Split2Render(c: string, sep: string, a: string)
    requires |c| >= 1 && forall j :: 0 <= j < |c| ==> !IsRegexSpace(c[j])
    requires |sep| >= 1 && forall j :: 0 <= j < |sep| ==> IsRegexSpace(sep[j])
    requires |a| >= 1 && !IsRegexSpace(a[0])
    ensures Split2(c + sep + a) == [c, a]
  {
    var t := c + sep + a;
    assert t == c + (sep + a);
    WordEndsAt(c, sep + a);
    assert t[..|c|] == c;
    assert t[|c|..] == sep + a;
    SpaceEndsAt(sep, a);
    assert (sep + a)[|sep|..] == a;
  }

  /** The first run of non-space characters ends where the word does. */
  lemma WordEndsAt(c: string, rest: string)
    requires forall j :: 0 <= j < |c| ==> !IsRegexSpace(c[j])
    requires |rest| >= 1 && IsRegexSpace(rest[0])
    ensures NonSpacePrefix(c + rest) == |c|
  {
    var t := c + rest;
    assert t[|c|] == rest[0];
    assert forall j :: 0 <= j < |c| ==> t[j] == c[j];
  }

  /** A run of white space ends where the next word starts. */
  lemma SpaceEndsAt(sep: string, a: string)
    requires forall j :: 0 <= j < |sep| ==> IsRegexSpace(sep[j])
    requires |a| >= 1 && !IsRegexSpace(a[0])
    ensures SpacePrefix(sep + a) == |sep|
  {
    var t := sep + a;
    assert t[|sep|] == a[0];
    assert forall j :: 0 <= j < |sep| ==> t[j] == sep[j];
  }

  /** Parsing inverts rendering: any command token, typed in any case and surrounded by any
      padding, comes back lower-cased with the argument exactly as typed. */
  lemma ParseRender(p: string, c: string, sep: string, a: string, q: string)
    requires forall j :: 0 <= j < |p| ==> p[j] <= ' '
    requires forall j :: 0 <= j < |q| ==> q[j] <= ' '
    requires |c| >= 1 && forall j :: 0 <= j < |c| ==> c[j] > ' '
    requires |sep| >= 1 && forall j :: 0 <= j < |sep| ==> IsRegexSpace(sep[j])
    requires a == [] || (a[0] > ' ' && a[|a| - 1] > ' ')
    ensures ParseCommand(p + c + sep + a + q) == Command(Lower(c), a)
  {
    if a == [] {
      assert p + c + sep + a + q == p + c + (sep + q);
      ParseRenderBare(p, c, sep + q);
    } else {
      assert p + c + sep + a + q == p + (c + sep + a) + q;
      ParseRenderArg(p, c, sep, a, q);
    }
  }

  lemma ParseRenderBare(p: string, c: string, q: string)
    requires forall j :: 0 <= j < |p| ==> p[j] <= ' '
    requires forall j :: 0 <= j < |q| ==> q[j] <= ' '
    requires |c| >= 1 && forall j :: 0 <= j < |c| ==> c[j] > ' '
    ensures ParseCommand(p + c + q) == Command(Lower(c), "")
  {
    assert Split2(c) == [c];
    ParseTrimmed(p, c, q, c, [c]);
  }

  lemma ParseRenderArg(p: string, c: string, sep: string, a: string, q: string)
    requires forall j :: 0 <= j < |p| ==> p[j] <= ' '
    requires forall j :: 0 <= j < |q| ==> q[j] <= ' '
    requires |c| >= 1 && forall j :: 0 <= j < |c| ==> c[j] > ' '
    requires |sep| >= 1 && forall j :: 0 <= j < |sep| ==> IsRegexSpace(sep[j])
    requires |a| >= 1 && a[0] > ' ' && a[|a| - 1] > ' '
    ensures ParseCommand(p + (c + sep + a) + q) == Command(Lower(c), a)
  {
    Split2Render(c, sep, a);
    var s := c + sep + a;
    assert s[0] == c[0] && s[|s| - 1] == a[|a| - 1];
    ParseTrimmed(p, s, q, c, [c, a]);
  }

  /** Parsing a padded line reads the split of what lies between the padding. */
  lemma ParseTrimmed(p: string, s: string, q: string, c: string, parts: seq<string>)
    requires forall j :: 0 <= j < |p| ==> p[j] <= ' '
    requires forall j :: 0 <= j < |q| ==> q[j] <= ' '
    requires |s| >= 1 && s[0] > ' ' && s[|s| - 1] > ' '
    requires Split2(s) == parts && parts[0] == c
    ensures ParseCommand(p + s + q) == Command(Lower(c), if |parts| > 1 then parts[1] else "")
  {
    TrimPadded(p, s, q);
  }

  // ---------------------------------------------------------------- queries

  /** `MetricsRepository.findTopByHostnameOrderByTimestampDesc`: a sample of the host with
      the greatest timestamp, or nothing when the host has no samples. */
  function LatestMetrics(metrics: seq<Metrics>, hostname: string): (r: Option<Metrics>)
    ensures r.None? <==> forall i :: 0 <= i < |metrics| ==> metrics[i].hostname != hostname
    ensures r.Some? ==> r.value in metrics && r.value.hostname == hostname
    ensures r.Some? ==> forall i :: 0 <= i < |metrics| && metrics[i].hostname == hostname ==>
                          metrics[i].timestamp <= r.value.timestamp
  {
    if metrics == [] then None
    else
      var last := metrics[|metrics| - 1];
      var earlier := LatestMetrics(metrics[..|metrics| - 1], hostname);
      if last.hostname != hostname then earlier
      else if earlier.Some? && earlier.value.timestamp > last.timestamp then earlier
      else Some(last)
  }

  /** The agents `AgentInfoRepository.findByHostname` matches, in collection order. */
  function HostMatches(agents: seq<AgentInfo>, hostname: string): (r: seq<AgentInfo>)
    ensures |r| <= |agents|
    ensures r == [] <==> forall i :: 0 <= i < |agents| ==> agents[i].hostname != hostname
    ensures forall x :: x in r ==> x in agents && x.hostname == hostname
    ensures forall i :: 0 <= i < |agents| && agents[i].hostname == hostname ==> agents[i] in r
  {
    if agents == [] then []
    else if agents[0].hostname == hostname then [agents[0]] + HostMatches(agents[1..], hostname)
    else HostMatches(agents[1..], hostname)
  }

  /** A hostname held by one agent only matches that agent. */
  lemma {:induction false} HostMatchesSingle(agents: seq<AgentInfo>, hostname: string, i: nat)
    requires i < |agents| && agents[i].hostname == hostname
    requires forall j :: 0 <= j < |agents| && j != i ==> agents[j].hostname != hostname
    ensures HostMatches(agents, hostname) == [agents[i]]
  {
    if i == 0 {
      var rest := agents[1..];
      assert forall j :: 0 <= j < |rest| ==> rest[j].hostname != hostname by {
        forall j | 0 <= j < |rest| ensures rest[j].hostname != hostname {
          assert rest[j] == agents[j + 1];
        }
      }
    } else {
      var rest := agents[1..];
      forall j | 0 <= j < |rest| && j != i - 1 ensures rest[j].hostname != hostname {
        assert rest[j] == agents[j + 1];
      }
      HostMatchesSingle(rest, hostname, i - 1);
    }
  }

  /** A hostname held by two agents matches at least two records. */
  lemma {:induction false} HostMatchesTwo(agents: seq<AgentInfo>, hostname: string, i: nat, j: nat)
    requires i < j < |agents|
    requires agents[i].hostname == hostname && agents[j].hostname == hostname
    ensures |HostMatches(agents, hostname)| >= 2
  {
    var rest := agents[1..];
    assert rest[j - 1] == agents[j];
    if i == 0 {
      assert agents[j] in HostMatches(rest, hostname);
    } else {
      assert rest[i - 1] == agents[i];
      HostMatchesTwo(rest, hostname, i - 1, j - 1);
    }
  }

  // ---------------------------------------------------------------- rendering

  /** `List.toString` of the open ports, or "null" for a record that has none. */
  function PortsText(ports: Option<seq<int>>): string
  {
    match ports
    case None => "null"
    case Some(ps) => "[" + Join(seq(|ps|, i requires 0 <= i < |ps| => IntToString(ps[i])), ", ") + "]"
  }

  lemma PortsTextExamples()
    ensures PortsText(Some([80, 443])) == "[80, 443]"
    ensures PortsText(Some([])) == "[]"
    ensures PortsText(None) == "null"
  {
    assert IntToString(80) == "80" by {
      assert NatToString(8) == "8";
    }
    assert IntToString(443) == "443" by {
      assert NatToString(4) == "4";
      assert NatToString(44) == "44";
    }
    var xs := seq(2, i requires 0 <= i < 2 => IntToString([80, 443][i]));
    assert xs == ["80", "443"];
    assert xs[1..] == ["443"];
    assert Join(xs, ", ") == "80" + ", " + "443";
  }

  /** One line of `/status *` for an agent. */
  function StatusLine(agent: AgentInfo, metrics: seq<Metrics>, fmt: real -> string): string
  {
    match LatestMetrics(metrics, agent.hostname)
    case None => agent.hostname + ": no metrics available"
    case Some(m) =>
      m.hostname + " - CPU: " + fmt(m.cpuUsage) + "%, Disk: " + fmt(m.diskUsage)
      + "%, RAM: " + fmt(m.ramUsage) + "%"
  }

  function StatusLines(agents: seq<AgentInfo>, metrics: seq<Metrics>, fmt: real -> string): seq<string>
  {
    seq(|agents|, i requires 0 <= i < |agents| => StatusLine(agents[i], metrics, fmt))
  }

  /** The reply to `/status <host>` for the host's latest sample: the lines of the format
      "Status for %s:\nCPU: %.2f%%\nDisk: %.2f%%\nRAM: %.2f%%\nTimestamp: %d". */
  function StatusReport(m: Metrics, fmt: real -> string): string
  {
    Join(ReportLines(m, fmt), "\n")
  }

  function ReportLines(m: Metrics, fmt: real -> string): seq<string>
  {
    ["Status for " + m.hostname + ":", "CPU: " + fmt(m.cpuUsage) + "%", "Disk: " + fmt(m.diskUsage) + "%",
     "RAM: " + fmt(m.ramUsage) + "%", "Timestamp: " + IntToString(m.timestamp)]
  }

  function Hostnames(agents: seq<AgentInfo>): seq<string>
  {
    seq(|agents|, i requires 0 <= i < |agents| => agents[i].hostname)
  }

  // ---------------------------------------------------------------- handlers

  /** `handleList`. */
  function HandleList(agents: seq<AgentInfo>): string
  {
    if agents == [] then NO_AGENTS else LIST_HEADER + "\n" + Join(Hostnames(agents), "\n")
  }

  /** `handleStatus`: a usage hint for a blank argument, every agent's line for "*", the
      latest sample of one host otherwise. */
  function HandleStatus(hostname: string, agents: seq<AgentInfo>, metrics: seq<Metrics>,
                        fmt: real -> string): string
  {
    if IsBlank(hostname) then STATUS_USAGE
    else if hostname == "*" then
      if agents == [] then NO_AGENTS else Join(StatusLines(agents, metrics, fmt), "\n")
    else
      match LatestMetrics(metrics, hostname)
      case None => "No metrics found for host: " + hostname
      case Some(m) => StatusReport(m, fmt)
  }

  /** `handlePorts`: a usage hint for a blank argument, otherwise the declared ports of the
      one agent with that hostname; the query throws when the hostname is ambiguous. */
  function HandlePorts(hostname: string, agents: seq<AgentInfo>): (r: Response)
    ensures IsBlank(hostname) ==> r == Reply(PORTS_USAGE)
    ensures r.QueryError? <==> !IsBlank(hostname) && |HostMatches(agents, hostname)| > 1
    ensures (!IsBlank(hostname) && forall i :: 0 <= i < |agents| ==> agents[i].hostname != hostname) ==>
              r == Reply("No agent registered with hostname: " + hostname)
    ensures forall i ::
              (0 <= i < |agents| && !IsBlank(hostname) && agents[i].hostname == hostname
               && forall j :: 0 <= j < |agents| && j != i ==> agents[j].hostname != hostname) ==>
              r == Reply("Open ports for " + hostname + ": " + PortsText(agents[i].openPorts))
  {
    if IsBlank(hostname) then Reply(PORTS_USAGE)
    else
      var found := HostMatches(agents, hostname);
      assert forall i ::
               (0 <= i < |agents| && agents[i].hostname == hostname
                && forall j :: 0 <= j < |agents| && j != i ==> agents[j].hostname != hostname) ==>
               found == [agents[i]] by {
        forall i | 0 <= i < |agents| && agents[i].hostname == hostname
                 && (forall j :: 0 <= j < |agents| && j != i ==> agents[j].hostname != hostname)
          ensures found == [agents[i]] {
          HostMatchesSingle(agents, hostname, i);
        }
      }
      if |found| == 0 then Reply("No agent registered with hostname: " + hostname)
      else if |found| == 1 then Reply("Open ports for " + hostname + ": " + PortsText(found[0].openPorts))
      else QueryError
  }

  /** The `switch` of `handleUpdate`. */
  function Respond(c: Command, agents: seq<AgentInfo>, metrics: seq<Metrics>, fmt: real -> string): (r: Response)
    ensures r.QueryError? ==> c.name == "/ports" && |HostMatches(agents, c.arg)| > 1
    ensures c.name !in {"/status", "/ports", "/list", "/help"} ==> r == Reply(UNKNOWN_COMMAND)
  {
    match c.name
    case "/status" => Reply(HandleStatus(c.arg, agents, metrics, fmt))
    case "/ports" => HandlePorts(c.arg, agents)
    case "/list" => Reply(HandleList(agents))
    case "/help" => Reply(Join(HELP_LINES, "\n"))
    case _ => Reply(UNKNOWN_COMMAND)
  }

  /** `handleUpdate`: an update without a message, or whose message has no text or an empty
      text (`hasText`), is ignored; any other is answered with exactly one message to its
      chat, unless the /ports query throws. */
  function HandleUpdate(u: Update, agents: seq<AgentInfo>, metrics: seq<Metrics>, fmt: real -> string): (r: Outcome)
    ensures r.Ignored? <==> u.message.None? || u.message.value.text.None? || u.message.value.text.value == ""
    ensures r.Sent? ==> r.chatId == IntToString(u.message.value.chatId)
    ensures r.Failed? ==>
              var c := ParseCommand(u.message.value.text.value);
              c.name == "/ports" && |HostMatches(agents, c.arg)| > 1
  {
    if u.message.None? || u.message.value.text.None? || u.message.value.text.value == "" then Ignored
    else
      var chatId := IntToString(u.message.value.chatId);
      match Respond(ParseCommand(u.message.value.text.value), agents, metrics, fmt)
      case Reply(text) => Sent(chatId, text)
      case QueryError => Failed
  }

  // ---------------------------------------------------------------- properties

  /** A typed command line is answered with the handler's reply for the lower-cased command
      and the argument as typed; anything not one of the four commands gets the fixed hint. */
  lemma CommandLineReply(chat: int, p: string, c: string, sep: string, a: string, q: string,
                         agents: seq<AgentInfo>, metrics: seq<Metrics>, fmt: real -> string)
    requires forall j :: 0 <= j < |p| ==> p[j] <= ' '
    requires forall j :: 0 <= j < |q| ==> q[j] <= ' '
    requires |c| >= 1 && forall j :: 0 <= j < |c| ==> c[j] > ' '
    requires |sep| >= 1 && forall j :: 0 <= j < |sep| ==> IsRegexSpace(sep[j])
    requires a == [] || (a[0] > ' ' && a[|a| - 1] > ' ')
    requires Respond(Command(Lower(c), a), agents, metrics, fmt).Reply?
    ensures HandleUpdate(Update(Some(Message(chat, Some(p + c + sep + a + q)))), agents, metrics, fmt)
            == Sent(IntToString(chat), Respond(Command(Lower(c), a), agents, metrics, fmt).text)
    ensures Lower(c) !in {"/status", "/ports", "/list", "/help"} ==>
            HandleUpdate(Update(Some(Message(chat, Some(p + c + sep + a + q)))), agents, metrics, fmt)
            == Sent(IntToString(chat), UNKNOWN_COMMAND)
  {
    ParseRender(p, c, sep, a, q);
  }

  /** A command typed with no argument gets the usage hint for /status and /ports, in any
      letter case. */
  lemma BareCommandUsage(c: string, agents: seq<AgentInfo>, metrics: seq<Metrics>, fmt: real -> string)
    requires |c| >= 1 && forall j :: 0 <= j < |c| ==> c[j] > ' '
    ensures Lower(c) == "/status" ==> Respond(ParseCommand(c), agents, metrics, fmt) == Reply(STATUS_USAGE)
    ensures Lower(c) == "/ports" ==> Respond(ParseCommand(c), agents, metrics, fmt) == Reply(PORTS_USAGE)
  {
    ParseBare(c);
    BlankUsage("", agents, metrics, fmt);
  }

  /** Any blank argument, empty or made of white space only, gets the usage hints. */
  lemma BlankUsage(arg: string, agents: seq<AgentInfo>, metrics: seq<Metrics>, fmt: real -> string)
    requires IsBlank(arg)
    ensures Respond(Command("/status", arg), agents, metrics, fmt) == Reply(STATUS_USAGE)
    ensures Respond(Command("/ports", arg), agents, metrics, fmt) == Reply(PORTS_USAGE)
  {
  }

  /** A typed argument that survives `trim` and the `\s` split but is blank, such as one made
      of ideographic spaces, still gets the usage hint. */
  lemma TypedBlankArgumentUsage(p: string, c: string, sep: string, a: string, q: string,
                                agents: seq<AgentInfo>, metrics: seq<Metrics>, fmt: real -> string)
    requires forall j :: 0 <= j < |p| ==> p[j] <= ' '
    requires forall j :: 0 <= j < |q| ==> q[j] <= ' '
    requires |c| >= 1 && forall j :: 0 <= j < |c| ==> c[j] > ' '
    requires |sep| >= 1 && forall j :: 0 <= j < |sep| ==> IsRegexSpace(sep[j])
    requires |a| >= 1 && a[0] > ' ' && a[|a| - 1] > ' ' && IsBlank(a)
    ensures Lower(c) == "/status" ==>
              Respond(ParseCommand(p + (c + sep + a) + q), agents, metrics, fmt) == Reply(STATUS_USAGE)
    ensures Lower(c) == "/ports" ==>
              Respond(ParseCommand(p + (c + sep + a) + q), agents, metrics, fmt) == Reply(PORTS_USAGE)
  {
    ParseRenderArg(p, c, sep, a, q);
    BlankUsage(a, agents, metrics, fmt);
  }

  /** U+3000 is such an argument: above U+0020, not ASCII white space, and blank. */
  lemma IdeographicSpaceArgument()
    ensures var a := "\U{3000}"; a[0] > ' ' && !IsRegexSpace(a[0]) && IsBlank(a)
  {
  }

  /** A lone command token parses to itself, lower-cased, with an empty argument. */
  lemma ParseBare(c: string)
    requires |c| >= 1 && forall j :: 0 <= j < |c| ==> c[j] > ' '
    ensures ParseCommand(c) == Command(Lower(c), "")
  {
    assert c == [] + c + [];
    assert Split2(c) == [c];
    ParseTrimmed([], c, [], c, [c]);
  }

  /** The reply to /list, read line by line: the header, then each agent's hostname in
      collection order. */
  lemma ListReplyLines(agents: seq<AgentInfo>)
    requires |agents| >= 1
    requires forall i, j :: 0 <= i < |agents| && 0 <= j < |agents[i].hostname| ==> agents[i].hostname[j] != '\n'
    ensures SplitOn(HandleList(agents), '\n') == [LIST_HEADER] + Hostnames(agents)
  {
    var hosts := Hostnames(agents);
    assert forall j :: 0 <= j < |LIST_HEADER| ==> LIST_HEADER[j] != '\n';
    SplitOnCons(LIST_HEADER, '\n', Join(hosts, "\n"));
    SplitJoin(hosts, '\n');
  }

  /** The reply to `/status *`, read line by line: one line per agent in collection order,
      the fixed notice for an agent without samples. */
  lemma StatusAllLines(agents: seq<AgentInfo>, metrics: seq<Metrics>, fmt: real -> string)
    requires |agents| >= 1
    requires forall i, j :: 0 <= i < |agents| && 0 <= j < |StatusLine(agents[i], metrics, fmt)| ==>
               StatusLine(agents[i], metrics, fmt)[j] != '\n'
    ensures var lines := SplitOn(HandleStatus("*", agents, metrics, fmt), '\n');
      && |lines| == |agents|
      && lines == StatusLines(agents, metrics, fmt)
      && forall i :: 0 <= i < |agents| && LatestMetrics(metrics, agents[i].hostname).None? ==>
           lines[i] == agents[i].hostname + ": no metrics available"
  {
    assert !IsBlank("*") by {
      assert !IsJavaWhitespace("*"[0]);
    }
    SplitJoin(StatusLines(agents, metrics, fmt), '\n');
  }

  lemma NumberSingleLine(n: int)
    ensures SingleLine(IntToString(n))
  {
    var d := IntToString(n);
    if n < 0 {
      assert forall j :: 1 <= j < |d| ==> d[j] == d[1..][j - 1];
    }
  }

  /** The report for one sample, read line by line. */
  lemma StatusReportLines(m: Metrics, fmt: real -> string)
    requires SingleLine(m.hostname)
    requires SingleLine(fmt(m.cpuUsage)) && SingleLine(fmt(m.diskUsage)) && SingleLine(fmt(m.ramUsage))
    ensures SplitOn(StatusReport(m, fmt), '\n') == ReportLines(m, fmt)
  {
    ReportLinesSingle(m, fmt);
    SplitJoin(ReportLines(m, fmt), '\n');
  }

  lemma ReportLinesSingle(m: Metrics, fmt: real -> string)
    requires SingleLine(m.hostname)
    requires SingleLine(fmt(m.cpuUsage)) && SingleLine(fmt(m.diskUsage)) && SingleLine(fmt(m.ramUsage))
    ensures forall i, j :: 0 <= i < 5 && 0 <= j < |ReportLines(m, fmt)[i]| ==> ReportLines(m, fmt)[i][j] != '\n'
  {
    assert SingleLine("Status for ") && SingleLine(":") && SingleLine("CPU: ") && SingleLine("%");
    assert SingleLine("Disk: ") && SingleLine("RAM: ") && SingleLine("Timestamp: ");
    SingleLineConcat("Status for ", m.hostname);
    SingleLineConcat("Status for " + m.hostname, ":");
    SingleLineConcat("CPU: ", fmt(m.cpuUsage));
    SingleLineConcat("CPU: " + fmt(m.cpuUsage), "%");
    SingleLineConcat("Disk: ", fmt(m.diskUsage));
    SingleLineConcat("Disk: " + fmt(m.diskUsage), "%");
    SingleLineConcat("RAM: ", fmt(m.ramUsage));
    SingleLineConcat("RAM: " + fmt(m.ramUsage), "%");
    NumberSingleLine(m.timestamp);
    SingleLineConcat("Timestamp: ", IntToString(m.timestamp));
    var lines := ReportLines(m, fmt);
    assert forall i :: 0 <= i < 5 ==> SingleLine(lines[i]);
  }

  /** The replies that report an absence: no agents for /list and `/status *`, and no
      samples for `/status <host>`. */
  lemma AbsenceReplies(hostname: string, metrics: seq<Metrics>, fmt: real -> string)
    ensures HandleList([]) == NO_AGENTS
    ensures HandleStatus("*", [], metrics, fmt) == NO_AGENTS
    ensures (!IsBlank(hostname) && hostname != "*"
             && forall i :: 0 <= i < |metrics| ==> metrics[i].hostname != hostname) ==>
              forall agents :: HandleStatus(hostname, agents, metrics, fmt) == "No metrics found for host: " + hostname
  {
    assert !IsBlank("*") by {
      assert !IsJavaWhitespace("*"[0]);
    }
  }

  /** The reply to `/status <host>` for a host with samples: the report of the host's
      newest sample. */
  lemma StatusHostReply(hostname: string, agents: seq<AgentInfo>, metrics: seq<Metrics>, fmt: real -> string)
    requires !IsBlank(hostname) && hostname != "*"
    requires exists i :: 0 <= i < |metrics| && metrics[i].hostname == hostname
    ensures var m := LatestMetrics(metrics, hostname).value;
      && m in metrics && m.hostname == hostname
      && (forall i :: 0 <= i < |metrics| && metrics[i].hostname == hostname ==> metrics[i].timestamp <= m.timestamp)
      && HandleStatus(hostname, agents, metrics, fmt) == StatusReport(m, fmt)
  {
  }
}
