/** The DNS-domain tool: each non-blank line of the form's text that starts
    with a dot becomes a Check Point `add dns-domain` command followed by the
    command adding it to the group; any other non-blank line becomes one
    comment saying it was skipped. */
module DnsTool {
  import opened Text

  /** A form field that may be absent. */
  datatype Option<T> = None | Some(value: T)

  /** What one non-blank input line asks for. */
  datatype DnsCommand =
    | AddDomain(domain: string)
    | SkipNonDomain(line: string)

  /** The `is-sub-domain` argument: the checkbox is ticked only when the form
      sends the value "on"; an absent field or any other value means "false". */
  function SubDomainFlag(isSubDomain: Option<string>): (flag: string)
    ensures flag == "true" || flag == "false"
    ensures flag == "true" <==> isSubDomain == Some("on")
  {
    if isSubDomain == Some("on") then "true" else "false"
  }

  /** How one stripped, non-blank line is read. */
  function ParseDnsLine(line: string): DnsCommand {
    if StartsWith(line, ".") then AddDomain(line) else SkipNonDomain(line)
  }

  /** The output lines of one command, without their newlines. */
  function CommandLines(cmd: DnsCommand, flag: string, ticketRef: string, groupName: string): seq<string> {
    match cmd
    case AddDomain(domain) =>
      [ "add dns-domain name \"" + domain + "\" is-sub-domain " + flag + " comments \"Ref:" + ticketRef + "\"",
        "set group name \"" + groupName + "\" members.add \"" + domain + "\"" ]
    case SkipNonDomain(line) => ["# Skipping non-domain input: " + line + " (Use Host Tool)"]
  }

  /** The output lines for a list of non-blank lines, in order. */
  function DnsTexts(flag: string, ticketRef: string, groupName: string, lines: seq<string>): seq<string> {
    if lines == [] then []
    else
      DnsTexts(flag, ticketRef, groupName, lines[..|lines| - 1])
      + CommandLines(ParseDnsLine(lines[|lines| - 1]), flag, ticketRef, groupName)
  }

  /** The text the DNS-domain tool shows for a submitted form. */
  function DnsOutput(ticketRef: string, groupName: string, isSubDomain: Option<string>, inputData: string): string {
    Unlines(DnsTexts(SubDomainFlag(isSubDomain), ticketRef, groupName, FormLines(inputData)))
  }

  /** The number of lines that start with a dot. */
  function DomainCount(lines: seq<string>): nat {
    if lines == [] then 0
    else DomainCount(lines[..|lines| - 1]) + (if StartsWith(lines[|lines| - 1], ".") then 1 else 0)
  }

  /** The DNS-domain tool's loop, appending to the output line by line. */
  method AddDnsDomainCommands(ticketRef: string, groupName: string, isSubDomain: Option<string>, inputData: string)
    returns (output: string)
    ensures output == DnsOutput(ticketRef, groupName, isSubDomain, inputData)
  {
    output := "";
    var flag := SubDomainFlag(isSubDomain);
    var lines := Split(Strip(inputData), '\n');
    var i := 0;
    while i < |lines|
      invariant 0 <= i <= |lines|
      invariant output == Unlines(DnsTexts(flag, ticketRef, groupName, NonBlank(lines[..i])))
    {
      var line := Strip(lines[i]);
      NonBlankStep(lines, i);
      if line == "" {
        i := i + 1;
        continue;
      }
      var entry := DnsLineOutput(flag, ticketRef, groupName, line);
      DnsTextsStep(flag, ticketRef, groupName, NonBlank(lines[..i]), line);
      output := output + entry;
      i := i + 1;
    }
    assert lines[..|lines|] == lines;
  }

  /** What one more non-blank line adds to the rendered output. */
  lemma DnsTextsStep(flag: string, ticketRef: string, groupName: string, done: seq<string>, line: string)
    ensures Unlines(DnsTexts(flag, ticketRef, groupName, done + [line]))
      == Unlines(DnsTexts(flag, ticketRef, groupName, done))
         + Unlines(CommandLines(ParseDnsLine(line), flag, ticketRef, groupName))
  {
    assert (done + [line])[..|done|] == done;
    UnlinesConcat(DnsTexts(flag, ticketRef, groupName, done), CommandLines(ParseDnsLine(line), flag, ticketRef, groupName));
  }

  /** The body of the loop for one stripped, non-blank line: what it adds to
      the output, newlines included. */
  method DnsLineOutput(flag: string, ticketRef: string, groupName: string, line: string) returns (entry: string)
    ensures entry == Unlines(CommandLines(ParseDnsLine(line), flag, ticketRef, groupName))
  {
    entry := "";
    ghost var cmds := CommandLines(ParseDnsLine(line), flag, ticketRef, groupName);
    if StartsWith(line, ".") {
      var domainName := line;
      entry := entry + ("add dns-domain name \"" + domainName + "\" is-sub-domain " + flag
        + " comments \"Ref:" + ticketRef + "\"" + "\n");
      entry := entry + ("set group name \"" + groupName + "\" members.add \"" + domainName + "\"" + "\n");
      assert entry == "" + (cmds[0] + "\n") + (cmds[1] + "\n");
      assert Unlines(cmds[1..]) == cmds[1] + "\n" + Unlines([]);
    } else {
      entry := entry + ("# Skipping non-domain input: " + line + " (Use Host Tool)" + "\n");
      assert entry == "" + (cmds[0] + "\n");
      assert Unlines(cmds[1..]) == Unlines([]);
    }
    assert Unlines(cmds) == cmds[0] + "\n" + Unlines(cmds[1..]);
  }

  /** The text of a command is newline-free when its line and the form fields are. */
  lemma CommandLinesOneLine(line: string, flag: string, ticketRef: string, groupName: string)
    requires '\n' !in line && '\n' !in flag && '\n' !in ticketRef && '\n' !in groupName
    ensures forall k :: 0 <= k < |CommandLines(ParseDnsLine(line), flag, ticketRef, groupName)|
                 ==> '\n' !in CommandLines(ParseDnsLine(line), flag, ticketRef, groupName)[k]
  {
    if StartsWith(line, ".") {
      AddDomainPartsOneLine();
      SetGroupPartsOneLine();
    } else {
      SkipLinePartsOneLine();
    }
  }

  // The fixed parts of the output lines hold no newline.

  lemma AddDomainPartsOneLine()
    ensures '\n' !in "add dns-domain name \"" && '\n' !in "\" is-sub-domain " && '\n' !in " comments \"Ref:"
    ensures '\n' !in "\""
  {
  }

  lemma SetGroupPartsOneLine()
    ensures '\n' !in "set group name \"" && '\n' !in "\" members.add \""
  {
  }

  lemma SkipLinePartsOneLine()
    ensures '\n' !in "# Skipping non-domain input: " && '\n' !in " (Use Host Tool)"
  {
  }

  /** Each line starting with a dot gives two output lines and every other
      non-blank line gives one, and the output splits on newlines into exactly
      those lines (when the ticket and group carry no newline). */
  lemma {:induction false} DnsTextsShape(flag: string, ticketRef: string, groupName: string, lines: seq<string>)
    requires '\n' !in flag && '\n' !in ticketRef && '\n' !in groupName
    requires forall k :: 0 <= k < |lines| ==> '\n' !in lines[k]
    ensures DomainCount(lines) <= |lines|
    ensures |DnsTexts(flag, ticketRef, groupName, lines)|
      == 2 * DomainCount(lines) + (|lines| - DomainCount(lines))
    ensures forall k :: 0 <= k < |DnsTexts(flag, ticketRef, groupName, lines)|
                 ==> '\n' !in DnsTexts(flag, ticketRef, groupName, lines)[k]
  {
    if lines != [] {
      var last := lines[|lines| - 1];
      DnsTextsShape(flag, ticketRef, groupName, lines[..|lines| - 1]);
      CommandLinesOneLine(last, flag, ticketRef, groupName);
    }
  }

  /** The tool's output, split on newlines, is the command lines: two for
      each domain line and one for each other non-blank line. */
  lemma DnsOutputLines(ticketRef: string, groupName: string, isSubDomain: Option<string>, inputData: string)
    requires '\n' !in ticketRef && '\n' !in groupName
    ensures var lines := FormLines(inputData);
      var texts := DnsTexts(SubDomainFlag(isSubDomain), ticketRef, groupName, lines);
      |texts| == 2 * DomainCount(lines) + (|lines| - DomainCount(lines))
      && Split(DnsOutput(ticketRef, groupName, isSubDomain, inputData), '\n') == texts + [""]
  {
    var lines := FormLines(inputData);
    DnsTextsShape(SubDomainFlag(isSubDomain), ticketRef, groupName, lines);
    SplitUnlines(DnsTexts(SubDomainFlag(isSubDomain), ticketRef, groupName, lines));
  }

  /** Whitespace-only input produces no output. */
  lemma DnsBlankInput(ticketRef: string, groupName: string, isSubDomain: Option<string>, inputData: string)
    requires forall k :: 0 <= k < |inputData| ==> IsSpace(inputData[k])
    ensures DnsOutput(ticketRef, groupName, isSubDomain, inputData) == ""
  {
    BlankFormHasNoLines(inputData);
  }
}
