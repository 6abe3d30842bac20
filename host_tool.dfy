/** The host tool: each non-blank line of the form's text becomes one
    Check Point `add host` command, or one comment saying why it was skipped. */
module HostTool {
  import opened Text

  /** What one non-blank input line asks for. */
  datatype HostCommand =
    | AddHost(name: string, ip: string)
    | SkipDomain(value: string)
    | SkipInvalid(line: string)

  /** How one stripped, non-blank line is read: its comma-separated fields,
      each stripped, decide the command. */
  function ParseHostLine(line: string): HostCommand {
    var parts := StripAll(Split(line, ','));
    if |parts| == 2 then AddHost(parts[0], parts[1])
    else if |parts| == 1 then
      if StartsWith(parts[0], ".") then SkipDomain(parts[0])
      else AddHost("H_" + parts[0], parts[0])
    else SkipInvalid(line)
  }

  /** The output line of one command, without its newline. */
  function CommandText(cmd: HostCommand, ticketRef: string, groupName: string): string {
    match cmd
    case AddHost(name, ip) =>
      "add host name \"" + name + "\" ip-address \"" + ip + "\" comments \"Ref:" + ticketRef
        + "\" groups.1 \"" + groupName + "\""
    case SkipDomain(value) => "# Skipping domain-like input: " + value + " (Use DNS Domain Tool)"
    case SkipInvalid(line) => "# Skipping invalid line: " + line
  }

  /** The output lines for a list of non-blank lines, one each, in order. */
  function HostTexts(ticketRef: string, groupName: string, lines: seq<string>): seq<string> {
    seq(|lines|, k requires 0 <= k < |lines| => CommandText(ParseHostLine(lines[k]), ticketRef, groupName))
  }

  /** The text the host tool shows for a submitted form. */
  function HostOutput(ticketRef: string, groupName: string, inputData: string): string {
    Unlines(HostTexts(ticketRef, groupName, FormLines(inputData)))
  }

  /** The loop of the host tool, appending to the output line by line. */
  method AddHostCommands(ticketRef: string, groupName: string, inputData: string) returns (output: string)
    ensures output == HostOutput(ticketRef, groupName, inputData)
  {
    output := "";
    var lines := Split(Strip(inputData), '\n');
    var i := 0;
    while i < |lines|
      invariant 0 <= i <= |lines|
      invariant output == Unlines(HostTexts(ticketRef, groupName, NonBlank(lines[..i])))
    {
      var line := Strip(lines[i]);
      NonBlankStep(lines, i);
      if line == "" {
        i := i + 1;
        continue;
      }
      var entry := HostLineOutput(ticketRef, groupName, line);
      HostTextsStep(ticketRef, groupName, NonBlank(lines[..i]), line);
      output := output + entry;
      i := i + 1;
    }
    assert lines[..|lines|] == lines;
  }

  /** The body of the loop for one stripped, non-blank line: the line it adds
      to the output, newline included. */
  method HostLineOutput(ticketRef: string, groupName: string, line: string) returns (entry: string)
    ensures entry == CommandText(ParseHostLine(line), ticketRef, groupName) + "\n"
  {
    var parts := StripAll(Split(line, ','));
    if |parts| == 2 {
      var name, ip := parts[0], parts[1];
      entry := "add host name \"" + name + "\" ip-address \"" + ip + "\" comments \"Ref:"
        + ticketRef + "\" groups.1 \"" + groupName + "\"" + "\n";
    } else if |parts| == 1 {
      var value := parts[0];
      if StartsWith(value, ".") {
        entry := "# Skipping domain-like input: " + value + " (Use DNS Domain Tool)" + "\n";
      } else {
        var name := "H_" + value;
        entry := "add host name \"" + name + "\" ip-address \"" + value + "\" comments \"Ref:"
          + ticketRef + "\" groups.1 \"" + groupName + "\"" + "\n";
      }
    } else {
      entry := "# Skipping invalid line: " + line + "\n";
    }
  }

  /** What one more non-blank line adds to the rendered output. */
  lemma HostTextsStep(ticketRef: string, groupName: string, done: seq<string>, line: string)
    ensures Unlines(HostTexts(ticketRef, groupName, done + [line]))
      == Unlines(HostTexts(ticketRef, groupName, done)) + (CommandText(ParseHostLine(line), ticketRef, groupName) + "\n")
  {
    var texts := HostTexts(ticketRef, groupName, done);
    var text := CommandText(ParseHostLine(line), ticketRef, groupName);
    assert HostTexts(ticketRef, groupName, done + [line]) == texts + [text];
    UnlinesAppend(texts, text);
    assert Unlines(texts) + text + "\n" == Unlines(texts) + (text + "\n");
  }

  /** No field of the command holds a newline. */
  predicate NoNewlineIn(cmd: HostCommand) {
    match cmd
    case AddHost(name, ip) => '\n' !in name && '\n' !in ip
    case SkipDomain(value) => '\n' !in value
    case SkipInvalid(line) => '\n' !in line
  }

  /** A command read from a line without newlines holds no newline in its fields. */
  lemma ParseKeepsOneLine(line: string)
    requires '\n' !in line
    ensures NoNewlineIn(ParseHostLine(line))
  {
    var pieces := Split(line, ',');
    SplitKeepsOut(line, ',', '\n');
    forall k | 0 <= k < |pieces| ensures '\n' !in StripAll(pieces)[k] {
      StripKeepsOut(pieces[k], '\n');
    }
  }

  /** The text of a command is a single line when its fields and the form fields are. */
  lemma CommandTextOneLine(cmd: HostCommand, ticketRef: string, groupName: string)
    requires NoNewlineIn(cmd) && '\n' !in ticketRef && '\n' !in groupName
    ensures '\n' !in CommandText(cmd, ticketRef, groupName)
  {
    match cmd
    case AddHost(_, _) =>
      AddHostPartsOneLine();
      AddHostTailOneLine();
    case SkipDomain(_) =>
      SkipDomainPartsOneLine();
    case SkipInvalid(_) =>
      SkipInvalidPartsOneLine();
  }

  // The fixed parts of the output lines hold no newline.

  lemma AddHostPartsOneLine()
    ensures '\n' !in "add host name \"" && '\n' !in "\" ip-address \"" && '\n' !in "\" comments \"Ref:"
  {
  }

  lemma AddHostTailOneLine()
    ensures '\n' !in "\" groups.1 \"" && '\n' !in "\""
  {
  }

  lemma SkipDomainPartsOneLine()
    ensures '\n' !in "# Skipping domain-like input: " && '\n' !in " (Use DNS Domain Tool)"
  {
  }

  lemma SkipInvalidPartsOneLine()
    ensures '\n' !in "# Skipping invalid line: "
  {
  }

  /** Every non-blank line gives exactly one output line, in order, and blank
      lines give none: the output splits on newlines into one line per
      non-blank input line (when the ticket and group carry no newline). */
  lemma {:induction false} HostOutputLines(ticketRef: string, groupName: string, inputData: string)
    requires '\n' !in ticketRef && '\n' !in groupName
    ensures |HostTexts(ticketRef, groupName, FormLines(inputData))| == |FormLines(inputData)|
    ensures Split(HostOutput(ticketRef, groupName, inputData), '\n')
      == HostTexts(ticketRef, groupName, FormLines(inputData)) + [""]
  {
    var lines := FormLines(inputData);
    var texts := HostTexts(ticketRef, groupName, lines);
    forall k | 0 <= k < |texts| ensures '\n' !in texts[k] {
      ParseKeepsOneLine(lines[k]);
      CommandTextOneLine(ParseHostLine(lines[k]), ticketRef, groupName);
    }
    SplitUnlines(texts);
  }

  /** A line with two fields names a host and its address, both stripped. */
  lemma HostLineTwoFields(line: string, first: string, second: string)
    requires line == first + "," + second
    requires ',' !in first && ',' !in second
    ensures ParseHostLine(line) == AddHost(Strip(first), Strip(second))
  {
    SplitAtFirst(first, second, ',');
    SplitNoSep(second, ',');
    assert Split(line, ',') == [first, second];
  }

  /** A line without a comma is a skipped domain when it starts with a dot,
      and otherwise an address whose host is named H_<address>. */
  lemma HostLineOneField(line: string)
    requires ',' !in line
    requires line != "" && Strip(line) == line
    ensures ParseHostLine(line)
      == if line[0] == '.' then SkipDomain(line) else AddHost("H_" + line, line)
  {
    SplitNoSep(line, ',');
    assert StripAll([line]) == [line];
  }

  /** The kind of command is decided by the number of commas in the line. */
  lemma HostLineKind(line: string)
    requires line != "" && Strip(line) == line
    ensures ParseHostLine(line).AddHost?
      <==> Count(line, ',') == 1 || (Count(line, ',') == 0 && line[0] != '.')
    ensures ParseHostLine(line).SkipDomain? <==> Count(line, ',') == 0 && line[0] == '.'
    ensures ParseHostLine(line).SkipInvalid? <==> Count(line, ',') >= 2
    ensures ParseHostLine(line).SkipInvalid? ==> ParseHostLine(line) == SkipInvalid(line)
  {
    var parts := Split(line, ',');
    if |parts| == 1 {
      assert parts[0] == line by {
        JoinSplit(line, ',');
      }
      assert StripAll(parts)[0] == line;
    }
  }

  /** Whitespace-only input produces no output. */
  lemma HostBlankInput(ticketRef: string, groupName: string, inputData: string)
    requires forall k :: 0 <= k < |inputData| ==> IsSpace(inputData[k])
    ensures HostOutput(ticketRef, groupName, inputData) == ""
  {
    BlankFormHasNoLines(inputData);
  }
}
