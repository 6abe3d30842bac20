# MonkeyUtil firewall helpers, modelled in Dafny

MonkeyUtil is a small Flask application with three Check Point helpers.
This project models the logic inside each of them and proves properties of
the model.

- **Host tool** (`add_host_api`). Each non-blank line of a text area
  gives one output line (one line of text when the ticket and group fields
  hold no newline). A line `name, ip` with one comma becomes
  an `add host` command with those two fields. A comma-free line becomes
  an `add host` command named `H_<line>`, unless it starts with a dot. A
  comma-free line starting with a dot, or a line with two or more commas,
  becomes a `#` comment saying it was skipped.
- **DNS-domain tool** (`add_dns_domain_api`). Each non-blank line that
  starts with a dot becomes an `add dns-domain` command, followed by a
  `set group … members.add` command. Any other non-blank line becomes a
  `# Skipping non-domain input` comment, and a blank line gives nothing.
  The `is-sub-domain` flag is `true` only when the checkbox sends `on`.
- **Policy review classifier** (`classify_rules` with `WEAK_PROTOCOLS`).
  Every row of an exported policy table comes back annotated, in order:
  - a row whose trimmed, lower-cased `Type` is `section` is marked as a
    section header and given an upper-cased display name; its missing
    cells outside `Name` and `Type` are blanked;
  - every other row is tagged by four checks, always in this order:
    Disabled, Zero Hits, Any in Source/Destination and Weak Protocol;
  - a row that no check flags is tagged Normal;
  - the tags are joined with `", "`.

The model is written in the source's imperative form:

- The loops are methods with loop invariants: the host and DNS loops
  append to `output`; the classifier loop appends to `results` and updates
  the row dictionary; the weak-protocol search stops at `break`; and a loop
  blanks a section row's missing cells outside `Name` and `Type`.
- Each method is proved equal to a specification function.
- The properties are proved as lemmas about those functions.

Modules and files:

- `Text` (`text.dfy`): the Python string operations the code uses, on ASCII:
  - `strip`, `lower`, `upper`;
  - `split` on one character, `join` with any separator;
  - `startswith` and substring `in`;
  - the `strip().split('\n')` plus skip-blank-lines pattern;
  - the newline-terminated output text.
- `HostTool` (`host_tool.dfy`).
- `DnsTool` (`dns_tool.dfy`).
- `PolicyReview` (`policy_review.dfy`).
- `ReviewExamples` (`review_examples.dfy`): worked rows for the classifier.

Cells are `Missing | Str(s) | Flag(b)`. `Missing` stands for a pandas NaN
or None. Where the code calls `str()` on a cell, a missing cell reads as
`"nan"`, exactly as `str(float('nan'))` does.

### Details of the code the model keeps

- **Nesting of `classify_rules`.** As written, app.py:111 starts at
  column 0 and the `else:` at app.py:135 is mis-nested, so Python rejects
  the file. The model uses the evident intended nesting: inside the loop,
  a section branch that ends in `continue`, and then `is_section = False`
  and the four checks for every other row.
- **Section rows blank only missing cells.** A section row's cells are
  set to `""` only when they are NaN or None and their column is not
  `Name`, `Type`, `is_section` or `SectionDisplayName`; present values are
  kept (app.py:127-129).
- **The "Unnamed Section" fallback.** It is the default of
  `row.get('Source', ...)`, so it is used only when the row has no
  `Source` column at all (app.py:121):
  - an empty `Source` gives `SECTION: `;
  - a NaN `Source` gives `SECTION: NAN`.
- **Missing cells in the checks.** Every check reads `str(cell)`, so a NaN
  cell reads as `nan`, and only an absent column reads as `""`
  (app.py:138-147).

## Model

| member | source | states |
|---|---|---|
| `Text.Split` | app.py:33 | `str.split` on one character gives one more piece than there are separators, and no piece holds the separator |
| `Text.JoinSplit` | app.py:33 | joining the pieces of a split with the separator gives the original string back |
| `Text.SplitJoin` | app.py:40 | splitting a joined list gives the parts back when no part holds the separator |
| `Text.StripShape` | app.py:35 | `strip()` returns a slice of its input that neither starts nor ends with whitespace, and everything it drops, at the front and at the end, is whitespace |
| `Text.StripIdempotent` | app.py:35 | stripping a stripped line changes nothing |
| `Text.StripEmptyIffBlank` | app.py:35-37 | a line strips to the empty string exactly when it is whitespace only, which is when the loops skip it |
| `Text.NonBlank` | app.py:34-37 | the lines the loops act on are non-empty and already stripped |
| `Text.NonBlankConcat` | app.py:34-37 | the lines acted on for two runs of input are those of the first run followed by those of the second, so lines are dropped or kept one by one and in order |
| `Text.NonBlankKeeps` | app.py:34-37 | every non-blank input line is acted on, stripped, at the position given by the non-blank lines before it, and a blank line adds nothing |
| `Text.FormLines` | app.py:33-37 | every line the tools act on is non-empty, stripped and free of newlines |
| `Text.BlankFormHasNoLines` | app.py:33-37 | whitespace-only input leaves no line to act on |
| `Text.SplitUnlines` | app.py:45 | newline-terminated output lines split on `\n` back into those lines, followed by one empty piece |
| `Text.UnlinesAppend` | app.py:45 | `output += line + "\n"` renders the line list with the line appended |
| `Text.UnlinesConcat` | app.py:83-84 | rendering two runs of lines one after the other is rendering their concatenation |
| `Text.StripSplitJoin` | app.py:157 | a `", "`-joined list of trimmed, comma-free names reads back as the same names when split on `,` and stripped |
| `HostTool.AddHostCommands` | app.py:33-59 | the loop's output is one command text per non-blank stripped line, in input order, each followed by a newline; blank lines add nothing |
| `HostTool.HostLineOutput` | app.py:40-59 | the loop body appends the command text of the parsed line and a newline, in each of the four branches |
| `HostTool.HostTextsStep` | app.py:45-59 | one more non-blank line appends exactly its command text and a newline to the output |
| `HostTool.HostOutputLines` | app.py:33-59 | with a newline-free ticket and group, the output splits on newlines into exactly one line per non-blank input line |
| `HostTool.HostLineTwoFields` | app.py:40-45 | a line `a,b` without further commas becomes `add host` with name `strip(a)` and address `strip(b)` |
| `HostTool.HostLineOneField` | app.py:48-56 | a comma-free line is skipped as domain-like when it starts with `.`, and otherwise becomes host `H_<line>` with address `<line>` |
| `HostTool.HostLineKind` | app.py:40-59 | the command kind is decided by the comma count: one comma, or none and no leading dot, adds a host; none with a leading dot skips as a domain; two or more skip the whole line as invalid |
| `HostTool.HostBlankInput` | app.py:33-37 | whitespace-only input produces empty output |
| `HostTool.ParseKeepsOneLine` | app.py:40 | the fields read from a newline-free line hold no newline |
| `HostTool.CommandTextOneLine` | app.py:45-59 | every command text is a single line when its fields, the ticket and the group are |
| `DnsTool.SubDomainFlag` | app.py:72 | the flag is `true` or `false`, and `true` exactly when the checkbox value is `on` |
| `DnsTool.AddDnsDomainCommands` | app.py:74-86 | the loop's output renders, in input order, the command lines of every non-blank stripped line; blank lines add nothing |
| `DnsTool.DnsLineOutput` | app.py:81-86 | the loop body appends `add dns-domain` then `set group … members.add` for a dotted line, and one skip comment otherwise |
| `DnsTool.DnsTextsStep` | app.py:81-86 | one more non-blank line appends exactly its own command lines to the output |
| `DnsTool.CommandLinesOneLine` | app.py:83-86 | every command line is a single line when the input line, the flag, the ticket and the group are |
| `DnsTool.DnsTextsShape` | app.py:75-86 | a dotted line gives two output lines and any other non-blank line gives one, none holding a newline |
| `DnsTool.DnsOutputLines` | app.py:74-86 | with a newline-free ticket and group, the output splits on newlines into exactly those lines: two per domain line, one per other non-blank line |
| `DnsTool.DnsBlankInput` | app.py:74-78 | whitespace-only input produces empty output |
| `PolicyReview.ClassifyRules` | app.py:106-159 | one annotated row per input row, in input order; row `i` is input row `i` classified on its own |
| `PolicyReview.MapRowsPointwise` | app.py:107-108 | mapping over the table keeps its length, and result row `i` is the mapped input row `i` |
| `PolicyReview.ClassifyRule` | app.py:108-158 | the loop body returns the classified row for both kinds of row |
| `PolicyReview.ClassifySection` | app.py:111-134 | a section row is marked, named, has its missing cells outside `Name` and `Type` blanked and is tagged `Section Header`, and none of the four checks runs |
| `PolicyReview.ClassifyRuleRow` | app.py:136-158 | a rule row gets `is_section = False` and the joined tags of the four checks |
| `PolicyReview.RuleCategories` | app.py:137-155 | the appends give exactly the tags of the checks that hold, in check order, or `Normal` alone when none holds |
| `PolicyReview.HasWeakProtocol` | app.py:149-152 | the search with `break` answers whether some weak protocol, lower-cased, is one of the service tokens |
| `PolicyReview.FillMissing` | app.py:127-129 | the loop over the keys blanks exactly the missing cells outside the kept columns, and leaves the keys and every other value as they were |
| `PolicyReview.TagsForOrder` | app.py:137-155 | the tags are never empty, follow check order strictly (so no tag appears twice, and Weak Protocol appears once however many protocols match), and never include `Section Header` |
| `PolicyReview.TagsForMembers` | app.py:137-155 | each check's tag is present exactly when its check holds; `Normal` appears only alone, and exactly when no check holds |
| `PolicyReview.SectionDisplayName` | app.py:117-124 | a section's display name is never empty and holds no lower-case letter |
| `PolicyReview.SectionDisplayNameChoice` | app.py:117-124 | the display name is the upper-cased stripped `Name` when it is usable; otherwise it is `SECTION: ` and the upper-cased `Source`, or `SECTION: UNNAMED SECTION` only when the row has no `Source` column |
| `PolicyReview.RuleRowColumns` | app.py:136-158 | a rule row keeps every original column and value, gains `is_section = False` and `Categories`, and nothing else |
| `PolicyReview.SectionRowColumns` | app.py:111-134 | a section row gets `is_section = True`, `Categories = "Section Header"` and its display name; missing cells outside `Name` and `Type` become `""`; present cells are unchanged; no missing cell is left outside `Name` and `Type` |
| `PolicyReview.TagNameClean` | app.py:139-155 | no tag name holds a comma or surrounding whitespace |
| `PolicyReview.CategoriesRoundTrip` | app.py:157 | the `Categories` text split on `,` and stripped gives back the tag names |
| `PolicyReview.RuleRowCategories` | app.py:153-157 | a rule row's `Categories` is a non-empty string, is exactly `Normal` when none of the four checks holds, and lists the found tags |
| `PolicyReview.CategoriesFor` | app.py:153-157 | for any outcome of the four checks, the `Categories` text is non-empty, is `Normal` exactly when no check holds, and reads back into its tag names |
| `PolicyReview.CategoriesNormal` | app.py:153-157 | a non-empty tag list in which `Normal` only stands alone renders to a non-empty text, which is `Normal` exactly when the list is `Normal` alone |
| `ReviewExamples.FlaggedRule` | app.py:136-157 | an `Allow` rule with `Zero` hits, source `Any` and services `HTTP;SSH` is tagged `Zero Hits, Any in Source/Destination, Weak Protocol` |
| `ReviewExamples.SectionFromSource` | app.py:111-132 | a section row with a blank `Name` and source `DMZ Rules` is shown as `SECTION: DMZ RULES` |
| `ReviewExamples.DisabledRule` | app.py:136-157 | an `Allow [Disabled]` rule with hits, specific addresses and only SSH is tagged `Disabled` alone |
| `ReviewExamples.EmptyRule` | app.py:136-157 | a row with no columns at all is tagged `Normal` |

## Left out

- Flask routing and template rendering (`index`, `about`, `render_template`): page glue, not logic.
- Reading `request.form` and `request.files`: the form fields are parameters of the modelled operations. An absent `is_sub_domain` field is `None`.
- pandas. Three parts are not modelled:
  - CSV parsing and export;
  - the numeric dtypes of cells, since every present cell is a string here;
  - column order, since a row is a map from column name to cell.
- The process-wide `classified_rules` cache, the download endpoint and its `datetime.now()` file name, including the 400 response on an empty cache: shared state across requests and file I/O.
- Full Unicode `strip`, `lower` and `upper`: whitespace and case are modelled on ASCII only.
- `str(None)` is `"None"` in Python: a cell holding `None` is modelled as `Missing` and reads as `"nan"`, as a pandas NaN does.
- `HostTool.HostOutputLines` and `DnsTool.DnsOutputLines`: the line counts assume the ticket reference and group name hold no newline. A newline in either would split one command over two lines.
- The nesting of `classify_rules` as written at app.py:111-136, which Python rejects: the intended nesting is modelled instead, as described above.
