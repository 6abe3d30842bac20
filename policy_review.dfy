/** The policy review classifier: every row of an exported firewall policy
    table comes back annotated, in order. A section row is marked as such and
    given a display name; every other row is tagged by four independent risk
    checks, or as Normal when none of them holds. */
module PolicyReview {
  import opened Text

  /** A cell of the uploaded table or a value the classifier writes into a
      row: a missing cell (NaN or None), a string, or a boolean. */
  datatype Value = Missing | Str(s: string) | Flag(b: bool)

  /** A row maps column names to cells. */
  type Row = map<string, Value>

  /** str() of a cell: a missing cell prints as "nan". */
  function Display(v: Value): string {
    match v
    case Missing => "nan"
    case Str(s) => s
    case Flag(b) => if b then "True" else "False"
  }

  /** str(row.get(column, "")): an absent column reads as the empty string. */
  function Field(row: Row, column: string): string {
    if column in row then Display(row[column]) else ""
  }

  /** The protocols whose use in a rule's services flags it. */
  const WeakProtocols: seq<string> := ["HTTP", "FTP", "TELNET", "RDP", "POP3", "IMAP"]

  /** The columns a section row keeps even when they are missing. */
  const KeptOnSection: set<string> := {"Name", "Type", "is_section", "SectionDisplayName"}

  /** The category tags, in the order the checks run. */
  datatype Tag = SectionHeader | Disabled | ZeroHits | AnyScope | WeakProtocol | Normal

  function TagName(t: Tag): string {
    match t
    case SectionHeader => "Section Header"
    case Disabled => "Disabled"
    case ZeroHits => "Zero Hits"
    case AnyScope => "Any in Source/Destination"
    case WeakProtocol => "Weak Protocol"
    case Normal => "Normal"
  }

  /** Position of a tag in the order the classifier adds tags. */
  function Rank(t: Tag): nat {
    match t
    case SectionHeader => 0
    case Disabled => 1
    case ZeroHits => 2
    case AnyScope => 3
    case WeakProtocol => 4
    case Normal => 5
  }

  /** Type, stripped and lower-cased, is "section". */
  predicate IsSectionRow(row: Row) {
    Lower(Strip(Field(row, "Type"))) == "section"
  }

  /** Type, lower-cased, contains "[disabled]". */
  predicate IsDisabled(row: Row) {
    Contains(Lower(Field(row, "Type")), "[disabled]")
  }

  /** Hits, stripped and lower-cased, is "zero". */
  predicate HasZeroHits(row: Row) {
    Lower(Strip(Field(row, "Hits"))) == "zero"
  }

  /** Source or Destination, stripped and lower-cased, is "any". */
  predicate HasAnyScope(row: Row) {
    Lower(Strip(Field(row, "Source"))) == "any" || Lower(Strip(Field(row, "Destination"))) == "any"
  }

  /** The ';'-separated entries of Services & Applications, each stripped and lower-cased. */
  function ServiceTokens(row: Row): seq<string> {
    var parts := Split(Field(row, "Services & Applications"), ';');
    seq(|parts|, i requires 0 <= i < |parts| => Lower(Strip(parts[i])))
  }

  /** Some weak protocol, lower-cased, is one of the service entries. */
  predicate UsesWeakProtocol(row: Row) {
    exists p | p in WeakProtocols :: Lower(p) in ServiceTokens(row)
  }

  /** The tags for the outcomes of the four checks, in check order, or Normal
      when none holds. */
  function TagsFor(disabled: bool, zeroHits: bool, anyScope: bool, weak: bool): seq<Tag> {
    var found := (if disabled then [Disabled] else [])
      + (if zeroHits then [ZeroHits] else [])
      + (if anyScope then [AnyScope] else [])
      + (if weak then [WeakProtocol] else []);
    if found == [] then [Normal] else found
  }

  /** The tags are never empty, strictly follow check order (so none repeats),
      and never include Section Header. */
  lemma TagsForOrder(disabled: bool, zeroHits: bool, anyScope: bool, weak: bool)
    ensures var tags := TagsFor(disabled, zeroHits, anyScope, weak);
      && tags != []
      && (forall i, j :: 0 <= i < j < |tags| ==> Rank(tags[i]) < Rank(tags[j]))
      && SectionHeader !in tags
  {
  }

  /** Each check's tag is present exactly when the check holds, and Normal
      stands alone, exactly when no check holds. */
  lemma TagsForMembers(disabled: bool, zeroHits: bool, anyScope: bool, weak: bool)
    ensures var tags := TagsFor(disabled, zeroHits, anyScope, weak);
      && (Disabled in tags <==> disabled)
      && (ZeroHits in tags <==> zeroHits)
      && (AnyScope in tags <==> anyScope)
      && (WeakProtocol in tags <==> weak)
      && (Normal in tags <==> tags == [Normal])
      && (tags == [Normal] <==> !disabled && !zeroHits && !anyScope && !weak)
  {
  }

  /** The tags of a rule row. */
  function RuleTags(row: Row): seq<Tag> {
    TagsFor(IsDisabled(row), HasZeroHits(row), HasAnyScope(row), UsesWeakProtocol(row))
  }

  function TagNames(tags: seq<Tag>): seq<string> {
    seq(|tags|, i requires 0 <= i < |tags| => TagName(tags[i]))
  }

  /** The Categories cell: the tag names joined with ", ". */
  function CategoriesText(tags: seq<Tag>): string {
    Join(TagNames(tags), ", ")
  }

  /** The label shown for a section: the stripped Name, or when Name is blank
      or "nan", "SECTION: " and the Source cell ("Unnamed Section" when the row
      has no Source column); upper-cased, so never empty and never lower-case. */
  function SectionDisplayName(row: Row): (shown: string)
    ensures shown != []
    ensures forall i :: 0 <= i < |shown| ==> shown[i] < 'a' || 'z' < shown[i]
  {
    var name := Strip(Field(row, "Name"));
    var chosen :=
      if name == "" || Lower(name) == "nan" then
        "SECTION: " + (if "Source" in row then Display(row["Source"]) else "Unnamed Section")
      else name;
    Upper(chosen)
  }

  /** A section row with its missing cells blanked, except in the kept columns. */
  function BlankMissing(rule: Row): Row {
    map key | key in rule :: if key !in KeptOnSection && rule[key].Missing? then Str("") else rule[key]
  }

  /** The annotated row for a section row. */
  function SectionRule(row: Row): Row {
    var marked := row["is_section" := Flag(true)]["SectionDisplayName" := Str(SectionDisplayName(row))];
    BlankMissing(marked)["Categories" := Str(CategoriesText([SectionHeader]))]
  }

  /** The annotated row for a rule row. */
  function TaggedRule(row: Row): Row {
    row["is_section" := Flag(false)]["Categories" := Str(CategoriesText(RuleTags(row)))]
  }

  /** The annotated row the classifier returns for one input row. */
  function Classified(row: Row): Row {
    if IsSectionRow(row) then SectionRule(row) else TaggedRule(row)
  }

  /** Each row of a table passed through f, in order. */
  function MapRows(f: Row -> Row, table: seq<Row>): seq<Row> {
    if table == [] then [] else MapRows(f, table[..|table| - 1]) + [f(table[|table| - 1])]
  }

  /** MapRows keeps the number of rows, and row i of the result is f of row i. */
  lemma {:induction false} MapRowsPointwise(f: Row -> Row, table: seq<Row>)
    ensures |MapRows(f, table)| == |table|
    ensures forall i :: 0 <= i < |table| ==> MapRows(f, table)[i] == f(table[i])
  {
    if table != [] {
      var front := table[..|table| - 1];
      MapRowsPointwise(f, front);
      forall i | 0 <= i < |front| ensures MapRows(f, table)[i] == f(table[i]) {
        assert table[i] == front[i];
      }
    }
  }

  /** The classifier: one annotated row per input row, in input order, each
      row classified on its own. */
  method ClassifyRules(table: seq<Row>) returns (results: seq<Row>)
    ensures results == MapRows(Classified, table)
    ensures |results| == |table|
    ensures forall i :: 0 <= i < |table| ==> results[i] == Classified(table[i])
  {
    results := [];
    for i := 0 to |table|
      invariant results == MapRows(Classified, table[..i])
    {
      var rule := ClassifyRule(table[i]);
      assert table[..i + 1][..i] == table[..i];
      results := results + [rule];
    }
    assert table[..|table|] == table;
    MapRowsPointwise(Classified, table);
  }

  /** The body of the classifier's loop for one row. */
  method ClassifyRule(row: Row) returns (rule: Row)
    ensures rule == Classified(row)
  {
    if IsSectionRow(row) {
      rule := ClassifySection(row);
      return;
    }
    rule := ClassifyRuleRow(row);
  }

  /** A section row: marked, named, its missing cells outside Name and Type
      blanked, and tagged Section Header; none of the rule checks runs. */
  method ClassifySection(row: Row) returns (rule: Row)
    requires IsSectionRow(row)
    ensures rule == SectionRule(row)
  {
    rule := row;
    var categories: seq<Tag> := [];
    rule := rule["is_section" := Flag(true)];
    categories := categories + [SectionHeader];
    var sectionDisplayName := Strip(Field(row, "Name"));
    if sectionDisplayName == "" || Lower(sectionDisplayName) == "nan" {
      sectionDisplayName :=
        "SECTION: " + (if "Source" in row then Display(row["Source"]) else "Unnamed Section");
    }
    assert Upper(sectionDisplayName) == SectionDisplayName(row);
    rule := rule["SectionDisplayName" := Str(Upper(sectionDisplayName))];
    rule := FillMissing(rule);
    assert categories == [SectionHeader];
    rule := rule["Categories" := Str(Join(TagNames(categories), ", "))];
  }

  /** A rule row: marked as no section and tagged by the four checks. */
  method ClassifyRuleRow(row: Row) returns (rule: Row)
    requires !IsSectionRow(row)
    ensures rule == TaggedRule(row)
  {
    rule := row;
    rule := rule["is_section" := Flag(false)];
    var categories := RuleCategories(row);
    rule := rule["Categories" := Str(Join(TagNames(categories), ", "))];
  }

  /** The four checks of a rule row, each appending its tag when it holds. */
  method RuleCategories(row: Row) returns (categories: seq<Tag>)
    ensures categories == RuleTags(row)
  {
    categories := [];
    if IsDisabled(row) {
      categories := categories + [Disabled];
    }
    ghost var expected := if IsDisabled(row) then [Disabled] else [];
    assert categories == expected;
    if HasZeroHits(row) {
      categories := categories + [ZeroHits];
    }
    expected := expected + if HasZeroHits(row) then [ZeroHits] else [];
    assert categories == expected;
    if HasAnyScope(row) {
      categories := categories + [AnyScope];
    }
    expected := expected + if HasAnyScope(row) then [AnyScope] else [];
    assert categories == expected;
    var services := Field(row, "Services & Applications");
    var parts := Split(services, ';');
    var serviceTokens := seq(|parts|, i requires 0 <= i < |parts| => Lower(Strip(parts[i])));
    var weak := HasWeakProtocol(serviceTokens);
    assert weak == UsesWeakProtocol(row);
    if weak {
      categories := categories + [WeakProtocol];
    }
    expected := expected + if weak then [WeakProtocol] else [];
    assert categories == expected;
    if categories == [] {
      categories := [Normal];
    }
  }

  /** The search over the weak protocols, stopping at the first one found. */
  method HasWeakProtocol(serviceTokens: seq<string>) returns (found: bool)
    ensures found <==> exists p | p in WeakProtocols :: Lower(p) in serviceTokens
  {
    found := false;
    var i := 0;
    while i < |WeakProtocols|
      invariant 0 <= i <= |WeakProtocols|
      invariant forall j :: 0 <= j < i ==> Lower(WeakProtocols[j]) !in serviceTokens
    {
      if Lower(WeakProtocols[i]) in serviceTokens {
        found := true;
        break;
      }
      i := i + 1;
    }
  }

  /** The loop over a section row's columns that blanks missing cells outside
      Name, Type, is_section and SectionDisplayName. */
  method FillMissing(rule: Row) returns (filled: Row)
    ensures filled == BlankMissing(rule)
  {
    filled := rule;
    var pending := rule.Keys;
    while pending != {}
      invariant pending <= rule.Keys
      invariant filled.Keys == rule.Keys
      invariant forall key :: key in rule && key !in pending ==> filled[key] == BlankMissing(rule)[key]
      invariant forall key :: key in pending ==> filled[key] == rule[key]
      decreases pending
    {
      var key :| key in pending;
      if key !in KeptOnSection && filled[key].Missing? {
        filled := filled[key := Str("")];
      }
      pending := pending - {key};
    }
  }

  /** A rule row keeps every column and value it came with; the classifier
      adds is_section = False and its Categories, and nothing else. */
  lemma RuleRowColumns(row: Row)
    requires !IsSectionRow(row)
    ensures Classified(row).Keys == row.Keys + {"is_section", "Categories"}
    ensures Classified(row)["is_section"] == Flag(false)
    ensures Classified(row)["Categories"] == Str(CategoriesText(RuleTags(row)))
    ensures forall k :: k in row && k != "is_section" && k != "Categories" ==> Classified(row)[k] == row[k]
  {
    assert Classified(row) == TaggedRule(row);
    TaggedRuleColumns(row);
  }

  lemma TaggedRuleColumns(row: Row)
    ensures TaggedRule(row).Keys == row.Keys + {"is_section", "Categories"}
    ensures TaggedRule(row)["is_section"] == Flag(false)
    ensures TaggedRule(row)["Categories"] == Str(CategoriesText(RuleTags(row)))
    ensures forall k :: k in row && k != "is_section" && k != "Categories" ==> TaggedRule(row)[k] == row[k]
  {
  }

  /** A section row is marked, named and tagged Section Header alone, whatever
      its other cells say; its missing cells outside Name and Type become
      empty strings and every present cell is left as it was. */
  lemma SectionRowColumns(row: Row)
    requires IsSectionRow(row)
    ensures Classified(row).Keys == row.Keys + {"is_section", "SectionDisplayName", "Categories"}
    ensures Classified(row)["is_section"] == Flag(true)
    ensures Classified(row)["Categories"] == Str("Section Header")
    ensures Classified(row)["SectionDisplayName"] == Str(SectionDisplayName(row))
    ensures forall k :: k in row && k != "is_section" && k != "SectionDisplayName" && k != "Categories"
                 ==> Classified(row)[k] == if k != "Name" && k != "Type" && row[k].Missing? then Str("") else row[k]
    ensures forall k :: k in Classified(row) && k != "Name" && k != "Type" ==> !Classified(row)[k].Missing?
  {
    assert Classified(row) == SectionRule(row);
    SectionRuleColumns(row);
  }

  lemma SectionRuleColumns(row: Row)
    ensures SectionRule(row).Keys == row.Keys + {"is_section", "SectionDisplayName", "Categories"}
    ensures SectionRule(row)["is_section"] == Flag(true)
    ensures SectionRule(row)["Categories"] == Str("Section Header")
    ensures SectionRule(row)["SectionDisplayName"] == Str(SectionDisplayName(row))
    ensures forall k :: k in row && k != "is_section" && k != "SectionDisplayName" && k != "Categories"
                 ==> SectionRule(row)[k] == if k != "Name" && k != "Type" && row[k].Missing? then Str("") else row[k]
    ensures forall k :: k in SectionRule(row) && k != "Name" && k != "Type" ==> !SectionRule(row)[k].Missing?
  {
  }

  /** Where the section label comes from: the stripped Name when it is usable,
      otherwise "SECTION: " and the Source cell, with "UNNAMED SECTION" only when
      the row has no Source column at all (a missing Source cell reads "NAN"). */
  lemma SectionDisplayNameChoice(row: Row)
    ensures var name := Strip(Field(row, "Name"));
      && (name != "" && Lower(name) != "nan" ==> SectionDisplayName(row) == Upper(name))
      && (name == "" || Lower(name) == "nan" ==>
            SectionDisplayName(row)
              == "SECTION: " + if "Source" in row then Upper(Display(row["Source"])) else "UNNAMED SECTION")
  {
    var name := Strip(Field(row, "Name"));
    if name == "" || Lower(name) == "nan" {
      var source := if "Source" in row then Display(row["Source"]) else "Unnamed Section";
      UpperConcat("SECTION: ", source);
      FallbackLabelParts();
    }
  }

  lemma FallbackLabelParts()
    ensures Upper("SECTION: ") == "SECTION: "
    ensures Upper("Unnamed Section") == "UNNAMED SECTION"
  {
  }

  /** Tag names hold no comma and no surrounding whitespace. */
  lemma TagNameClean(t: Tag)
    ensures ',' !in TagName(t) && Trimmed(TagName(t))
  {
  }

  /** The Categories cell reads back into its tags: split on commas and strip. */
  lemma {:induction false} CategoriesRoundTrip(tags: seq<Tag>)
    requires tags != []
    ensures StripAll(Split(CategoriesText(tags), ',')) == TagNames(tags)
  {
    var names := TagNames(tags);
    forall k | 0 <= k < |names| ensures ',' !in names[k] && Trimmed(names[k]) {
      TagNameClean(tags[k]);
    }
    StripSplitJoin(names, ',');
  }

  /** The Categories of a rule row are never empty, are exactly "Normal" when
      none of the four checks holds, and list the tags that were found. */
  lemma RuleRowCategories(row: Row)
    requires !IsSectionRow(row)
    ensures Classified(row)["Categories"].Str?
    ensures Classified(row)["Categories"].s != ""
    ensures Classified(row)["Categories"].s == "Normal"
      <==> !IsDisabled(row) && !HasZeroHits(row) && !HasAnyScope(row) && !UsesWeakProtocol(row)
    ensures StripAll(Split(Classified(row)["Categories"].s, ',')) == TagNames(RuleTags(row))
  {
    RuleRowColumns(row);
    CategoriesFor(IsDisabled(row), HasZeroHits(row), HasAnyScope(row), UsesWeakProtocol(row));
  }

  /** The Categories text for the outcomes of the four checks. */
  lemma CategoriesFor(disabled: bool, zeroHits: bool, anyScope: bool, weak: bool)
    ensures var tags := TagsFor(disabled, zeroHits, anyScope, weak);
      && CategoriesText(tags) != ""
      && (CategoriesText(tags) == "Normal" <==> !disabled && !zeroHits && !anyScope && !weak)
      && StripAll(Split(CategoriesText(tags), ',')) == TagNames(tags)
  {
    var tags := TagsFor(disabled, zeroHits, anyScope, weak);
    TagsForOrder(disabled, zeroHits, anyScope, weak);
    TagsForMembers(disabled, zeroHits, anyScope, weak);
    CategoriesRoundTrip(tags);
    CategoriesNormal(tags);
  }

  /** A non-empty tag list in which Normal can only stand alone renders to a
      non-empty text, and to "Normal" exactly when it is Normal alone. */
  lemma CategoriesNormal(tags: seq<Tag>)
    requires tags != []
    requires Normal in tags <==> tags == [Normal]
    ensures CategoriesText(tags) != ""
    ensures CategoriesText(tags) == "Normal" <==> tags == [Normal]
  {
    var names := TagNames(tags);
    var text := CategoriesText(tags);
    assert |text| >= |names[0]| && text[..|names[0]|] == names[0];
    if tags != [Normal] {
      assert tags[0] != Normal;
      assert names[0][0] != 'N';
    }
  }
}
