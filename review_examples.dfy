/** Worked rows for the policy review classifier. Each lemma fixes only the
    cells the outcome depends on; every other cell may hold anything. */
module ReviewExamples {
  import opened Text
  import opened PolicyReview

  /** An allowed rule with zero hits, Any as its source and HTTP among its
      services is tagged Zero Hits, Any in Source/Destination and Weak Protocol,
      in that order. */
  lemma FlaggedRule(row: Row)
    requires Field(row, "Type") == "Allow" && Field(row, "Hits") == "Zero" && Field(row, "Source") == "Any"
    requires Field(row, "Services & Applications") == "HTTP;SSH"
    ensures Classified(row)["is_section"] == Flag(false)
    ensures Classified(row)["Categories"] == Str("Zero Hits, Any in Source/Destination, Weak Protocol")
  {
    FlaggedChecks(row);
    FlaggedWeak(row);
    RuleRowColumns(row);
    FlaggedNames();
    FlaggedText();
  }

  lemma FlaggedText()
    ensures Join(["Zero Hits", "Any in Source/Destination", "Weak Protocol"], ", ")
      == "Zero Hits, Any in Source/Destination, Weak Protocol"
  {
    assert ["Zero Hits", "Any in Source/Destination", "Weak Protocol"][1..] == ["Any in Source/Destination", "Weak Protocol"];
    assert ["Any in Source/Destination", "Weak Protocol"][1..] == ["Weak Protocol"];
    FlaggedCategoriesText();
  }

  /** The expected Categories text, spelled out as the pieces Join puts together. */
  lemma FlaggedCategoriesText()
    ensures "Zero Hits, Any in Source/Destination, Weak Protocol"
      == ("Zero Hits" + ", ") + (("Any in Source/Destination" + ", ") + "Weak Protocol")
  {
  }

  lemma FlaggedNames()
    ensures TagNames(TagsFor(false, true, true, true))
      == ["Zero Hits", "Any in Source/Destination", "Weak Protocol"]
  {
    assert TagsFor(false, true, true, true) == [ZeroHits, AnyScope, WeakProtocol];
  }

  lemma FlaggedChecks(row: Row)
    requires Field(row, "Type") == "Allow" && Field(row, "Hits") == "Zero" && Field(row, "Source") == "Any"
    ensures !IsSectionRow(row) && !IsDisabled(row) && HasZeroHits(row) && HasAnyScope(row)
  {
    LowerStripped("Allow");
    LowerStripped("Zero");
    LowerStripped("Any");
  }

  lemma FlaggedWeak(row: Row)
    requires Field(row, "Services & Applications") == "HTTP;SSH"
    ensures UsesWeakProtocol(row)
  {
    FlaggedServices();
    LowerStripped("HTTP");
    var tokens := ServiceTokens(row);
    assert tokens[0] == Lower("HTTP");
    assert WeakProtocols[0] == "HTTP";
  }

  lemma FlaggedServices()
    ensures Split("HTTP;SSH", ';') == ["HTTP", "SSH"]
  {
    assert "HTTP;SSH" == "HTTP" + [';'] + "SSH";
    SplitAtFirst("HTTP", "SSH", ';');
    SplitNoSep("SSH", ';');
  }

  /** A word without surrounding whitespace strips to itself. */
  lemma LowerStripped(word: string)
    requires Trimmed(word)
    ensures Lower(Strip(word)) == Lower(word)
  {
    StripClean(word);
  }

  /** A section row whose Name is blank is labelled from its Source. */
  lemma SectionFromSource(row: Row)
    requires Field(row, "Type") == "Section" && Field(row, "Name") == ""
    requires "Source" in row && row["Source"] == Str("DMZ Rules")
    ensures Classified(row)["is_section"] == Flag(true)
    ensures Classified(row)["Categories"] == Str("Section Header")
    ensures Classified(row)["SectionDisplayName"] == Str("SECTION: " + "DMZ RULES")
  {
    SectionWords();
    assert IsSectionRow(row);
    SectionRowColumns(row);
    SectionDisplayNameChoice(row);
  }

  lemma SectionWords()
    ensures Lower(Strip("Section")) == "section"
    ensures Strip("") == ""
    ensures Upper("DMZ Rules") == "DMZ RULES"
  {
    LowerStripped("Section");
  }

  /** A disabled rule with hits, specific addresses and only SSH is tagged Disabled alone. */
  lemma DisabledRule(row: Row)
    requires Field(row, "Type") == "Allow [Disabled]" && Field(row, "Hits") == "15"
    requires Field(row, "Source") == "192.168.1.0" && Field(row, "Destination") == "192.168.2.0"
    requires Field(row, "Services & Applications") == "SSH"
    ensures Classified(row)["Categories"] == Str("Disabled")
  {
    DisabledChecks(row);
    DisabledWeak(row);
    RuleRowColumns(row);
    assert TagsFor(true, false, false, false) == [Disabled];
  }

  lemma DisabledChecks(row: Row)
    requires Field(row, "Type") == "Allow [Disabled]" && Field(row, "Hits") == "15"
    requires Field(row, "Source") == "192.168.1.0" && Field(row, "Destination") == "192.168.2.0"
    ensures !IsSectionRow(row) && IsDisabled(row) && !HasZeroHits(row) && !HasAnyScope(row)
  {
    DisabledType();
    LowerStripped("Allow [Disabled]");
    LowerStripped("15");
    LowerStripped("192.168.1.0");
    LowerStripped("192.168.2.0");
  }

  lemma DisabledType()
    ensures Contains(Lower("Allow [Disabled]"), "[disabled]")
  {
    assert Lower("Allow [Disabled]")[6..16] == "[disabled]";
    assert OccursAt(Lower("Allow [Disabled]"), "[disabled]", 6);
  }

  lemma DisabledWeak(row: Row)
    requires Field(row, "Services & Applications") == "SSH"
    ensures !UsesWeakProtocol(row)
  {
    SplitNoSep("SSH", ';');
    LowerStripped("SSH");
    assert ServiceTokens(row) == [Lower("SSH")];
    SshIsNotWeak();
  }

  lemma SshIsNotWeak()
    ensures forall p | p in WeakProtocols :: Lower(p) != Lower("SSH")
  {
    assert Lower("SSH")[0] == 's';
  }

  /** A row with none of the checked columns is Normal. */
  lemma EmptyRule()
    ensures Classified(map[])["Categories"] == Str("Normal")
  {
    var row: Row := map[];
    assert Strip("") == "";
    assert !IsSectionRow(row);
    assert ServiceTokens(row) == [""];
    assert !UsesWeakProtocol(row);
    assert RuleTags(row) == [Normal];
    RuleRowColumns(row);
  }
}

