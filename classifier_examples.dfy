/** Concrete lines and a sample document, labelled under the default settings
    ('#', "=", '[' and ']').  Each lemma ranges over one list of test lines. */
module ClassifierExamples {
  import opened LineClassifier
  import opened ConfigurationModel

  const DefaultMarker: SectionMarker := SectionMarker('[', ']')

  /** Under the default settings, a line that does not start with a space is
      labelled by its first character, by whether it holds '=' and by its ends. */
  lemma DefaultLabel(line: string)
    requires line != [] && line[0] != Space
    ensures Classify(line, Settings()) ==
      if line[0] == '#' then Comment
      else if '=' in line then KeyValuePair
      else if IsSection(line, DefaultMarker) then SectionHead
      else Unknown
  {
    IsKeyValuePairSingleChar(line, '=');
    IsEmptyIffAllSpaces(line);
  }

  /** Lines starting with '#' are comments. */
  lemma CommentExamples(line: string)
    requires line in ["### Comment", "# Comment", "# Comment     adfsdgs  "]
    ensures IsComment(line, '#')
  {
  }

  /** A leading space hides the comment character, unless ignoreSpace deletes it:
      without ignoreSpace no test accepts these lines, so get_types labels them
      unknown. */
  lemma SpacedCommentExamples(line: string)
    requires line in [" ### Comment", " # Comment"]
    ensures !IsComment(line, '#')
    ensures ClassifyLine(line, Settings(), true) == Comment
    ensures ClassifyLine(line, Settings(), false) == Unknown
  {
    assert RemoveSpace(line)[0] == '#';
    IsEmptyIffAllSpaces(line);
    assert line[1] != Space;
    IsKeyValuePairSingleChar(line, '=');
    assert '=' !in line;
    assert !IsSection(line, DefaultMarker);
  }

  /** Pairs, section heads, the empty line and blank lines are no comments. */
  lemma NotCommentExamples(line: string)
    requires line in ["key = value", "key=value", "  key = value  ", "[section]",
                      "  [  section  ]  ", "", "          "]
    ensures !IsComment(line, '#')
  {
  }

  /** The empty line and a line of spaces are empty. */
  lemma EmptyExamples(line: string)
    requires line in ["", "          "]
    ensures IsEmpty(line)
  {
    IsEmptyIffAllSpaces(line);
  }

  /** Digits, comments, section heads, pairs and a tab are not empty. */
  lemma NotEmptyExamples(line: string)
    requires line in ["0 2 4 6 8 ", "### Comment", "# Comment", " # Comment",
                      "[section1]", "key = value", "\t"]
    ensures !IsEmpty(line)
  {
    IsEmptyIffAllSpaces(line);
    if line == " # Comment" {
      assert line[1] != Space;
    } else {
      assert line[0] != Space;
    }
  }

  /** A line holding '=' anywhere is a key/value pair. */
  lemma KeyValuePairExamples(line: string)
    requires line in ["key = value", "key=value", "  key = value  ", "asljfjdjfljl=lkjasdjfjj"]
    ensures IsKeyValuePair(line, "=")
  {
    IsKeyValuePairSingleChar(line, '=');
  }

  /** Lines without '=' are no key/value pairs, whatever else they hold. */
  lemma NotKeyValuePairExamples(line: string)
    requires line in ["keyvalue", "", "key:value", "            "]
    ensures !IsKeyValuePair(line, "=")
  {
    IsKeyValuePairSingleChar(line, '=');
  }

  /** Only the first and the last character are compared with the markers. */
  lemma SectionExamples(line: string)
    requires line in ["[section1]", "[[[section1]]]", "[]ction1[]]"]
    ensures IsSection(line, DefaultMarker)
  {
  }

  /** Comments, reversed markers, pairs, the empty and blank lines are no section heads. */
  lemma NotSectionExamples(line: string)
    requires line in ["### Comment", "# Comment", " # Comment", "]section1[",
                      "key = value", "", "          "]
    ensures !IsSection(line, DefaultMarker)
  {
  }

  /** Lines no test accepts are unknown. */
  lemma UnknownExamples(line: string)
    requires line in ["sakjflkjgl", "lkajlkfj   lkdjlfk", "]section1[", "aljfljdfj # comment"]
    ensures Classify(line, Settings()) == Unknown
  {
    assert '=' !in line && !IsSection(line, DefaultMarker);
    DefaultLabel(line);
  }

  /** Comments, empty lines, pairs and section heads are not unknown. */
  lemma NotUnknownExamples(line: string)
    requires line in ["### Comment", "# Comment", "# Comment     adfsdgs  ", "", "          ",
                      "key = value", "key=value", "  key = value  ", "asljfjdjfljl=lkjasdjfjj",
                      "[section1]", "[[[section1]]]", "[]ction1[]]"]
    ensures Classify(line, Settings()) != Unknown
  {
    if line in ["### Comment", "# Comment", "# Comment     adfsdgs  "] {
      CommentExamples(line);
    } else if line in ["", "          "] {
      EmptyExamples(line);
    } else if line in ["key = value", "key=value", "  key = value  ", "asljfjdjfljl=lkjasdjfjj"] {
      KeyValuePairExamples(line);
    } else {
      SectionExamples(line);
    }
  }

  /** Where several tests match, the earlier one wins: a comment before a pair,
      a pair before a section head. */
  lemma PrecedenceExamples(line: string)
    requires line in ["#a=b", "[a=b]"]
    ensures Classify(line, Settings()) == if line[0] == '#' then Comment else KeyValuePair
  {
    assert '=' in line;
    DefaultLabel(line);
  }

  /** With ignoreSpace, surrounding and inner spaces are dropped before labelling. */
  lemma IgnoreSpaceExample(line: string)
    requires line == "  key = value  "
    ensures ClassifyLine(line, Settings(), true) == ClassifyLine("key=value", Settings(), false)
    ensures ClassifyLine(line, Settings(), true) == KeyValuePair
  {
    var s := Settings();
    assert ClassifyLine(line, s, true) == ClassifyLine("key = value", s, true) by {
      assert line == "  " + "key = value" + "  ";
      IgnoreSpaceSurrounded("  ", "key = value", "  ", s);
    }
    IgnoreSpaceKeepsTrimmedLabel("key = value", s);
    assert '=' in "key = value";
    DefaultLabel("key = value");
    assert '=' in "key=value";
    DefaultLabel("key=value");
  }

  // The sample document, in five blocks so that each is labelled by its own lemma.
  const SampleHead: seq<string> := ["# This is a comment.", "# This is another comment.", "", "[section1]"]
  const SamplePairsBlock: seq<string> := ["key1 = value1", "key2 = value2", "key3 = value3"]
  const SampleGap: seq<string> := ["", "", "# This is also a comment.", ""]
  const SampleSection2: seq<string> := ["[section2]", "key1 = value1", "key2 = value2", "key3 = value3"]
  const SampleTail: seq<string> := ["aklwfwiopwjj", ""]

  const SampleDocument: seq<string> :=
    SampleHead + SamplePairsBlock + SampleGap + SampleSection2 + SampleTail

  // The labels the sample document is expected to receive, block by block.
  const SampleHeadLabels: seq<LineType> := [Comment, Comment, Empty, SectionHead]
  const SamplePairsLabels: seq<LineType> := [KeyValuePair, KeyValuePair, KeyValuePair]
  const SampleGapLabels: seq<LineType> := [Empty, Empty, Comment, Empty]
  const SampleSection2Labels: seq<LineType> := [SectionHead, KeyValuePair, KeyValuePair, KeyValuePair]
  const SampleTailLabels: seq<LineType> := [Unknown, Empty]

  const SampleTypes: seq<LineType> :=
    SampleHeadLabels + SamplePairsLabels + SampleGapLabels + SampleSection2Labels + SampleTailLabels

  /** A line of the sample document keeps its label under ignoreSpace. */
  lemma SampleLine(line: string, t: LineType, ignoreSpace: bool)
    requires line == "" ==> t == Empty
    requires line != "" ==> line[0] != Space && line[|line| - 1] != Space
    requires line != "" ==> t == (if line[0] == '#' then Comment
                                  else if '=' in line then KeyValuePair
                                  else if IsSection(line, DefaultMarker) then SectionHead
                                  else Unknown)
    ensures ClassifyLine(line, Settings(), ignoreSpace) == t
  {
    if line != "" {
      DefaultLabel(line);
      IgnoreSpaceKeepsTrimmedLabel(line, Settings());
    }
  }

  lemma SampleComments(line: string, ignoreSpace: bool)
    requires line in ["# This is a comment.", "# This is another comment.", "# This is also a comment."]
    ensures ClassifyLine(line, Settings(), ignoreSpace) == Comment
  {
    SampleLine(line, Comment, ignoreSpace);
  }

  lemma SamplePairs(line: string, ignoreSpace: bool)
    requires line in ["key1 = value1", "key2 = value2", "key3 = value3"]
    ensures ClassifyLine(line, Settings(), ignoreSpace) == KeyValuePair
  {
    assert '=' in line;
    SampleLine(line, KeyValuePair, ignoreSpace);
  }

  lemma SampleOthers(line: string, ignoreSpace: bool)
    requires line in ["", "[section1]", "[section2]", "aklwfwiopwjj"]
    ensures ClassifyLine(line, Settings(), ignoreSpace) ==
      if line == "" then Empty else if line[0] == '[' then SectionHead else Unknown
  {
    if line != "" {
      assert '=' !in line;
    }
    SampleLine(line, if line == "" then Empty else if line[0] == '[' then SectionHead else Unknown, ignoreSpace);
  }

  lemma SampleHeadTypes(block: seq<string>, ignoreSpace: bool)
    requires block == SampleHead
    ensures ClassifyAll(block, Settings(), ignoreSpace) == SampleHeadLabels
  {
    SampleComments(block[0], ignoreSpace);
    SampleComments(block[1], ignoreSpace);
    SampleOthers(block[2], ignoreSpace);
    SampleOthers(block[3], ignoreSpace);
  }

  lemma SamplePairsTypes(block: seq<string>, ignoreSpace: bool)
    requires block == SamplePairsBlock
    ensures ClassifyAll(block, Settings(), ignoreSpace) == SamplePairsLabels
  {
    SamplePairs(block[0], ignoreSpace);
    SamplePairs(block[1], ignoreSpace);
    SamplePairs(block[2], ignoreSpace);
  }

  lemma SampleGapTypes(block: seq<string>, ignoreSpace: bool)
    requires block == SampleGap
    ensures ClassifyAll(block, Settings(), ignoreSpace) == SampleGapLabels
  {
    SampleOthers(block[0], ignoreSpace);
    SampleOthers(block[1], ignoreSpace);
    SampleComments(block[2], ignoreSpace);
    SampleOthers(block[3], ignoreSpace);
  }

  lemma SampleSection2Types(block: seq<string>, ignoreSpace: bool)
    requires block == SampleSection2
    ensures ClassifyAll(block, Settings(), ignoreSpace) == SampleSection2Labels
  {
    SampleOthers(block[0], ignoreSpace);
    SamplePairs(block[1], ignoreSpace);
    SamplePairs(block[2], ignoreSpace);
    SamplePairs(block[3], ignoreSpace);
  }

  lemma SampleTailTypes(block: seq<string>, ignoreSpace: bool)
    requires block == SampleTail
    ensures ClassifyAll(block, Settings(), ignoreSpace) == SampleTailLabels
  {
    SampleOthers(block[0], ignoreSpace);
    SampleOthers(block[1], ignoreSpace);
  }

  /** The sample document receives the expected labels, with or without ignoreSpace. */
  lemma SampleDocumentTypes(ignoreSpace: bool)
    ensures ClassifyAll(SampleDocument, Settings(), ignoreSpace) == SampleTypes
  {
    SampleHeadTypes(SampleHead, ignoreSpace);
    SamplePairsTypes(SamplePairsBlock, ignoreSpace);
    SampleGapTypes(SampleGap, ignoreSpace);
    SampleSection2Types(SampleSection2, ignoreSpace);
    SampleTailTypes(SampleTail, ignoreSpace);
    FiveBlocks(SampleHead, SamplePairsBlock, SampleGap, SampleSection2, SampleTail, ignoreSpace);
  }

  lemma FiveBlocks(a: seq<string>, b: seq<string>, c: seq<string>, d: seq<string>, e: seq<string>, ignoreSpace: bool)
    ensures ClassifyAll(a + b + c + d + e, Settings(), ignoreSpace) ==
      ClassifyAll(a, Settings(), ignoreSpace) + ClassifyAll(b, Settings(), ignoreSpace) +
      ClassifyAll(c, Settings(), ignoreSpace) + ClassifyAll(d, Settings(), ignoreSpace) +
      ClassifyAll(e, Settings(), ignoreSpace)
  {
    var s := Settings();
    ClassifyAllConcat(a, b, s, ignoreSpace);
    ClassifyAllConcat(a + b, c, s, ignoreSpace);
    ClassifyAllConcat(a + b + c, d, s, ignoreSpace);
    ClassifyAllConcat(a + b + c + d, e, s, ignoreSpace);
  }
}
