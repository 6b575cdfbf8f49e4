/** The five line predicates of conpar and the per-line classification built
    from them.  A line is a string; the syntax markers come from a Settings
    record (the source's Config_settings). */
module LineClassifier {

  /** The label get_types gives a line; TagName is the string the source stores. */
  datatype LineType = Comment | Empty | KeyValuePair | SectionHead | Unknown

  function TagName(t: LineType): string
  {
    match t
    case Comment => "comment"
    case Empty => "empty"
    case KeyValuePair => "key_value_pair"
    case SectionHead => "section_head"
    case Unknown => "unknown"
  }

  /** The labels are told apart by their names: distinct tags have distinct names. */
  lemma TagNameInjective(t: LineType, u: LineType)
    ensures TagName(t) == TagName(u) <==> t == u
  {
  }

  /** Only the first two elements of the source's section_marker are read:
      the opening marker and the closing marker. */
  datatype SectionMarker = SectionMarker(open: char, close: char)

  /** The syntax settings of one configuration, with the source's defaults. */
  datatype Settings = Settings(
    commentChar: char := '#',
    keyValueSep: string := "=",
    sectionMarker: SectionMarker := SectionMarker('[', ']'))

  const Space: char := ' '

  predicate NoSpace(s: string)
  {
    forall i :: 0 <= i < |s| ==> s[i] != Space
  }

  predicate AllSpaces(s: string)
  {
    forall i :: 0 <= i < |s| ==> s[i] == Space
  }

  // ---------------------------------------------------------------- removespace

  /** The line with every space character deleted (the source's line.replace(' ', '')). */
  function RemoveSpace(line: string): (r: string)
    ensures |r| <= |line|
  {
    if line == [] then []
    else if line[0] == Space then RemoveSpace(line[1..])
    else [line[0]] + RemoveSpace(line[1..])
  }

  /** No space is left in the result. */
  lemma {:induction false} RemoveSpaceNoSpace(line: string)
    ensures NoSpace(RemoveSpace(line))
  {
    if line != [] {
      RemoveSpaceNoSpace(line[1..]);
      var r := RemoveSpace(line[1..]);
      if line[0] != Space {
        forall i | 0 <= i < |r| + 1 ensures ([line[0]] + r)[i] != Space {
          if i > 0 { assert ([line[0]] + r)[i] == r[i - 1]; }
        }
      }
    }
  }

  /** Deleting spaces works piece by piece: a split of the line is kept in the result. */
  lemma {:induction false} RemoveSpaceConcat(a: string, b: string)
    ensures RemoveSpace(a + b) == RemoveSpace(a) + RemoveSpace(b)
  {
    if a == [] {
      assert a + b == b;
    } else {
      assert (a + b)[0] == a[0];
      assert (a + b)[1..] == a[1..] + b;
      RemoveSpaceConcat(a[1..], b);
    }
  }

  /** Scanning left to right, each character is appended unless it is a space;
      so the non-space characters are kept, in their order. */
  lemma RemoveSpaceAppendChar(a: string, c: char)
    ensures RemoveSpace(a + [c]) == RemoveSpace(a) + (if c == Space then [] else [c])
  {
    RemoveSpaceConcat(a, [c]);
  }

  /** A line without spaces is left as it is. */
  lemma {:induction false} RemoveSpaceFixpoint(line: string)
    requires NoSpace(line)
    ensures RemoveSpace(line) == line
  {
    if line != [] {
      assert NoSpace(line[1..]) by {
        forall i | 0 <= i < |line| - 1 ensures line[1..][i] != Space {
          assert line[1..][i] == line[i + 1];
        }
      }
      RemoveSpaceFixpoint(line[1..]);
      assert line == [line[0]] + line[1..];
    }
  }

  /** Deleting spaces twice is the same as deleting them once. */
  lemma RemoveSpaceIdempotent(line: string)
    ensures RemoveSpace(RemoveSpace(line)) == RemoveSpace(line)
  {
    RemoveSpaceNoSpace(line);
    RemoveSpaceFixpoint(RemoveSpace(line));
  }

  /** Exactly the spaces go: every other character keeps its multiplicity. */
  lemma {:induction false} RemoveSpaceMultiset(line: string)
    ensures multiset(RemoveSpace(line)) == multiset(line)[Space := 0]
  {
    if line != [] {
      RemoveSpaceMultiset(line[1..]);
      assert line == [line[0]] + line[1..];
      assert multiset(line) == multiset{line[0]} + multiset(line[1..]);
    }
  }

  // ------------------------------------------------------------------ iscomment

  /** The source's iscomment: character 0 is the comment character. No space is skipped. */
  function IsComment(line: string, commentChar: char): bool
  {
    if |line| == 0 then false else line[0] == commentChar
  }

  /** A comment is recognised by a one-character prefix alone: the empty line is no
      comment, what follows character 0 does not matter, and a leading space hides
      the comment character unless the comment character is the space itself. */
  lemma IsCommentPrefix(line: string, rest: string, commentChar: char)
    ensures !IsComment([], commentChar)
    ensures IsComment(line, commentChar) <==> [commentChar] <= line
    ensures line != [] ==> IsComment(line + rest, commentChar) == IsComment(line, commentChar)
    ensures IsComment([Space] + line, commentChar) <==> commentChar == Space
  {
  }

  // -------------------------------------------------------------------- isempty

  /** The source's isempty: nothing is left once the spaces are deleted. */
  function IsEmpty(line: string): bool
  {
    RemoveSpace(line) == []
  }

  /** A line is empty exactly when every character is a space (the empty line
      included); a tab or any other character makes it non-empty. */
  lemma {:induction false} IsEmptyIffAllSpaces(line: string)
    ensures IsEmpty(line) <==> AllSpaces(line)
  {
    if line != [] {
      IsEmptyIffAllSpaces(line[1..]);
      assert AllSpaces(line) <==> line[0] == Space && AllSpaces(line[1..]) by {
        if line[0] == Space && AllSpaces(line[1..]) {
          forall i | 0 <= i < |line| ensures line[i] == Space {
            if i > 0 { assert line[i] == line[1..][i - 1]; }
          }
        }
        if AllSpaces(line) {
          forall i | 0 <= i < |line| - 1 ensures line[1..][i] == Space {
            assert line[1..][i] == line[i + 1];
          }
        }
      }
    }
  }

  // ------------------------------------------------------------- iskeyvaluepair

  /** sub sits in line at position i. */
  predicate OccursAt(line: string, sub: string, i: nat)
  {
    i + |sub| <= |line| && line[i..i + |sub|] == sub
  }

  /** The source's iskeyvaluepair: the separator is a substring of the line
      (Python's `in` on strings, so the empty separator occurs in every line). */
  predicate IsKeyValuePair(line: string, keyValueSep: string)
  {
    exists i :: 0 <= i <= |line| && OccursAt(line, keyValueSep, i)
  }

  /** The empty separator makes every line a key/value pair, the empty line
      included; a separator longer than the line never occurs in it. */
  lemma IsKeyValuePairBounds(line: string, keyValueSep: string)
    ensures IsKeyValuePair(line, [])
    ensures |keyValueSep| > |line| ==> !IsKeyValuePair(line, keyValueSep)
  {
    assert line[0..0] == [];
    assert OccursAt(line, [], 0);
  }

  /** With a one-character separator (the default "="), a line is a key/value
      pair exactly when it contains that character. */
  lemma IsKeyValuePairSingleChar(line: string, sep: char)
    ensures IsKeyValuePair(line, [sep]) <==> sep in line
  {
    if sep in line {
      var i :| 0 <= i < |line| && line[i] == sep;
      assert line[i..i + 1] == [sep];
      assert OccursAt(line, [sep], i);
    }
    if IsKeyValuePair(line, [sep]) {
      var i :| 0 <= i <= |line| && OccursAt(line, [sep], i);
      assert line[i] == line[i..i + 1][0];
    }
  }

  // ------------------------------------------------------------------ issection

  /** The source's issection: the first character is the opening marker and the
      last character is the closing marker. */
  function IsSection(line: string, marker: SectionMarker): bool
  {
    if |line| == 0 then false
    else line[0] == marker.open && line[|line| - 1] == marker.close
  }

  /** Only the two ends of a line decide whether it is a section head: whatever
      stands between the markers (markers included) is irrelevant, and a
      one-character line is a head only when both markers are that character. */
  lemma IsSectionEnds(open: char, middle: string, close: char, c: char, marker: SectionMarker)
    ensures IsSection([open] + middle + [close], marker) <==> open == marker.open && close == marker.close
    ensures IsSection([c], marker) <==> c == marker.open && c == marker.close
    ensures !IsSection([], marker)
  {
    var line := [open] + middle + [close];
    assert line[0] == open && line[|line| - 1] == close;
  }

  // ------------------------------------------------------------- classification

  /** The if/elif chain of get_types for one line: comment, then empty, then
      key/value pair, then section head, else unknown. */
  function Classify(line: string, s: Settings): LineType
  {
    if IsComment(line, s.commentChar) then Comment
    else if IsEmpty(line) then Empty
    else if IsKeyValuePair(line, s.keyValueSep) then KeyValuePair
    else if IsSection(line, s.sectionMarker) then SectionHead
    else Unknown
  }

  /** The label of one raw line; with ignoreSpace the spaces are deleted first. */
  function ClassifyLine(line: string, s: Settings, ignoreSpace: bool): LineType
  {
    Classify(if ignoreSpace then RemoveSpace(line) else line, s)
  }

  /** The first test that matches wins, stated with the characterisations of the
      predicates: a label is given exactly when its own test holds and no earlier
      test does. */
  lemma ClassifyPrecedence(line: string, s: Settings)
    ensures Classify(line, s) == Comment <==> IsComment(line, s.commentChar)
    ensures Classify(line, s) == Empty <==>
      !IsComment(line, s.commentChar) && AllSpaces(line)
    ensures Classify(line, s) == KeyValuePair <==>
      !IsComment(line, s.commentChar) && !AllSpaces(line) &&
      IsKeyValuePair(line, s.keyValueSep)
    ensures Classify(line, s) == SectionHead <==>
      !IsComment(line, s.commentChar) && !AllSpaces(line) &&
      !IsKeyValuePair(line, s.keyValueSep) &&
      IsSection(line, s.sectionMarker)
    ensures Classify(line, s) == Unknown <==>
      !IsComment(line, s.commentChar) && !AllSpaces(line) &&
      !IsKeyValuePair(line, s.keyValueSep) &&
      !IsSection(line, s.sectionMarker)
  {
    IsEmptyIffAllSpaces(line);
  }

  /** With ignoreSpace the label of a line is Empty exactly when the line consists
      of spaces only. */
  lemma IgnoreSpaceEmptyIffBlank(line: string, s: Settings)
    ensures ClassifyLine(line, s, true) == Empty <==> AllSpaces(line)
  {
    var r := RemoveSpace(line);
    IsEmptyIffAllSpaces(line);
    RemoveSpaceNoSpace(line);
    RemoveSpaceFixpoint(r);
  }

  /** With ignoreSpace, inserting a space anywhere in a line does not change its label. */
  lemma IgnoreSpaceInsertSpace(a: string, b: string, s: Settings)
    ensures ClassifyLine(a + [Space] + b, s, true) == ClassifyLine(a + b, s, true)
  {
    RemoveSpaceConcat(a + [Space], b);
    RemoveSpaceAppendChar(a, Space);
    assert RemoveSpace(a + [Space]) == RemoveSpace(a) + [];
    RemoveSpaceConcat(a, b);
    assert RemoveSpace(a + [Space] + b) == RemoveSpace(a + b);
  }

  /** The two ends of a line survive the deletion of spaces when they are not spaces,
      and so does every character other than the space. */
  lemma RemoveSpaceKeepsEnds(line: string, c: char)
    requires line != [] && line[0] != Space && line[|line| - 1] != Space
    ensures RemoveSpace(line) != []
    ensures RemoveSpace(line)[0] == line[0]
    ensures RemoveSpace(line)[|RemoveSpace(line)| - 1] == line[|line| - 1]
    ensures c != Space ==> (c in RemoveSpace(line) <==> c in line)
  {
    var init := line[..|line| - 1];
    assert line == init + [line[|line| - 1]];
    RemoveSpaceAppendChar(init, line[|line| - 1]);
    RemoveSpaceMultiset(line);
    assert c in RemoveSpace(line) <==> c in multiset(RemoveSpace(line));
    assert c in line <==> c in multiset(line);
  }

  /** Deleting spaces changes no label of a line that neither starts nor ends with
      a space, as long as the separator is one non-space character: ignoreSpace
      matters only through the ends of a line and through separators with spaces
      or of several characters. */
  lemma IgnoreSpaceKeepsTrimmedLabel(line: string, s: Settings)
    requires line != [] && line[0] != Space && line[|line| - 1] != Space
    requires |s.keyValueSep| == 1 && s.keyValueSep[0] != Space
    ensures ClassifyLine(line, s, true) == ClassifyLine(line, s, false)
  {
    var r := RemoveSpace(line);
    var sep := s.keyValueSep[0];
    assert s.keyValueSep == [sep];
    RemoveSpaceKeepsEnds(line, sep);
    RemoveSpaceNoSpace(line);
    IsKeyValuePairSingleChar(line, sep);
    IsKeyValuePairSingleChar(r, sep);
    IsEmptyIffAllSpaces(line);
    IsEmptyIffAllSpaces(r);
    assert !AllSpaces(r) by { assert r[0] != Space; }
    assert !AllSpaces(line) by { assert line[0] != Space; }
  }

  /** With ignoreSpace, spaces around a line do not change its label. */
  lemma IgnoreSpaceSurrounded(before: string, line: string, after: string, s: Settings)
    requires AllSpaces(before) && AllSpaces(after)
    ensures ClassifyLine(before + line + after, s, true) == ClassifyLine(line, s, true)
  {
    IsEmptyIffAllSpaces(before);
    IsEmptyIffAllSpaces(after);
    RemoveSpaceConcat(before + line, after);
    RemoveSpaceConcat(before, line);
    assert RemoveSpace(before + line + after) == RemoveSpace(line);
  }

  /** With ignoreSpace, deleting the spaces beforehand does not change the label. */
  lemma IgnoreSpaceIdempotent(line: string, s: Settings)
    ensures ClassifyLine(RemoveSpace(line), s, true) == ClassifyLine(line, s, true)
  {
    RemoveSpaceIdempotent(line);
  }
}
