/** A configuration: the syntax settings together with the raw lines, and
    get_types, which labels every raw line. */
module ConfigurationModel {
  import opened LineClassifier

  /** The labels of a whole document: one label per raw line, in line order. */
  function ClassifyAll(lines: seq<string>, s: Settings, ignoreSpace: bool): (types: seq<LineType>)
    ensures |types| == |lines|
    ensures forall i :: 0 <= i < |lines| ==> types[i] == ClassifyLine(lines[i], s, ignoreSpace)
  {
    if lines == [] then []
    else [ClassifyLine(lines[0], s, ignoreSpace)] + ClassifyAll(lines[1..], s, ignoreSpace)
  }

  /** Every raw line with its spaces deleted, in line order. */
  function RemoveSpaces(lines: seq<string>): (r: seq<string>)
    ensures |r| == |lines|
    ensures forall i :: 0 <= i < |lines| ==> r[i] == RemoveSpace(lines[i])
  {
    if lines == [] then []
    else [RemoveSpace(lines[0])] + RemoveSpaces(lines[1..])
  }

  /** With ignoreSpace a document is labelled as its space-free lines are
      labelled without it: deleting the spaces is a step before the tests. */
  lemma ClassifyAllIgnoreSpace(lines: seq<string>, s: Settings)
    ensures ClassifyAll(lines, s, true) == ClassifyAll(RemoveSpaces(lines), s, false)
  {
    var l, r := ClassifyAll(lines, s, true), ClassifyAll(RemoveSpaces(lines), s, false);
    forall i | 0 <= i < |l| ensures l[i] == r[i] {
      assert RemoveSpaces(lines)[i] == RemoveSpace(lines[i]);
    }
  }

  /** Each line is labelled on its own: labelling two documents one after the
      other gives the labels of their concatenation. */
  lemma ClassifyAllConcat(a: seq<string>, b: seq<string>, s: Settings, ignoreSpace: bool)
    ensures ClassifyAll(a + b, s, ignoreSpace) == ClassifyAll(a, s, ignoreSpace) + ClassifyAll(b, s, ignoreSpace)
  {
    var l, r := ClassifyAll(a + b, s, ignoreSpace), ClassifyAll(a, s, ignoreSpace) + ClassifyAll(b, s, ignoreSpace);
    forall i | 0 <= i < |l| ensures l[i] == r[i] {
      if i < |a| {
        assert (a + b)[i] == a[i];
      } else {
        assert (a + b)[i] == b[i - |a|];
      }
    }
  }

  /** The source's Configuration: the fields of Config_settings plus the raw lines. */
  class Configuration {
    var commentChar: char
    var keyValueSep: string
    var sectionMarker: SectionMarker
    var rawlines: seq<string>

    constructor (commentChar: char, keyValueSep: string, sectionMarker: SectionMarker, rawlines: seq<string>)
      ensures this.commentChar == commentChar && this.keyValueSep == keyValueSep
      ensures this.sectionMarker == sectionMarker && this.rawlines == rawlines
    {
      this.commentChar := commentChar;
      this.keyValueSep := keyValueSep;
      this.sectionMarker := sectionMarker;
      this.rawlines := rawlines;
    }

    /** The Config_settings part of this configuration. */
    function ConfigSettings(): Settings
      reads this
    {
      Settings(commentChar, keyValueSep, sectionMarker)
    }

    /** get_types: one label per raw line, entry i being the label of line i;
        with ignoreSpace, the labels of the space-free lines.  It changes
        nothing: no field of the configuration is modified. */
    method GetTypes(ignoreSpace: bool) returns (types: seq<LineType>)
      ensures types == ClassifyAll(rawlines, ConfigSettings(), ignoreSpace)
      ensures ignoreSpace ==> types == ClassifyAll(RemoveSpaces(rawlines), ConfigSettings(), false)
    {
      types := [];
      for k := 0 to |rawlines|
        invariant |types| == k
        invariant forall j :: 0 <= j < k ==> types[j] == ClassifyLine(rawlines[j], ConfigSettings(), ignoreSpace)
      {
        var line := rawlines[k];
        if ignoreSpace {
          line := RemoveSpace(line);
        }
        if IsComment(line, commentChar) {
          types := types + [Comment];
        } else if IsEmpty(line) {
          types := types + [Empty];
        } else if IsKeyValuePair(line, keyValueSep) {
          types := types + [KeyValuePair];
        } else if IsSection(line, sectionMarker) {
          types := types + [SectionHead];
        } else {
          types := types + [Unknown];
        }
      }
      ClassifyAllIgnoreSpace(rawlines, ConfigSettings());
    }
  }
}
