# conpar line classifier in Dafny

conpar reads a configuration file as a list of raw lines. It labels every line
as a comment, an empty line, a key/value pair, a section head or an unknown
line. The syntax markers are set in `Config_settings`: the comment character
(default `#`), the key/value separator (default `=`) and the section markers
(default `[` and `]`).

This project models that core of `src/conpar/functions.py`:

- `line_classifier.dfy` (module `LineClassifier`) holds the pure parts:
  - the five line tests `removespace`, `iscomment`, `isempty`,
    `iskeyvaluepair` and `issection`;
  - the settings record `Config_settings`, as the datatype `Settings` whose
    constructor defaults are the source's defaults;
  - `Classify`, the precedence chain inside `get_types` for one line, and
    `ClassifyLine`, which first deletes spaces when `ignore_space` is set.
  - Each test comes with lemmas that characterise it independently of its
    definition (for example, "empty" means "all spaces", and a one-character
    separator occurs exactly when that character is in the line).
- `configuration.dfy` (module `ConfigurationModel`) holds the class
  `Configuration`:
  - its fields are the settings plus `rawlines`;
  - `GetTypes` is the source's loop, proved to return `ClassifyAll`, the
    label of each line in line order;
  - `ClassifyAllConcat` states that lines are labelled independently.
- `classifier_examples.dfy` (module `ClassifierExamples`) states the
  line lists of `test/test_functions.py`, labelled by the functions modelled
  here.
  This includes the full sample document of `test_get_types`, under both
  values of `ignoreSpace`.

Labels are a datatype `LineType`; `TagName` gives the string the source
appends (`"comment"`, `"empty"`, `"key_value_pair"`, `"section_head"`,
`"unknown"`).

`get_types` tries the tests in the order comment, empty, key/value pair,
section head, so `[a=b]` is a pair (`PrecedenceExamples`).

Where the documentation and the code differ, the model follows the code:

- No line is trimmed. Spaces are deleted only when `ignore_space` is set, and
  then all of them are deleted, inner ones included.
- `iscomment` looks at character 0 only, although its docstring says "except
  spaces": ` # Comment` is not a comment unless `ignore_space` is set
  (`SpacedCommentExamples`); without `ignore_space`, `get_types` labels it
  unknown. The tests in `test/test_functions.py` expect such a line to be a
  comment and not unknown. Those tests go through a `Line` class that is not
  part of this model. Every other line listed in `test_is_comment`,
  `test_is_empty`, `test_is_key_value_pair`, `test_is_section` and
  `test_is_unknown` gets the label those tests expect from the functions
  modelled here.

## Model

| member | source | states |
|---|---|---|
| LineClassifier.RemoveSpace | src/conpar/functions.py:8-10 | deleting spaces never lengthens a line |
| LineClassifier.RemoveSpaceNoSpace | src/conpar/functions.py:8-10 | no space is left after `removespace` |
| LineClassifier.RemoveSpaceMultiset | src/conpar/functions.py:8-10 | the result holds exactly the line's non-space characters, each as often as in the line |
| LineClassifier.RemoveSpaceConcat | src/conpar/functions.py:8-10 | deleting spaces distributes over concatenation |
| LineClassifier.RemoveSpaceAppendChar | src/conpar/functions.py:8-10 | appending a character appends it to the result unless it is a space |
| LineClassifier.RemoveSpaceFixpoint | src/conpar/functions.py:8-10 | a line without spaces is unchanged |
| LineClassifier.RemoveSpaceIdempotent | src/conpar/functions.py:8-10 | deleting spaces twice is the same as once |
| LineClassifier.RemoveSpaceKeepsEnds | src/conpar/functions.py:8-10 | non-space first and last characters survive, and so does membership of every non-space character |
| LineClassifier.IsComment | src/conpar/functions.py:13-20 | the definition: false on the empty line, otherwise whether character 0 is the comment character; its properties are stated by `IsCommentPrefix` |
| LineClassifier.IsCommentPrefix | src/conpar/functions.py:13-20 | the empty line is no comment; a line is a comment exactly when it starts with the comment character; only character 0 matters; a leading space hides the comment character |
| LineClassifier.IsEmpty | src/conpar/functions.py:23-28 | the definition: nothing is left once the spaces are deleted; its meaning is stated by `IsEmptyIffAllSpaces` |
| LineClassifier.IsEmptyIffAllSpaces | src/conpar/functions.py:23-28 | a line is empty exactly when every character is a space |
| LineClassifier.IsKeyValuePair | src/conpar/functions.py:31-36 | the definition: the separator occurs at some position of the line, as Python's substring `in`; its cases are stated by `IsKeyValuePairSingleChar` and `IsKeyValuePairBounds` |
| LineClassifier.IsKeyValuePairSingleChar | src/conpar/functions.py:31-36 | with a one-character separator, a line is a pair exactly when that character occurs in it |
| LineClassifier.IsKeyValuePairBounds | src/conpar/functions.py:31-36 | the empty separator occurs in every line; a separator longer than the line never occurs |
| LineClassifier.IsSection | src/conpar/functions.py:39-46 | the definition: false on the empty line, otherwise whether the first character is the opening marker and the last the closing marker; its properties are stated by `IsSectionEnds` |
| LineClassifier.IsSectionEnds | src/conpar/functions.py:39-46 | only the first and last characters are compared with the markers; a one-character line is a head only when both markers are that character; the empty line is no head |
| LineClassifier.Classify | src/conpar/functions.py:72-81 | the definition: the elif chain of `get_types` for one line; its meaning is stated by `ClassifyPrecedence` |
| LineClassifier.ClassifyLine | src/conpar/functions.py:69-71 | the definition: `Classify` applied to the line, after deleting its spaces when `ignore_space` is set; its properties are stated by the `IgnoreSpace` lemmas |
| LineClassifier.ClassifyPrecedence | src/conpar/functions.py:72-81 | each label is given exactly when its own test holds and no earlier test in the order comment, empty, pair, section does |
| LineClassifier.TagName | src/conpar/functions.py:73-81 | the definition: the string `get_types` appends for each label; its injectivity is stated by `TagNameInjective` |
| LineClassifier.TagNameInjective | src/conpar/functions.py:72-81 | the five label strings are distinct |
| LineClassifier.IgnoreSpaceEmptyIffBlank | src/conpar/functions.py:69-75 | with `ignore_space` a line is labelled empty exactly when it consists of spaces only |
| LineClassifier.IgnoreSpaceInsertSpace | src/conpar/functions.py:69-71 | with `ignore_space`, inserting a space anywhere leaves the label unchanged |
| LineClassifier.IgnoreSpaceSurrounded | src/conpar/functions.py:69-71 | with `ignore_space`, spaces around a line leave the label unchanged |
| LineClassifier.IgnoreSpaceIdempotent | src/conpar/functions.py:69-71 | with `ignore_space`, deleting spaces beforehand leaves the label unchanged |
| LineClassifier.IgnoreSpaceKeepsTrimmedLabel | src/conpar/functions.py:69-81 | for a line that neither starts nor ends with a space, and a one-character non-space separator, `ignore_space` does not change the label |
| ConfigurationModel.ClassifyAll | src/conpar/functions.py:66-82 | one label per raw line; entry i is the label of line i |
| ConfigurationModel.RemoveSpaces | src/conpar/functions.py:69-71 | one entry per raw line; entry i is line i with its spaces deleted |
| ConfigurationModel.ClassifyAllIgnoreSpace | src/conpar/functions.py:69-82 | with `ignore_space` a document is labelled as its space-free lines are labelled without it |
| ConfigurationModel.ClassifyAllConcat | src/conpar/functions.py:68-82 | the labels of two documents in sequence are the labels of their concatenation |
| ConfigurationModel.Configuration.constructor | src/conpar/functions.py:62-64 | the configuration holds the given settings and raw lines |
| ConfigurationModel.Configuration.GetTypes | src/conpar/functions.py:66-82 | the loop returns exactly `ClassifyAll` of the raw lines under the configuration's settings; with `ignore_space` that is the labels of the space-free lines without it; no field changes |
| ClassifierExamples.DefaultLabel | src/conpar/functions.py:49-56 | under the default settings, a line not starting with a space is labelled by its first character, by whether it holds `=`, and by its ends |
| ClassifierExamples.CommentExamples | test/test_functions.py:9-12 | the listed lines are comments |
| ClassifierExamples.SpacedCommentExamples | test/test_functions.py:13-14 | lines with a leading space are no comments; `get_types` labels them comments with `ignore_space` and unknown without it |
| ClassifierExamples.NotCommentExamples | test/test_functions.py:16-24 | the listed lines are no comments |
| ClassifierExamples.EmptyExamples | test/test_functions.py:36-39 | the empty line and a line of spaces are empty |
| ClassifierExamples.NotEmptyExamples | test/test_functions.py:40-47 | the listed lines are not empty, and neither is the added case of a tab |
| ClassifierExamples.KeyValuePairExamples | test/test_functions.py:59-64 | the listed lines are key/value pairs |
| ClassifierExamples.NotKeyValuePairExamples | test/test_functions.py:65-70 | the listed lines are no key/value pairs |
| ClassifierExamples.SectionExamples | test/test_functions.py:82-86 | the listed lines are section heads |
| ClassifierExamples.NotSectionExamples | test/test_functions.py:87-95 | the listed lines are no section heads |
| ClassifierExamples.UnknownExamples | test/test_functions.py:107-112 | the listed lines are labelled unknown |
| ClassifierExamples.NotUnknownExamples | test/test_functions.py:114-127 | the twelve listed lines that start without a space are not labelled unknown |
| ClassifierExamples.PrecedenceExamples | src/conpar/functions.py:72-79 | a comment wins over a pair, and a pair wins over a section head |
| ClassifierExamples.IgnoreSpaceExample | test/test_functions.py:62 | with `ignore_space`, `  key = value  ` is labelled as `key=value` is labelled, namely as a pair |
| ClassifierExamples.SampleDocumentTypes | test/test_functions.py:209-252 | the sample document receives the expected seventeen labels, with or without `ignore_space` |

## Left out

- `filetolist` and `listtofile`: file reading and writing (I/O).
- `check_config_dir`: filesystem access and interactive input.
- `src/conpar/conpar.py`: the command-line front end.
- `src/conpar/defaults.py`: terminal colour constants.
- `setup.py`: packaging.
- The `Line` class, `get_content` and `formatted`, which the tests exercise: they are not part of this model, because `functions.py` does not define them.
- LineClassifier.IsComment: `comment_char` is a single character. In the source an empty or longer string never equals `line[0]`, so such a setting labels no line a comment. That setting is not modelled.
- LineClassifier.IsSection: each marker is a single character. In the source a marker element that is an empty or longer string (`''`, `'[['`) never equals a character of the line, so `issection` is always false. That setting is not modelled.
- LineClassifier.IsSection: the section marker is a pair; elements after the second are ignored, as in the source. A marker list shorter than two is not modelled. An empty list raises IndexError on every non-empty line. A one-element list returns false without error for a line not starting with the opening marker. It raises IndexError for a non-empty line that does start with it; through `get_types` that happens only when such a line is not a comment, not empty and holds no separator.
- LineClassifier.IsKeyValuePair: Python's substring test `in` is modelled as "the separator occurs at some position". The separator may be any string, including the empty one.
- ConfigurationModel.Configuration.GetTypes: `ignore_space is True` is modelled as a boolean. A truthy non-bool value, which the source treats as false, is not modelled.
- Python's dynamic typing (lines that are not strings, settings of other types) is not modelled.
