/**
 * Classification of a request body that could not be read: a low-level JSON parse error names
 * the field the parser was on, a JSON mapping error names the path of fields it failed at, and
 * anything else is an unspecified problem.
 */
module HttpMessageNotReadableHandling {
  import opened Wrappers
  import opened Text
  import opened UniqueErrors
  import opened ProcessingErrors

  /** What asking the JSON parser for its current field name gives: a name (possibly null) or an I/O failure. */
  datatype CurrentName = NameRead(name: Option<string>) | NameReadFailed

  /** The cause behind an unreadable message, as far as the classifier distinguishes it. */
  datatype Cause =
    | JsonParse(currentName: CurrentName)
    /** Each path reference's field name, outermost first; array indices have none. */
    | JsonMapping(path: seq<Option<string>>)
    | OtherCause

  /** `nullifyWhenBlank`: a name or path with no non-whitespace character is dropped. */
  function NullifyWhenBlank(input: Option<string>): (r: Option<string>)
    ensures r.Some? <==> input.Some? && HasText(input.value)
    ensures r.Some? ==> r == input
  {
    if input.Some? && HasText(input.value) then input else None
  }

  /** The non-null field names of a path, in path order. */
  function FieldNames(path: seq<Option<string>>): (names: seq<string>)
    ensures |names| <= |path|
    ensures forall k :: 0 <= k < |names| ==> Some(names[k]) in path
    ensures (forall k :: 0 <= k < |path| ==> path[k].None?) ==> names == []
  {
    if path == [] then []
    else
      var rest := FieldNames(path[1..]);
      assert forall k :: 0 <= k < |rest| ==> Some(rest[k]) in path;
      if path[0].Some? then [path[0].value] + rest else rest
  }

  /** `FieldNames` keeps exactly the named references, one for one and in order. */
  lemma {:induction false} FieldNamesOfAppend(a: seq<Option<string>>, b: seq<Option<string>>)
    ensures FieldNames(a + b) == FieldNames(a) + FieldNames(b)
  {
    if a == [] {
      assert a + b == b;
    } else {
      assert (a + b)[1..] == a[1..] + b;
      FieldNamesOfAppend(a[1..], b);
      if a[0].Some? {
        assert FieldNames(a + b) == [a[0].value] + (FieldNames(a[1..]) + FieldNames(b));
      }
    }
  }

  /** A path of named references only keeps all of its names. */
  lemma {:induction false} FieldNamesAllNamed(names: seq<string>)
    ensures FieldNames(seq(|names|, k requires 0 <= k < |names| => Some(names[k]))) == names
  {
    if names != [] {
      var path := seq(|names|, k requires 0 <= k < |names| => Some(names[k]));
      assert path[1..] == seq(|names[1..]|, k requires 0 <= k < |names[1..]| => Some(names[1..][k]));
      FieldNamesAllNamed(names[1..]);
    }
  }

  /** `handleJsonParseException`: 40003 described by the parser's current field name. */
  function HandleJsonParse(name: Option<string>): (p: ProcessingError)
    ensures FromCode(p.code) == Some(PARAMETER_INCORRECT_FORMAT) && p.title == PARAMETER_INCORRECT_FORMAT.Title()
    ensures p.description.Some? <==> name.Some? && HasText(name.value)
    ensures p.description.Some? ==> p.description == name
  {
    Build(PARAMETER_INCORRECT_FORMAT, NullifyWhenBlank(name))
  }

  /** The description a mapping error's path gives: its field names joined with ".". */
  function JoinedPath(path: seq<Option<string>>): string {
    Join(".", FieldNames(path))
  }

  /** `handleJsonMappingException`: 40003 described by the dotted path of field names. */
  function HandleJsonMapping(path: seq<Option<string>>): (p: ProcessingError)
    ensures FromCode(p.code) == Some(PARAMETER_INCORRECT_FORMAT) && p.title == PARAMETER_INCORRECT_FORMAT.Title()
    ensures p.description.Some? <==> HasText(JoinedPath(path))
    ensures p.description.Some? ==> p.description.value == JoinedPath(path)
  {
    Build(PARAMETER_INCORRECT_FORMAT, NullifyWhenBlank(Some(JoinedPath(path))))
  }

  /**
   * `transformExceptionToProcessingError`. `cause` is the exception's nested cause; without one
   * the exception itself, which is neither Jackson type, is classified.
   */
  function TransformExceptionToProcessingError(cause: Option<Cause>): (p: ProcessingError)
    ensures FromCode(p.code) in {Some(PARAMETER_INCORRECT_FORMAT), Some(PARAMETER_UNSPECIFIED_PROBLEM)}
    ensures p.description.Some? ==> HasText(p.description.value)
  {
    var c := if cause.None? then OtherCause else cause.value;
    match c
    case JsonParse(NameRead(name)) => HandleJsonParse(name)
    case JsonParse(NameReadFailed) => Build(PARAMETER_UNSPECIFIED_PROBLEM, None)
    case JsonMapping(path) => HandleJsonMapping(path)
    case OtherCause => Build(PARAMETER_UNSPECIFIED_PROBLEM, None)
  }

  /** A parse error whose field name has text is described by exactly that name. */
  lemma ParseErrorNamesField(name: string)
    requires HasText(name)
    ensures TransformExceptionToProcessingError(Some(JsonParse(NameRead(Some(name)))))
         == Build(PARAMETER_INCORRECT_FORMAT, Some(name))
  {
  }

  /** A parse error with no usable field name (null or blank) gives 40003 with no description. */
  lemma ParseErrorWithoutName(name: Option<string>)
    requires name.None? || !HasText(name.value)
    ensures TransformExceptionToProcessingError(Some(JsonParse(NameRead(name))))
         == Build(PARAMETER_INCORRECT_FORMAT, None)
  {
  }

  /** When the parser cannot report its field name, the result stays 40099 with no description. */
  lemma ParseErrorNameUnreadable()
    ensures TransformExceptionToProcessingError(Some(JsonParse(NameReadFailed)))
         == Build(PARAMETER_UNSPECIFIED_PROBLEM, None)
  {
  }

  /** Any other cause, and a missing cause, give 40099 with no description. */
  lemma OtherCausesUnspecified(cause: Option<Cause>)
    requires cause.None? || cause.value.OtherCause?
    ensures TransformExceptionToProcessingError(cause) == Build(PARAMETER_UNSPECIFIED_PROBLEM, None)
  {
  }

  /**
   * A mapping error's description splits at "." back into the path's field names, in path
   * order, provided no name itself contains "." and the joined path has text.
   */
  lemma MappingDescriptionSplitsIntoPath(path: seq<Option<string>>)
    requires forall k :: 0 <= k < |path| && path[k].Some? ==> '.' !in path[k].value
    requires HasText(JoinedPath(path))
    ensures var d := TransformExceptionToProcessingError(Some(JsonMapping(path))).description;
      d.Some? && Split(d.value, '.') == FieldNames(path)
  {
    var names := FieldNames(path);
    assert JoinedPath(path) != "";
    assert names != [];
    forall k | 0 <= k < |names| ensures '.' !in names[k] {
      var j :| 0 <= j < |path| && path[j] == Some(names[k]);
    }
    SplitJoin(names, '.');
  }

  /** A mapping error with an empty path, or with no named reference, gives no description. */
  lemma MappingWithoutNames(path: seq<Option<string>>)
    requires forall k :: 0 <= k < |path| ==> path[k].None?
    ensures TransformExceptionToProcessingError(Some(JsonMapping(path)))
         == Build(PARAMETER_INCORRECT_FORMAT, None)
  {
  }

  /** The path C, B, A gives "C.B.A"; the path B, (unnamed), A gives "B.A". */
  lemma MappingPathExamples(c: string, b: string, a: string)
    requires c == "C" && b == "B" && a == "A"
    ensures TransformExceptionToProcessingError(Some(JsonMapping([Some(c), Some(b), Some(a)])))
         == Build(PARAMETER_INCORRECT_FORMAT, Some(c + "." + b + "." + a))
    ensures TransformExceptionToProcessingError(Some(JsonMapping([Some(b), None, Some(a)])))
         == Build(PARAMETER_INCORRECT_FORMAT, Some(b + "." + a))
  {
    var p1 := [Some(c), Some(b), Some(a)];
    assert p1[1..] == [Some(b), Some(a)];
    assert p1[1..][1..] == [Some(a)];
    assert FieldNames([Some(a)]) == [a];
    assert FieldNames([Some(b), Some(a)]) == [b] + [a];
    assert FieldNames(p1) == [c, b, a];
    assert [c, b, a][1..] == [b, a];
    assert [b, a][1..] == [a];
    assert Join(".", [b, a]) == b + "." + a;
    assert JoinedPath(p1) == c + "." + b + "." + a;
    assert HasText(c + "." + b + "." + a) by { assert !IsWhitespace((c + "." + b + "." + a)[0]); }
    var p2 := [Some(b), None, Some(a)];
    assert p2[1..] == [None, Some(a)];
    assert [None, Some(a)][1..] == [Some(a)];
    assert FieldNames([None, Some(a)]) == [a];
    assert FieldNames(p2) == [b, a];
    assert JoinedPath(p2) == b + "." + a;
    assert HasText(b + "." + a) by { assert !IsWhitespace((b + "." + a)[0]); }
  }
}
