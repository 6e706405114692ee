/**
 * The error taxonomy: seventeen entries, each with a five-digit code and a title,
 * and the resolution of a validation constraint's name to an entry.
 */
module UniqueErrors {
  import opened Wrappers
  import opened Text
  import opened ConstraintViolations

  datatype UniqueError =
    | PARAMETER_MISSING_VALUE
    | PARAMETER_INVALID_LENGTH
    | PARAMETER_INCORRECT_FORMAT
    | PARAMETER_VALUE_NOT_IN_LIST
    | PARAMETER_OUT_OF_RANGE
    | CONDITIONAL_VALUES_INCORRECT
    | PARAMETER_UNSPECIFIED_PROBLEM
    | UNAUTHORIZED
    | FORBIDDEN
    | DATA_NOT_FOUND
    | METHOD_NOT_ALLOWED
    | CONFLICT
    | NOT_ACCEPTABLE
    | UNSUPPORTED_MEDIA_TYPE
    | INTERNAL_ERROR
    | UNDEFINED_INTERNAL_ERROR
    | NOT_IMPLEMENTED
  {
    function Code(): string {
      match this
      case PARAMETER_MISSING_VALUE => "40001"
      case PARAMETER_INVALID_LENGTH => "40002"
      case PARAMETER_INCORRECT_FORMAT => "40003"
      case PARAMETER_VALUE_NOT_IN_LIST => "40004"
      case PARAMETER_OUT_OF_RANGE => "40005"
      case CONDITIONAL_VALUES_INCORRECT => "40010"
      case PARAMETER_UNSPECIFIED_PROBLEM => "40099"
      case UNAUTHORIZED => "40100"
      case FORBIDDEN => "40300"
      case DATA_NOT_FOUND => "40400"
      case METHOD_NOT_ALLOWED => "40500"
      case CONFLICT => "40900"
      case NOT_ACCEPTABLE => "40600"
      case UNSUPPORTED_MEDIA_TYPE => "41500"
      case INTERNAL_ERROR => "50000"
      case UNDEFINED_INTERNAL_ERROR => "50099"
      case NOT_IMPLEMENTED => "50100"
    }

    /** The entry's title (the Java getter is `getDescription`). */
    function Title(): string {
      match this
      case PARAMETER_MISSING_VALUE => "Value missing in field"
      case PARAMETER_INVALID_LENGTH => "Invalid value length in field"
      case PARAMETER_INCORRECT_FORMAT => "Incorrect format in field"
      case PARAMETER_VALUE_NOT_IN_LIST => "Value of field not in list"
      case PARAMETER_OUT_OF_RANGE => "Value of field is out of range"
      case CONDITIONAL_VALUES_INCORRECT => "Conditional values not provided as expected"
      case PARAMETER_UNSPECIFIED_PROBLEM => "Invalid input value"
      case UNAUTHORIZED => "Authorization has been refused"
      case FORBIDDEN => "Insufficient authentication credentials to grant access"
      case DATA_NOT_FOUND => "Requested data could not be found"
      case METHOD_NOT_ALLOWED => "Method Not Allowed"
      case CONFLICT => "Conflict with the current state of the target resource"
      case NOT_ACCEPTABLE =>
        "Not Acceptable - resource does not have a current representation "
        + "that would be acceptable to the user agent"
      case UNSUPPORTED_MEDIA_TYPE => "Content type not supported"
      case INTERNAL_ERROR => "An unexpected error occurred"
      case UNDEFINED_INTERNAL_ERROR => "Undefined error"
      case NOT_IMPLEMENTED => "Operation for this request has not been implemented yet"
    }
  }

  /** Reads a code back to its taxonomy entry. */
  function FromCode(code: string): (r: Option<UniqueError>)
    ensures r.Some? ==> r.value.Code() == code
  {
    match code
    case "40001" => Some(PARAMETER_MISSING_VALUE)
    case "40002" => Some(PARAMETER_INVALID_LENGTH)
    case "40003" => Some(PARAMETER_INCORRECT_FORMAT)
    case "40004" => Some(PARAMETER_VALUE_NOT_IN_LIST)
    case "40005" => Some(PARAMETER_OUT_OF_RANGE)
    case "40010" => Some(CONDITIONAL_VALUES_INCORRECT)
    case "40099" => Some(PARAMETER_UNSPECIFIED_PROBLEM)
    case "40100" => Some(UNAUTHORIZED)
    case "40300" => Some(FORBIDDEN)
    case "40400" => Some(DATA_NOT_FOUND)
    case "40500" => Some(METHOD_NOT_ALLOWED)
    case "40900" => Some(CONFLICT)
    case "40600" => Some(NOT_ACCEPTABLE)
    case "41500" => Some(UNSUPPORTED_MEDIA_TYPE)
    case "50000" => Some(INTERNAL_ERROR)
    case "50099" => Some(UNDEFINED_INTERNAL_ERROR)
    case "50100" => Some(NOT_IMPLEMENTED)
    case _ => None
  }

  /** Every code reads back to the entry that carries it. */
  lemma FromCodeOfCode(e: UniqueError)
    ensures FromCode(e.Code()) == Some(e)
  {
  }

  /** The seventeen codes are pairwise distinct. */
  lemma CodesDistinct(e: UniqueError, f: UniqueError)
    ensures e.Code() == f.Code() ==> e == f
  {
    FromCodeOfCode(e);
    FromCodeOfCode(f);
  }

  /**
   * The switch from a recognised constraint kind to its taxonomy entry: always a validation
   * entry, never the unspecified problem.
   */
  function ForViolation(v: ConstraintViolation): (e: UniqueError)
    ensures e in {PARAMETER_MISSING_VALUE, PARAMETER_INVALID_LENGTH, PARAMETER_INCORRECT_FORMAT,
                  PARAMETER_OUT_OF_RANGE, CONDITIONAL_VALUES_INCORRECT}
    ensures e != PARAMETER_UNSPECIFIED_PROBLEM
  {
    match v
    case SIZE => PARAMETER_INVALID_LENGTH
    case NOT_BLANK | NOT_EMPTY | NOT_NULL => PARAMETER_MISSING_VALUE
    case PATTERN | DIGITS_ONLY => PARAMETER_INCORRECT_FORMAT
    case POSITIVE_OR_ZERO | POSITIVE | NEGATIVE_OR_ZERO | NEGATIVE | MIN | MAX => PARAMETER_OUT_OF_RANGE
    case CONDITIONAL_VALUES => CONDITIONAL_VALUES_INCORRECT
  }

  /** `getConstraintViolationIfMatched`: a null name matches nothing; otherwise the upper-cased name is looked up. */
  function ConstraintViolationIfMatched(constraintName: Option<string>): (r: Option<ConstraintViolation>)
    ensures constraintName.None? ==> r.None?
    ensures constraintName.Some? ==>
      forall v :: r == Some(v) <==> StoredName(v) == ToUpper(constraintName.value)
  {
    match constraintName
    case None => None
    case Some(name) => FindByNameSpec(ToUpper(name)); FindByName(ToUpper(name))
  }

  /**
   * `parseFromConstraintName`: total; the name is upper-cased (nothing else: no trimming,
   * no removal of underscores) and an unrecognised or null name gives the unspecified problem.
   */
  function ParseFromConstraintName(constraintName: Option<string>): (e: UniqueError)
    ensures e in {PARAMETER_MISSING_VALUE, PARAMETER_INVALID_LENGTH, PARAMETER_INCORRECT_FORMAT,
                  PARAMETER_OUT_OF_RANGE, CONDITIONAL_VALUES_INCORRECT, PARAMETER_UNSPECIFIED_PROBLEM}
  {
    match ConstraintViolationIfMatched(constraintName)
    case Some(v) => ForViolation(v)
    case None => PARAMETER_UNSPECIFIED_PROBLEM
  }

  /** A name resolves through constraint kind `v` exactly when it upper-cases to `v`'s stored name. */
  lemma ParseRecognised(name: string, v: ConstraintViolation)
    requires ToUpper(name) == StoredName(v)
    ensures ParseFromConstraintName(Some(name)) == ForViolation(v)
  {
    FindByStoredName(v);
  }

  /** A name that upper-cases to no stored name resolves to the unspecified problem, code 40099. */
  lemma ParseUnrecognised(name: string)
    requires forall v: ConstraintViolation :: ToUpper(name) != StoredName(v)
    ensures ParseFromConstraintName(Some(name)) == PARAMETER_UNSPECIFIED_PROBLEM
    ensures ParseFromConstraintName(Some(name)).Code() == "40099"
  {
    FindByNameMiss(ToUpper(name));
  }

  lemma ParseNull()
    ensures ParseFromConstraintName(None) == PARAMETER_UNSPECIFIED_PROBLEM
    ensures PARAMETER_UNSPECIFIED_PROBLEM.Code() == "40099"
  {
  }

  /** A constant's stored name, in any letter case the caller likes, resolves through that constant. */
  lemma ParseStoredName(v: ConstraintViolation)
    ensures ParseFromConstraintName(Some(StoredName(v))) == ForViolation(v)
  {
    UpperOfStoredName(v);
    ParseRecognised(StoredName(v), v);
  }

  /** Upper-casing changes nothing in a string without lower-case ASCII letters. */
  lemma ToUpperOfUpper(s: string)
    requires forall i :: 0 <= i < |s| ==> !('a' <= s[i] <= 'z')
    ensures ToUpper(s) == s
  {
  }

  /** Stored names are already upper case. */
  lemma UpperOfStoredName(v: ConstraintViolation)
    ensures ToUpper(StoredName(v)) == StoredName(v)
  {
    var n := StoredName(v);
    assert forall i :: 0 <= i < |n| ==> 'A' <= n[i] <= 'Z' by {
      match v
      case SIZE => case MIN => case MAX => case NOT_NULL => case NOT_EMPTY => case NOT_BLANK =>
      case DIGITS_ONLY => case POSITIVE_OR_ZERO => case POSITIVE => case NEGATIVE_OR_ZERO =>
      case NEGATIVE => case PATTERN => case CONDITIONAL_VALUES =>
    }
    ToUpperOfUpper(n);
  }
}

/**
 * The resolution table of `parseFromConstraintName`, name by name, and its edge cases.
 * The names are passed in as parameters bound by `requires`, which keeps the verifier
 * from unfolding the lookup over a literal.
 */
module ConstraintNameResolution {
  import opened Wrappers
  import opened Text
  import opened ConstraintViolations
  import opened UniqueErrors

  /** A name spelled exactly as a stored name resolves through that constraint kind. */
  lemma ParseExact(name: string, v: ConstraintViolation)
    requires name == StoredName(v)
    ensures ParseFromConstraintName(Some(name)) == ForViolation(v)
  {
    UpperOfStoredName(v);
    ParseRecognised(name, v);
  }

  /** SIZE resolves to the length entry, code 40002. */
  lemma ParseLength(name: string)
    requires name == "SIZE"
    ensures ParseFromConstraintName(Some(name)) == PARAMETER_INVALID_LENGTH
  {
    ParseExact(name, SIZE);
  }

  /** The three not-null-like constraints resolve to the missing-value entry, code 40001. */
  lemma ParseMissing(name: string)
    requires name == "NOTBLANK" || name == "NOTEMPTY" || name == "NOTNULL"
    ensures ParseFromConstraintName(Some(name)) == PARAMETER_MISSING_VALUE
  {
    if name == "NOTBLANK" {
      ParseExact(name, NOT_BLANK);
    } else if name == "NOTEMPTY" {
      ParseExact(name, NOT_EMPTY);
    } else {
      ParseExact(name, NOT_NULL);
    }
  }

  /** PATTERN and DIGITS resolve to the incorrect-format entry, code 40003. */
  lemma ParseFormat(name: string)
    requires name == "PATTERN" || name == "DIGITS"
    ensures ParseFromConstraintName(Some(name)) == PARAMETER_INCORRECT_FORMAT
  {
    if name == "PATTERN" {
      ParseExact(name, PATTERN);
    } else {
      ParseExact(name, DIGITS_ONLY);
    }
  }

  /** The sign and bound constraints resolve to the out-of-range entry, code 40005. */
  lemma ParseRange(name: string)
    requires name == "POSITIVEORZERO" || name == "POSITIVE" || name == "NEGATIVEORZERO"
          || name == "NEGATIVE" || name == "MIN" || name == "MAX"
    ensures ParseFromConstraintName(Some(name)) == PARAMETER_OUT_OF_RANGE
  {
    if name == "POSITIVEORZERO" {
      ParseExact(name, POSITIVE_OR_ZERO);
    } else if name == "POSITIVE" {
      ParseExact(name, POSITIVE);
    } else if name == "NEGATIVEORZERO" {
      ParseExact(name, NEGATIVE_OR_ZERO);
    } else if name == "NEGATIVE" {
      ParseExact(name, NEGATIVE);
    } else if name == "MIN" {
      ParseExact(name, MIN);
    } else {
      ParseExact(name, MAX);
    }
  }

  /** CONDITIONALVALUES resolves to the conditional-values entry. */
  lemma ParseConditional(name: string)
    requires name == "CONDITIONALVALUES"
    ensures ParseFromConstraintName(Some(name)) == CONDITIONAL_VALUES_INCORRECT
  {
    ParseExact(name, CONDITIONAL_VALUES);
  }

  /** Letter case does not matter: "size" and "sIzE" both resolve to 40002, "NotEmpty" to 40001. */
  lemma ParseIgnoresCase(lower: string, mixed: string, camel: string)
    requires lower == "size" && mixed == "sIzE" && camel == "NotEmpty"
    ensures ParseFromConstraintName(Some(lower)) == PARAMETER_INVALID_LENGTH
    ensures ParseFromConstraintName(Some(mixed)) == PARAMETER_INVALID_LENGTH
    ensures ParseFromConstraintName(Some(camel)) == PARAMETER_MISSING_VALUE
  {
    assert ToUpper(lower) == StoredName(SIZE);
    assert ToUpper(mixed) == StoredName(SIZE);
    assert ToUpper(camel) == StoredName(NOT_EMPTY);
    ParseRecognised(lower, SIZE);
    ParseRecognised(mixed, SIZE);
    ParseRecognised(camel, NOT_EMPTY);
  }

  /** A name whose length no stored name has cannot match, whatever its letters. */
  lemma UnmatchedByLength(name: string)
    requires forall v: ConstraintViolation :: |StoredName(v)| != |name|
    ensures ParseFromConstraintName(Some(name)) == PARAMETER_UNSPECIFIED_PROBLEM
  {
    assert |ToUpper(name)| == |name|;
    ParseUnrecognised(name);
  }

  /**
   * No trimming and no underscore removal: "SIZE " (trailing space), "not_blank",
   * "POSITIVE_OR_ZERO", "DURATIONMAX" and the empty name all resolve to 40099.
   */
  lemma ParseNearMisses(names: seq<string>)
    requires names == ["SIZE ", "not_blank", "POSITIVE_OR_ZERO", "DURATIONMAX", ""]
    ensures forall k :: 0 <= k < |names| ==> ParseFromConstraintName(Some(names[k])) == PARAMETER_UNSPECIFIED_PROBLEM
  {
    forall k | 0 <= k < |names|
      ensures ParseFromConstraintName(Some(names[k])) == PARAMETER_UNSPECIFIED_PROBLEM
    {
      assert |names[k]| in {5, 9, 16, 11, 0};
      UnmatchedByLength(names[k]);
    }
  }
}
