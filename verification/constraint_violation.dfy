/**
 * The bean-validation constraint kinds the taxonomy recognises, each with the name
 * under which it is stored (upper case, without the underscores of the constant).
 */
module ConstraintViolations {
  import opened Wrappers

  datatype ConstraintViolation =
    | SIZE | MIN | MAX | NOT_NULL | NOT_EMPTY | NOT_BLANK | DIGITS_ONLY
    | POSITIVE_OR_ZERO | POSITIVE | NEGATIVE_OR_ZERO | NEGATIVE | PATTERN
    | CONDITIONAL_VALUES

  /** The constants in declaration order, as `values()` lists them. */
  const Values: seq<ConstraintViolation> := [
    SIZE, MIN, MAX, NOT_NULL, NOT_EMPTY, NOT_BLANK, DIGITS_ONLY,
    POSITIVE_OR_ZERO, POSITIVE, NEGATIVE_OR_ZERO, NEGATIVE, PATTERN,
    CONDITIONAL_VALUES
  ]

  function StoredName(v: ConstraintViolation): string {
    match v
    case SIZE => "SIZE"
    case MIN => "MIN"
    case MAX => "MAX"
    case NOT_NULL => "NOTNULL"
    case NOT_EMPTY => "NOTEMPTY"
    case NOT_BLANK => "NOTBLANK"
    case DIGITS_ONLY => "DIGITS"
    case POSITIVE_OR_ZERO => "POSITIVEORZERO"
    case POSITIVE => "POSITIVE"
    case NEGATIVE_OR_ZERO => "NEGATIVEORZERO"
    case NEGATIVE => "NEGATIVE"
    case PATTERN => "PATTERN"
    case CONDITIONAL_VALUES => "CONDITIONALVALUES"
  }

  lemma ValuesListsEveryConstant(v: ConstraintViolation)
    ensures v in Values
  {
  }

  /** The stored names are pairwise distinct, so at most one constant carries any name. */
  lemma StoredNamesDistinct(v: ConstraintViolation, w: ConstraintViolation)
    ensures StoredName(v) == StoredName(w) ==> v == w
  {
  }

  /** The stream `filter(...).findFirst()` over `vs`: the first constant whose stored name equals `name`. */
  function FindFirstNamed(vs: seq<ConstraintViolation>, name: string): (r: Option<ConstraintViolation>)
    ensures r.Some? ==> r.value in vs && StoredName(r.value) == name
    ensures r.None? ==> forall k :: 0 <= k < |vs| ==> StoredName(vs[k]) != name
  {
    if vs == [] then None
    else if StoredName(vs[0]) == name then Some(vs[0])
    else FindFirstNamed(vs[1..], name)
  }

  /** `findByName`: exact, case-sensitive match on the stored name; no match is `None`, never an error. */
  function FindByName(name: string): (r: Option<ConstraintViolation>)
    ensures r.Some? ==> StoredName(r.value) == name
    ensures r.None? ==> forall k :: 0 <= k < |Values| ==> StoredName(Values[k]) != name
  {
    FindFirstNamed(Values, name)
  }

  /** A constant is found exactly when the input equals its stored name. */
  lemma FindByNameIff(name: string, v: ConstraintViolation)
    ensures FindByName(name) == Some(v) <==> StoredName(v) == name
  {
    ValuesListsEveryConstant(v);
    var k :| 0 <= k < |Values| && Values[k] == v;
    if StoredName(v) == name {
      assert StoredName(Values[k]) == name;
      var r := FindByName(name);
      assert r.Some?;
      StoredNamesDistinct(v, r.value);
    }
  }

  lemma FindByNameSpec(name: string)
    ensures forall v :: FindByName(name) == Some(v) <==> StoredName(v) == name
  {
    forall v ensures FindByName(name) == Some(v) <==> StoredName(v) == name {
      FindByNameIff(name, v);
    }
  }

  /** Round trip: looking up a constant's stored name gives back that constant. */
  lemma FindByStoredName(v: ConstraintViolation)
    ensures FindByName(StoredName(v)) == Some(v)
  {
    FindByNameIff(StoredName(v), v);
  }

  /** An input equal to no stored name finds nothing. */
  lemma FindByNameMiss(name: string)
    requires forall v: ConstraintViolation :: StoredName(v) != name
    ensures FindByName(name) == None
  {
  }

  /** The Java constant names with underscores are not stored names; the stored ones are. */
  lemma ConstantNamesAreNotStoredNames()
    ensures FindByName("NOT_NULL") == None && FindByName("DIGITS_ONLY") == None
    ensures FindByName("NOTNULL") == Some(NOT_NULL) && FindByName("DIGITS") == Some(DIGITS_ONLY)
  {
    forall v: ConstraintViolation ensures StoredName(v) != "NOT_NULL" && StoredName(v) != "DIGITS_ONLY" {
      assert |StoredName(v)| != 8 || StoredName(v)[3] != '_';
    }
    FindByNameMiss("NOT_NULL");
    FindByNameMiss("DIGITS_ONLY");
    FindByStoredName(NOT_NULL);
    FindByStoredName(DIGITS_ONLY);
  }
}
