/**
 * One entry of an error envelope: a code, a title and an optional free-text description.
 * Equality is structural over the three fields, as Lombok's `@EqualsAndHashCode` makes it.
 */
module ProcessingErrors {
  import opened Wrappers
  import opened UniqueErrors

  datatype ProcessingError = ProcessingError(code: string, title: string, description: Option<string>)

  /**
   * `ProcessingError.builder(errorId)` followed by an optional `.description(…)` and `.build()`:
   * code and title come from the taxonomy entry, the description is whatever was supplied.
   */
  function Build(id: UniqueError, description: Option<string>): (p: ProcessingError)
    ensures FromCode(p.code) == Some(id)
    ensures p.title == id.Title()
    ensures p.description == description
  {
    FromCodeOfCode(id);
    ProcessingError(id.Code(), id.Title(), description)
  }

  /** A built entry determines both the taxonomy entry and the description it was built from. */
  lemma BuildInjective(a: UniqueError, d: Option<string>, b: UniqueError, e: Option<string>)
    ensures Build(a, d) == Build(b, e) <==> a == b && d == e
  {
    if Build(a, d) == Build(b, e) {
      CodesDistinct(a, b);
    }
  }

  /**
   * Two entries built from the same taxonomy entry and the same description are one element of
   * a set; entries that differ in either are two.
   */
  lemma BuiltEntriesCollapse(a: UniqueError, d: Option<string>, b: UniqueError, e: Option<string>)
    ensures |{Build(a, d), Build(b, e)}| == (if a == b && d == e then 1 else 2)
  {
    BuildInjective(a, d, b, e);
    if a == b && d == e {
      assert {Build(a, d), Build(b, e)} == {Build(a, d)};
    }
  }

  /** The Java bean with its three setters, for callers that change an entry in place. */
  class MutableProcessingError {
    var code: string
    var title: string
    var description: Option<string>

    function Value(): ProcessingError
      reads this
    {
      ProcessingError(code, title, description)
    }

    constructor (p: ProcessingError)
      ensures Value() == p
    {
      code := p.code;
      title := p.title;
      description := p.description;
    }

    method SetCode(c: string)
      modifies this
      ensures Value() == old(Value()).(code := c)
    {
      code := c;
    }

    method SetTitle(t: string)
      modifies this
      ensures Value() == old(Value()).(title := t)
    {
      title := t;
    }

    method SetDescription(d: Option<string>)
      modifies this
      ensures Value() == old(Value()).(description := d)
    {
      description := d;
    }
  }
}
