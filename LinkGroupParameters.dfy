/** The parameter object the host fills from the macro call before executing the link-group macro. */
module Parameters {
  import opened Wrappers
  import opened Rendering

  class LinkGroupParameters {
    /** The document to link to; None stands for Java's null, the value before the host sets it. */
    var reference: Option<DocumentReference>

    constructor ()
      ensures reference == None
    {
      reference := None;
    }

    /** Reads the reference. Having no modifies clause, it changes nothing. */
    method GetReference() returns (r: Option<DocumentReference>)
      ensures r == reference
    {
      r := reference;
    }

    /** Replaces the reference; in the host it is a mandatory parameter. */
    method SetReference(r: Option<DocumentReference>)
      modifies this
      ensures reference == r
    {
      reference := r;
    }
  }

  /** Setting the reference twice keeps the second value, on any parameter object and for null values too. */
  method SetTwiceLastWins(parameters: LinkGroupParameters, a: Option<DocumentReference>, b: Option<DocumentReference>)
    returns (got: Option<DocumentReference>)
    modifies parameters
    ensures got == b && parameters.reference == b
  {
    parameters.SetReference(a);
    parameters.SetReference(b);
    got := parameters.GetReference();
  }

  /** After a set, a get returns the value set. */
  method SetThenGet(parameters: LinkGroupParameters, r: Option<DocumentReference>) returns (got: Option<DocumentReference>)
    modifies parameters
    ensures got == r && parameters.reference == r
  {
    parameters.SetReference(r);
    got := parameters.GetReference();
  }

  /** Reading the reference twice gives the same value both times, and it is the field's value. */
  method GetTwice(parameters: LinkGroupParameters) returns (first: Option<DocumentReference>, second: Option<DocumentReference>)
    ensures first == second
    ensures first == parameters.reference
  {
    first := parameters.GetReference();
    second := parameters.GetReference();
  }
}
