/** TransactionErrorHandler: a first-error-wins accumulator for the steps of a
    database transaction. Its Go definition is in a file this model does not
    cover; it is reconstructed from its test (database_test.go) and from how handlers.go
    uses it: nil results are ignored, the first error is kept, wrapped as a
    DatabaseError, and every later error is dropped. */
module Transactions {
  import opened Wrappers
  import opened Errors

  /** The error held after one more step whose result was `err`. */
  function Absorb(held: Option<HTTPError>, err: Option<RawError>): (r: Option<HTTPError>)
    ensures err.None? ==> r == held
    ensures held.Some? ==> r == held
    ensures held.None? && err.Some? ==> r == Some(DatabaseError(err.value))
  {
    if held.Some? then held else NewDatabaseError(err)
  }

  /** The error held after the steps whose results are `errs`, in order. */
  function AbsorbAll(held: Option<HTTPError>, errs: seq<Option<RawError>>): Option<HTTPError>
    decreases |errs|
  {
    if errs == [] then held else AbsorbAll(Absorb(held, errs[0]), errs[1..])
  }

  /** The first result that is an error, if any. */
  function FirstFailure(errs: seq<Option<RawError>>): (r: Option<RawError>)
    ensures r.Some? ==> exists i :: 0 <= i < |errs| && errs[i] == r && forall j :: 0 <= j < i ==> errs[j].None?
    ensures r.None? ==> forall i :: 0 <= i < |errs| ==> errs[i].None?
  {
    if errs == [] then None
    else if errs[0].Some? then errs[0]
    else FirstFailure(errs[1..])
  }

  /** Whatever follows, the accumulator ends with the error it already held,
      or else with the first error of the sequence, wrapped as a DatabaseError. */
  lemma {:induction false} FirstErrorWins(held: Option<HTTPError>, errs: seq<Option<RawError>>)
    ensures AbsorbAll(held, errs) == if held.Some? then held else NewDatabaseError(FirstFailure(errs))
    decreases |errs|
  {
    if errs != [] {
      FirstErrorWins(Absorb(held, errs[0]), errs[1..]);
    }
  }

  /** The sequence of the repository's test: nil, then "foo", then "bar". */
  lemma FirstErrorExample()
    ensures var held := AbsorbAll(None, [None, Some(RawError("foo")), Some(RawError("bar"))]);
      && held.Some? && held.value.Error() == "DatabaseError: foo"
  {
  }

  class TransactionErrorHandler {
    var firstErr: Option<HTTPError>

    /** An accumulator that holds no error. */
    constructor ()
      ensures firstErr.None?
    {
      firstErr := None;
    }

    /** Records the result of one step; returns the handler for chaining. */
    method Err(err: Option<RawError>) returns (h: TransactionErrorHandler)
      modifies this
      ensures firstErr == Absorb(old(firstErr), err)
      ensures h == this
    {
      if firstErr.None? {
        firstErr := NewDatabaseError(err);
      }
      h := this;
    }

    /** The first error recorded, or nil. */
    function FirstErr(): Option<HTTPError>
      reads this
    {
      firstErr
    }
  }
}
