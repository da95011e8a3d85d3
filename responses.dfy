/** InterestFormsResponse, the answer of the batch function: how many submissions went through without an
    error, how many with one, and an ErrorSubmission per listing of a failed submission. */
module Responses {
  import opened Submissions

  /** What an ErrorSubmission shows: the submission's id and its error list. */
  datatype ErrorEntry = ErrorEntry(id: string, errors: seq<string>)

  /** The response as a value. */
  datatype Report = Report(countSuccess: int, countError: int, entries: seq<ErrorEntry>)

  /** The response the constructor builds. */
  function EmptyReport(): (r: Report)
    ensures r.countSuccess == 0 && r.countError == 0 && r.entries == []
  {
    Report(0, 0, [])
  }

  /** `n` copies of `e`. */
  function Copies(e: ErrorEntry, n: nat): (r: seq<ErrorEntry>)
    ensures |r| == n && forall i :: 0 <= i < n ==> r[i] == e
  {
    seq(n, _ => e)
  }

  /** ErrorSubmission: the id, and the submission's own error list object, not a copy of it. */
  class ErrorSubmission {
    const id: string
    const errors: StringList

    constructor (id: string, errors: StringList)
      ensures this.id == id && this.errors == errors
    {
      this.id := id;
      this.errors := errors;
    }
  }

  /** What a list of ErrorSubmissions shows now: each entry's lists as they currently stand. */
  function Entries(es: seq<ErrorSubmission>): (r: seq<ErrorEntry>)
    reads set x | x in es :: x.errors
    ensures |r| == |es|
    ensures forall i :: 0 <= i < |es| ==> r[i] == ErrorEntry(es[i].id, es[i].errors.elems)
  {
    if es == [] then []
    else
      var n := |es| - 1;
      assert forall x :: x in es[..n] ==> x in es;
      Entries(es[..n]) + [ErrorEntry(es[n].id, es[n].errors.elems)]
  }

  class InterestFormsResponse {
    var countSuccess: int
    var countError: int
    var errorSubmissions: seq<ErrorSubmission>

    constructor ()
      ensures countSuccess == 0 && countError == 0 && errorSubmissions == []
    {
      countSuccess := 0;
      countError := 0;
      errorSubmissions := [];
    }

    /** The response as the JSON serialiser would read it at this moment. */
    function Value(): Report
      reads this, set x | x in errorSubmissions :: x.errors
    {
      Report(countSuccess, countError, Entries(errorSubmissions))
    }
  }
}
