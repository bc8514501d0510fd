/** What the client sees of Unity's web layer: the form it fills in (`WWWForm`), the requests
    it issues, and the completed request object (`WWW`) it reads back. Transport, multipart
    encoding and JSON decoding happen outside the model; a reply arrives already parsed. */
module Web {
  import opened Wrappers
  import opened Errors
  import opened Cards

  /** One part of a multipart form, in the order it was added. */
  datatype FormPart =
    | Field(key: string, value: string)
    | BinaryData(key: string, data: seq<byte>, fileName: string)

  /** The form object a request body is built in, one `Add…` call at a time. */
  class WwwForm {
    var parts: seq<FormPart>

    constructor ()
      ensures parts == []
    {
      parts := [];
    }

    method AddField(key: string, value: string)
      modifies this
      ensures parts == old(parts) + [Field(key, value)]
    {
      parts := parts + [Field(key, value)];
    }

    method AddBinaryData(key: string, data: seq<byte>, fileName: string)
      modifies this
      ensures parts == old(parts) + [BinaryData(key, data, fileName)]
    {
      parts := parts + [BinaryData(key, data, fileName)];
    }
  }

  /** A request as issued: a GET of a URL, or a POST of a form to a URL. */
  datatype Request = Get(url: string) | Post(url: string, form: seq<FormPart>)

  /** One board or list record of a reply: the two fields the client reads. */
  datatype Entry = Entry(id: string, name: string)

  /** The decoded reply body: a JSON object or anything else. Of an object only the fields
      holding an array of records (`Some`) or JSON null (`None`) are kept; a field holding
      any other value is left out of the map, which makes reading it fail like a missing
      field. */
  datatype Json = Object(arrays: map<string, Option<seq<Entry>>>) | NotAnObject

  /** A completed request: its error text (empty when there is none) and its decoded body. */
  datatype Reply = Reply(error: string, body: Json)

  /** The remote service, as the client sees it: what each request comes back with. */
  type Transport = Request -> Reply

  /** The status check run on a request object: an error text that is not empty raises
      `errorMessage + ": " + error`. */
  function CheckStatus(errorMessage: string, error: string): (r: Outcome)
    ensures r.Pass? <==> error == ""
    ensures r.Fail? ==> r.error == TrelloException(errorMessage + ": " + error)
  {
    if error != "" then Fail(TrelloException(errorMessage + ": " + error)) else Pass
  }

  /** What a polling loop reads from a pending request object at one iteration. */
  datatype Observation = Observation(isDone: bool, error: string)

  /** Some observation finds the request done. */
  predicate Completes(polls: seq<Observation>)
  {
    exists k :: 0 <= k < |polls| && polls[k].isDone
  }

  /** The source's wait loop: while the request is not done, check its status. An error that
      is only visible once the request is done is never checked: the loop reports one exactly
      when some observation BEFORE completion carries it. */
  method AwaitAsWritten(polls: seq<Observation>, errorMessage: string) returns (r: Outcome)
    requires Completes(polls)
    ensures r.Fail? <==>
      exists i :: 0 <= i < |polls| && polls[i].error != "" && forall j :: 0 <= j <= i ==> !polls[j].isDone
    ensures r.Fail? ==> exists i :: 0 <= i < |polls| && r.error == TrelloException(errorMessage + ": " + polls[i].error)
  {
    ghost var k :| 0 <= k < |polls| && polls[k].isDone;
    var i := 0;
    while !polls[i].isDone
      invariant 0 <= i <= k
      invariant forall j :: 0 <= j < i ==> !polls[j].isDone && polls[j].error == ""
      decreases k - i
    {
      r := CheckStatus(errorMessage, polls[i].error);
      if r.Fail? {
        return;
      }
      i := i + 1;
    }
    r := Pass;
  }

  /** The wait loop with the status also checked once the request is done: an error is
      reported exactly when one is visible at or before completion. */
  method Await(polls: seq<Observation>, errorMessage: string) returns (r: Outcome)
    requires Completes(polls)
    ensures r.Fail? <==>
      exists i :: 0 <= i < |polls| && polls[i].error != "" && forall j :: 0 <= j < i ==> !polls[j].isDone
    ensures r.Fail? ==> exists i :: 0 <= i < |polls| && r.error == TrelloException(errorMessage + ": " + polls[i].error)
  {
    ghost var k :| 0 <= k < |polls| && polls[k].isDone;
    var i := 0;
    while !polls[i].isDone
      invariant 0 <= i <= k
      invariant forall j :: 0 <= j < i ==> !polls[j].isDone && polls[j].error == ""
      decreases k - i
    {
      r := CheckStatus(errorMessage, polls[i].error);
      if r.Fail? {
        return;
      }
      i := i + 1;
    }
    r := CheckStatus(errorMessage, polls[i].error);
  }

  /** A request that has already failed when polling starts: the source's loop lets it pass. */
  method CompletedErrorIsMissed() returns (r: Outcome)
    ensures r == Pass
  {
    var polls := [Observation(true, "401 Unauthorized")];
    assert polls[0].isDone;
    r := AwaitAsWritten(polls, "Could not upload the Trello card.");
  }

  /** The same request under the corrected wait: the failure is raised. */
  method CompletedErrorIsReported() returns (r: Outcome)
    ensures r == Fail(TrelloException("Could not upload the Trello card.: 401 Unauthorized"))
  {
    var polls := [Observation(true, "401 Unauthorized")];
    assert polls[0].isDone;
    r := Await(polls, "Could not upload the Trello card.");
  }
}
