/** The component that holds the credentials and default names and sends a card
    (Scripts/TrelloSend.cs): fetch boards, select the board, fetch its lists, select the
    list, stamp the list id on the card and upload it, stopping at the first failure. */
module Send {
  import opened Wrappers
  import opened Errors
  import opened Cards
  import opened Web
  import opened Api

  const MissingCredentials := "The Trello API key or token are missing!"

  /** A nullable string that is null or empty. */
  predicate IsNullOrEmpty(s: Option<string>)
  {
    s.None? || s.value == ""
  }

  /** A nullable string as it reads inside a formatted string: null becomes "". */
  function Text(s: Option<string>): string
  {
    if s.None? then "" else s.value
  }

  /** The outcome of one send and the requests it issued, in order. */
  datatype Trace = Trace(result: Result<Card>, requests: seq<Request>)

  /** One send, step by step: what it returns and which requests it issues. A fetched field
      that is null leaves the cache absent, so the selection that follows raises. */
  function Pipeline(key: string, token: string, card: Card, list: string, board: string, transport: Transport): Trace
  {
    var boardsRequest := Get(BoardsUrl(key, token));
    var boards := FetchEntries(transport(boardsRequest), "boards", BoardsFetchFailed);
    if boards.Failure? then Trace(Failure(boards.error), [boardsRequest])
    else if boards.value.None? then Trace(Failure(TrelloException(NoBoards)), [boardsRequest])
    else
      var boardId := Lookup(boards.value.value, board);
      if boardId.None? then Trace(Failure(TrelloException(BoardNotFound(board))), [boardsRequest])
      else
        var listsRequest := Get(ListsUrl(boardId.value, key, token));
        var lists := FetchEntries(transport(listsRequest), "lists", ListsFetchFailed);
        if lists.Failure? then Trace(Failure(lists.error), [boardsRequest, listsRequest])
        else if lists.value.None? then Trace(Failure(TrelloException(NoLists)), [boardsRequest, listsRequest])
        else
          var listId := Lookup(lists.value.value, list);
          if listId.None? then Trace(Failure(TrelloException(ListNotFound(list))), [boardsRequest, listsRequest])
          else
            var stamped := card.(idList := listId.value);
            var upload := Post(CardsUrl(key, token), UploadForm(stamped));
            var status := CheckStatus(UploadFailed, transport(upload).error);
            Trace(if status.Fail? then Failure(status.error) else Success(stamped),
                  [boardsRequest, listsRequest, upload])
  }

  /** The records a completed fetch carries under `field`, when it carries an array there. */
  function Records(reply: Reply, field: string): Option<seq<Entry>>
  {
    if reply.error == "" && reply.body.Object? && field in reply.body.arrays then reply.body.arrays[field]
    else None
  }

  /** The board name resolves, through the boards fetch, to `boardId`, and the list name
      resolves, through that board's lists fetch, to `listId`. */
  predicate ResolvesTo(key: string, token: string, board: string, list: string, transport: Transport,
                       boardId: string, listId: string)
  {
    var boards := Records(transport(Get(BoardsUrl(key, token))), "boards");
    var lists := Records(transport(Get(ListsUrl(boardId, key, token))), "lists");
    boards.Some? && Lookup(boards.value, board) == Some(boardId) &&
    lists.Some? && Lookup(lists.value, list) == Some(listId)
  }

  /** Every send fetches the boards first, issues at most three requests, and only its last
      request can be the upload. */
  lemma RequestsInStepOrder(key: string, token: string, card: Card, list: string, board: string, transport: Transport)
    ensures var t := Pipeline(key, token, card, list, board, transport);
      1 <= |t.requests| <= 3 && t.requests[0] == Get(BoardsUrl(key, token)) &&
      (forall i :: 0 <= i < |t.requests| - 1 ==> t.requests[i].Get?) &&
      (|t.requests| == 3 ==> t.requests[2].Post? && t.requests[2].url == CardsUrl(key, token))
  {
  }

  /** When both names resolve, the send fetches the boards, then the lists of the resolved
      board, then uploads the card with the resolved list id stamped in its idList field; it
      succeeds, returning the stamped card, exactly when the upload does. */
  lemma UploadFollowsResolution(key: string, token: string, card: Card, list: string, board: string,
                                transport: Transport, boardId: string, listId: string)
    requires ResolvesTo(key, token, board, list, transport, boardId, listId)
    ensures var t := Pipeline(key, token, card, list, board, transport);
      var upload := Post(CardsUrl(key, token), UploadForm(card.(idList := listId)));
      t.requests == [Get(BoardsUrl(key, token)), Get(ListsUrl(boardId, key, token)), upload] &&
      FieldValue(upload.form, "idList") == Some(listId) &&
      (t.result.Success? <==> transport(upload).error == "") &&
      (t.result.Success? ==> t.result.value == card.(idList := listId))
  {
    UploadFormReadsBack(card.(idList := listId));
  }

  /** When the names do not both resolve, the send fails and never uploads. */
  lemma NoUploadWithoutResolution(key: string, token: string, card: Card, list: string, board: string,
                                  transport: Transport)
    requires forall boardId, listId :: !ResolvesTo(key, token, board, list, transport, boardId, listId)
    ensures var t := Pipeline(key, token, card, list, board, transport);
      t.result.Failure? && forall r :: r in t.requests ==> r.Get?
  {
    var t := Pipeline(key, token, card, list, board, transport);
    if |t.requests| == 3 {
      var boardId := Lookup(Records(transport(Get(BoardsUrl(key, token))), "boards").value, board).value;
      var lists := Records(transport(Get(ListsUrl(boardId, key, token))), "lists").value;
      assert ResolvesTo(key, token, board, list, transport, boardId, Lookup(lists, list).value);
    }
  }

  /** A send whose boards step fails stops there, after the boards request alone, with that
      step's own error: the fetch's error, the empty-cache error of a null `boards` field, or
      the board-not-found error of a miss. */
  lemma BoardsStepFailureEndsSend(key: string, token: string, card: Card, list: string, board: string,
                                  transport: Transport)
    ensures var t := Pipeline(key, token, card, list, board, transport);
      var fetched := FetchEntries(transport(Get(BoardsUrl(key, token))), "boards", BoardsFetchFailed);
      (fetched.Failure? ==> t == Trace(Failure(fetched.error), [Get(BoardsUrl(key, token))])) &&
      (fetched == Success(None) ==> t == Trace(Failure(TrelloException(NoBoards)), [Get(BoardsUrl(key, token))])) &&
      (forall boards :: fetched == Success(Some(boards)) && Lookup(boards, board).None? ==>
         t == Trace(Failure(TrelloException(BoardNotFound(board))), [Get(BoardsUrl(key, token))]))
  {
  }

  /** A send whose board resolved to `boardId` but whose lists step fails stops there, after
      the boards and lists requests, with that step's own error: the fetch's error, the
      empty-cache error of a null `lists` field, or the list-not-found error of a miss. */
  lemma ListsStepFailureEndsSend(key: string, token: string, card: Card, list: string, board: string,
                                 transport: Transport, boardId: string)
    requires var boards := Records(transport(Get(BoardsUrl(key, token))), "boards");
      boards.Some? && Lookup(boards.value, board) == Some(boardId)
    ensures var t := Pipeline(key, token, card, list, board, transport);
      var requests := [Get(BoardsUrl(key, token)), Get(ListsUrl(boardId, key, token))];
      var fetched := FetchEntries(transport(Get(ListsUrl(boardId, key, token))), "lists", ListsFetchFailed);
      (fetched.Failure? ==> t == Trace(Failure(fetched.error), requests)) &&
      (fetched == Success(None) ==> t == Trace(Failure(TrelloException(NoLists)), requests)) &&
      (forall lists :: fetched == Success(Some(lists)) && Lookup(lists, list).None? ==>
         t == Trace(Failure(TrelloException(ListNotFound(list))), requests))
  {
  }

  /** A failed lists request ends the send with that request's error, unchanged, after two
      requests: nothing is uploaded. */
  lemma ListsFetchFailureAbortsSend(key: string, token: string, card: Card, list: string, board: string,
                                    transport: Transport, boardId: string)
    requires var boards := Records(transport(Get(BoardsUrl(key, token))), "boards");
      boards.Some? && Lookup(boards.value, board) == Some(boardId)
    requires transport(Get(ListsUrl(boardId, key, token))).error != ""
    ensures var t := Pipeline(key, token, card, list, board, transport);
      t.requests == [Get(BoardsUrl(key, token)), Get(ListsUrl(boardId, key, token))] &&
      t.result == Failure(TrelloException(ListsFetchFailed + ": " + transport(Get(ListsUrl(boardId, key, token))).error))
  {
  }

  /** The component: credentials, which a script may overwrite, and the board and list used
      when a send names none. */
  class TrelloSend {
    var key: Option<string>
    var token: Option<string>
    var defaultBoard: string
    var defaultList: string

    constructor (key: Option<string>, token: Option<string>, defaultBoard: string, defaultList: string)
      ensures this.key == key && this.token == token
      ensures this.defaultBoard == defaultBoard && this.defaultList == defaultList
    {
      this.key, this.token := key, token;
      this.defaultBoard, this.defaultList := defaultBoard, defaultList;
    }

    /** The `Key` setter. */
    method SetKey(value: Option<string>)
      modifies this`key
      ensures key == value
    {
      key := value;
    }

    /** The `Token` setter. */
    method SetToken(value: Option<string>)
      modifies this`token
      ensures token == value
    {
      token := value;
    }

    /** The start-up check: raises exactly when the key or the token is null or empty. */
    method Start() returns (r: Outcome)
      ensures r.Fail? <==> IsNullOrEmpty(key) || IsNullOrEmpty(token)
      ensures r.Fail? ==> r.error == TrelloException(MissingCredentials)
    {
      if IsNullOrEmpty(key) || IsNullOrEmpty(token) {
        return Fail(TrelloException(MissingCredentials));
      }
      return Pass;
    }

    /** Sends a card to list `list` of board `board`, either of which defaults to the
        component's setting when null. Note the parameter order: the list comes first. */
    method SendNewCard(card: Card, list: Option<string>, board: Option<string>, transport: Transport)
      returns (r: Result<Card>, ghost requests: seq<Request>)
      ensures r == Pipeline(Text(key), Text(token), card,
                            if list.None? then defaultList else list.value,
                            if board.None? then defaultBoard else board.value,
                            transport).result
      ensures requests == Pipeline(Text(key), Text(token), card,
                                   if list.None? then defaultList else list.value,
                                   if board.None? then defaultBoard else board.value,
                                   transport).requests
    {
      var boardName := if board.None? then defaultBoard else board.value;
      var listName := if list.None? then defaultList else list.value;
      r, requests := SendInternal(card, listName, boardName, transport);
    }

    /** One send with both names given, run on a fresh client for the held credentials. */
    method SendInternal(card: Card, list: string, board: string, transport: Transport)
      returns (r: Result<Card>, ghost requests: seq<Request>)
      ensures r == Pipeline(Text(key), Text(token), card, list, board, transport).result
      ensures requests == Pipeline(Text(key), Text(token), card, list, board, transport).requests
    {
      var api := new TrelloApi(Text(key), Text(token));

      var boards := api.PopulateBoards(transport);
      if boards.Failure? {
        return Failure(boards.error), api.requests;
      }
      var boardSelected := api.SetCurrentBoard(board);
      if boardSelected.Fail? {
        return Failure(boardSelected.error), api.requests;
      }

      var lists := api.PopulateLists(transport);
      if lists.Failure? {
        return Failure(lists.error), api.requests;
      }
      var listSelected := api.SetCurrentList(list);
      if listSelected.Fail? {
        return Failure(listSelected.error), api.requests;
      }

      var listId := api.GetCurrentListId();
      // A list was just selected, so this call cannot raise here.
      assert listId.Success?;
      var stamped := card.(idList := listId.value);

      r := api.UploadCard(stamped, transport);
      requests := api.requests;
    }
  }
}
