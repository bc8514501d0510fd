/** The client of the Trello web service (Scripts/TrelloAPI.cs): it fetches the member's
    boards and a board's lists, resolves a board name and a list name to their ids, and uploads
    a card to the selected list. */
module Api {
  import opened Wrappers
  import opened Errors
  import opened Cards
  import opened Web

  const MemberBaseUrl := "https://api.trello.com/1/members/me"
  const BoardBaseUrl := "https://api.trello.com/1/boards/"
  const CardBaseUrl := "https://api.trello.com/1/cards/"

  // Messages of the exceptions the client raises.
  const BoardsFetchFailed := "The Trello servers did not respond."
  const ListsFetchFailed := "Connection to the Trello servers was not possible"
  const UploadFailed := "Could not upload the Trello card."
  const NoBoards := "There are no boards available. Either the user does not have access to a board or PopulateBoards() wasn't called."
  const NoBoardSelected := "Cannot retreive the lists, there isn't a selected board yet."
  const NoLists := "There are no lists available. Either the board does not contain lists or PopulateLists() wasn't called."
  const NoListSelected := "A list has not been selected. Call SetCurrentList() first."

  function BoardNotFound(name: string): string
  {
    "A board with the name " + name + " was not found."
  }

  function ListNotFound(name: string): string
  {
    "A list with the name " + name + " was not found."
  }

  // ---------------------------------------------------------------------------------------
  // Request URLs

  /** The credentials as query parameters. */
  function Query(key: string, token: string): string
  {
    "?key=" + key + "&token=" + token
  }

  /** The member's boards, all of them. */
  function BoardsUrl(key: string, token: string): string
  {
    MemberBaseUrl + Query(key, token) + "&boards=all"
  }

  /** A board, with all of its lists. */
  function ListsUrl(boardId: string, key: string, token: string): string
  {
    BoardBaseUrl + boardId + Query(key, token) + "&lists=all"
  }

  /** The card-creation endpoint. */
  function CardsUrl(key: string, token: string): string
  {
    CardBaseUrl + Query(key, token)
  }

  /** The three endpoints never coincide, whatever the credentials and the board id: the
      service can always tell the boards fetch, the lists fetch and the upload apart. */
  lemma EndpointsDistinct(key: string, token: string, boardId: string, key': string, token': string)
    ensures BoardsUrl(key, token) != ListsUrl(boardId, key', token')
    ensures BoardsUrl(key, token) != CardsUrl(key', token')
    ensures ListsUrl(boardId, key, token) != CardsUrl(key', token')
  {
    // "https://api.trello.com/1/" is common to all three; the next character differs.
    assert BoardsUrl(key, token)[25] == MemberBaseUrl[25] == 'm';
    assert ListsUrl(boardId, key', token')[25] == BoardBaseUrl[25] == 'b';
    assert ListsUrl(boardId, key, token)[25] == BoardBaseUrl[25] == 'b';
    assert CardsUrl(key', token')[25] == CardBaseUrl[25] == 'c';
  }

  // ---------------------------------------------------------------------------------------
  // Replies

  /** Reads the array `field` out of a completed fetch: a failed request raises
      `errorMessage` with the transport's error text; a body that is not an object holding
      that field as an array or null is malformed. A null field reads as an absent array
      (`None`) without raising. */
  function FetchEntries(reply: Reply, field: string, errorMessage: string): (r: Result<Option<seq<Entry>>>)
    ensures r.Success? <==> reply.error == "" && reply.body.Object? && field in reply.body.arrays
    ensures r.Success? ==> r.value == reply.body.arrays[field]
    ensures reply.error != "" ==> r == Failure(TrelloException(errorMessage + ": " + reply.error))
    ensures reply.error == "" && r.Failure? ==> r == Failure(MalformedResponse(field))
  {
    if reply.error != "" then Failure(TrelloException(errorMessage + ": " + reply.error))
    else if reply.body.Object? && field in reply.body.arrays then Success(reply.body.arrays[field])
    else Failure(MalformedResponse(field))
  }

  // ---------------------------------------------------------------------------------------
  // Name resolution

  /** The id of the first entry, in fetched order, whose name equals `name` exactly. */
  function Lookup(entries: seq<Entry>, name: string): Option<string>
  {
    if entries == [] then None
    else if entries[0].name == name then Some(entries[0].id)
    else Lookup(entries[1..], name)
  }

  /** Entry `i` is the first one named `name`. */
  predicate IsFirstMatch(entries: seq<Entry>, name: string, i: int)
  {
    0 <= i < |entries| && entries[i].name == name &&
    forall j :: 0 <= j < i ==> entries[j].name != name
  }

  /** The first entry with the name wins; later entries with the same name are ignored. */
  lemma {:induction false} LookupFindsFirstMatch(entries: seq<Entry>, name: string, i: int)
    requires IsFirstMatch(entries, name, i)
    ensures Lookup(entries, name) == Some(entries[i].id)
  {
    if i > 0 {
      assert entries[0].name != name;
      assert IsFirstMatch(entries[1..], name, i - 1);
      LookupFindsFirstMatch(entries[1..], name, i - 1);
    }
  }

  /** A lookup misses exactly when no entry has the name, and a hit is the id of the first
      entry that does. */
  lemma {:induction false} LookupMatchesName(entries: seq<Entry>, name: string)
    ensures Lookup(entries, name).None? <==> forall i :: 0 <= i < |entries| ==> entries[i].name != name
    ensures Lookup(entries, name).Some? ==>
      exists i :: IsFirstMatch(entries, name, i) && Lookup(entries, name) == Some(entries[i].id)
  {
    if entries != [] {
      LookupMatchesName(entries[1..], name);
      if entries[0].name == name {
        assert IsFirstMatch(entries, name, 0);
      } else {
        assert forall i :: 1 <= i < |entries| ==> entries[i] == entries[1..][i - 1];
        if Lookup(entries[1..], name).Some? {
          var i :| IsFirstMatch(entries[1..], name, i) && Lookup(entries[1..], name) == Some(entries[1..][i].id);
          assert IsFirstMatch(entries, name, i + 1);
        }
      }
    }
  }

  /** The linear scan of the cached records for a name, stopping at the first match. */
  method FindByName(entries: seq<Entry>, name: string) returns (id: Option<string>)
    ensures id == Lookup(entries, name)
    ensures id.Some? ==> exists i :: IsFirstMatch(entries, name, i) && id.value == entries[i].id
    ensures id.None? ==> forall i :: 0 <= i < |entries| ==> entries[i].name != name
  {
    for i := 0 to |entries|
      invariant forall j :: 0 <= j < i ==> entries[j].name != name
      invariant Lookup(entries[i..], name) == Lookup(entries, name)
    {
      if entries[i].name == name {
        assert IsFirstMatch(entries, name, i);
        assert entries[i..][0] == entries[i];
        return Some(entries[i].id);
      }
      assert entries[i..][1..] == entries[i + 1..];
    }
    assert entries[|entries|..] == [];
    return None;
  }

  // ---------------------------------------------------------------------------------------
  // Upload form

  /** The form a card is uploaded as: its five text fields, then the attachment when both of
      its halves are set. */
  function UploadForm(card: Card): seq<FormPart>
  {
    [Field("name", card.name), Field("desc", card.desc), Field("due", card.due),
     Field("idList", card.idList), Field("urlSource", card.urlSource)]
    + (if HasAttachment(card)
       then [BinaryData("fileSource", card.fileSource.value, card.fileName.value)]
       else [])
  }

  /** The value of the first text field named `key`. */
  function FieldValue(form: seq<FormPart>, key: string): Option<string>
  {
    if form == [] then None
    else if form[0].Field? && form[0].key == key then Some(form[0].value)
    else FieldValue(form[1..], key)
  }

  /** The data and file name of the first binary part named `key`. */
  function BinaryPart(form: seq<FormPart>, key: string): Option<(seq<byte>, string)>
  {
    if form == [] then None
    else if form[0].BinaryData? && form[0].key == key then Some((form[0].data, form[0].fileName))
    else BinaryPart(form[1..], key)
  }

  /** Part `i` is the first text field named `key`. */
  lemma {:induction false} FieldValueAt(form: seq<FormPart>, key: string, i: int)
    requires 0 <= i < |form| && form[i].Field? && form[i].key == key
    requires forall j :: 0 <= j < i ==> !(form[j].Field? && form[j].key == key)
    ensures FieldValue(form, key) == Some(form[i].value)
  {
    if i > 0 {
      FieldValueAt(form[1..], key, i - 1);
    }
  }

  /** Part `i` is the first binary part named `key`, or there is none (`i == |form|`). */
  lemma {:induction false} BinaryPartAt(form: seq<FormPart>, key: string, i: int)
    requires 0 <= i <= |form|
    requires i < |form| ==> form[i].BinaryData? && form[i].key == key
    requires forall j :: 0 <= j < i ==> !(form[j].BinaryData? && form[j].key == key)
    ensures BinaryPart(form, key) == if i < |form| then Some((form[i].data, form[i].fileName)) else None
  {
    if i > 0 {
      BinaryPartAt(form[1..], key, i - 1);
    }
  }

  /** The keys of a form's parts, in order. */
  function Keys(form: seq<FormPart>): seq<string>
  {
    seq(|form|, i requires 0 <= i < |form| => form[i].key)
  }

  /** The card a receiver reads back out of a form by field name. */
  function ReadCard(form: seq<FormPart>): Option<Card>
  {
    var name, desc, due := FieldValue(form, "name"), FieldValue(form, "desc"), FieldValue(form, "due");
    var idList, urlSource := FieldValue(form, "idList"), FieldValue(form, "urlSource");
    if name.None? || desc.None? || due.None? || idList.None? || urlSource.None? then None
    else
      var file := BinaryPart(form, "fileSource");
      Some(Card(name.value, desc.value, due.value, idList.value, urlSource.value,
                if file.Some? then Some(file.value.0) else None,
                if file.Some? then Some(file.value.1) else None))
  }

  /** The form holds the keys name, desc, due, idList, urlSource in that order, followed by
      fileSource exactly when the card has both halves of an attachment. */
  lemma UploadFormKeys(card: Card)
    ensures Keys(UploadForm(card)) ==
      ["name", "desc", "due", "idList", "urlSource"] + (if HasAttachment(card) then ["fileSource"] else [])
    ensures (exists p :: p in UploadForm(card) && p.BinaryData?) <==> HasAttachment(card)
  {
    var form := UploadForm(card);
    if HasAttachment(card) {
      assert form[5].BinaryData?;
    } else {
      assert forall p :: p in form ==> p.Field?;
    }
  }

  /** Reading the uploaded form back by field name gives the card, every field verbatim; an
      attachment with only one half set is dropped. */
  lemma UploadFormReadsBack(card: Card)
    ensures ReadCard(UploadForm(card)) ==
      Some(if HasAttachment(card) then card else card.(fileSource := None, fileName := None))
  {
    var form := UploadForm(card);
    FieldValueAt(form, "name", 0);
    FieldValueAt(form, "desc", 1);
    FieldValueAt(form, "due", 2);
    FieldValueAt(form, "idList", 3);
    FieldValueAt(form, "urlSource", 4);
    BinaryPartAt(form, "fileSource", if HasAttachment(card) then 5 else |form|);
  }

  /** A card whose attachment halves agree survives the upload form unchanged. */
  lemma UploadFormLossless(card: Card)
    requires AttachmentConsistent(card)
    ensures ReadCard(UploadForm(card)) == Some(card)
  {
    UploadFormReadsBack(card);
  }

  /** A new card uploads its default texts, "null" included as literal text, and no
      binary part. */
  lemma NewCardUploadForm()
    ensures UploadForm(NewCard()) ==
      [Field("name", ""), Field("desc", ""), Field("due", "null"), Field("idList", ""), Field("urlSource", "null")]
    ensures forall p :: p in UploadForm(NewCard()) ==> p.Field?
  {
  }

  // ---------------------------------------------------------------------------------------
  // The client object

  /** A client for one key/token pair: a boards cache, a lists cache and the selected board and
      list. `requests` records, in order, every request the client has issued. */
  class TrelloApi {
    const key: string
    const token: string
    var boards: Option<seq<Entry>>
    var lists: Option<seq<Entry>>
    var currentBoardId: Option<string>
    var currentListId: Option<string>
    ghost var requests: seq<Request>

    constructor (key: string, token: string)
      ensures this.key == key && this.token == token
      ensures boards == None && lists == None
      ensures currentBoardId == None && currentListId == None
      ensures requests == []
    {
      this.key := key;
      this.token := token;
      boards, lists := None, None;
      currentBoardId, currentListId := None, None;
      requests := [];
    }

    /** Fetches the member's boards into the boards cache. The cache is emptied first, so a
        failed fetch leaves it absent, never stale; a null `boards` field leaves it absent
        too, without raising; nothing else changes. */
    method PopulateBoards(transport: Transport) returns (r: Result<Option<seq<Entry>>>)
      modifies this`boards, this`requests
      ensures requests == old(requests) + [Get(BoardsUrl(key, token))]
      ensures r == FetchEntries(transport(Get(BoardsUrl(key, token))), "boards", BoardsFetchFailed)
      ensures boards == if r.Success? then r.value else None
    {
      boards := None;
      var request := Get(BoardsUrl(key, token));
      requests := requests + [request];
      var reply := transport(request);
      r := FetchEntries(reply, "boards", BoardsFetchFailed);
      if r.Success? {
        boards := r.value;
      }
    }

    /** Selects the first cached board named `name`. Without a boards cache it raises and
        changes nothing; on a miss it clears the selection and raises. Only the board
        selection can change. */
    method SetCurrentBoard(name: string) returns (r: Outcome)
      modifies this`currentBoardId
      ensures boards.None? ==> r == Fail(TrelloException(NoBoards)) && currentBoardId == old(currentBoardId)
      ensures boards.Some? ==> currentBoardId == Lookup(boards.value, name)
      ensures boards.Some? ==>
        r == if currentBoardId.Some? then Pass else Fail(TrelloException(BoardNotFound(name)))
    {
      if boards.None? {
        return Fail(TrelloException(NoBoards));
      }
      currentBoardId := FindByName(boards.value, name);
      if currentBoardId.None? {
        return Fail(TrelloException(BoardNotFound(name)));
      }
      return Pass;
    }

    /** Fetches the selected board's lists into the lists cache. The cache is emptied before
        anything else, so without a selected board the call raises, issues no request and
        leaves the cache absent; a failed fetch or a null `lists` field leaves it absent too. */
    method PopulateLists(transport: Transport) returns (r: Result<Option<seq<Entry>>>)
      modifies this`lists, this`requests
      ensures currentBoardId.None? ==>
        r == Failure(TrelloException(NoBoardSelected)) && lists == None && requests == old(requests)
      ensures currentBoardId.Some? ==>
        requests == old(requests) + [Get(ListsUrl(currentBoardId.value, key, token))] &&
        r == FetchEntries(transport(Get(ListsUrl(currentBoardId.value, key, token))), "lists", ListsFetchFailed)
      ensures lists == if r.Success? then r.value else None
    {
      lists := None;
      if currentBoardId.None? {
        return Failure(TrelloException(NoBoardSelected));
      }
      var request := Get(ListsUrl(currentBoardId.value, key, token));
      requests := requests + [request];
      var reply := transport(request);
      r := FetchEntries(reply, "lists", ListsFetchFailed);
      if r.Success? {
        lists := r.value;
      }
    }

    /** Selects the first cached list named `name`, with the contract of SetCurrentBoard on
        the lists cache and the list selection. */
    method SetCurrentList(name: string) returns (r: Outcome)
      modifies this`currentListId
      ensures lists.None? ==> r == Fail(TrelloException(NoLists)) && currentListId == old(currentListId)
      ensures lists.Some? ==> currentListId == Lookup(lists.value, name)
      ensures lists.Some? ==>
        r == if currentListId.Some? then Pass else Fail(TrelloException(ListNotFound(name)))
    {
      if lists.None? {
        return Fail(TrelloException(NoLists));
      }
      currentListId := FindByName(lists.value, name);
      if currentListId.None? {
        return Fail(TrelloException(ListNotFound(name)));
      }
      return Pass;
    }

    /** The selected list's id; raises when no list is selected. */
    method GetCurrentListId() returns (r: Result<string>)
      ensures r.Success? <==> currentListId.Some?
      ensures r.Success? ==> r.value == currentListId.value
      ensures r.Failure? ==> r.error == TrelloException(NoListSelected)
    {
      if currentListId.None? {
        return Failure(TrelloException(NoListSelected));
      }
      return Success(currentListId.value);
    }

    /** Posts the card's upload form to the card endpoint and returns the card unchanged; a
        failed request raises. */
    method UploadCard(card: Card, transport: Transport) returns (r: Result<Card>)
      modifies this`requests
      ensures requests == old(requests) + [Post(CardsUrl(key, token), UploadForm(card))]
      ensures r.Success? <==> transport(Post(CardsUrl(key, token), UploadForm(card))).error == ""
      ensures r.Success? ==> r.value == card
      ensures r.Failure? ==>
        r.error == TrelloException(UploadFailed + ": " + transport(Post(CardsUrl(key, token), UploadForm(card))).error)
    {
      var post := new WwwForm();
      post.AddField("name", card.name);
      post.AddField("desc", card.desc);
      post.AddField("due", card.due);
      post.AddField("idList", card.idList);
      post.AddField("urlSource", card.urlSource);
      if card.fileSource.Some? && card.fileName.Some? {
        post.AddBinaryData("fileSource", card.fileSource.value, card.fileName.value);
      }
      assert post.parts == UploadForm(card);
      var request := Post(CardsUrl(key, token), post.parts);
      requests := requests + [request];
      var reply := transport(request);
      var status := CheckStatus(UploadFailed, reply.error);
      if status.Fail? {
        return Failure(status.error);
      }
      return Success(card);
    }
  }

  /** Selecting the same board twice on an unchanged cache gives the same outcome and the same
      selection both times. */
  method ReselectBoardIsStable(api: TrelloApi, name: string) returns (first: Outcome, second: Outcome)
    modifies api`currentBoardId
    ensures first == second
    ensures api.boards.Some? ==> api.currentBoardId == Lookup(api.boards.value, name)
  {
    first := api.SetCurrentBoard(name);
    ghost var selected := api.currentBoardId;
    second := api.SetCurrentBoard(name);
    assert api.boards.Some? ==> api.currentBoardId == selected;
  }

  /** The same for lists. */
  method ReselectListIsStable(api: TrelloApi, name: string) returns (first: Outcome, second: Outcome)
    modifies api`currentListId
    ensures first == second
    ensures api.lists.Some? ==> api.currentListId == Lookup(api.lists.value, name)
  {
    first := api.SetCurrentList(name);
    second := api.SetCurrentList(name);
  }
}
