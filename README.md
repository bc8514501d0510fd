# Unity-Trello card client, modelled in Dafny

This project models the core of a client for the Trello web service, as embedded in a Unity
game. Given a key/token pair, the client resolves a board name and a list name to their
ids in two stages. It fetches the member's boards and picks the first board with the name.
It then fetches that board's lists and picks the first list with the name. Finally it
uploads a card (name, description, due text, URL, optional file) to that list as a form.

Modules, one per source component:

- `Wrappers` (`wrappers.dfy`): `Option`, which stands for nullable references.
- `Errors` (`errors.dfy`): `TrelloError`, with the `Result`/`Outcome` values that replace
  thrown exceptions.
- `Cards` (`cards.dfy`): the card record and its default values.
- `Web` (`web.dfy`): what the client sees of Unity's web layer. This is the form object
  it fills in, the requests it issues, the completed request it reads, and the status check.
- `Api` (`api.dfy`): the client class `TrelloApi` with its two caches and two selections.
  It also holds the request URLs, the first-match name lookup, the upload form and the
  properties proved about them.
- `Send` (`send.dfy`): the component `TrelloSend`, which holds credentials and default names.
  It runs the send sequence. `Pipeline` is a functional definition of one send, and the
  lemmas about it state the ordering and abort properties.

The network is a parameter, `transport: Request -> Reply`. A `Reply` is a completed request:
its error text and its already-decoded JSON body. Every `TrelloApi` method that talks to the
service logs the request it issues in the ghost field `requests`. That log is how "no upload
after a failed step" is stated.

Four behaviours of the code differ from what a reader of its documentation might expect; the model follows the code:
- Selecting or re-fetching a board does not clear the lists cache or the list selection.
  `PopulateLists` clears the lists cache but not `currentListId`. So on a reused client, a
  list id from an earlier board survives until `SetCurrentList` runs on a fetched lists
  cache. The send
  sequence is not affected: it always uses a fresh client.
- Empty credentials are rejected only by the component's start-up check (`Start`). The client
  constructor and the send sequence accept any key and token.
- Every failure the code detects raises one exception type carrying a message. The model
  keeps those exact messages. A reply body that is not an object, or lacks the field, or
  holds something other than an array or null there, raises a runtime exception in the code;
  the model calls it `MalformedResponse`.
- A `boards` or `lists` field that is JSON null raises nothing when it is fetched: the cache
  is left absent, and the next selection raises the "no boards" or "no lists" error.

## Model

| member | source | states |
|---|---|---|
| Cards.NewCard | Scripts/TrelloCard.cs:15-21 | (function, no contract) a card as the parameterless constructor leaves it; its defaults are stated by `Api.NewCardUploadForm` |
| Api.NewCardUploadForm | Scripts/TrelloCard.cs:15-21 | a new card uploads name "", desc "", due "null", idList "", urlSource "null" (literal text, not absence) and no binary part |
| Web.WwwForm.AddField | Scripts/TrelloAPI.cs:178-182 | adding a text field appends exactly that part to the form |
| Web.WwwForm.AddBinaryData | Scripts/TrelloAPI.cs:184 | adding binary data appends exactly that part to the form |
| Web.CheckStatus | Scripts/TrelloAPI.cs:46-51 | raises exactly when the error text is non-empty, with message `errorMessage + ": " + error` |
| Web.AwaitAsWritten | Scripts/TrelloAPI.cs:190-192 | the wait loop reports an error exactly when some observation before completion carries one; an error seen only at completion is missed |
| Web.Await | Scripts/TrelloAPI.cs:63-65 | corrected wait: an error seen at or before completion is reported |
| Web.CompletedErrorIsMissed | Scripts/TrelloAPI.cs:190-195 | a request already failed when polling starts passes the source's loop |
| Web.CompletedErrorIsReported | Scripts/TrelloAPI.cs:190-195 | the same request raises "Could not upload the Trello card.: 401 Unauthorized" under the corrected wait |
| Api.EndpointsDistinct | Scripts/TrelloAPI.cs:23-25 | the boards, lists and card URLs never coincide, whatever the credentials and board id |
| Api.BoardsUrl | Scripts/TrelloAPI.cs:60 | (function, no contract) the boards GET: member base URL, key, token, `boards=all` |
| Api.ListsUrl | Scripts/TrelloAPI.cs:107 | (function, no contract) the lists GET: board base URL, board id, key, token, `lists=all` |
| Api.CardsUrl | Scripts/TrelloAPI.cs:187 | (function, no contract) the upload POST: card base URL, key, token |
| Api.FetchEntries | Scripts/TrelloAPI.cs:67-70 | a fetch yields the body's `field` value (an array, or absent for JSON null) exactly when the request had no error and the body is an object holding it; a request error raises the fetch's message; anything else is malformed |
| Api.Lookup | Scripts/TrelloAPI.cs:83-92 | (function, no contract) the id of the first record with the exact name; its meaning is proved by the two lemmas below |
| Api.LookupFindsFirstMatch | Scripts/TrelloAPI.cs:83-88 | the first record with the exact name wins; later duplicates are ignored |
| Api.LookupMatchesName | Scripts/TrelloAPI.cs:83-92 | the lookup misses exactly when no record has the name; a hit is the id of the first record that does |
| Api.FindByName | Scripts/TrelloAPI.cs:83-89 | the indexed scan with early return finds the first record with the exact name, or none when no record has it |
| Api.UploadForm | Scripts/TrelloAPI.cs:177-185 | (function, no contract) the parts of the upload form; its meaning is proved by the lemmas below |
| Api.UploadFormKeys | Scripts/TrelloAPI.cs:177-185 | the form keys are name, desc, due, idList, urlSource in that order, then fileSource exactly when both fileSource and fileName are set |
| Api.UploadFormReadsBack | Scripts/TrelloAPI.cs:177-185 | every card field is read back verbatim from the form by name; an attachment with only one half set is dropped |
| Api.UploadFormLossless | Scripts/TrelloAPI.cs:183-185 | a card whose attachment halves agree is read back unchanged |
| Api.TrelloApi.constructor | Scripts/TrelloAPI.cs:35-39 | keeps the key and token; caches and selections start absent |
| Api.TrelloApi.PopulateBoards | Scripts/TrelloAPI.cs:57-71 | issues the boards GET; the cache becomes the fetched boards on success (absent for a null field) and absent (never stale) on failure; nothing else changes |
| Api.TrelloApi.SetCurrentBoard | Scripts/TrelloAPI.cs:77-93 | no cache: raises and changes nothing; otherwise the board selection becomes the first exact match, and a miss clears it and raises; only the board selection can change |
| Api.TrelloApi.PopulateLists | Scripts/TrelloAPI.cs:99-118 | clears the lists cache first; no selected board: raises with no request; otherwise GETs that board's lists with the boards contract |
| Api.TrelloApi.SetCurrentList | Scripts/TrelloAPI.cs:124-140 | SetCurrentBoard's contract on the lists cache and the list selection |
| Api.TrelloApi.GetCurrentListId | Scripts/TrelloAPI.cs:146-152 | returns the selected list id; raises exactly when none is selected |
| Api.TrelloApi.UploadCard | Scripts/TrelloAPI.cs:175-196 | posts the card's upload form to the card URL; returns the card unchanged exactly when the request has no error, else raises |
| Api.ReselectBoardIsStable | Scripts/TrelloAPI.cs:83-92 | selecting the same board name twice on an unchanged cache gives the same outcome and selection |
| Api.ReselectListIsStable | Scripts/TrelloAPI.cs:130-139 | the same for list names |
| Send.Pipeline | Scripts/TrelloSend.cs:62-76 | (function, no contract) one send step by step: its result and the requests it issues; the lemmas below state its properties |
| Send.RequestsInStepOrder | Scripts/TrelloSend.cs:62-76 | a send fetches boards first, issues at most three requests, and only the last can be the upload |
| Send.UploadFollowsResolution | Scripts/TrelloSend.cs:62-76 | when both names resolve: boards GET, then the resolved board's lists GET, then the upload with idList equal to the resolved list id; success returns the stamped card exactly when the upload succeeds |
| Send.NoUploadWithoutResolution | Scripts/TrelloSend.cs:65-73 | when the names do not both resolve, the send fails and issues no upload |
| Send.BoardsStepFailureEndsSend | Scripts/TrelloSend.cs:65-66 | a failed boards fetch, a null `boards` field or a board miss ends the send after the boards request alone, with that step's own error unchanged |
| Send.ListsStepFailureEndsSend | Scripts/TrelloSend.cs:69-70 | once the board resolved, a failed lists fetch, a null `lists` field or a list miss ends the send after the boards and lists requests, with that step's own error unchanged |
| Send.ListsFetchFailureAbortsSend | Scripts/TrelloSend.cs:69-70 | a failed lists fetch ends the send with that error unchanged, after two requests and no upload |
| Send.TrelloSend.constructor | Scripts/TrelloSend.cs:15-25 | holds the credentials and the default board and list |
| Send.TrelloSend.SetKey | Scripts/TrelloSend.cs:27-29 | the key setter replaces the key only |
| Send.TrelloSend.SetToken | Scripts/TrelloSend.cs:31-33 | the token setter replaces the token only |
| Send.TrelloSend.Start | Scripts/TrelloSend.cs:35-39 | raises exactly when the key or the token is null or empty |
| Send.TrelloSend.SendNewCard | Scripts/TrelloSend.cs:47-57 | a null board becomes the default board and a null list the default list; the board name goes to board selection and the list name to list selection |
| Send.TrelloSend.SendInternal | Scripts/TrelloSend.cs:59-77 | the step-by-step send on a fresh client returns and issues exactly what `Pipeline` does |

## Left out

- HTTP transport: the `WWW` object and its busy-wait are a `transport` parameter that answers each request with its final state. The polling loop itself appears only in the finding below.
- JSON decoding (MiniJSON is not part of this model): replies arrive decoded. Every board and list record has a string `id` and `name`. A record missing either key, which makes the scan throw part-way, is not modelled.
- Multipart encoding of the form by Unity: only the ordered list of parts is modelled.
- Coroutines and the `MonoBehaviour` lifecycle. `SendNewCard` returns the outcome of the whole send rather than starting a coroutine whose exception Unity logs.
- Aliasing of the card: the source stamps `idList` on the caller's card object, so the caller sees the stamp even when the upload then fails. The model returns the stamped card only on success.
- Null text fields on a card, and null default board or list names: they are modelled as strings. Unity serializes the defaults as "".
- `Debug.Log`: logging only.
- The upload's response body: the source ignores it, so the remote-assigned card id is not captured.
- Scripts/TrelloException.cs: its constructors carry no logic and map to `Errors.TrelloError`.
- Demo/TrelloDemoCard.cs and Demo/RotateAround.cs: UI reading, screenshot capture and transform rotation, outside the client.

## Findings

| source | as written | input that shows it | evidently intended | confidence | as-written member | corrected member |
|---|---|---|---|---|---|---|
| Scripts/TrelloAPI.cs:190-192 (also :63-65, :110-112) | the request's error is checked only inside `while (!www.isDone)`, so an error present once the request is done is never checked; `UploadCard` then reports the card as sent | a request that is already done with error "401 Unauthorized" at the first poll | the error raises "Could not upload the Trello card.: 401 Unauthorized" | medium, not executed | Web.CompletedErrorIsMissed | Web.CompletedErrorIsReported |

The client in `Api` applies the corrected check: a `Reply` is the request once done, and a
non-empty error in it raises.
