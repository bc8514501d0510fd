/** The card payload (Scripts/TrelloCard.cs). */
module Cards {
  import opened Wrappers

  newtype byte = x: int | 0 <= x < 256

  /** A card to create on a list. `due` and `urlSource` are plain strings whose default is
      the four-letter text "null", not an absent value; `fileSource` and `fileName` are
      nullable and describe an optional attachment. */
  datatype Card = Card(
    name: string,
    desc: string,
    due: string,
    idList: string,
    urlSource: string,
    fileSource: Option<seq<byte>>,
    fileName: Option<string>)

  /** A card as the parameterless constructor leaves it. */
  function NewCard(): Card
  {
    Card("", "", "null", "", "null", None, None)
  }

  /** The card carries an attachment that the upload sends: both halves are set. */
  predicate HasAttachment(card: Card)
  {
    card.fileSource.Some? && card.fileName.Some?
  }

  /** Both halves of the attachment are set, or neither is. */
  predicate AttachmentConsistent(card: Card)
  {
    card.fileSource.Some? == card.fileName.Some?
  }
}
