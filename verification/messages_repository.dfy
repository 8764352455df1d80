/**
 * server/repositories/messagesRepository.ts: `create` checks that the
 * recipient exists, builds a Message document from its input and saves it.
 *
 * The input's keys are `from`, `to` and `message`, but the Message schema's
 * paths are `fromUserId`, `toUserId`, `message` and `photoURL`. Mongoose's
 * strict mode drops keys the schema does not declare, so the document built
 * as written has neither user id and can never pass validation. The model
 * keeps that construction (BuildDocumentAsWritten) and the one the code
 * evidently means (BuildDocument), which `Create` uses.
 */
module MessagesRepository {
  import opened Wrappers
  import opened Errors
  import opened Store
  import opened MessageModel

  datatype CreateInput = CreateInput(from: string, to: string, message: string)

  /** `new Message(createInput)` as written: the unknown keys `from` and `to` are dropped. */
  function BuildDocumentAsWritten(input: CreateInput): (d: MessageDocument)
    ensures !Present(d.fromUserId) && !Present(d.toUserId)
    ensures d.message == input.message && !Present(d.photoURL)
  {
    MessageDocument("", "", input.message, "")
  }

  /** The document as intended: `from` and `to` stored under the schema's `fromUserId` and `toUserId`. */
  function BuildDocument(input: CreateInput): (d: MessageDocument)
    ensures d.fromUserId == input.from && d.toUserId == input.to
    ensures d.message == input.message && !Present(d.photoURL)
  {
    MessageDocument(input.from, input.to, input.message, "")
  }

  /**
   * As written, no input ever yields a savable document: without a text the
   * hook rejects it, and with one both required user ids are reported missing.
   */
  lemma AsWrittenNeverValidates(input: CreateInput)
    ensures !Validate(BuildDocumentAsWritten(input)).Validated?
    ensures input.message != "" ==>
              Validate(BuildDocumentAsWritten(input)) ==
              SchemaInvalid([ValidatorError("fromUserId", RequiredMessage("fromUserId")),
                             ValidatorError("toUserId", RequiredMessage("toUserId"))])
  {
  }

  /** The intended document validates exactly when sender, recipient and text are all non-empty. */
  lemma {:induction false} BuildDocumentValidates(input: CreateInput)
    ensures Validate(BuildDocument(input)).Validated? <==> input.from != "" && input.to != "" && input.message != ""
  {
  }

  /** An unknown recipient is reported as a validation error on the `to` field. */
  function RecipientNotFound(to: string): (e: GraphQLError)
    ensures e.message == ValidationErrorMessage
    ensures e.code == MongoDBValidationFailed && e.errors == Some(map["to" := "User with id " + to + " does not exist"])
  {
    GetCustomValidationError("to", "User with id " + to + " does not exist")
  }

  /**
   * create: the recipient must exist (the sender is never looked up); then
   * validation runs; a ValidationError is reported through getValidationError,
   * while the hook's plain Error and any other store failure are rethrown as
   * they came. On success exactly one Message is appended and returned.
   */
  method Create(db: Database, input: CreateInput, newId: string, now: int, saveFault: Option<StoreError>)
    returns (r: Result<Message, Failure>)
    requires db.Valid()
    modifies db
    ensures db.Valid()
    ensures !UserExists(old(db.users), input.to) ==> r == Failure(Reported(RecipientNotFound(input.to)))
    ensures UserExists(old(db.users), input.to) && Validate(BuildDocument(input)).HookRejected? ==>
              r == Failure(Rethrown(OtherFailure(ContentRuleMessage)))
    ensures UserExists(old(db.users), input.to) && Validate(BuildDocument(input)).SchemaInvalid? ==>
              r == Failure(Reported(GetValidationError(Validate(BuildDocument(input)).entries)))
    ensures UserExists(old(db.users), input.to) && Validate(BuildDocument(input)).Validated? && saveFault.Some? ==>
              r == Failure(CatchSaveError(saveFault.value))
    ensures r.Success? <==> UserExists(old(db.users), input.to) && Validate(BuildDocument(input)).Validated? && saveFault.None?
    ensures r.Success? ==> r.value == Message(newId, input.from, input.to, input.message, "", now)
    ensures r.Success? ==> db.messages == old(db.messages) + [r.value]
    ensures r.Failure? ==> db.messages == old(db.messages)
    ensures db.users == old(db.users) && db.posts == old(db.posts) && db.comments == old(db.comments)
    ensures db.postLikes == old(db.postLikes) && db.commentLikes == old(db.commentLikes)
  {
    if !UserExists(db.users, input.to) {
      return Failure(Reported(RecipientNotFound(input.to)));
    }
    var doc := BuildDocument(input);
    match Validate(doc)
    case HookRejected(m) =>
      return Failure(CatchSaveError(OtherFailure(m)));
    case SchemaInvalid(entries) =>
      return Failure(CatchSaveError(ValidationFailure(entries)));
    case Validated =>
      if saveFault.Some? {
        return Failure(CatchSaveError(saveFault.value));
      }
      var saved := Message(newId, doc.fromUserId, doc.toUserId, doc.message, doc.photoURL, now);
      db.messages := db.messages + [saved];
      r := Success(saved);
  }
}
