/**
 * The Message schema (server/models/Message.ts): two required user ids and a
 * `pre('validate')` hook demanding exactly one of `message` and `photoURL`.
 *
 * An optional string field is "" when absent: the hook tests truthiness, and
 * in JavaScript both a missing field and the empty string are falsy. Mongoose's
 * `required` validator likewise rejects a missing field and the empty string.
 */
module MessageModel {
  import opened Errors

  datatype MessageDocument = MessageDocument(fromUserId: string, toUserId: string, message: string, photoURL: string)

  /** The error the hook passes to `next`: a plain mongoose Error, not a ValidationError. */
  const ContentRuleMessage: string := "At least and only one field(message, photoURL) should be present"

  /** A field is present when it is truthy. */
  predicate Present(s: string)
  {
    s != ""
  }

  /** The schema's default message for a missing required path. */
  function RequiredMessage(path: string): string
  {
    "Path `" + path + "` is required."
  }

  /** What validating a document yields. */
  datatype ValidationOutcome =
    | Validated
    | HookRejected(message: string)            // the pre('validate') hook called next(err)
    | SchemaInvalid(entries: seq<ErrorEntry>)  // a ValidationError with these entries

  /**
   * The pre('validate') hook: rejects when both `message` and `photoURL` are
   * present or when neither is.
   */
  function PreValidate(d: MessageDocument): (r: ValidationOutcome)
    ensures r.Validated? || r == HookRejected(ContentRuleMessage)
    ensures r.Validated? <==> (Present(d.message) <==> !Present(d.photoURL))
  {
    if (Present(d.message) && Present(d.photoURL)) || (!Present(d.message) && !Present(d.photoURL)) then
      HookRejected(ContentRuleMessage)
    else
      Validated
  }

  /** The ValidatorErrors for the required paths `fromUserId` and `toUserId`, in schema order. */
  function RequiredErrors(d: MessageDocument): (entries: seq<ErrorEntry>)
    ensures |entries| == (if Present(d.fromUserId) then 0 else 1) + (if Present(d.toUserId) then 0 else 1)
    ensures forall e :: e in entries ==> e.ValidatorError? && e.message == RequiredMessage(e.path)
    ensures forall e :: e in entries ==> e.path == "fromUserId" || e.path == "toUserId"
    ensures HasValidatorFor(entries, "fromUserId") <==> !Present(d.fromUserId)
    ensures HasValidatorFor(entries, "toUserId") <==> !Present(d.toUserId)
  {
    var fromErrors := if Present(d.fromUserId) then [] else [ValidatorError("fromUserId", RequiredMessage("fromUserId"))];
    var toErrors := if Present(d.toUserId) then [] else [ValidatorError("toUserId", RequiredMessage("toUserId"))];
    var entries := fromErrors + toErrors;
    assert !Present(d.fromUserId) ==> ValidatorAt(entries, 0, "fromUserId");
    assert !Present(d.toUserId) ==> ValidatorAt(entries, |entries| - 1, "toUserId");
    entries
  }

  /**
   * Validation as mongoose runs it: the pre('validate') hook first; only if
   * it passes are the required paths checked.
   */
  function Validate(d: MessageDocument): (r: ValidationOutcome)
    ensures r.Validated? <==> Present(d.fromUserId) && Present(d.toUserId) && (Present(d.message) != Present(d.photoURL))
    ensures r.HookRejected? <==> Present(d.message) == Present(d.photoURL)
    ensures r.HookRejected? ==> r == HookRejected(ContentRuleMessage)
    ensures r.SchemaInvalid? ==> r.entries != [] && r.entries == RequiredErrors(d)
  {
    var hook := PreValidate(d);
    if hook.HookRejected? then hook
    else
      var entries := RequiredErrors(d);
      if entries == [] then Validated else SchemaInvalid(entries)
  }

  /** Both a text and a photo: rejected by the hook whatever the ids are. */
  lemma BothContentsRejected(fromUserId: string, toUserId: string, message: string, photoURL: string)
    requires Present(message) && Present(photoURL)
    ensures Validate(MessageDocument(fromUserId, toUserId, message, photoURL)) == HookRejected(ContentRuleMessage)
  {
  }

  /** An empty text counts as absent: an empty text without a photo is rejected by the hook. */
  lemma EmptyTextIsAbsent(fromUserId: string, toUserId: string)
    ensures Validate(MessageDocument(fromUserId, toUserId, "", "")) == HookRejected(ContentRuleMessage)
  {
  }
}
