/** The feedback endpoint: the submission validator, and the order in which
    the handler validates, builds and saves the Feedback document. */
module FeedbackController {
  import opened JsValues
  import opened RecipeTypes

  const FutureInterests: seq<string> := ["interested", "notInterested", "requestChange"]

  /** The number a relational comparison reads from a value, `None` for
      NaN. `null` is 0 and booleans are 0 and 1; a string, array or object is
      converted by JavaScript's `ToNumber`, which is a parameter here. */
  function ComparedNumber(v: Value, toNumber: Value -> Option<real>): (r: Option<real>)
    ensures v.Num? ==> r == Some(v.n)
    ensures v.Null? ==> r == Some(0.0)
    ensures v.Undefined? ==> r.None?
  {
    match v
    case Num(n) => Some(n)
    case Null => Some(0.0)
    case Bool(b) => Some(if b then 1.0 else 0.0)
    case Undefined => None
    case _ => toNumber(v)
  }

  /** `rating !== undefined && (rating < 1 || rating > 5)` is false: both
      comparisons are false for NaN. */
  predicate RatingAllowed(rating: Value, toNumber: Value -> Option<real>) {
    rating.Undefined?
    || var n := ComparedNumber(rating, toNumber); n.None? || 1.0 <= n.value <= 5.0
  }

  /** `validateFeedbackInput`. */
  predicate ValidFeedbackInput(body: Value, toNumber: Value -> Option<real>) {
    var recipeId := Prop(body, "recipeId");
    var reasons := Prop(body, "reasons");
    var comment := Prop(body, "comment");
    Truthy(recipeId) && recipeId.Str?
    && reasons.Arr? && |reasons.items| > 0
    && Prop(body, "futureInterest").Str? && Prop(body, "futureInterest").s in FutureInterests
    && RatingAllowed(Prop(body, "rating"), toNumber)
    && (!Truthy(comment) || comment.Str?)
  }

  /** For an absent or numeric rating the validator accepts exactly a
      non-empty string recipe id, a non-empty array of reasons, one of the
      three interest values, a rating inside 1..5 and a comment that is a
      string or falsy. */
  lemma ValidFeedbackInputIff(body: Value, toNumber: Value -> Option<real>)
    requires Prop(body, "rating").Undefined? || Prop(body, "rating").Num?
    ensures ValidFeedbackInput(body, toNumber) <==>
      Prop(body, "recipeId").Str? && Prop(body, "recipeId").s != ""
      && Prop(body, "reasons").Arr? && Prop(body, "reasons").items != []
      && Prop(body, "futureInterest") in [Str("interested"), Str("notInterested"), Str("requestChange")]
      && (Prop(body, "rating").Num? ==> 1.0 <= Prop(body, "rating").n <= 5.0)
      && (Prop(body, "comment").Str? || Prop(body, "comment") in [Undefined, Null, Bool(false), Num(0.0)])
  {
  }

  /** A numeric rating passes exactly inside 1..5 inclusive; an absent one
      always; `null` never, since it compares as 0. */
  lemma RatingRange(body: Value, toNumber: Value -> Option<real>)
    ensures Prop(body, "rating").Num? ==>
      (RatingAllowed(Prop(body, "rating"), toNumber) <==> 1.0 <= Prop(body, "rating").n <= 5.0)
    ensures Prop(body, "rating").Undefined? ==> RatingAllowed(Prop(body, "rating"), toNumber)
    ensures Prop(body, "rating").Null? ==> !ValidFeedbackInput(body, toNumber)
  {
  }

  /** An empty, missing or non-array list of reasons is refused, and so is
      an empty or non-string recipe id. */
  lemma ReasonsAndIdRequired(body: Value, toNumber: Value -> Option<real>)
    ensures !Prop(body, "reasons").Arr? || Prop(body, "reasons").items == [] ==> !ValidFeedbackInput(body, toNumber)
    ensures !Prop(body, "recipeId").Str? || Prop(body, "recipeId").s == "" ==> !ValidFeedbackInput(body, toNumber)
  {
  }

  /** The validator reads no comment length: replacing one string comment
      by any other, however long, never changes the verdict; the 1000
      character limit lives only in the persistence schema. */
  lemma CommentLengthIgnored(body: Value, c: string, d: string, toNumber: Value -> Option<real>)
    requires body.Obj?
    ensures ValidFeedbackInput(SetProp(body, "comment", Str(c)), toNumber)
            <==> ValidFeedbackInput(SetProp(body, "comment", Str(d)), toNumber)
  {
  }

  /** The document the handler saves: the submitted fields as they came,
      and the request's user agent and address. */
  datatype FeedbackDocument = FeedbackDocument(
    recipeId: Value,
    reasons: Value,
    comment: Value,
    futureInterest: Value,
    rating: Value,
    userAgent: Option<string>,
    ipAddress: Option<string>)

  function DocumentOf(body: Value, userAgent: Option<string>, ipAddress: Option<string>): FeedbackDocument {
    FeedbackDocument(Prop(body, "recipeId"), Prop(body, "reasons"), Prop(body, "comment"),
      Prop(body, "futureInterest"), Prop(body, "rating"), userAgent, ipAddress)
  }

  const InvalidFeedbackMessage: string := "無効なフィードバックデータです"

  /** How a submission ends: 201 with the new document's id, the 400 of the
      validator, or the save's own failure passed on to the error handler. */
  datatype Submission = Created(status: nat, id: string) | Rejected(error: AppError) | SaveFailed

  /** The Feedback collection. */
  class FeedbackCollection {
    var documents: seq<FeedbackDocument>

    constructor()
      ensures documents == []
    {
      documents := [];
    }

    /** `submitFeedback`: the body is validated before any document is
        built, so a refused body leaves the collection untouched. The save
        outcome (schema checks, database errors) and the new id are
        parameters. */
    method SubmitFeedback(body: Value, toNumber: Value -> Option<real>, userAgent: Option<string>,
                          ipAddress: Option<string>, saveSucceeds: bool, newId: string)
      returns (r: Submission)
      modifies this
      ensures !ValidFeedbackInput(body, toNumber) ==>
                r == Rejected(AppError(InvalidFeedbackMessage, 400)) && documents == old(documents)
      ensures ValidFeedbackInput(body, toNumber) && saveSucceeds ==>
                r == Created(201, newId) && documents == old(documents) + [DocumentOf(body, userAgent, ipAddress)]
      ensures ValidFeedbackInput(body, toNumber) && !saveSucceeds ==> r == SaveFailed && documents == old(documents)
    {
      if !ValidFeedbackInput(body, toNumber) {
        return Rejected(AppError(InvalidFeedbackMessage, 400));
      }
      var document := DocumentOf(body, userAgent, ipAddress);
      if !saveSucceeds {
        return SaveFailed;
      }
      documents := documents + [document];
      r := Created(201, newId);
    }
  }
}
