/**
 * The Add Product form: Submit (token check, post, message) and Cancel.
 * The form's field values are a map from field name to value.
 */
module AddProduct {
  import opened Wrappers
  import opened FormOutcome

  const Endpoint: string := "http://localhost:5000/api/v1/products/create"
  const AddFailed: string := "Error adding Product. Please try again."

  class AddProductForm {
    /** `responseMessage`; None when the server's success message was undefined. */
    var responseMessage: Option<string>
    var fields: map<string, string>
    /** Every request posted so far, oldest first. */
    var posted: seq<PostRequest>

    /** The form on mount: an empty message and no values. */
    constructor ()
      ensures responseMessage == Some("") && !Shown(responseMessage)
      ensures fields == map[] && posted == []
    {
      responseMessage := Some("");
      fields := map[];
      posted := [];
    }

    /** The user filling in one field. */
    method SetField(name: string, value: string)
      modifies this`fields
      ensures fields == old(fields)[name := value]
    {
      fields := fields[name := value];
    }

    /** Whether the message line is rendered. */
    predicate MessageShown()
      reads this
    {
      Shown(responseMessage)
    }

    /**
     * `onFinish` once the post has settled: without a token nothing is
     * posted and the login message is set; otherwise the values are posted
     * with the bearer token and the outcome picks the message.
     */
    method OnFinish(token: Option<string>, outcome: SubmitOutcome)
      modifies this`responseMessage, this`posted
      ensures responseMessage == SubmitMessage(token, outcome, AddFailed)
      ensures !TokenPresent(token) ==> posted == old(posted)
      ensures TokenPresent(token) ==> posted == old(posted) + [BearerRequest(Endpoint, fields, token.value)]
    {
      if TokenPresent(token) {
        posted := posted + [BearerRequest(Endpoint, fields, token.value)];
      }
      responseMessage := SubmitMessage(token, outcome, AddFailed);
    }

    /** `onCancel`: reset every field and clear the message. */
    method OnCancel()
      modifies this`fields, this`responseMessage
      ensures fields == map[]
      ensures responseMessage == Some("") && !MessageShown()
    {
      fields := map[];
      responseMessage := Some("");
    }
  }

  /**
   * A submit without a token, then one whose server answers with an empty
   * message body: one request is posted and no message is shown.
   */
  method SubmitTwice() returns (form: AddProductForm)
    ensures form.posted == [BearerRequest(Endpoint, map["name" := "Widget"], "t")]
    ensures form.responseMessage == Some("") && !form.MessageShown()
  {
    form := new AddProductForm();
    form.SetField("name", "Widget");
    form.OnFinish(None, Created(Some("ignored")));
    assert form.responseMessage == Some(MissingToken);
    form.OnFinish(Some("t"), Created(Some("")));
  }
}
