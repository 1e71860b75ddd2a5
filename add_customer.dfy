/**
 * The Add Customer form: the country -> states table behind the State
 * select, the country change that swaps the list and clears the chosen
 * state, Submit (token check, post, message) and Cancel.
 *
 * The form's field values are a map from field name to value; a field that
 * is unset is absent from the map.
 */
module AddCustomer {
  import opened Wrappers
  import opened FormOutcome

  const Endpoint: string := "http://localhost:5000/api/v1/customers/create"
  const CreateFailed: string := "Error creating customer. Please try again."

  /** `countryStateMap`. */
  const CountryStateMap: map<string, seq<string>> := map[
    "india" := ["Maharashtra", "Karnataka", "Tamil Nadu", "Delhi", "Telangana", "AndhraPradesh"],
    "usa" := ["California", "Texas", "Florida", "New York"],
    "england" := ["Greater London", "West Midlands", "Greater Manchester", "Merseyside"]
  ]


  /** No state is listed twice under one country, so the select's keys are unique. */
  predicate NoDuplicates(s: seq<string>) {
    forall i, j :: 0 <= i < j < |s| ==> s[i] != s[j]
  }

  /** Each country's list is free of repeats, and no state belongs to two countries. */
  lemma StateTableWellFormed()
    ensures CountryStateMap.Keys == {"india", "usa", "england"}
    ensures forall c :: c in CountryStateMap ==> NoDuplicates(CountryStateMap[c])
    ensures forall c, d, s ::
      c in CountryStateMap && d in CountryStateMap && c != d && s in CountryStateMap[c] ==> s !in CountryStateMap[d]
  {
    var india, usa, england := CountryStateMap["india"], CountryStateMap["usa"], CountryStateMap["england"];
    assert NoDuplicates(india);
    assert NoDuplicates(usa);
    assert NoDuplicates(england);
    forall s | s in india ensures s !in usa && s !in england {}
    forall s | s in usa ensures s !in india && s !in england {}
    forall s | s in england ensures s !in india && s !in usa {}
  }

  /**
   * `countryStateMap[value]`: undefined (None) for a country the table lacks.
   * A list it gives repeats no state, and none of its states is listed under
   * another country.
   */
  function StatesFor(country: string): (r: Option<seq<string>>)
    ensures r.Some? <==> country in CountryStateMap
    ensures r.Some? ==> r.value == CountryStateMap[country] && NoDuplicates(r.value)
    ensures r.Some? ==> forall d, s :: d in CountryStateMap && d != country && s in r.value ==> s !in CountryStateMap[d]
  {
    StateTableWellFormed();
    if country in CountryStateMap then Some(CountryStateMap[country]) else None
  }

  class AddCustomerForm {
    /** The options of the State select. */
    var states: Option<seq<string>>
    /** `responseMessage`; None when the server's success message was undefined. */
    var responseMessage: Option<string>
    var fields: map<string, string>
    /** Every request posted so far, oldest first. */
    var posted: seq<PostRequest>

    /** The form on mount: the Indian states, an empty message and no values. */
    constructor ()
      ensures states == StatesFor("india") && states.Some? && |states.value| == 6
      ensures responseMessage == Some("") && !Shown(responseMessage)
      ensures fields == map[] && posted == []
    {
      states := StatesFor("india");
      responseMessage := Some("");
      fields := map[];
      posted := [];
    }

    /** The user filling in one field. */
    method SetField(name: string, value: string)
      modifies this`fields
      ensures fields == old(fields)[name := value]
    {
      fields := fields[name := value];
    }

    /** Whether the message line is rendered. */
    predicate MessageShown()
      reads this
    {
      Shown(responseMessage)
    }

    /**
     * `onFinish` once the post has settled: without a token nothing is
     * posted and the login message is set; otherwise the values are posted
     * with the bearer token and the outcome picks the message.
     */
    method OnFinish(token: Option<string>, outcome: SubmitOutcome)
      modifies this`responseMessage, this`posted
      ensures responseMessage == SubmitMessage(token, outcome, CreateFailed)
      ensures !TokenPresent(token) ==> posted == old(posted)
      ensures TokenPresent(token) ==> posted == old(posted) + [BearerRequest(Endpoint, fields, token.value)]
    {
      if TokenPresent(token) {
        posted := posted + [BearerRequest(Endpoint, fields, token.value)];
      }
      responseMessage := SubmitMessage(token, outcome, CreateFailed);
    }

    /** `onCancel`: reset every field and clear the message; the state list is kept. */
    method OnCancel()
      modifies this`fields, this`responseMessage
      ensures fields == map[]
      ensures responseMessage == Some("") && !MessageShown()
    {
      fields := map[];
      responseMessage := Some("");
    }

    /** `handleCountryChange`: show the new country's states and unset the chosen state. */
    method HandleCountryChange(value: string)
      modifies this`states, this`fields
      ensures states == StatesFor(value)
      ensures "state" !in fields
      ensures forall name :: name in old(fields) && name != "state" ==> name in fields && fields[name] == old(fields)[name]
      ensures forall name :: name in fields ==> name in old(fields)
    {
      states := StatesFor(value);
      fields := fields - {"state"};
    }
  }

  /**
   * Picking a state, then switching country, posts the values without the
   * stale state. On the page, the State field's required rule would stop
   * this `onFinish` until a new state is picked; validation is not part of
   * this model, so the sequence runs through here.
   */
  method SwitchCountryBeforeSubmit() returns (form: AddCustomerForm)
    ensures form.posted == [BearerRequest(Endpoint, map["name" := "Acme"], "t")]
    ensures form.states == StatesFor("usa")
    ensures form.responseMessage == Some("Done")
  {
    form := new AddCustomerForm();
    form.SetField("name", "Acme");
    form.SetField("state", "Delhi");
    form.HandleCountryChange("usa");
    assert form.fields == map["name" := "Acme"];
    form.OnFinish(Some("t"), Created(Some("Done")));
  }
}
