/** The wire between the two tiers: what the frontend's `request` makes of
    the answers the backend's update handler gives. */
module Wire {
  import opened Wrappers
  import opened JsonValues
  import Api
  import Products
  import ProductPage

  /** A backend answer as `fetch` sees it: `ok` for 2xx, the JSON body
      parsed, and the reason phrase the server sent. */
  function Transmit(answer: Products.ApiResponse, statusText: string): (response: Api.Response)
    ensures response.status == answer.status && response.statusText == statusText
    ensures response.ok <==> 200 <= answer.status < 300
    ensures response.body == Some(JObj(answer.body))
  {
    Api.Response(answer.status, 200 <= answer.status < 300, statusText, Some(JObj(answer.body)))
  }

  /** A successful update reaches the page as the `{id, fields}` object,
      and the page's buffer then shows exactly the merged fields. */
  lemma UpdateAnswerReachesPage(pk: int, merged: map<string, Json>, statusText: string)
    ensures Api.Classify(Api.Received(Transmit(Products.ApiResponse(Products.Ok200, Products.Represent(pk, JObj(merged))), statusText)))
            == Api.Done(JObj(Products.Represent(pk, JObj(merged))))
    ensures ProductPage.FieldsOrEmpty(JObj(Products.Represent(pk, JObj(merged)))) == JObj(merged)
  {
  }

  /** A 400 from the serializer is keyed by the field name, not `detail` or
      `error`, so the page shows the status text (or "Request failed")
      rather than the validation message. */
  lemma ValidationErrorShowsStatusText(errors: map<string, string>, statusText: string)
    requires errors.Keys == {"fields"}
    ensures Api.Classify(Api.Received(Transmit(Products.ApiResponse(Products.BadRequest400, Products.ErrorBody(errors)), statusText)))
            == Api.Failed(if statusText != "" then statusText else Api.RequestFailed)
  {
    var body := JObj(Products.ErrorBody(errors));
    assert "detail" !in body.members && "error" !in body.members;
  }
}
