/** The frontend's API client (frontend/lib/api.js): one `request`
    pipeline that turns an HTTP exchange into a value or an error message,
    and the four product operations built on it. The network is not
    modelled: an operation is the request it hands to `fetch`, and the
    answer `fetch` gives back is a parameter of `Classify`. */
module Api {
  import opened Wrappers
  import opened JsonValues

  datatype Method = GET | POST | PUT | DELETE

  /** What `request` hands to `fetch`: the URL, the method (`verb`), the headers
      and the body (the value `JSON.stringify` serialises). */
  datatype HttpRequest = HttpRequest(url: string, verb: Method, headers: map<string, string>, body: Option<Json>)

  /** The parts of a `fetch` Response that `request` looks at. `body` is
      what `response.json()` yields, `None` when the text does not parse. */
  datatype Response = Response(status: int, ok: bool, statusText: string, body: Option<Json>)

  /** A `fetch` call either resolves with a response or rejects (network
      failure, DNS failure, abort) with an error carrying a message. */
  datatype Fetched = Received(response: Response) | Rejected(message: string)

  /** What `request` settles to: a value, or a thrown Error's message. */
  datatype Reply = Done(value: Json) | Failed(message: string)

  const NoContent := 204
  const ProductsPath := "/api/products/"
  const RequestFailed := "Request failed"
  const JsonHeaders: map<string, string> := map["Content-Type" := "application/json"]

  /** `API_BASE ? API_BASE + path : path`, where an unset base is "". */
  function Url(base: string, path: string): (url: string)
    ensures url == path <== base == ""
    ensures |url| == |base| + |path| && url[..|base|] == base && url[|base|..] == path
  {
    if base != "" then base + path else path
  }

  /** The `fetch` call `request(path, options)` makes: no caller passes
      headers, so the only header is the JSON content type. */
  function Outgoing(base: string, path: string, verb: Method, body: Option<Json>): (req: HttpRequest)
    ensures req.headers == JsonHeaders && req.url == Url(base, path)
    ensures req.verb == verb && req.body == body
  {
    HttpRequest(Url(base, path), verb, JsonHeaders, body)
  }

  /** `let data = null; try { data = await response.json() } catch { data = null }`. */
  function BodyOrNull(body: Option<Json>): Json {
    match body
    case Some(v) => v
    case None => JNull
  }

  /** `data.key` is present and truthy. */
  predicate HasTruthy(data: Json, key: string) {
    Prop(data, key).Some? && Truthy(Prop(data, key).value)
  }

  /** V8's message for the TypeError of converting an object without a
      callable `toString` to text. */
  const PrimitiveConversionFailed := "Cannot convert object to primitive value"

  /** The message of the error `new Error(v)` throws: `String(v)`, or, for
      a value that cannot be converted, that of the TypeError raised by
      the conversion, which `request` then rejects with instead. */
  function ThrownMessage(v: Json): (msg: string)
    ensures Printable(v) ==> msg == JsString(v)
    ensures !Printable(v) ==> msg == PrimitiveConversionFailed
  {
    if Printable(v) then JsString(v) else PrimitiveConversionFailed
  }

  /** The message of the Error thrown for a non-2xx response:
      `(data && (data.detail || data.error)) || statusText || "Request failed"`,
      converted to text by `new Error(...)`. */
  function ErrorText(data: Json, statusText: string): (msg: string)
    ensures HasTruthy(data, "detail") ==> msg == ThrownMessage(data.members["detail"])
    ensures !HasTruthy(data, "detail") && HasTruthy(data, "error")
      ==> msg == ThrownMessage(data.members["error"])
    ensures !HasTruthy(data, "detail") && !HasTruthy(data, "error")
      ==> msg == (if statusText != "" then statusText else RequestFailed)
  {
    var detail := Prop(data, "detail");
    var error := Prop(data, "error");
    if Truthy(data) && detail.Some? && Truthy(detail.value) then ThrownMessage(detail.value)
    else if Truthy(data) && error.Some? && Truthy(error.value) then ThrownMessage(error.value)
    else if statusText != "" then statusText
    else RequestFailed
  }

  /** `request` after its `fetch` settles: a rejection passes through;
      204 is `null` without looking at the body; otherwise the parsed body
      (or `null`) is the value of a 2xx response, and an error message is
      extracted from it for any other status. */
  function Classify(f: Fetched): (r: Reply)
    ensures r.Failed? <==> f.Rejected? || (f.response.status != NoContent && !f.response.ok)
    ensures f.Rejected? ==> r.message == f.message
    ensures f.Received? && f.response.status != NoContent && f.response.ok
      ==> r.value == BodyOrNull(f.response.body)
    ensures f.Received? && f.response.status != NoContent && !f.response.ok
      ==> r.message == ErrorText(BodyOrNull(f.response.body), f.response.statusText)
  {
    match f
    case Rejected(message) => Failed(message)
    case Received(response) =>
      if response.status == NoContent then Done(JNull)
      else
        var data := BodyOrNull(response.body);
        if !response.ok then Failed(ErrorText(data, response.statusText))
        else Done(data)
  }

  /** A 204 answer is `null` whatever its body and flags: the body is
      never read. */
  lemma NoContentIgnoresBody(response: Response, body: Option<Json>, ok: bool, statusText: string)
    requires response.status == NoContent
    ensures Classify(Received(response)) == Done(JNull)
    ensures Classify(Received(response.(body := body, ok := ok, statusText := statusText)))
            == Classify(Received(response))
  {
  }

  /** A 2xx answer (other than 204) yields its parsed body unchanged, and
      `null` when the body does not parse: a parse failure is not an error. */
  lemma SuccessPassesBodyThrough(response: Response)
    requires response.ok && response.status != NoContent
    ensures response.body.Some? ==> Classify(Received(response)) == Done(response.body.value)
    ensures response.body.None? ==> Classify(Received(response)) == Done(JNull)
  {
  }

  /** A non-2xx answer always fails. With a body that does not parse the
      message is the status text, or "Request failed" when that is empty;
      with `{"detail": "X"}` it is exactly "X". */
  lemma FailureMessages(response: Response)
    requires !response.ok && response.status != NoContent
    ensures Classify(Received(response)).Failed?
    ensures response.body.None? ==>
      Classify(Received(response)).message == (if response.statusText != "" then response.statusText else RequestFailed)
    ensures (response.body.Some? && response.body.value.JObj?
             && "detail" in response.body.value.members
             && response.body.value.members["detail"].JStr?
             && response.body.value.members["detail"].s != "")
              ==> Classify(Received(response)).message == response.body.value.members["detail"].s
    ensures (response.body.Some? && response.body.value.JObj?
             && "detail" in response.body.value.members
             && response.body.value.members["detail"].JObj?
             && "toString" in response.body.value.members["detail"].members)
              ==> Classify(Received(response)).message == PrimitiveConversionFailed
  {
  }

  /** Every reply can come out of `request`: any value from a 2xx answer,
      any message from a rejected `fetch`. So the state manager, which
      takes replies as its inputs, loses no behaviour of the pipeline. */
  lemma EveryReplyArises(r: Reply)
    ensures exists f :: Classify(f) == r
  {
    match r
    case Done(v) =>
      assert Classify(Received(Response(200, true, "OK", Some(v)))) == r;
    case Failed(m) =>
      assert Classify(Rejected(m)) == r;
  }

  /** An error message is empty only when the server sent a truthy
      `detail` or `error` whose text is empty (an empty array, say) or when
      `fetch` rejected with an empty message: a string `detail`/`error`, a
      status text or the generic fallback is never empty. */
  lemma EmptyMessageSources(f: Fetched)
    requires Classify(f) == Failed("")
    ensures f.Rejected? || (f.response.body.Some? && f.response.body.value.JObj?
              && exists k :: k in {"detail", "error"} && k in f.response.body.value.members
                   && Truthy(f.response.body.value.members[k])
                   && !f.response.body.value.members[k].JStr?)
  {
    if f.Received? {
      var data := BodyOrNull(f.response.body);
      var detail := Prop(data, "detail");
      if detail.Some? && Truthy(detail.value) {
        assert "detail" in {"detail", "error"};
      } else {
        assert "error" in {"detail", "error"};
      }
    }
  }

  /** `/api/products/${id}/`: the identifier interpolated verbatim, as a
      template literal prints it (`undefined` when the product has no id). */
  function ProductPath(id: Option<Json>): (path: string)
    ensures |path| > |ProductsPath| && path[..|ProductsPath|] == ProductsPath && path[|path| - 1] == '/'
  {
    ProductsPath + (match id case Some(v) => JsString(v) case None => "undefined") + "/"
  }

  /** Between the prefix and the trailing slash sits exactly the id's
      text, `undefined` for a missing id. */
  lemma ProductPathHoldsId(id: Option<Json>)
    ensures ProductPath(id)[|ProductsPath|..|ProductPath(id)| - 1]
            == (match id case Some(v) => JsString(v) case None => "undefined")
  {
  }

  /** `fetchProducts()`: GET the collection. */
  function FetchProducts(base: string): (req: HttpRequest)
    ensures req == HttpRequest(Url(base, ProductsPath), GET, JsonHeaders, None)
  {
    Outgoing(base, ProductsPath, GET, None)
  }

  /** `createProduct(fields)`: POST `{fields}` to the collection. */
  function CreateProduct(base: string, fields: Json): (req: HttpRequest)
    ensures req == HttpRequest(Url(base, ProductsPath), POST, JsonHeaders, Some(JObj(map["fields" := fields])))
  {
    Outgoing(base, ProductsPath, POST, Some(JObj(map["fields" := fields])))
  }

  /** `updateProduct(id, fields)`: PUT `{fields}` to the product's path. */
  function UpdateProduct(base: string, id: Option<Json>, fields: Json): (req: HttpRequest)
    ensures req == HttpRequest(Url(base, ProductPath(id)), PUT, JsonHeaders, Some(JObj(map["fields" := fields])))
  {
    Outgoing(base, ProductPath(id), PUT, Some(JObj(map["fields" := fields])))
  }

  /** `deleteProduct(id)`: DELETE the product's path, with no body. */
  function DeleteProduct(base: string, id: Option<Json>): (req: HttpRequest)
    ensures req == HttpRequest(Url(base, ProductPath(id)), DELETE, JsonHeaders, None)
  {
    Outgoing(base, ProductPath(id), DELETE, None)
  }

  /** Numeric identifiers address distinct paths: an update or delete of
      product `a` never reaches product `b`. */
  lemma DistinctIdsDistinctPaths(base: string, a: int, b: int)
    requires a != b
    ensures DeleteProduct(base, Some(JNum(a))).url != DeleteProduct(base, Some(JNum(b))).url
    ensures UpdateProduct(base, Some(JNum(a)), JNull).url != UpdateProduct(base, Some(JNum(b)), JNull).url
  {
    var pa, pb := ProductPath(Some(JNum(a))), ProductPath(Some(JNum(b)));
    var da, db := DecimalString(a), DecimalString(b);
    if Url(base, pa) == Url(base, pb) {
      assert pa == Url(base, pa)[|base|..];
      assert pa == pb;
      assert da == pa[|ProductsPath|..|pa| - 1];
      assert db == pb[|ProductsPath|..|pb| - 1];
      DecimalStringInjective(a, b);
    }
  }

  /** The paths of the test suite: delete of 5 and update of 2 against the
      base `http://localhost:8000`. */
  lemma ExamplePaths()
    ensures DeleteProduct("http://localhost:8000", Some(JNum(5))).url == "http://localhost:8000/api/products/5/"
    ensures UpdateProduct("http://localhost:8000", Some(JNum(2)), JNull).url == "http://localhost:8000/api/products/2/"
    ensures CreateProduct("", JNull).url == "/api/products/"
  {
  }
}
