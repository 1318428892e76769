/** The backend's product resource (backend/products): the model's label
    and default, the serializer's validation of `fields`, the `{id, fields}`
    representation, and the PUT handler that merges incoming `fields` into
    the stored ones. Persistence, routing and timestamps are not modelled. */
module Products {
  import opened Wrappers
  import opened JsonValues

  const NotDictMessage := "fields must be a JSON object (dictionary)."
  /** The messages Django REST framework itself gives a `null` and a
      missing value of a required field. */
  const NullMessage := "This field may not be null."
  const RequiredMessage := "This field is required."

  const Ok200 := 200
  const BadRequest400 := 400

  /** Python truthiness: `None`, `False`, `0`, `""`, `[]` and `{}` are
      falsy. */
  predicate PyTruthy(v: Json) {
    match v
    case JNull => false
    case JBool(b) => b
    case JNum(n) => n != 0
    case JStr(s) => s != ""
    case JArr(items) => items != []
    case JObj(members) => members != map[]
  }

  /** `Product.__str__`: the name when it is a non-empty string, otherwise
      "Product <pk>". */
  function Label(fields: map<string, Json>, pk: int): (s: string)
    ensures "name" in fields && fields["name"].JStr? && fields["name"].s != "" ==> s == fields["name"].s
    ensures !("name" in fields && fields["name"].JStr? && fields["name"].s != "") ==> s == "Product " + DecimalString(pk)
  {
    var name := if "name" in fields then Some(fields["name"]) else None;
    if name.Some? && name.value.JStr? && name.value.s != "" then name.value.s
    else "Product " + DecimalString(pk)
  }

  /** A product with the default (empty) fields prints as "Product <pk>",
      and so does one whose name is empty or not a string. */
  lemma LabelFallbacks(pk: int, other: Json)
    requires !other.JStr?
    ensures Label(map[], pk) == "Product " + DecimalString(pk)
    ensures Label(map["name" := JStr("")], pk) == "Product " + DecimalString(pk)
    ensures Label(map["name" := other], pk) == "Product " + DecimalString(pk)
  {
  }

  /** Two products without a usable name never share a label: the
      fallback tells them apart by primary key. */
  lemma FallbackLabelsDistinct(f: map<string, Json>, g: map<string, Json>, a: int, b: int)
    requires !("name" in f && f["name"].JStr? && f["name"].s != "")
    requires !("name" in g && g["name"].JStr? && g["name"].s != "")
    requires a != b
    ensures Label(f, a) != Label(g, b)
  {
    var prefix := "Product ";
    if Label(f, a) == Label(g, b) {
      assert DecimalString(a) == Label(f, a)[|prefix|..];
      assert DecimalString(b) == Label(g, b)[|prefix|..];
      DecimalStringInjective(a, b);
    }
  }

  /** `ProductSerializer.validate_fields`: a dict is accepted unchanged;
      any other value is rejected. */
  function ValidateFields(value: Json): (r: Result<map<string, Json>, string>)
    ensures r.Success? <==> value.JObj?
    ensures r.Success? ==> value == JObj(r.value)
    ensures r.Failure? ==> r.error == NotDictMessage
  {
    if value.JObj? then Success(value.members) else Failure(NotDictMessage)
  }

  /** Validation of a request body by `ProductSerializer`: `id` is
      read-only and ignored; `fields` must be present unless the update is
      partial, must not be `null`, and must be a dict. Errors are keyed by
      the field name. Success carries the validated `fields`, if any. */
  function ValidatePayload(data: map<string, Json>, partial: bool): (r: Result<Option<map<string, Json>>, map<string, string>>)
    ensures r.Failure? ==> r.error.Keys == {"fields"}
    ensures r.Success? && r.value.Some? ==> "fields" in data && data["fields"] == JObj(r.value.value)
    ensures r.Success? && r.value.None? <==> "fields" !in data && partial
    ensures "fields" in data && data["fields"].JObj? ==> r == Success(Some(data["fields"].members))
  {
    if "fields" !in data then
      if partial then Success(None) else Failure(map["fields" := RequiredMessage])
    else if data["fields"] == JNull then Failure(map["fields" := NullMessage])
    else
      match ValidateFields(data["fields"])
      case Success(m) => Success(Some(m))
      case Failure(msg) => Failure(map["fields" := msg])
  }

  /** A client-supplied `id` has no effect on validation. */
  lemma ClientIdIgnored(data: map<string, Json>, partial: bool, id: Json)
    ensures ValidatePayload(data["id" := id], partial) == ValidatePayload(data - {"id"}, partial)
  {
    assert ("fields" in data["id" := id]) == ("fields" in data - {"id"});
  }

  /** The tests' rejected payloads: a list and a string. */
  lemma NonDictsRejected()
    ensures ValidatePayload(map["fields" := JArr([JStr("not"), JStr("a"), JStr("dict")])], false).Failure?
    ensures "fields" in ValidatePayload(map["fields" := JStr("string")], false).error
  {
  }

  /** The serializer's output: exactly `id` and `fields`. */
  function Represent(pk: int, fields: Json): (body: map<string, Json>)
    ensures body.Keys == {"id", "fields"}
    ensures body["id"] == JNum(pk) && body["fields"] == fields
  {
    map["id" := JNum(pk), "fields" := fields]
  }

  /** `dict(instance.fields or {})` for stored fields that are a dict or
      falsy. */
  function StoredDict(fields: Json): (m: map<string, Json>)
    requires fields.JObj? || !PyTruthy(fields)
    ensures fields.JObj? ==> m == fields.members
    ensures !fields.JObj? ==> m == map[]
  {
    if fields.JObj? then fields.members else map[]
  }

  /** `merged.update(incoming)`: a shallow, right-biased merge. */
  function Merge(stored: map<string, Json>, incoming: map<string, Json>): (merged: map<string, Json>)
    ensures merged.Keys == stored.Keys + incoming.Keys
    ensures forall k :: k in incoming ==> merged[k] == incoming[k]
    ensures forall k :: k in stored && k !in incoming ==> merged[k] == stored[k]
  {
    stored + incoming
  }

  /** Applying the same update twice stores what applying it once does. */
  lemma MergeIdempotent(stored: map<string, Json>, incoming: map<string, Json>)
    ensures Merge(Merge(stored, incoming), incoming) == Merge(stored, incoming)
  {
  }

  /** The merge is shallow: a nested object sent under a key replaces the
      stored one wholesale, keeping none of its members. */
  lemma MergeIsShallow(stored: map<string, Json>, key: string, nested: map<string, Json>)
    requires key in stored && stored[key].JObj?
    ensures Merge(stored, map[key := JObj(nested)])[key] == JObj(nested)
  {
  }

  /** The test of the merge: `{"price": 26000}` over
      `{"name": "Ultramie", "price": 25000, "stock": 10}`. */
  lemma MergeExample()
    ensures Merge(map["name" := JStr("Ultramie"), "price" := JNum(25000), "stock" := JNum(10)],
                  map["price" := JNum(26000)])
            == map["name" := JStr("Ultramie"), "price" := JNum(26000), "stock" := JNum(10)]
  {
  }

  /** An HTTP answer of the API: status and JSON body. */
  datatype ApiResponse = ApiResponse(status: int, body: map<string, Json>)

  /** DRF's error body: each message in a one-element list. */
  function ErrorBody(errors: map<string, string>): (body: map<string, Json>)
    ensures body.Keys == errors.Keys
  {
    map k | k in errors :: JArr([JStr(errors[k])])
  }

  /** A stored product. */
  class Product {
    const pk: int
    var fields: Json

    /** A new product: `fields = models.JSONField(default=dict)`. */
    constructor (pk: int)
      ensures this.pk == pk && fields == JObj(map[])
    {
      this.pk := pk;
      fields := JObj(map[]);
    }

    /** `ProductRetrieveUpdateDestroyAPIView.update`: validates the body as
        a partial update, merges the incoming `fields` into the stored ones,
        stores the result and answers 200 with `{id, fields}`; an invalid
        body is answered 400 and changes nothing. */
    method Update(data: map<string, Json>) returns (response: ApiResponse)
      requires fields.JObj? || !PyTruthy(fields)
      modifies this`fields
      ensures ValidatePayload(data, true).Failure? ==>
        && fields == old(fields)
        && response == ApiResponse(BadRequest400, ErrorBody(ValidatePayload(data, true).error))
      ensures ValidatePayload(data, true).Success? ==>
        var incoming := match ValidatePayload(data, true).value case Some(m) => m case None => map[];
        && fields == JObj(Merge(StoredDict(old(fields)), incoming))
        && response == ApiResponse(Ok200, Represent(pk, fields))
    {
      var validated := ValidatePayload(data, true);
      if validated.Failure? {
        return ApiResponse(BadRequest400, ErrorBody(validated.error));
      }
      var incoming := match validated.value case Some(m) => m case None => map[];
      var merged := StoredDict(fields);
      merged := merged + incoming;
      fields := JObj(merged);
      response := ApiResponse(Ok200, Represent(pk, fields));
    }
  }

  /** A partial update without `fields` keeps every stored key and value
      (an empty or missing stored value becomes `{}`). */
  lemma UpdateWithoutFields(stored: Json, data: map<string, Json>)
    requires stored.JObj? || !PyTruthy(stored)
    requires "fields" !in data
    ensures ValidatePayload(data, true) == Success(None)
    ensures Merge(StoredDict(stored), map[]) == StoredDict(stored)
  {
  }
}
