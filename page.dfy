/** The product registry page's state manager (frontend/app/page.jsx,
    lines 7-127): the derived filtered view, the validation of the edit
    buffer, and the handlers that update the seven pieces of React state.
    Each handler runs to completion here; the replies it would await are
    its parameters. */
module ProductPage {
  import opened Wrappers
  import opened JsonValues
  import opened JsText
  import Api

  /** What `JSON.parse` makes of a text: a value, or a SyntaxError with
      the parser's own message. The parser itself is a parameter of the
      page. */
  datatype ParseResult = Parsed(value: Json) | SyntaxError(message: string)

  /** `{ name: "", price: 0 }`, the template of a new product. */
  const DefaultFields: Json := JObj(map["name" := JStr(""), "price" := JNum(0)])

  const BlankFieldsMessage := "Please provide a JSON object for fields."
  const NotObjectMessage := "fields must be a JSON object."
  const InvalidJsonPrefix := "Invalid JSON: "
  const LoadFailed := "Failed to load products"
  const SaveFailed := "Save failed"
  const DeleteFailed := "Delete failed"
  /** V8's message for `updated.fields` when `updated` is `null`. */
  const NullFieldsMessage := "Cannot read properties of null (reading 'fields')"

  /** `{ error: msg }`, how a failure is shown as the last response. */
  function ErrorRecord(msg: string): Json {
    JObj(map["error" := JStr(msg)])
  }

  /** `err?.message || fallback`. */
  function MessageOr(message: string, fallback: string): (msg: string)
    ensures message != "" ==> msg == message
    ensures message == "" ==> msg == fallback
    ensures fallback != "" ==> msg != ""
  {
    if message != "" then message else fallback
  }

  /** `product.fields || {}`, for a product that is not `null`. */
  function FieldsOrEmpty(product: Json): (fields: Json)
    ensures Truthy(fields)
    ensures HasField(product) ==> fields == product.members["fields"]
    ensures !HasField(product) ==> fields == JObj(map[])
  {
    match Prop(product, "fields")
    case Some(f) => if Truthy(f) then f else JObj(map[])
    case None => JObj(map[])
  }

  predicate HasField(product: Json) {
    product.JObj? && "fields" in product.members && Truthy(product.members["fields"])
  }

  // ---------------------------------------------------------------------
  // The filtered view (`filteredProducts`)

  /** `p.fields?.name || ""` for a product that is not `null`: the name
      when it is truthy, and `None` for the empty-string fallback. */
  function NameOf(p: Json): (name: Option<Json>)
    ensures name.Some? ==> Truthy(name.value)
    ensures name.Some? <==> (p.JObj? && "fields" in p.members && p.members["fields"].JObj?
                             && "name" in p.members["fields"].members
                             && Truthy(p.members["fields"].members["name"]))
    ensures name.Some? ==> name.value == p.members["fields"].members["name"]
  {
    var name := match Prop(p, "fields") case Some(f) => Prop(f, "name") case None => None;
    if name.Some? && Truthy(name.value) then name else None
  }

  /** The filter callback throws on `p`: reading `fields` of `null`, or
      `.toString()` of a name that cannot be turned into text. */
  predicate Throws(p: Json) {
    p == JNull || (NameOf(p).Some? && !Printable(NameOf(p).value))
  }

  /** `(p.fields?.name || "").toString().toLowerCase()` for a product on
      which the callback does not throw. */
  function SearchName(p: Json): (name: string)
    ensures forall i :: 0 <= i < |name| ==> !('A' <= name[i] <= 'Z')
    ensures NameOf(p).None? ==> name == ""
    ensures NameOf(p).Some? && NameOf(p).value.JStr? ==> name == ToLowerCase(NameOf(p).value.s)
  {
    ToLowerCase(if NameOf(p).Some? then JsString(NameOf(p).value) else "")
  }

  /** The filter callback: the product's name contains the term. Every
      product matches the empty term. */
  predicate Matches(p: Json, term: string)
    ensures term == "" ==> Matches(p, term)
  {
    IncludesTrivially(SearchName(p));
    Includes(SearchName(p), term)
  }

  /** The filter callback as a value. */
  function Matcher(term: string): Json -> bool {
    p => Matches(p, term)
  }

  /** `s.filter(keep)`: the elements that pass, in their original order. */
  function Filter<T(!new)>(s: seq<T>, keep: T -> bool): (r: seq<T>)
    ensures |r| <= |s|
    ensures forall x :: x in r <==> x in s && keep(x)
  {
    if s == [] then []
    else
      var rest := Filter(s[1..], keep);
      assert s == [s[0]] + s[1..];
      if keep(s[0]) then [s[0]] + rest else rest
  }

  /** `filteredProducts`: with a blank search term the list itself;
      otherwise the products whose lower-cased name contains the trimmed,
      lower-cased term, in their order. `None` when the callback throws on
      some product (see `Throws`). */
  function FilteredProducts(products: seq<Json>, searchTerm: string): (r: Option<seq<Json>>)
    ensures AllWhitespace(searchTerm) ==> r == Some(products)
    ensures r.None? <==> !AllWhitespace(searchTerm) && exists p :: p in products && Throws(p)
    ensures r.Some? && !AllWhitespace(searchTerm)
      ==> r.value == Filter(products, Matcher(ToLowerCase(Trim(searchTerm))))
  {
    TrimEmptyIffBlank(searchTerm);
    var term := ToLowerCase(Trim(searchTerm));
    if term == "" then Some(products)
    else if exists p :: p in products && Throws(p) then None
    else Some(Filter(products, Matcher(term)))
  }

  /** `Filter` keeps every passing element as often as it occurs, and
      no failing one. */
  lemma {:induction false} FilterCounts<T(!new)>(s: seq<T>, keep: T -> bool, x: T)
    ensures multiset(Filter(s, keep))[x] == if keep(x) then multiset(s)[x] else 0
  {
    if s != [] {
      FilterCounts(s[1..], keep, x);
      assert s == [s[0]] + s[1..];
      assert multiset(s) == multiset{s[0]} + multiset(s[1..]);
    }
  }

  /** A name that is an object with its own `toString` key makes the
      search throw, as a `null` product does. */
  lemma UnprintableNameThrows()
    ensures FilteredProducts([JObj(map["fields" := JObj(map["name" := JObj(map["toString" := JNum(0)])])])], "a") == None
    ensures FilteredProducts([JNull], "a") == None
  {
    var odd := JObj(map["fields" := JObj(map["name" := JObj(map["toString" := JNum(0)])])]);
    assert Throws(odd);
    assert Throws([JNull][0]);
    assert !AllWhitespace("a") by { assert !IsJsWhitespace("a"[0]); }
  }

  /** Every position moved one place to the right. */
  function Shift(idx: seq<nat>): (r: seq<nat>)
    ensures |r| == |idx| && forall k :: 0 <= k < |r| ==> r[k] == idx[k] + 1
  {
    if idx == [] then [] else [idx[0] + 1] + Shift(idx[1..])
  }

  /** The result of `Filter` is a subsequence of its input: its elements
      sit at strictly increasing positions of `s`. */
  lemma {:induction false} FilterIsSubsequence<T(!new)>(s: seq<T>, keep: T -> bool) returns (idx: seq<nat>)
    ensures |idx| == |Filter(s, keep)|
    ensures forall k :: 0 <= k < |idx| ==> idx[k] < |s| && Filter(s, keep)[k] == s[idx[k]]
    ensures forall k, l :: 0 <= k < l < |idx| ==> idx[k] < idx[l]
  {
    if s == [] {
      idx := [];
    } else {
      var r, rest := Filter(s, keep), Filter(s[1..], keep);
      var tail := FilterIsSubsequence(s[1..], keep);
      var shifted := Shift(tail);
      forall k | 0 <= k < |shifted|
        ensures shifted[k] < |s| && rest[k] == s[shifted[k]]
      {
        assert s[1..][tail[k]] == s[tail[k] + 1];
      }
      if keep(s[0]) {
        assert r == [s[0]] + rest;
        idx := [0] + shifted;
        forall k | 0 < k < |idx| ensures r[k] == s[idx[k]] {
          assert r[k] == rest[k - 1] && idx[k] == shifted[k - 1];
        }
      } else {
        assert r == rest;
        idx := shifted;
      }
    }
  }

  /** A product whose `fields.name` is `name`. */
  function Named(name: string): Json {
    JObj(map["fields" := JObj(map["name" := JStr(name)])])
  }

  lemma ExampleNames()
    ensures SearchName(Named("Ultramie Goreng")) == "ultramie goreng"
    ensures SearchName(Named("Soap")) == "soap"
  {
    assert ToLowerCase("Ultramie Goreng") == "ultramie goreng";
    assert ToLowerCase("Soap") == "soap";
  }

  lemma ExampleMatches()
    ensures Matches(Named("Ultramie Goreng"), "mie")
    ensures !Matches(Named("Soap"), "mie")
  {
    ExampleNames();
    assert OccursAt("ultramie goreng", "mie", 5);
    forall i | 0 <= i <= 1 ensures !OccursAt("soap", "mie", i) {
      assert "soap"[i..i + 3][0] == "soap"[i] != 'm';
    }
  }

  lemma FilterPair<T(!new)>(a: T, b: T, keep: T -> bool)
    requires keep(a) && !keep(b)
    ensures Filter([a, b], keep) == [a]
  {
    assert [a, b][1..] == [b];
    assert [b][1..] == [];
  }

  lemma TermOfMie()
    ensures ToLowerCase(Trim("mie")) == "mie"
  {
    assert "mie"[0] == 'm' && "mie"[2] == 'e';
    TrimKeepsTrimmed("mie");
    LowerCaseKeepsLower("mie");
  }

  /** Searching "mie" keeps the noodles and
      drops the soap. */
  lemma FilterExample()
    ensures FilteredProducts([Named("Ultramie Goreng"), Named("Soap")], "mie") == Some([Named("Ultramie Goreng")])
  {
    var noodles, soap := Named("Ultramie Goreng"), Named("Soap");
    ExampleMatches();
    TermOfMie();
    FilterPair(noodles, soap, Matcher("mie"));
    assert JNull !in [noodles, soap];
  }

  // ---------------------------------------------------------------------
  // Validation of the edit buffer (`parseFields`)

  /** The outcome of `parseFields` on the buffer `text`: the parsed object,
      or the message that it reports. */
  function CheckFields(text: string, parse: string -> ParseResult): (r: Result<map<string, Json>, string>)
    ensures r.Success? <==> !AllWhitespace(text) && parse(text).Parsed? && parse(text).value.JObj?
    ensures r.Success? ==> parse(text).value == JObj(r.value)
    ensures AllWhitespace(text) ==> r == Failure(BlankFieldsMessage)
    ensures !AllWhitespace(text) && parse(text).SyntaxError?
      ==> r == Failure(InvalidJsonPrefix + parse(text).message)
    ensures !AllWhitespace(text) && parse(text).Parsed? && !parse(text).value.JObj?
      ==> r == Failure(NotObjectMessage)
  {
    // `trim() === ""` holds exactly for blank text (`TrimEmptyIffBlank`).
    if AllWhitespace(text) then Failure(BlankFieldsMessage)
    else
      match parse(text)
      case SyntaxError(message) => Failure(InvalidJsonPrefix + message)
      case Parsed(v) =>
        if v.JObj? then Success(v.members) else Failure(NotObjectMessage)
  }

  /** The three failures are told apart by their messages. */
  lemma CheckFieldsMessagesDistinct(text: string, parse: string -> ParseResult)
    requires CheckFields(text, parse).Failure?
    ensures CheckFields(text, parse).error == BlankFieldsMessage <==> AllWhitespace(text)
    ensures CheckFields(text, parse).error == NotObjectMessage
      <==> !AllWhitespace(text) && parse(text).Parsed?
  {
    var msg := CheckFields(text, parse).error;
    if !AllWhitespace(text) && parse(text).SyntaxError? {
      assert msg[0] == 'I';
    }
  }

  // ---------------------------------------------------------------------
  // The state manager

  /** `products` after `loadProducts`: the listed array, `[]` for any other
      value, and the previous list when the request failed. */
  function LoadedProducts(prior: seq<Json>, listed: Api.Reply): (r: seq<Json>)
    ensures listed.Failed? ==> r == prior
    ensures listed.Done? && listed.value.JArr? ==> r == listed.value.items
    ensures listed.Done? && !listed.value.JArr? ==> r == []
  {
    match listed
    case Done(data) => if data.JArr? then data.items else []
    case Failed(_) => prior
  }

  /** `lastResponse` after `loadProducts`: the raw listed value, or the
      failure record. */
  function LoadedResponse(listed: Api.Reply): (r: Json)
    ensures listed.Done? ==> r == listed.value
    ensures LoadedError(listed).Some? ==> r == ErrorRecord(LoadedError(listed).value)
  {
    match listed
    case Done(data) => data
    case Failed(message) => ErrorRecord(MessageOr(message, LoadFailed))
  }

  /** `error` after `loadProducts`. */
  function LoadedError(listed: Api.Reply): (r: Option<string>)
    ensures r.Some? <==> listed.Failed?
    ensures r.Some? ==> r.value != "" && (listed.message != "" ==> r.value == listed.message)
    ensures listed.Failed? && listed.message == "" ==> r == Some(LoadFailed)
  {
    match listed
    case Done(_) => None
    case Failed(message) => Some(MessageOr(message, LoadFailed))
  }

  /** `selectedProduct && selectedProduct.id === id`. */
  predicate SelectedHasId(selected: Json, id: Json) {
    Truthy(selected) && Prop(selected, "id") == Some(id)
  }

  /** The page component's state. `pretty` and `parse` stand for
      `JSON.stringify(value, null, 2)` and `JSON.parse`; `base` is the API
      base address. `sent` records every request handed to `fetch`. */
  class Page {
    const base: string
    const pretty: Json -> string
    const parse: string -> ParseResult

    var products: seq<Json>
    var searchTerm: string
    /** `selectedProduct`: `null` (any falsy value) in Creating mode. */
    var selected: Json
    var fieldsText: string
    var lastResponse: Json
    var loading: bool
    var error: Option<string>
    ghost var sent: seq<Api.HttpRequest>

    /** Editing mode: a product is selected. */
    predicate Editing()
      reads this`selected
    {
      Truthy(selected)
    }

    /** What `parseFields` makes of the current buffer. */
    function Checked(): Result<map<string, Json>, string>
      reads this`fieldsText
    {
      CheckFields(fieldsText, parse)
    }

    /** The `useState` initial values. */
    constructor (base: string, pretty: Json -> string, parse: string -> ParseResult)
      ensures this.base == base && this.pretty == pretty && this.parse == parse
      ensures products == [] && searchTerm == "" && selected == JNull
      ensures fieldsText == pretty(DefaultFields) && lastResponse == JNull
      ensures !loading && error == None && sent == []
      ensures !Editing()
    {
      this.base := base;
      this.pretty := pretty;
      this.parse := parse;
      products := [];
      searchTerm := "";
      selected := JNull;
      fieldsText := pretty(DefaultFields);
      lastResponse := JNull;
      loading := false;
      error := None;
      sent := [];
    }

    /** Typing in the search box. */
    method SetSearchTerm(term: string)
      modifies this`searchTerm
      ensures searchTerm == term
    {
      searchTerm := term;
    }

    /** Typing in the fields editor. */
    method SetFieldsText(text: string)
      modifies this`fieldsText
      ensures fieldsText == text
    {
      fieldsText := text;
    }

    /** `setError(msg); setLastResponse({ error: msg })`. */
    method ShowError(msg: string)
      modifies this`error, this`lastResponse
      ensures error == Some(msg) && lastResponse == ErrorRecord(msg)
    {
      error := Some(msg);
      lastResponse := ErrorRecord(msg);
    }

    /** `loadProducts`, with `listed` the reply of `fetchProducts()`. */
    method LoadProducts(listed: Api.Reply)
      modifies this`products, this`lastResponse, this`loading, this`error, this`sent
      ensures sent == old(sent) + [Api.FetchProducts(base)]
      ensures products == LoadedProducts(old(products), listed)
      ensures lastResponse == LoadedResponse(listed)
      ensures error == LoadedError(listed)
      ensures !loading
    {
      loading := true;
      error := None;
      sent := sent + [Api.FetchProducts(base)];
      match listed {
        case Done(data) =>
          products := if data.JArr? then data.items else [];
          lastResponse := data;
        case Failed(message) =>
          ShowError(MessageOr(message, LoadFailed));
      }
      loading := false;
    }

    /** `parseFields`: the parsed buffer when it holds a JSON object, and
        otherwise `None` with the reason shown. No request is made. */
    method ParseFields() returns (parsed: Option<map<string, Json>>)
      modifies this`error, this`lastResponse
      ensures parsed == (if Checked().Success? then Some(Checked().value) else None)
      ensures Checked().Success? ==> error == None && lastResponse == old(lastResponse)
      ensures Checked().Failure? ==> error == Some(Checked().error) && lastResponse == ErrorRecord(Checked().error)
    {
      ghost var checked := Checked();
      var blank := Trim(fieldsText) == "";
      TrimEmptyIffBlank(fieldsText);
      assert blank <==> AllWhitespace(fieldsText);
      if blank {
        ShowError(BlankFieldsMessage);
        assert checked == Failure(BlankFieldsMessage);
        return None;
      }
      match parse(fieldsText) {
        case Parsed(v) =>
          if !v.JObj? {
            ShowError(NotObjectMessage);
            assert checked == Failure(NotObjectMessage);
            return None;
          }
          error := None;
          assert checked == Success(v.members);
          return Some(v.members);
        case SyntaxError(message) =>
          ShowError(InvalidJsonPrefix + message);
          assert checked == Failure(InvalidJsonPrefix + message);
          return None;
      }
    }

    /** `handleSelect(product)`: Editing mode on `product`, its fields in
        the buffer. */
    method HandleSelect(product: Json)
      requires product != JNull
      modifies this`selected, this`fieldsText, this`error
      ensures selected == product && fieldsText == pretty(FieldsOrEmpty(product)) && error == None
    {
      selected := product;
      fieldsText := pretty(FieldsOrEmpty(product));
      error := None;
    }

    /** `handleNew`: Creating mode with the template in the buffer. */
    method HandleNew()
      modifies this`selected, this`fieldsText, this`error
      ensures selected == JNull && !Editing()
      ensures fieldsText == pretty(DefaultFields) && error == None
    {
      selected := JNull;
      fieldsText := pretty(DefaultFields);
      error := None;
    }

    /** The Creating-mode branch of `handleSave` for a valid buffer: POST
        the fields; on success record the created product, reload, and go
        back to Creating mode; on failure show the message. */
    method SaveNew(fields: Json, saved: Api.Reply, reload: Api.Reply)
      modifies this`products, this`selected, this`fieldsText, this`lastResponse, this`loading, this`error, this`sent
      ensures !loading
      ensures sent == old(sent) + [Api.CreateProduct(base, fields)]
                + (if saved.Done? then [Api.FetchProducts(base)] else [])
      ensures saved.Failed? ==>
        && error == Some(MessageOr(saved.message, SaveFailed))
        && lastResponse == ErrorRecord(MessageOr(saved.message, SaveFailed))
        && products == old(products) && selected == old(selected) && fieldsText == old(fieldsText)
      ensures saved.Done? ==>
        && products == LoadedProducts(old(products), reload)
        && lastResponse == LoadedResponse(reload) && error == None
        && selected == JNull && fieldsText == pretty(DefaultFields)
    {
      loading := true;
      sent := sent + [Api.CreateProduct(base, fields)];
      match saved {
        case Done(created) =>
          lastResponse := created;
          LoadProducts(reload);
          HandleNew();
        case Failed(message) =>
          ShowError(MessageOr(message, SaveFailed));
      }
      loading := false;
    }

    /** The rest of the Editing-mode branch once the update answered
        `updated`: record it, reload, select it and show its fields. */
    method UpdateDone(updated: Json, reload: Api.Reply)
      modifies this`products, this`selected, this`fieldsText, this`lastResponse, this`loading, this`error, this`sent
      ensures !loading
      ensures sent == old(sent) + [Api.FetchProducts(base)]
      ensures products == LoadedProducts(old(products), reload) && selected == updated
      ensures updated != JNull ==>
        && lastResponse == LoadedResponse(reload) && error == LoadedError(reload)
        && fieldsText == pretty(FieldsOrEmpty(updated))
      // `updated.fields` of a `null` reply throws after the selection was set.
      ensures updated == JNull ==>
        && error == Some(NullFieldsMessage) && lastResponse == ErrorRecord(NullFieldsMessage)
        && fieldsText == old(fieldsText)
    {
      lastResponse := updated;
      LoadProducts(reload);
      selected := updated;
      if updated == JNull {
        ShowError(MessageOr(NullFieldsMessage, SaveFailed));
      } else {
        fieldsText := pretty(FieldsOrEmpty(updated));
      }
    }

    /** The Editing-mode branch of `handleSave` for a valid buffer: PUT the
        fields to the selected id; on success record the server's product,
        reload, and select that product; on failure show the message. */
    method SaveSelected(fields: Json, saved: Api.Reply, reload: Api.Reply)
      modifies this`products, this`selected, this`fieldsText, this`lastResponse, this`loading, this`error, this`sent
      ensures !loading
      ensures sent == old(sent) + [Api.UpdateProduct(base, Prop(old(selected), "id"), fields)]
                + (if saved.Done? then [Api.FetchProducts(base)] else [])
      ensures saved.Failed? ==>
        && error == Some(MessageOr(saved.message, SaveFailed))
        && lastResponse == ErrorRecord(MessageOr(saved.message, SaveFailed))
        && products == old(products) && selected == old(selected) && fieldsText == old(fieldsText)
      ensures saved.Done? ==> products == LoadedProducts(old(products), reload) && selected == saved.value
      ensures saved.Done? && saved.value != JNull ==>
        && lastResponse == LoadedResponse(reload) && error == LoadedError(reload)
        && fieldsText == pretty(FieldsOrEmpty(saved.value))
      // `updated.fields` of a `null` reply throws after the selection was set.
      ensures saved.Done? && saved.value == JNull ==>
        && error == Some(NullFieldsMessage) && lastResponse == ErrorRecord(NullFieldsMessage)
        && fieldsText == old(fieldsText)
    {
      loading := true;
      sent := sent + [Api.UpdateProduct(base, Prop(selected, "id"), fields)];
      match saved {
        case Done(updated) =>
          UpdateDone(updated, reload);
        case Failed(message) =>
          ShowError(MessageOr(message, SaveFailed));
      }
      loading := false;
    }

    /** `handleSave` once the buffer parsed to `fields`: create in
        Creating mode, update of the selected id in Editing mode, then one
        reload when that succeeded. */
    method SaveFields(fields: map<string, Json>, saved: Api.Reply, reload: Api.Reply)
      modifies this`products, this`selected, this`fieldsText, this`lastResponse, this`loading, this`error, this`sent
      ensures !loading
      ensures sent == old(sent)
             + [if old(Editing())
                then Api.UpdateProduct(base, Prop(old(selected), "id"), JObj(fields))
                else Api.CreateProduct(base, JObj(fields))]
             + (if saved.Done? then [Api.FetchProducts(base)] else [])
      ensures saved.Failed? ==>
        && error == Some(MessageOr(saved.message, SaveFailed))
        && lastResponse == ErrorRecord(MessageOr(saved.message, SaveFailed))
        && products == old(products) && selected == old(selected) && fieldsText == old(fieldsText)
      ensures saved.Done? ==> products == LoadedProducts(old(products), reload)
      ensures saved.Done? && !old(Editing()) ==>
        && lastResponse == LoadedResponse(reload) && error == None
        && selected == JNull && fieldsText == pretty(DefaultFields)
      ensures saved.Done? && old(Editing()) && saved.value != JNull ==>
        && lastResponse == LoadedResponse(reload) && error == LoadedError(reload)
        && selected == saved.value && fieldsText == pretty(FieldsOrEmpty(saved.value))
      ensures saved.Done? && old(Editing()) && saved.value == JNull ==>
        && error == Some(NullFieldsMessage) && lastResponse == ErrorRecord(NullFieldsMessage)
        && selected == JNull && fieldsText == old(fieldsText)
    {
      if !Truthy(selected) {
        SaveNew(JObj(fields), saved, reload);
      } else {
        SaveSelected(JObj(fields), saved, reload);
      }
    }

    /** `handleSave`, with `saved` the reply of the create or update call
        and `reload` that of the list call that follows a success. */
    method HandleSave(saved: Api.Reply, reload: Api.Reply)
      modifies this`products, this`selected, this`fieldsText, this`lastResponse, this`loading, this`error, this`sent
      // An invalid buffer: no request, no loading, the reason shown.
      ensures old(Checked()).Failure? ==>
        && sent == old(sent) && loading == old(loading)
        && error == Some(old(Checked()).error) && lastResponse == ErrorRecord(old(Checked()).error)
        && products == old(products) && selected == old(selected) && fieldsText == old(fieldsText)
      // A valid buffer: create in Creating mode, update of the selected id
      // in Editing mode, then one reload when that succeeded.
      ensures old(Checked()).Success? ==>
        && !loading
        && sent == old(sent)
             + [if old(Editing())
                then Api.UpdateProduct(base, Prop(old(selected), "id"), JObj(old(Checked()).value))
                else Api.CreateProduct(base, JObj(old(Checked()).value))]
             + (if saved.Done? then [Api.FetchProducts(base)] else [])
      // The request failed: the message shown, nothing else touched.
      ensures old(Checked()).Success? && saved.Failed? ==>
        && error == Some(MessageOr(saved.message, SaveFailed))
        && lastResponse == ErrorRecord(MessageOr(saved.message, SaveFailed))
        && products == old(products) && selected == old(selected) && fieldsText == old(fieldsText)
      // The request succeeded: the reload decides the list.
      ensures old(Checked()).Success? && saved.Done? ==>
        products == LoadedProducts(old(products), reload)
      // Created: back to Creating mode with the template, showing the
      // reload's outcome rather than the created product.
      ensures old(Checked()).Success? && saved.Done? && !old(Editing()) ==>
        && lastResponse == LoadedResponse(reload) && error == None
        && selected == JNull && fieldsText == pretty(DefaultFields)
      // Updated: Editing the server's version, showing the reload's outcome.
      ensures old(Checked()).Success? && saved.Done? && old(Editing()) && saved.value != JNull ==>
        && lastResponse == LoadedResponse(reload) && error == LoadedError(reload)
        && selected == saved.value && fieldsText == pretty(FieldsOrEmpty(saved.value))
      // Updated but the server answered `null`: `updated.fields` throws
      // after the selection was already replaced by `null`.
      ensures old(Checked()).Success? && saved.Done? && old(Editing()) && saved.value == JNull ==>
        && error == Some(NullFieldsMessage) && lastResponse == ErrorRecord(NullFieldsMessage)
        && selected == JNull && fieldsText == old(fieldsText)
    {
      ghost var checked := Checked();
      var parsed := ParseFields();
      assert Checked() == checked;
      if parsed.None? {
        return;
      }
      SaveFields(parsed.value, saved, reload);
    }

    /** The rest of `handleDelete` once the delete succeeded: record it,
        reload, and go back to Creating mode if the deleted product was the
        selected one. */
    method DeleteDone(id: Json, reload: Api.Reply)
      modifies this`products, this`selected, this`fieldsText, this`lastResponse, this`loading, this`error, this`sent
      ensures !loading
      ensures sent == old(sent) + [Api.FetchProducts(base)]
      ensures products == LoadedProducts(old(products), reload) && lastResponse == LoadedResponse(reload)
      ensures SelectedHasId(old(selected), id) ==>
        selected == JNull && fieldsText == pretty(DefaultFields) && error == None
      ensures !SelectedHasId(old(selected), id) ==>
        selected == old(selected) && fieldsText == old(fieldsText) && error == LoadedError(reload)
    {
      lastResponse := JObj(map["deleted" := id]);
      LoadProducts(reload);
      if SelectedHasId(selected, id) {
        HandleNew();
      }
    }

    /** `handleDelete(id)`, with `deleted` the reply of the delete call and
        `reload` that of the list call that follows a success. */
    method HandleDelete(id: Json, deleted: Api.Reply, reload: Api.Reply)
      modifies this`products, this`selected, this`fieldsText, this`lastResponse, this`loading, this`error, this`sent
      ensures !loading
      ensures sent == old(sent) + [Api.DeleteProduct(base, Some(id))]
                + (if deleted.Done? then [Api.FetchProducts(base)] else [])
      // The request failed: the message shown, nothing else touched.
      ensures deleted.Failed? ==>
        && error == Some(MessageOr(deleted.message, DeleteFailed))
        && lastResponse == ErrorRecord(MessageOr(deleted.message, DeleteFailed))
        && products == old(products) && selected == old(selected) && fieldsText == old(fieldsText)
      // Deleted: the reload decides the list and the last response.
      ensures deleted.Done? ==>
        products == LoadedProducts(old(products), reload) && lastResponse == LoadedResponse(reload)
      // The selected product was deleted: back to Creating mode.
      ensures deleted.Done? && SelectedHasId(old(selected), id) ==>
        selected == JNull && fieldsText == pretty(DefaultFields) && error == None
      // Another product was deleted: selection and buffer kept.
      ensures deleted.Done? && !SelectedHasId(old(selected), id) ==>
        selected == old(selected) && fieldsText == old(fieldsText) && error == LoadedError(reload)
    {
      loading := true;
      sent := sent + [Api.DeleteProduct(base, Some(id))];
      match deleted {
        case Done(_) =>
          DeleteDone(id, reload);
        case Failed(message) =>
          ShowError(MessageOr(message, DeleteFailed));
      }
      loading := false;
    }
  }
}
