/**
  The "add product" screen (client/app/products/add-product.tsx): the
  name field's suggestion filter, picking a suggestion, and the body the
  save handler posts to /product.
*/
module AddProduct {
  import opened Common
  import opened Text
  import ClientRequest
  import AuthMiddleware
  import ProductRoutes

  /** An entry of the suggestion list; `type` is named `productType` here. */
  datatype Suggestion = Suggestion(name: string, productType: string)

  /** `item.name.toLowerCase().includes(text.toLowerCase())`. */
  predicate Matches(item: Suggestion, text: string) {
    Contains(Lower(item.name), Lower(text))
  }

  /** `items.filter(...)` with the name match: the matching items, in their original order. */
  function FilterSuggestions(items: seq<Suggestion>, text: string): (r: seq<Suggestion>)
    ensures |r| <= |items|
    ensures forall x :: x in r <==> x in items && Matches(x, text)
  {
    if items == [] then []
    else if Matches(items[0], text) then [items[0]] + FilterSuggestions(items[1..], text)
    else FilterSuggestions(items[1..], text)
  }

  /** Filtering a concatenation filters each part and keeps them in order. */
  lemma {:induction false} FilterConcat(a: seq<Suggestion>, b: seq<Suggestion>, text: string)
    ensures FilterSuggestions(a + b, text) == FilterSuggestions(a, text) + FilterSuggestions(b, text)
  {
    if a != [] {
      assert (a + b)[0] == a[0];
      assert (a + b)[1..] == a[1..] + b;
      FilterConcat(a[1..], b, text);
    } else {
      assert a + b == b;
    }
  }

  /** The filter of a single item is that item when it matches and nothing otherwise. */
  lemma FilterSingle(item: Suggestion, text: string)
    ensures FilterSuggestions([item], text) == if Matches(item, text) then [item] else []
  {
    assert [item][1..] == [];
  }

  /** Every name contains the empty string, so empty text keeps every suggestion. */
  lemma {:induction false} FilterEmptyText(items: seq<Suggestion>)
    ensures FilterSuggestions(items, "") == items
  {
    if items != [] {
      assert OccursAt(Lower(items[0].name), Lower(""), 0);
      FilterEmptyText(items[1..]);
    }
  }

  /** The body `handleSave` posts; dates are the UTC calendar day `toISOString().split('T')[0]` names. */
  datatype ProductPayload = ProductPayload(
    name: string,
    productType: string,
    frequency: string,
    startDate: Day,
    endDate: Option<Day>)

  /** The body for the given form state: each field as entered, the dates as days, no end date as null. */
  function SavePayload(name: string, productType: string, frequency: string, startDate: int, endDate: Option<int>)
    : (p: ProductPayload)
    ensures p.name == name && p.productType == productType && p.frequency == frequency
    ensures p.startDate * MillisPerDay <= startDate < (p.startDate + 1) * MillisPerDay
    ensures p.endDate.None? <==> endDate.None?
    ensures endDate.Some? ==> p.endDate.value * MillisPerDay <= endDate.value < (p.endDate.value + 1) * MillisPerDay
  {
    ProductPayload(name, productType, frequency, DayOf(startDate),
                   if endDate.Some? then Some(DayOf(endDate.value)) else None)
  }

  /** The payload as POST /product destructures it. */
  function ServerBody(p: ProductPayload): ProductRoutes.ProductBody {
    ProductRoutes.ProductBody(Some(p.name), Some(p.productType), Some(p.frequency), Some(p.startDate), p.endDate)
  }

  /**
    The screen's state: the fixed suggestion list, the form fields (dates
    as millisecond timestamps), the suggestions on show, and the requests
    posted (header and body) with the titles of the alerts shown.
  */
  class AddProductForm {
    const suggestions: seq<Suggestion>
    var name: string
    var productType: string
    var frequency: string
    var startDate: int
    var endDate: Option<int>
    var filtered: seq<Suggestion>
    var requests: seq<(string, ProductPayload)>
    var alerts: seq<string>

    /** The initial state at time `now`: empty name and type, frequency 'daily', start now, no end date. */
    constructor (suggestions: seq<Suggestion>, now: int)
      ensures this.suggestions == suggestions
      ensures name == "" && productType == "" && frequency == "daily"
      ensures startDate == now && endDate.None?
      ensures filtered == [] && requests == [] && alerts == []
    {
      this.suggestions := suggestions;
      name := "";
      productType := "";
      frequency := "daily";
      startDate := now;
      endDate := None;
      filtered := [];
      requests := [];
      alerts := [];
    }

    /** `handleNameChange`: the name becomes the text, matches or not, and the matching suggestions are shown. */
    method HandleNameChange(text: string)
      modifies this`name, this`filtered
      ensures name == text
      ensures filtered == FilterSuggestions(suggestions, text)
    {
      name := text;
      filtered := FilterSuggestions(suggestions, text);
    }

    /** `handleSuggestionSelect`: take the item's name and type, and hide the suggestions. */
    method HandleSuggestionSelect(item: Suggestion)
      modifies this`name, this`productType, this`filtered
      ensures name == item.name && productType == item.productType
      ensures filtered == []
    {
      name := item.name;
      productType := item.productType;
      filtered := [];
    }

    /** `handleSave`, with the stored token and whether the post succeeded as parameters: one request, one alert. */
    method HandleSave(token: Option<string>, delivered: bool) returns (payload: ProductPayload)
      modifies this`requests, this`alerts
      ensures payload == SavePayload(name, productType, frequency, startDate, endDate)
      ensures requests == old(requests) + [(ClientRequest.BearerHeader(token), payload)]
      ensures alerts == old(alerts) + [if delivered then "Saved" else "Error"]
    {
      payload := SavePayload(name, productType, frequency, startDate, endDate);
      requests := requests + [(ClientRequest.BearerHeader(token), payload)];
      alerts := alerts + [if delivered then "Saved" else "Error"];
    }
  }

  /** Saving a freshly opened form sends frequency 'daily', today's start day and a null end date. */
  method SaveUntouchedForm(suggestions: seq<Suggestion>, now: int, token: Option<string>, delivered: bool)
    returns (payload: ProductPayload)
    ensures payload.frequency == "daily" && payload.endDate.None?
    ensures payload.startDate == DayOf(now)
  {
    var form := new AddProductForm(suggestions, now);
    payload := form.HandleSave(token, delivered);
  }

  /**
    A form filled in and saved by a signed-in user, its request handled by
    POST /product on an empty table: the product is created with the
    entered name, type and frequency and the start day, and with no stop
    date even when an end date was picked, since the route reads `endDate`
    but stores no `stopDate`.
  */
  method SaveReachesServer(name: string, productType: string, frequency: string, startDate: int,
                           endDate: Option<int>, token: string, claims: AuthMiddleware.Claims,
                           verify: AuthMiddleware.Verifier)
    returns (status: Status, created: Option<(int, ProductRoutes.Product)>)
    requires token != "" && ' ' !in token
    requires verify(token) == Some(claims)
    ensures status == 201 && created.Some?
    ensures created.value.1 == ProductRoutes.Product(claims.userId, name, Some(productType), Some(frequency),
                                                     Some(DayOf(startDate)), None)
  {
    var form := new AddProductForm([], startDate);
    form.HandleNameChange(name);
    form.productType := productType;
    form.frequency := frequency;
    form.endDate := endDate;
    var payload := form.HandleSave(Some(token), true);
    var header := form.requests[0].0;
    ClientRequest.StoredTokenAuthenticates(token, claims, verify);
    var store := new ProductRoutes.ProductStore();
    status, created := store.CreateProduct(Some(header), verify, ServerBody(payload));
  }
}
