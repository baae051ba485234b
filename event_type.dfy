/** The twelve trackable user actions, a string-backed enum. */
module EventTypes {
  import opened Php

  datatype EventType =
    | Search
    | Subscription
    | AddToCart
    | Purchase
    | ViewItem
    | CompletedRegistration
    | BeginCheckout
    | ViewCart
    | AddPaymentInfo
    | AddToWishlist
    | PageView
    | CustomizeProduct
  {
    /** The enum's backing value. */
    function Value(): string {
      match this
      case Search => "search"
      case Subscription => "subscription"
      case AddToCart => "add_to_cart"
      case Purchase => "purchase"
      case ViewItem => "view_item"
      case CompletedRegistration => "completed_registration"
      case BeginCheckout => "begin_checkout"
      case ViewCart => "view_cart"
      case AddPaymentInfo => "add_payment_info"
      case AddToWishlist => "add_to_wishlist"
      case PageView => "page_view"
      case CustomizeProduct => "customize_product"
    }
  }

  /** `EventType::cases()`, in declaration order. */
  const Cases: seq<EventType> := [
    Search, Subscription, AddToCart, Purchase, ViewItem, CompletedRegistration,
    BeginCheckout, ViewCart, AddPaymentInfo, AddToWishlist, PageView, CustomizeProduct
  ]

  /** `values()`: the backing value of every case, in declaration order. */
  function Values(): (r: seq<string>)
    ensures |r| == |Cases| == 12
    ensures forall i :: 0 <= i < |Cases| ==> r[i] == Cases[i].Value()
  {
    seq(|Cases|, i requires 0 <= i < |Cases| => Cases[i].Value())
  }

  /** First case in `ts` whose backing value is `s`. */
  function FindIn(s: string, ts: seq<EventType>): (r: Option<EventType>)
    ensures r.Some? ==> r.value in ts && r.value.Value() == s
    ensures r.None? ==> forall t :: t in ts ==> t.Value() != s
  {
    if |ts| == 0 then None
    else if ts[0].Value() == s then Some(ts[0])
    else FindIn(s, ts[1..])
  }

  /** `tryFromString` (PHP's `tryFrom`): the case backed by `s`, or null. */
  function TryFromString(s: string): (r: Option<EventType>)
    ensures r.Some? ==> r.value.Value() == s
    ensures r.None? <==> s !in Values()
  {
    FindIn(s, Cases)
  }

  /** `isValid`: `s` is the backing value of some case. */
  predicate IsValid(s: string) {
    TryFromString(s).Some?
  }

  lemma CasesComplete(t: EventType)
    ensures t in Cases
  {
  }

  /** The backing values are pairwise distinct. */
  lemma ValueInjective(t: EventType, u: EventType)
    requires t.Value() == u.Value()
    ensures t == u
  {
  }

  /** There are exactly twelve cases and `Cases` lists each once. */
  lemma CasesDistinct()
    ensures |Cases| == 12
    ensures forall i, j :: 0 <= i < j < |Cases| ==> Cases[i] != Cases[j]
  {
  }

  lemma ValuesLiteral()
    ensures Values() == [
      "search", "subscription", "add_to_cart", "purchase", "view_item",
      "completed_registration", "begin_checkout", "view_cart", "add_payment_info",
      "add_to_wishlist", "page_view", "customize_product"]
  {
  }

  /** Parsing a case's backing value gives that case back. */
  lemma TryFromValue(t: EventType)
    ensures TryFromString(t.Value()) == Some(t)
  {
    var r := TryFromString(t.Value());
    CasesComplete(t);
    assert t.Value() in Values();
    ValueInjective(r.value, t);
  }

  /** `isValid(s)` holds exactly for the twelve backing values. */
  lemma IsValidIff(s: string)
    ensures IsValid(s) <==> s in Values()
  {
  }

  lemma IsValidIffSomeCase(s: string)
    ensures IsValid(s) <==> exists t: EventType :: t.Value() == s
  {
    if exists t: EventType :: t.Value() == s {
      var t: EventType :| t.Value() == s;
      TryFromValue(t);
    }
  }
}
