/** Abandoned-cart events (src/modules/abandoned-cart/abandoned-cart.service.ts and its DTO):
    the member's existing tags are read, the cart is written into merge fields, the event
    tags are merged into the existing ones without duplicates, the member is updated, and
    the tags are read once more. */
module Carts {
  import opened Results
  import opened Remote
  import opened Mailchimp
  import opened Numbers
  import Text

  // ---------------------------------------------------------------------------------------
  // The event

  /** One line of the cart; quantity and price are JSON numbers. */
  datatype CartItem = CartItem(name: string, quantity: Decimal, price: Decimal)

  /** The event body. `tags` is absent when the client sent none. */
  datatype CartDto = CartDto(
    customerName: string,
    email: string,
    cartId: string,
    cartItems: seq<CartItem>,
    totalPrice: Decimal,
    abandonmentTimestamp: string,
    returnUrl: string,
    tags: Option<seq<string>>)

  /** The tags an event applies when it names none. */
  const DefaultTags: seq<string> := ["Abandoned Cart"]

  function EventTags(dto: CartDto): seq<string> {
    match dto.tags
    case Some(t) => t
    case None => DefaultTags
  }

  // ---------------------------------------------------------------------------------------
  // The cart as merge fields

  /** "name (quantity) - $price", each number rendered as JavaScript renders it. */
  function FormatItem(item: CartItem): string {
    item.name + " (" + NumberToString(item.quantity) + ") - $" + NumberToString(item.price)
  }

  function ItemTexts(items: seq<CartItem>): (texts: seq<string>)
    ensures |texts| == |items|
    ensures forall i :: 0 <= i < |items| ==> texts[i] == FormatItem(items[i])
  {
    seq(|items|, i requires 0 <= i < |items| => FormatItem(items[i]))
  }

  /** CARTITEMS: the item lines joined with ", " (empty for an empty cart). */
  function FormatCartItems(items: seq<CartItem>): (s: string)
    ensures items == [] ==> s == ""
    ensures |items| == 1 ==> s == FormatItem(items[0])
  {
    Text.Join(ItemTexts(items), ", ")
  }

  /** The cart text lists the items in order: one more item appends ", " and its line. */
  lemma FormatCartItemsSnoc(items: seq<CartItem>, item: CartItem)
    requires items != []
    ensures FormatCartItems(items + [item]) == FormatCartItems(items) + ", " + FormatItem(item)
  {
    assert ItemTexts(items + [item]) == ItemTexts(items) + [FormatItem(item)];
    Text.JoinSnoc(ItemTexts(items), FormatItem(item), ", ");
  }

  /** One item renders with both numbers as JavaScript renders them. */
  lemma FormatCartItemsExample()
    ensures FormatCartItems([CartItem("Shoe", Decimal(2, 0), Decimal(95, 1))]) == "Shoe (2) - $9.5"
  {
    NumberToStringExample();
    WholeRendering(2);
    assert NatToString(2) == "2";
    assert ItemTexts([CartItem("Shoe", Decimal(2, 0), Decimal(95, 1))]) == [FormatItem(CartItem("Shoe", Decimal(2, 0), Decimal(95, 1)))];
  }

  /** The merge fields an event sends: the customer's first and last name split as for a
      user, the cart id, the item text, the total as text, the abandonment time and the
      return URL. */
  function CartMergeFields(dto: CartDto): map<string, string> {
    map[
      "FNAME" := FirstName(dto.customerName),
      "LNAME" := LastName(dto.customerName),
      "CARTID" := dto.cartId,
      "CARTITEMS" := FormatCartItems(dto.cartItems),
      "TOTALPRICE" := NumberToString(dto.totalPrice),
      "ABNDNTIME" := dto.abandonmentTimestamp,
      "RETURNURL" := dto.returnUrl]
  }

  /** The tags of the fields provisioning creates. */
  function SchemaTags(fields: seq<MergeFieldSpec>): set<string> {
    set f | f in fields :: f.tag
  }

  /** An event writes the name fields every list has plus exactly the fields provisioning
      creates. */
  lemma CartMergeFieldsMatchSchema(dto: CartDto)
    ensures CartMergeFields(dto).Keys == {"FNAME", "LNAME"} + SchemaTags(RequiredFields)
    ensures CartMergeFields(dto)["CARTID"] == dto.cartId
    ensures CartMergeFields(dto)["ABNDNTIME"] == dto.abandonmentTimestamp
    ensures CartMergeFields(dto)["RETURNURL"] == dto.returnUrl
  {
    var r := RequiredFields;
    assert SchemaTags(r) == {r[0].tag, r[1].tag, r[2].tag, r[3].tag, r[4].tag};
  }

  /** The name fields give back the customer's name. */
  lemma CartNameFields(dto: CartDto)
    ensures ' ' in dto.customerName ==>
      CartMergeFields(dto)["FNAME"] + " " + CartMergeFields(dto)["LNAME"] == dto.customerName
    ensures ' ' !in dto.customerName ==>
      CartMergeFields(dto)["FNAME"] == dto.customerName && CartMergeFields(dto)["LNAME"] == ""
  {
    NameSplit(dto.customerName);
  }

  // ---------------------------------------------------------------------------------------
  // Merging tags

  predicate NoDuplicates(xs: seq<string>) {
    forall i, j :: 0 <= i < j < |xs| ==> xs[i] != xs[j]
  }

  /** `[...new Set(xs)]`: each value once, at the position of its first occurrence. */
  function Dedup(xs: seq<string>): (r: seq<string>)
    ensures forall x :: x in r <==> x in xs
    ensures NoDuplicates(r)
    decreases |xs|
  {
    if xs == [] then []
    else
      var init := xs[..|xs| - 1];
      var x := xs[|xs| - 1];
      assert xs == init + [x];
      var d := Dedup(init);
      if x in d then d else d + [x]
  }

  /** The tags sent with an event: the existing ones, then the event's, duplicates dropped. */
  function MergeTags(existing: seq<string>, tags: seq<string>): seq<string> {
    Dedup(existing + tags)
  }

  /** Values added later never move the ones already placed. */
  lemma {:induction false} DedupPrefix(a: seq<string>, b: seq<string>)
    ensures |Dedup(a)| <= |Dedup(a + b)| && Dedup(a + b)[..|Dedup(a)|] == Dedup(a)
    decreases |b|
  {
    if b == [] {
      assert a + b == a;
    } else {
      var init := b[..|b| - 1];
      assert (a + b)[..|a + b| - 1] == a + init;
      DedupPrefix(a, init);
    }
  }

  /** A sequence without duplicates is its own deduplication. */
  lemma {:induction false} DedupOfDistinct(xs: seq<string>)
    requires NoDuplicates(xs)
    ensures Dedup(xs) == xs
    decreases |xs|
  {
    if xs != [] {
      var init := xs[..|xs| - 1];
      DedupOfDistinct(init);
      assert xs[|xs| - 1] !in init;
      assert init + [xs[|xs| - 1]] == xs;
    }
  }

  /** Appending values that are all present already leaves a deduplicated sequence as it is. */
  lemma {:induction false} DedupAbsorbs(d: seq<string>, t: seq<string>)
    requires NoDuplicates(d)
    requires forall x :: x in t ==> x in d
    ensures Dedup(d + t) == d
    decreases |t|
  {
    if t == [] {
      assert d + t == d;
      DedupOfDistinct(d);
    } else {
      var init := t[..|t| - 1];
      assert (d + t)[..|d + t| - 1] == d + init;
      assert (d + t)[|d + t| - 1] == t[|t| - 1];
      DedupAbsorbs(d, init);
    }
  }

  /** The merged tags contain exactly the existing and the event tags, each once, and keep a
      duplicate-free existing list unchanged at their front. */
  lemma MergeTagsSpec(existing: seq<string>, tags: seq<string>)
    ensures forall x :: x in MergeTags(existing, tags) <==> x in existing || x in tags
    ensures NoDuplicates(MergeTags(existing, tags))
    ensures NoDuplicates(existing) ==>
      |existing| <= |MergeTags(existing, tags)| && MergeTags(existing, tags)[..|existing|] == existing
  {
    DedupPrefix(existing, tags);
    if NoDuplicates(existing) {
      DedupOfDistinct(existing);
    }
  }

  /** Sending the same event tags again changes nothing. */
  lemma MergeTagsIdempotent(existing: seq<string>, tags: seq<string>)
    ensures MergeTags(MergeTags(existing, tags), tags) == MergeTags(existing, tags)
  {
    DedupAbsorbs(MergeTags(existing, tags), tags);
  }

  lemma MergeTagsExample()
    ensures MergeTags(["A", "B"], ["B", "C"]) == ["A", "B", "C"]
  {
    DedupOfDistinct(["A", "B", "C"]);
    assert ["A", "B"] + ["B", "C"] == ["A", "B", "B", "C"];
    assert ["A", "B", "B", "C"][..3] == ["A", "B", "B"];
    assert ["A", "B", "B"][..2] == ["A", "B"];
    DedupOfDistinct(["A", "B"]);
  }

  // ---------------------------------------------------------------------------------------
  // The service

  /** The reply an event ends with and the calls it sent. */
  datatype CartRun = CartRun(result: Reply, calls: seq<Call>)

  /** `createAbandonedCart` against a platform whose log was `log0`: read the tags (a
      failure stops here, before any update), update the member with the cart fields and
      the merged tags, then read the tags again. Any failure is rethrown; otherwise the
      update's reply is the result. */
  function CartEvent(m: MailchimpService, log0: seq<Call>, dto: CartDto): CartRun {
    var fetch := m.GetTagsCall(dto.email);
    match TagNamesOf(m.platform.answer(log0, fetch))
    case Failure(e) => CartRun(Failure(e), [fetch])
    case Success(existing) =>
      var update := m.UpdateMemberCall(dto.email, CartMergeFields(dto), MergeTags(existing, EventTags(dto)));
      var reply := m.platform.answer(log0 + [fetch], update);
      if reply.Failure? then CartRun(reply, [fetch, update])
      else
        match TagNamesOf(m.platform.answer(log0 + [fetch, update], fetch))
        case Failure(e) => CartRun(Failure(e), [fetch, update, fetch])
        case Success(_) => CartRun(reply, [fetch, update, fetch])
  }

  /** An event addresses one member throughout: it reads the tags, updates the member only
      after a successful read, and reads the tags again only after a successful update. */
  lemma CartEventCalls(m: MailchimpService, log0: seq<Call>, dto: CartDto)
    ensures var run := CartEvent(m, log0, dto);
      var hash := SubscriberHash(m.md5Hex, dto.email);
      var fetch := GetListMemberTags(m.config.listId, hash);
      && 1 <= |run.calls| <= 3
      && run.calls[0] == fetch
      && (|run.calls| == 1 <==> TagNamesOf(m.platform.answer(log0, fetch)).Failure?)
      && (|run.calls| >= 2 ==>
            && run.calls[1].UpdateListMember?
            && run.calls[1] == UpdateListMember(m.config.listId, hash, CartMergeFields(dto), run.calls[1].tags)
            && (|run.calls| == 2 <==> m.platform.answer(log0 + [fetch], run.calls[1]).Failure?))
      && (|run.calls| == 3 ==> run.calls[2] == fetch)
  {
  }

  /** A failure of any call ends the event with that call's error; otherwise the result is
      the update's reply. */
  lemma CartEventResult(m: MailchimpService, log0: seq<Call>, dto: CartDto)
    ensures var run := CartEvent(m, log0, dto);
      var fetch := m.GetTagsCall(dto.email);
      && (|run.calls| == 1 ==> run.result == Failure(TagNamesOf(m.platform.answer(log0, fetch)).error))
      && (|run.calls| >= 2 ==>
            var update := run.calls[1];
            var reply := m.platform.answer(log0 + [fetch], update);
            && (|run.calls| == 2 ==> run.result == reply)
            && (|run.calls| == 3 ==>
                  var final := TagNamesOf(m.platform.answer(log0 + [fetch, update], fetch));
                  run.result == if final.Success? then reply else Failure(final.error)))
  {
  }

  /** The update sends every existing tag and every event tag exactly once, with a
      duplicate-free existing list unchanged at the front; without event tags it adds
      "Abandoned Cart". */
  lemma CartEventTags(m: MailchimpService, log0: seq<Call>, dto: CartDto)
    requires TagNamesOf(m.platform.answer(log0, m.GetTagsCall(dto.email))).Success?
    ensures var run := CartEvent(m, log0, dto);
      var existing := TagNamesOf(m.platform.answer(log0, run.calls[0])).value;
      var sent := run.calls[1].tags;
      && TagNamesOf(m.platform.answer(log0, run.calls[0])).Success?
      && run.calls[1].UpdateListMember?
      && (forall t :: t in sent <==> t in existing || t in EventTags(dto))
      && NoDuplicates(sent)
      && (dto.tags.None? ==> "Abandoned Cart" in sent)
      && (NoDuplicates(existing) ==> |existing| <= |sent| && sent[..|existing|] == existing)
  {
    var run := CartEvent(m, log0, dto);
    var fetch := m.GetTagsCall(dto.email);
    var read := TagNamesOf(m.platform.answer(log0, fetch));
    assert run.calls[0] == fetch;
    var existing := read.value;
    var update := m.UpdateMemberCall(dto.email, CartMergeFields(dto), MergeTags(existing, EventTags(dto)));
    assert run.calls[1] == update;
    MergeTagsSpec(existing, EventTags(dto));
  }

  class AbandonedCartService {
    const mailchimp: MailchimpService

    constructor (mailchimp: MailchimpService)
      ensures this.mailchimp == mailchimp
    {
      this.mailchimp := mailchimp;
    }

    /** Records an abandoned cart on the member addressed by the event's email. */
    method CreateAbandonedCart(dto: CartDto) returns (r: Reply)
      modifies mailchimp.platform
      ensures var run := CartEvent(mailchimp, old(mailchimp.platform.log), dto);
        mailchimp.platform.log == old(mailchimp.platform.log) + run.calls && r == run.result
    {
      ghost var log0 := mailchimp.platform.log;
      var tags := EventTags(dto);
      var existing := mailchimp.GetMemberTags(dto.email);
      ghost var fetch := mailchimp.GetTagsCall(dto.email);
      if existing.Failure? {
        return Failure(existing.error);
      }
      var mergeFields := CartMergeFields(dto);
      var updated := MergeTags(existing.value, tags);
      var response := mailchimp.UpdateSubscriber(dto.email, mergeFields, updated);
      ghost var update := mailchimp.UpdateMemberCall(dto.email, mergeFields, updated);
      assert mailchimp.platform.log == log0 + [fetch, update];
      if response.Failure? {
        return response;
      }
      var final := mailchimp.GetMemberTags(dto.email);
      assert mailchimp.platform.log == log0 + [fetch, update, fetch];
      if final.Failure? {
        return Failure(final.error);
      }
      r := response;
    }
  }
}
