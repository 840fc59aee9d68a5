/**
  End-to-end runs of the message handler on one concrete account: a
  "sales" route that forwards messages mentioning "buy" or "price" to
  `@shop`, no default target, and a webhook with an empty allow-list.
 */
module Scenarios {
  import opened Wrappers
  import opened Utils
  import opened Models
  import opened Worker
  import Router

  const Hook := WebhookConfig("https://hooks.example/in", "secret", [], true, 10)

  const Sales := Route("sales", "forward", StrRef("@shop"), "any", Flat(["buy", "price"]), false)

  const Account := AccountConfig("acc", "acc.session", 1, "hash", true, [StrRef("S")], [Sales], NoDefaultRoute, Some(Hook))

  const PriceText := "what's the price?"

  /** Lower-casing leaves a string without upper-case letters alone. */
  lemma LowerNoUpper(s: string)
    requires forall i :: 0 <= i < |s| ==> !('A' <= s[i] <= 'Z')
    ensures Lower(s) == s
  {
  }

  lemma SalesMatchesPrice()
    ensures Matches(Sales, PriceText)
  {
    LowerNoUpper(PriceText);
    LowerNoUpper("price");
    PriceMentionsPrice();
    var h := Hits(PriceText, ["buy", "price"], false);
    assert h[1];
    assert AsGroups(Sales.keywords) == [["buy", "price"]];
    assert GroupPasses(Sales, PriceText, ["buy", "price"]);
  }

  lemma PriceMentionsPrice()
    ensures Contains(PriceText, "price")
  {
    assert PriceText[11..16] == "price";
    OccursAtContains(PriceText, "price", 11);
  }

  lemma SalesMissesGreeting()
    ensures !Matches(Sales, "hello")
  {
    LowerNoUpper("hello");
    LowerNoUpper("buy");
    LowerNoUpper("price");
    ContainsIff("hello", "buy");
    forall i | 0 <= i <= 2
      ensures !OccursAt("hello", "buy", i)
    {
      assert "hello"[i] != 'b';
    }
    ContainsIff("hello", "price");
    assert !OccursAt("hello", "price", 0);
    var h := Hits("hello", ["buy", "price"], false);
    assert !h[0] && !h[1];
  }

  lemma DecidePrice()
    ensures Decide(Account, PriceText) == Decision(StrRef("@shop"), "forward", "sales", true)
  {
    SalesMatchesPrice();
    Router.PickReturnsFirstMatch([Sales], PriceText, 0);
  }

  /** A body with no whitespace at either end is its own primary text. */
  lemma PrimaryTextOf(body: Option<string>, text: string)
    requires body == Some(text) && IsStripped(text)
    ensures MessagePrimaryText(body) == text
  {
    StripStripped(text);
  }

  lemma NormalizeShop()
    ensures NormalizeChatRef(StrRef("@shop")) == StrRef("shop")
  {
    StripStripped("@shop");
    DropSigilOnly("shop", "@shop");
  }

  /** A message mentioning a price is routed to "sales": `@shop` is
      resolved as `shop`, the message is forwarded to the handle, and one
      webhook names the route. */
  lemma {:induction false} PriceQuestionGoesToSales(msg: Message, shop: Handle, sent: Handle)
    requires msg == Message(1, Some(PriceText), None, false)
    ensures HandleStep(Account, World(map[], [Returned(shop), Returned(sent)], [], [], []), msg)
            == (Delivered("sales", "forward"),
                World(map[StrRef("@shop") := shop], [],
                      [GetEntity(StrRef("shop")), ForwardMessages(shop, msg)], [],
                      [Post(Hook, Payload("acc", "sales", PriceText))]))
  {
    var w := World(map[], [Returned(shop), Returned(sent)], [], [], []);
    PrimaryTextOf(msg.body, PriceText);
    HandleSkipsOwn(Account, w, msg);
    DecidePrice();
    DeliverToShop(msg, shop, sent);
  }

  lemma {:induction false} DeliverToShop(msg: Message, shop: Handle, sent: Handle)
    ensures var d := Decision(StrRef("@shop"), "forward", "sales", true);
            DeliverStep(Account, World(map[], [Returned(shop), Returned(sent)], [], [], []), d, PriceText, msg)
            == (Delivered("sales", "forward"),
                World(map[StrRef("@shop") := shop], [],
                      [GetEntity(StrRef("shop")), ForwardMessages(shop, msg)], [],
                      [Post(Hook, Payload("acc", "sales", PriceText))]))
  {
    var d := Decision(StrRef("@shop"), "forward", "sales", true);
    var w := World(map[], [Returned(shop), Returned(sent)], [], [], []);
    var w1 := World(map[StrRef("@shop") := shop], [Returned(sent)], [GetEntity(StrRef("shop"))], [], []);
    var w2 := World(map[StrRef("@shop") := shop], [], [GetEntity(StrRef("shop")), ForwardMessages(shop, msg)], [], []);
    ResolveShop(d.destRef, shop, sent);
    assert ResolveStep(w, d.destRef) == (Returned(shop), w1);
    ForwardToShop(msg, shop, sent);
    assert SendStep(w1, d.mode, shop, msg) == (None, w2);
    NotifySales(w2);
    assert [] + [Post(Hook, Payload("acc", "sales", PriceText))] == [Post(Hook, Payload("acc", "sales", PriceText))];
  }

  lemma ForwardToShop(msg: Message, shop: Handle, sent: Handle)
    ensures SendStep(World(map[StrRef("@shop") := shop], [Returned(sent)], [GetEntity(StrRef("shop"))], [], []), "forward", shop, msg)
            == (None, World(map[StrRef("@shop") := shop], [], [GetEntity(StrRef("shop")), ForwardMessages(shop, msg)], [], []))
  {
    var w1 := World(map[StrRef("@shop") := shop], [Returned(sent)], [GetEntity(StrRef("shop"))], [], []);
    RetryPassesOtherOutcomes(w1, ForwardMessages(shop, msg));
    assert Drop([Returned(sent)], 1) == [];
    assert [GetEntity(StrRef("shop"))] + [ForwardMessages(shop, msg)] == [GetEntity(StrRef("shop")), ForwardMessages(shop, msg)];
    assert ForwardStep(w1, shop, msg).0 == Returned(sent);
  }

  lemma NotifySales(w: World)
    ensures Notify(Account, w, Decision(StrRef("@shop"), "forward", "sales", true), PriceText)
            == (Delivered("sales", "forward"), w.(posts := w.posts + [Post(Hook, Payload("acc", "sales", PriceText))]))
  {
    assert WebhookPost(Account, "sales", PriceText, true) == Some(Post(Hook, Payload("acc", "sales", PriceText)));
  }

  lemma ResolveShop(target: Ref, shop: Handle, sent: Handle)
    requires target == StrRef("@shop")
    ensures ResolveStep(World(map[], [Returned(shop), Returned(sent)], [], [], []), target)
            == (Returned(shop), World(map[target := shop], [Returned(sent)], [GetEntity(StrRef("shop"))], [], []))
  {
    var w := World(map[], [Returned(shop), Returned(sent)], [], [], []);
    ResolveMissReturns(w, target, shop);
    NormalizeShop();
    assert w.script[1..] == [Returned(sent)];
    assert [] + [GetEntity(StrRef("shop"))] == [GetEntity(StrRef("shop"))];
  }

  /** A greeting matches no route; with no default target the handler
      still resolves `None`, and when the client rejects that, nothing is
      sent and no "unmatched" webhook is posted. */
  lemma {:induction false} GreetingWithoutDefaultPostsNothing(msg: Message, e: Error)
    requires msg == Message(2, Some("hello"), None, false)
    ensures HandleStep(Account, World(map[], [Raised(e)], [], [], []), msg)
            == (Failed(e), World(map[], [], [GetEntity(NoneRef)], [], []))
  {
    var w := World(map[], [Raised(e)], [], [], []);
    PrimaryTextOf(msg.body, "hello");
    NoRouteTakes(MessagePrimaryText(msg.body));
    HandleUnmatchedWithoutDefaultStillResolves(Account, w, msg, e);
    assert w.script[1..] == [];
    assert w.calls + [GetEntity(NoneRef)] == [GetEntity(NoneRef)];
  }

  /** No route of the account takes a greeting. */
  lemma NoRouteTakes(text: string)
    requires text == "hello"
    ensures forall j :: 0 <= j < |Account.routes| ==> !Matches(Account.routes[j], text)
  {
    SalesMissesGreeting();
  }
}
