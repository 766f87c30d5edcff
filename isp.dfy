/** The in-skill-product flows (lib/isp/isp.js): purchase, refund and upsell a
    product by sending a Connections.SendRequest directive, the rejection sent
    when there is no product, and the list-permission consent card. */
module Isp {
  import opened Wrappers
  import opened Products
  import opened Platform
  import opened Builder

  /** `err.code`: the codes a rejection carries. */
  datatype ErrorCode = NotFound | BadRequest | Unknown

  /** `sendError(responseCode, msg)`: always a rejection, carrying the given
      code, or UNKNOWN when none is given. */
  function SendError<T>(responseCode: Option<ErrorCode>): (r: Result<T, ErrorCode>)
    ensures r.Err?
    ensures r.error == Unknown <==> responseCode.None? || responseCode.value == Unknown
    ensures responseCode.Some? ==> r.error == responseCode.value
  {
    Err(responseCode.GetOr(Unknown))
  }

  /** The Connections.SendRequest directive for a product: the action's name,
      the product id in the payload, and the fixed token. */
  function ProductRequest(name: RequestName, productId: string, upsellMessage: Option<string>): Directive {
    SendRequest(name, Payload(productId, upsellMessage), IspToken)
  }

  // ---------------------------------------------------------------------------
  // Choosing the product
  // ---------------------------------------------------------------------------

  /** What purchaseProduct, refundProduct and upsellProduct are handed: nothing
      (`undefined`), one product, or an array of products. */
  datatype Target = Missing | One(product: Product) | Many(products: seq<Product>)

  /** `if (Array.isArray(product) && product.length > 0) product = product[0]`:
      a non-empty array becomes its first element; anything else, the empty
      array included, stays as it is. */
  function Normalised(target: Target): (t: Target)
    ensures target.Many? && |target.products| > 0 ==> t == One(target.products[0])
    ensures !(target.Many? && |target.products| > 0) ==> t == target
    ensures t.Many? ==> t.products == []
  {
    if target.Many? && |target.products| > 0 then One(target.products[0]) else target
  }

  /** `product && product.productId` after normalisation: the id the flow
      dispatches for, None when the flow rejects with NOT_FOUND. */
  function SelectedId(target: Target): (id: Option<string>)
    ensures id.Some? ==> id.value != ""
    ensures id.Some? <==> Normalised(target).One? && Normalised(target).product.productId != ""
    ensures id.Some? ==> id.value == Normalised(target).product.productId
  {
    match Normalised(target)
    case One(p) => if p.productId != "" then Some(p.productId) else None
    case _ => None
  }

  /** Of several products, the first one decides; the rest are never looked at. */
  lemma FirstOfManyDecides(first: Product, rest: seq<Product>)
    ensures SelectedId(Many([first] + rest)) == SelectedId(One(first))
  {
  }

  /** Nothing, and an empty array, are both rejected. */
  lemma NothingIsNotFound()
    ensures SelectedId(Missing) == None && SelectedId(Many([])) == None
  {
  }

  /** purchaseByName buys the first catalog entry with the reference name, if
      that entry has an id; with no entry of that name it rejects. */
  lemma PurchaseByNameChoosesFirstMatch(productName: string, products: InSkillProducts)
    ensures var list := products.inSkillProducts;
      var id := SelectedId(Many(ProductByReferenceName(productName, products)));
      (id.Some? ==>
         (exists i :: 0 <= i < |list| && list[i].referenceName == productName && list[i].productId == id.value &&
                      (forall j :: 0 <= j < i ==> list[j].referenceName != productName))) &&
      (forall i :: 0 <= i < |list| && list[i].referenceName == productName &&
                   (forall j :: 0 <= j < i ==> list[j].referenceName != productName) ==>
         id == (if list[i].productId != "" then Some(list[i].productId) else None)) &&
      ((forall p :: p in list ==> p.referenceName != productName) ==> id.None?)
  {
    var list := products.inSkillProducts;
    var found := ProductByReferenceName(productName, products);
    ProductByReferenceNameHead(productName, products);
    forall i | 0 <= i < |list| && list[i].referenceName == productName &&
               (forall j :: 0 <= j < i ==> list[j].referenceName != productName)
      ensures found[0] == list[i]
    {
      assert list[i] in found;
      var k :| 0 <= k < |list| && found[0] == list[k] && list[k].referenceName == productName &&
               forall j :: 0 <= j < k ==> list[j].referenceName != productName;
      assert !(k < i) && !(i < k);
    }
  }

  // ---------------------------------------------------------------------------
  // Purchase
  // ---------------------------------------------------------------------------

  /** `purchaseById(handlerInput, productId)`: with an id, exactly one Buy
      request is attached and the response is finalised with nothing else; with
      none, a NOT_FOUND rejection and no change. */
  method PurchaseById(h: HandlerInput, productId: string) returns (r: Result<Response, ErrorCode>)
    modifies h, h.responseBuilder
    ensures productId != "" ==>
      h.CurrentTurn() == old(h.CurrentTurn()).AddDirective(ProductRequest(Buy, productId, None)) &&
      r == Ok(h.responseBuilder.Current())
    ensures productId == "" ==> h.CurrentTurn() == old(h.CurrentTurn()) && r == Err(NotFound)
  {
    if productId != "" {
      var response := SendDirective(h, Some(ProductRequest(Buy, productId, None)));
      r := Ok(response);
    } else {
      r := SendError(Some(NotFound));
    }
  }

  /** `purchaseProduct(handlerInput, product)` */
  method PurchaseProduct(h: HandlerInput, product: Target) returns (r: Result<Response, ErrorCode>)
    modifies h, h.responseBuilder
    ensures SelectedId(product).Some? ==>
      h.CurrentTurn() == old(h.CurrentTurn()).AddDirective(ProductRequest(Buy, SelectedId(product).value, None)) &&
      r == Ok(h.responseBuilder.Current())
    ensures SelectedId(product).None? ==> h.CurrentTurn() == old(h.CurrentTurn()) && r == Err(NotFound)
  {
    var target := product;
    if target.Many? && |target.products| > 0 {
      target := One(target.products[0]);
    }
    if target.One? && target.product.productId != "" {
      r := PurchaseById(h, target.product.productId);
    } else {
      r := SendError(Some(NotFound));
    }
  }

  /** `purchaseByName(handlerInput, productName)`, with the catalog the
      monetization service returned. */
  method PurchaseByName(h: HandlerInput, products: InSkillProducts, productName: string) returns (r: Result<Response, ErrorCode>)
    modifies h, h.responseBuilder
    ensures var id := SelectedId(Many(ProductByReferenceName(productName, products)));
      (id.Some? ==>
        h.CurrentTurn() == old(h.CurrentTurn()).AddDirective(ProductRequest(Buy, id.value, None)) &&
        r == Ok(h.responseBuilder.Current())) &&
      (id.None? ==> h.CurrentTurn() == old(h.CurrentTurn()) && r == Err(NotFound))
  {
    var product := ProductByReferenceName(productName, products);
    r := PurchaseProduct(h, Many(product));
  }

  // ---------------------------------------------------------------------------
  // Refund
  // ---------------------------------------------------------------------------

  /** `refundProductById(handlerInput, productId)`: as purchaseById, with a
      Cancel request. */
  method RefundProductById(h: HandlerInput, productId: string) returns (r: Result<Response, ErrorCode>)
    modifies h, h.responseBuilder
    ensures productId != "" ==>
      h.CurrentTurn() == old(h.CurrentTurn()).AddDirective(ProductRequest(Cancel, productId, None)) &&
      r == Ok(h.responseBuilder.Current())
    ensures productId == "" ==> h.CurrentTurn() == old(h.CurrentTurn()) && r == Err(NotFound)
  {
    if productId != "" {
      var response := SendDirective(h, Some(ProductRequest(Cancel, productId, None)));
      r := Ok(response);
    } else {
      r := SendError(Some(NotFound));
    }
  }

  /** `refundProduct(handlerInput, product)` */
  method RefundProduct(h: HandlerInput, product: Target) returns (r: Result<Response, ErrorCode>)
    modifies h, h.responseBuilder
    ensures SelectedId(product).Some? ==>
      h.CurrentTurn() == old(h.CurrentTurn()).AddDirective(ProductRequest(Cancel, SelectedId(product).value, None)) &&
      r == Ok(h.responseBuilder.Current())
    ensures SelectedId(product).None? ==> h.CurrentTurn() == old(h.CurrentTurn()) && r == Err(NotFound)
  {
    var target := product;
    if target.Many? && |target.products| > 0 {
      target := One(target.products[0]);
    }
    if target.One? && target.product.productId != "" {
      r := RefundProductById(h, target.product.productId);
    } else {
      r := SendError(Some(NotFound));
    }
  }

  // ---------------------------------------------------------------------------
  // Upsell
  // ---------------------------------------------------------------------------

  /** `upsellById(handlerInput, productId, message)`: with an id, one Upsell
      request carrying the id and the message is attached to the builder, which
      is returned unfinalised (no attributes, no repeat speech, no flag); with
      none, a NOT_FOUND rejection and no change. */
  method UpsellById(h: HandlerInput, productId: string, message: Option<string>) returns (r: Result<ResponseBuilder, ErrorCode>)
    modifies h.responseBuilder
    ensures productId != "" ==>
      h.CurrentTurn() == old(h.CurrentTurn()).AddDirective(ProductRequest(Upsell, productId, message)) &&
      r == Ok(h.responseBuilder)
    ensures productId == "" ==> h.CurrentTurn() == old(h.CurrentTurn()) && r == Err(NotFound)
  {
    if productId != "" {
      h.responseBuilder.AddDirective(ProductRequest(Upsell, productId, message));
      r := Ok(h.responseBuilder);
    } else {
      r := SendError(Some(NotFound));
    }
  }

  /** `upsellProduct(handlerInput, product, message)` */
  method UpsellProduct(h: HandlerInput, product: Target, message: Option<string>) returns (r: Result<ResponseBuilder, ErrorCode>)
    modifies h.responseBuilder
    ensures SelectedId(product).Some? ==>
      h.CurrentTurn() == old(h.CurrentTurn()).AddDirective(ProductRequest(Upsell, SelectedId(product).value, message)) &&
      r == Ok(h.responseBuilder)
    ensures SelectedId(product).None? ==> h.CurrentTurn() == old(h.CurrentTurn()) && r == Err(NotFound)
  {
    var target := product;
    if target.Many? && |target.products| > 0 {
      target := One(target.products[0]);
    }
    if target.One? && target.product.productId != "" {
      r := UpsellById(h, target.product.productId, message);
    } else {
      r := SendError(Some(NotFound));
    }
  }

  // ---------------------------------------------------------------------------
  // The permission card
  // ---------------------------------------------------------------------------

  /** `{ speech: { output: msg, reprompt: msg } }` */
  function ContinueData(msg: string): ResponseData {
    EmptyData.(speech := Speech(msg, msg))
  }

  /** Without output data the permission flow asks the user to continue: the
      caller's options are not passed on, so no attribute is stored and the
      end-session flag is left as it was; speech and reprompt are both set. */
  lemma ContinueFallback(device: Device, helpers: Helpers, t: Turn, msg: string)
    ensures var r := Asked(device, helpers, t, Some(ContinueData(msg)), None);
      var speech := helpers.buildSsml(ContinueData(msg));
      r.requestAttributes == t.requestAttributes &&
      r.response.shouldEndSession == t.response.shouldEndSession &&
      r.response.outputSpeech == Some(speech.output) && r.response.reprompt == Some(speech.reprompt)
  {
    assert Prepared(helpers, Some(ContinueData(msg))).speech == helpers.buildSsml(ContinueData(msg));
  }

  /** `sendPermissionCard(handlerInput, outputData, options)`, where `continueMsg`
      is `err.msg.CONTINUE`. With output data: the list-permission consent card
      via askForPermissions, whatever the analytics call does (its failure is
      caught). Without: `ask` with the continue message as output and reprompt. */
  method SendPermissionCard(h: HandlerInput, outputData: Option<ResponseData>, options: Option<Options>, continueMsg: string)
    returns (r: Response)
    modifies h, h.responseBuilder
    ensures outputData.Some? ==>
      h.CurrentTurn() == AskedForPermissions(h.device, h.helpers, old(h.CurrentTurn()), outputData, options, ListPermissions)
    ensures outputData.None? ==>
      h.CurrentTurn() == Asked(h.device, h.helpers, old(h.CurrentTurn()), Some(ContinueData(continueMsg)), None)
    ensures r == h.responseBuilder.Current()
  {
    if outputData.Some? {
      r := AskForPermissions(h, outputData, options, ListPermissions);
    } else {
      r := Ask(h, Some(ContinueData(continueMsg)), None);
    }
  }
}
