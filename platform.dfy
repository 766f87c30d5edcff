/** What the response helpers work on: the caller's response data and options,
    the host platform's response builder (`handlerInput.responseBuilder`), the
    turn's request attributes, and the collaborators outside this model
    (speech markup, visual template builders, serialisation, device capabilities). */
module Platform {
  import opened Wrappers

  /** A JSON value built or consumed by code outside this model: an APL document
      or command list, a display template, an intent, a card image. */
  datatype Document = Document(json: string)

  // ---------------------------------------------------------------------------
  // Directives and cards
  // ---------------------------------------------------------------------------

  /** The `name` of a Connections.SendRequest directive: "Buy", "Cancel", "Upsell". */
  datatype RequestName = Buy | Cancel | Upsell

  /** The fixed correlation token `e.ISP.DIRECTIVE.TOKEN` (its literal lives in
      enums.js, which is not part of this model). */
  datatype Token = IspToken

  /** `{ InSkillProduct: { productId }, upsellMessage? }` */
  datatype Payload = Payload(productId: string, upsellMessage: Option<string>)

  /** A directive attached to the response. */
  datatype Directive =
    | /** type "Connections.SendRequest" */
      SendRequest(name: RequestName, payload: Payload, token: Token)
    | /** what the APL render-document builder returned */
      AplRenderDocument(document: Document)
    | /** what the APL command builder returned */
      AplExecuteCommands(commands: Document)
    | /** type "Display.RenderTemplate" (addRenderTemplateDirective) */
      RenderTemplate(template: Document)
    | /** type "Hint" (addHintDirective) */
      Hint(text: string)
    | /** any other directive object a caller hands to sendDirective */
      Custom(body: Document)

  /** The permission scopes of a consent card; `c.PERMISSIONS.LIST` is the
      list-access constant of constants.js, which is not part of this model. */
  datatype Permissions = ListPermissions | Scopes(scopes: seq<string>)

  datatype Card =
    | SimpleCard(title: string, content: string)
    | StandardCard(title: string, content: string, image: Document)
    | AskForPermissionsConsentCard(permissions: Permissions)
    | LinkAccountCard

  /** The response as the host builder holds it. Cards are kept in the order
      they were attached (the host renders the last one). */
  datatype Response = Response(
    outputSpeech: Option<string>,
    reprompt: Option<string>,
    cards: seq<Card>,
    directives: seq<Directive>,
    shouldEndSession: Option<bool>)
  {
    function Speak(text: string): Response { this.(outputSpeech := Some(text)) }
    function Reprompt(text: string): Response { this.(reprompt := Some(text)) }
    function WithCard(card: Card): Response { this.(cards := cards + [card]) }
    function AddDirective(d: Directive): Response { this.(directives := directives + [d]) }
    function WithShouldEndSession(b: bool): Response { this.(shouldEndSession := Some(b)) }
  }

  const EmptyResponse := Response(None, None, [], [], None)

  // ---------------------------------------------------------------------------
  // What callers pass in
  // ---------------------------------------------------------------------------

  /** `data.speech`; an absent field is the empty string. */
  datatype Speech = Speech(output: string, reprompt: string)

  /** `data.card`; a falsy title or output is the empty string. */
  datatype CardData = CardData(title: string, output: string, image: Option<Document>)

  /** The `data` object of the response helpers; a falsy hint is the empty string. */
  datatype ResponseData = ResponseData(
    speech: Speech,
    card: Option<CardData>,
    apl: Option<Document>,
    aplCommands: Option<Document>,
    display: Option<Document>,
    hint: string)

  /** `{}` */
  const EmptyData := ResponseData(Speech("", ""), None, None, None, None, "")

  /** A JavaScript value that may be a boolean, or not. */
  datatype JsValue = Undefined | Boolean(b: bool) | OtherValue(text: string)

  /** The `options` object: an outgoing intent and an end-session request. */
  datatype Options = Options(outgoingIntent: Option<Document>, shouldEndSession: JsValue)

  /** The interfaces the requesting device declares (`hasAPLInterface`,
      `hasDisplayInterface`). */
  datatype Device = Device(hasAplInterface: bool, hasDisplayInterface: bool)

  /** The collaborators the helpers call, as functions fixed for the turn:
      `buildSsml`, `buildAplRenderDocumentDirective`, `buildAplCommandDirective`,
      `buildDisplayTemplate` and `JSON.stringify`. */
  datatype Helpers = Helpers(
    buildSsml: ResponseData -> Speech,
    buildAplRenderDocument: (Option<Document>, Option<Options>) -> Option<Document>,
    buildAplCommands: (Option<Document>, Option<Options>) -> Option<Document>,
    buildDisplayTemplate: Option<Document> -> Option<Document>,
    stringify: Document -> string)

  /** One call of the repeat-speech policy: the data and the options it was handed. */
  datatype RepeatSpeechCall = RepeatSpeechCall(data: ResponseData, options: Option<Options>)

  /** Everything a turn's helpers change: the response being built, the request
      attributes, and the calls made to the repeat-speech policy. */
  datatype Turn = Turn(
    response: Response,
    requestAttributes: map<string, string>,
    repeatSpeech: seq<RepeatSpeechCall>)
  {
    function WithResponse(r: Response): Turn { this.(response := r) }
    function AddDirective(d: Directive): Turn { this.(response := response.AddDirective(d)) }
    function SetRequestAttributes(attributes: map<string, string>): Turn {
      this.(requestAttributes := requestAttributes + attributes)
    }
    function RecordRepeatSpeech(data: ResponseData, options: Option<Options>): Turn {
      this.(repeatSpeech := repeatSpeech + [RepeatSpeechCall(data, options)])
    }
  }

  // ---------------------------------------------------------------------------
  // The host objects
  // ---------------------------------------------------------------------------

  /** The host platform's response builder, updated in place by chained calls. */
  class ResponseBuilder {
    var outputSpeech: Option<string>
    var reprompt: Option<string>
    var cards: seq<Card>
    var directives: seq<Directive>
    var shouldEndSession: Option<bool>

    function Current(): Response
      reads this
    {
      Response(outputSpeech, reprompt, cards, directives, shouldEndSession)
    }

    constructor ()
      ensures Current() == EmptyResponse
    {
      outputSpeech, reprompt, cards, directives, shouldEndSession := None, None, [], [], None;
    }

    method Speak(text: string)
      modifies this
      ensures Current() == old(Current()).Speak(text)
    {
      outputSpeech := Some(text);
    }

    method Reprompt(text: string)
      modifies this
      ensures Current() == old(Current()).Reprompt(text)
    {
      reprompt := Some(text);
    }

    method WithSimpleCard(title: string, content: string)
      modifies this
      ensures Current() == old(Current()).WithCard(SimpleCard(title, content))
    {
      cards := cards + [SimpleCard(title, content)];
    }

    method WithStandardCard(title: string, content: string, image: Document)
      modifies this
      ensures Current() == old(Current()).WithCard(StandardCard(title, content, image))
    {
      cards := cards + [StandardCard(title, content, image)];
    }

    method WithAskForPermissionsConsentCard(permissions: Permissions)
      modifies this
      ensures Current() == old(Current()).WithCard(AskForPermissionsConsentCard(permissions))
    {
      cards := cards + [AskForPermissionsConsentCard(permissions)];
    }

    method WithLinkAccountCard()
      modifies this
      ensures Current() == old(Current()).WithCard(LinkAccountCard)
    {
      cards := cards + [LinkAccountCard];
    }

    method AddDirective(d: Directive)
      modifies this
      ensures Current() == old(Current()).AddDirective(d)
    {
      directives := directives + [d];
    }

    method AddRenderTemplateDirective(template: Document)
      modifies this
      ensures Current() == old(Current()).AddDirective(RenderTemplate(template))
    {
      directives := directives + [RenderTemplate(template)];
    }

    method AddHintDirective(text: string)
      modifies this
      ensures Current() == old(Current()).AddDirective(Hint(text))
    {
      directives := directives + [Hint(text)];
    }

    method WithShouldEndSession(b: bool)
      modifies this
      ensures Current() == old(Current()).WithShouldEndSession(b)
    {
      shouldEndSession := Some(b);
    }

    method GetResponse() returns (r: Response)
      ensures r == Current()
    {
      r := Response(outputSpeech, reprompt, cards, directives, shouldEndSession);
    }
  }

  /** The turn's `handlerInput`: the device, the collaborators, the response
      builder, the request attributes and the repeat-speech record. */
  class HandlerInput {
    const device: Device
    const helpers: Helpers
    const responseBuilder: ResponseBuilder
    var requestAttributes: map<string, string>
    var repeatSpeech: seq<RepeatSpeechCall>

    function CurrentTurn(): Turn
      reads this, responseBuilder
    {
      Turn(responseBuilder.Current(), requestAttributes, repeatSpeech)
    }

    constructor (device: Device, helpers: Helpers)
      ensures this.device == device && this.helpers == helpers
      ensures fresh(responseBuilder)
      ensures CurrentTurn() == Turn(EmptyResponse, map[], [])
    {
      this.device := device;
      this.helpers := helpers;
      responseBuilder := new ResponseBuilder();
      requestAttributes := map[];
      repeatSpeech := [];
    }

    /** The persistence layer's `setRequestAttributes`: merges into the turn's
        request attributes. */
    method SetRequestAttributes(attributes: map<string, string>)
      modifies this
      ensures CurrentTurn() == old(CurrentTurn()).SetRequestAttributes(attributes)
    {
      requestAttributes := requestAttributes + attributes;
    }

    /** `setRepeatSpeech(handlerInput, data, options)`: the policy itself is not
        part of this model; the call is recorded with the data and options it
        was given. */
    method SetRepeatSpeech(data: ResponseData, options: Option<Options>)
      modifies this
      ensures CurrentTurn() == old(CurrentTurn()).RecordRepeatSpeech(data, options)
    {
      repeatSpeech := repeatSpeech + [RepeatSpeechCall(data, options)];
    }
  }
}
