/** The response helpers (lib/response/builder.js): each entry point sets speech
    and perhaps a card on the host builder, then `finalizeResponse` attaches the
    card or visual template the device supports, stores the outgoing intent,
    applies the end-session request and reads the response back. */
module Builder {
  import opened Wrappers
  import opened Platform

  /** The request-attribute key under which the outgoing intent is stored. */
  const OutgoingIntentKey := "outgoingIntent"

  // ---------------------------------------------------------------------------
  // The steps of finalizeResponse, as functions of the turn
  // ---------------------------------------------------------------------------

  /** `data.card && data.card.title && data.card.output` */
  predicate CardQualifies(data: ResponseData) {
    data.card.Some? && data.card.value.title != "" && data.card.value.output != ""
  }

  /** The card finalizeResponse attaches: one only for a qualifying card on a
      device without APL; a standard card exactly when the card has an image,
      otherwise a simple card with the card's own title and output. */
  function CardFor(device: Device, data: ResponseData): (card: Option<Card>)
    ensures card.Some? <==> CardQualifies(data) && !device.hasAplInterface
    ensures card.Some? ==> (card.value.SimpleCard? || card.value.StandardCard?) &&
                           card.value.title == data.card.value.title &&
                           card.value.content == data.card.value.output
    ensures card.Some? ==> (card.value.StandardCard? <==> data.card.value.image.Some?)
    ensures card.Some? && card.value.StandardCard? ==> card.value.image == data.card.value.image.value
  {
    if CardQualifies(data) && !device.hasAplInterface then
      match data.card.value.image
      case Some(image) => Some(StandardCard(data.card.value.title, data.card.value.output, image))
      case None => Some(SimpleCard(data.card.value.title, data.card.value.output))
    else None
  }

  /** Whether a directive comes from one of the two APL builders. */
  predicate IsApl(d: Directive) {
    d.AplRenderDocument? || d.AplExecuteCommands?
  }

  /** The directives finalizeResponse attaches for the device's visual interface. */
  function VisualDirectives(device: Device, helpers: Helpers, data: ResponseData, options: Option<Options>): (ds: seq<Directive>)
    ensures |ds| <= 2
    // APL takes precedence: on an APL device only APL directives, elsewhere none
    ensures forall d :: d in ds ==> (IsApl(d) <==> device.hasAplInterface)
    ensures forall d :: d in ds ==> IsApl(d) || d.RenderTemplate? || d.Hint?
    // the two APL directives, each exactly when its builder produced one
    ensures device.hasAplInterface ==>
      ((exists d :: d in ds && d.AplRenderDocument?) <==> helpers.buildAplRenderDocument(data.apl, options).Some?)
    ensures device.hasAplInterface ==>
      ((exists d :: d in ds && d.AplExecuteCommands?) <==> helpers.buildAplCommands(data.aplCommands, options).Some?)
    // the display template and hint, only on a Display device without APL
    ensures (exists d :: d in ds && d.RenderTemplate?) <==>
      !device.hasAplInterface && device.hasDisplayInterface && helpers.buildDisplayTemplate(data.display).Some?
    ensures (exists d :: d in ds && d.Hint?) <==>
      !device.hasAplInterface && device.hasDisplayInterface && data.hint != ""
    // what each directive carries: exactly what its builder returned, or the hint
    ensures forall d :: d in ds && d.AplRenderDocument? ==>
      helpers.buildAplRenderDocument(data.apl, options) == Some(d.document)
    ensures forall d :: d in ds && d.AplExecuteCommands? ==>
      helpers.buildAplCommands(data.aplCommands, options) == Some(d.commands)
    ensures forall d :: d in ds && d.RenderTemplate? ==>
      helpers.buildDisplayTemplate(data.display) == Some(d.template)
    ensures forall d :: d in ds && d.Hint? ==> d == Hint(data.hint)
    // the order: the document before the commands, the template before the hint
    ensures |ds| == 2 ==>
      (ds[0].AplRenderDocument? && ds[1].AplExecuteCommands?) || (ds[0].RenderTemplate? && ds[1].Hint?)
  {
    if device.hasAplInterface then
      var template := helpers.buildAplRenderDocument(data.apl, options);
      var commands := helpers.buildAplCommands(data.aplCommands, options);
      var ds := (if template.Some? then [AplRenderDocument(template.value)] else []) +
                (if commands.Some? then [AplExecuteCommands(commands.value)] else []);
      assert template.Some? ==> AplRenderDocument(template.value) in ds;
      assert commands.Some? ==> AplExecuteCommands(commands.value) in ds;
      ds
    else if device.hasDisplayInterface then
      var template := helpers.buildDisplayTemplate(data.display);
      var ds := (if template.Some? then [RenderTemplate(template.value)] else []) +
                (if data.hint != "" then [Hint(data.hint)] else []);
      assert template.Some? ==> RenderTemplate(template.value) in ds;
      assert data.hint != "" ==> Hint(data.hint) in ds;
      ds
    else []
  }

  /** The visual steps: the repeat-speech policy, the card, then the directives. */
  function DataStep(device: Device, helpers: Helpers, t: Turn, data: ResponseData, options: Option<Options>): Turn {
    var t1 := t.RecordRepeatSpeech(data, options);
    var t2 := match CardFor(device, data)
      case Some(card) => t1.WithResponse(t1.response.WithCard(card))
      case None => t1;
    t2.WithResponse(t2.response.(directives := t2.response.directives + VisualDirectives(device, helpers, data, options)))
  }

  /** Whether `options.shouldEndSession === true`. */
  predicate EndsSession(options: Option<Options>) {
    options.Some? && options.value.shouldEndSession == Boolean(true)
  }

  /** The options step: the serialised outgoing intent, then the end-session flag. */
  function OptionsStep(helpers: Helpers, t: Turn, options: Option<Options>): Turn {
    match options
    case None => t
    case Some(o) =>
      var t1 := match o.outgoingIntent
        case Some(intent) => t.SetRequestAttributes(map[OutgoingIntentKey := helpers.stringify(intent)])
        case None => t;
      if o.shouldEndSession == Boolean(true) then t1.WithResponse(t1.response.WithShouldEndSession(true)) else t1
  }

  /** What finalizeResponse does to the turn. Speech and reprompt are left alone;
      cards and directives are only appended to; the end-session flag is set, to
      true, only on a strict `true`; the outgoing intent is stored, once, only
      when options carry one. */
  function Finalized(device: Device, helpers: Helpers, t: Turn, data: Option<ResponseData>, options: Option<Options>): (r: Turn)
    ensures r.response.outputSpeech == t.response.outputSpeech
    ensures r.response.reprompt == t.response.reprompt
    ensures r.response.cards == t.response.cards + (if data.Some? then CardFor(device, data.value).ToSeq() else [])
    ensures r.response.directives == t.response.directives +
      (if data.Some? then VisualDirectives(device, helpers, data.value, options) else [])
    ensures r.repeatSpeech == t.repeatSpeech + (if data.Some? then [RepeatSpeechCall(data.value, options)] else [])
    ensures r.response.shouldEndSession == if EndsSession(options) then Some(true) else t.response.shouldEndSession
    ensures options.Some? && options.value.outgoingIntent.Some? ==>
      r.requestAttributes == t.requestAttributes[OutgoingIntentKey := helpers.stringify(options.value.outgoingIntent.value)]
    ensures options.None? || options.value.outgoingIntent.None? ==> r.requestAttributes == t.requestAttributes
  {
    var t1 := if data.Some? then DataStep(device, helpers, t, data.value, options) else t;
    var r := OptionsStep(helpers, t1, options);
    assert options.Some? && options.value.outgoingIntent.Some? ==>
      t1.requestAttributes + map[OutgoingIntentKey := helpers.stringify(options.value.outgoingIntent.value)] ==
      t1.requestAttributes[OutgoingIntentKey := helpers.stringify(options.value.outgoingIntent.value)];
    r
  }

  /** `data = data || {}; data.speech = buildSsml(data)`: a missing data object
      becomes `{}`, and only its speech is replaced, by what the SSML builder
      makes of the whole object. */
  function Prepared(helpers: Helpers, data: Option<ResponseData>): (r: ResponseData)
    ensures data.None? ==> r == EmptyData.(speech := helpers.buildSsml(EmptyData))
    ensures data.Some? ==> r.speech == helpers.buildSsml(data.value)
    ensures data.Some? ==>
      r.card == data.value.card && r.apl == data.value.apl && r.aplCommands == data.value.aplCommands &&
      r.display == data.value.display && r.hint == data.value.hint
  {
    var d := data.GetOr(EmptyData);
    d.(speech := helpers.buildSsml(d))
  }

  /** What `ask` does to the turn. */
  function Asked(device: Device, helpers: Helpers, t: Turn, data: Option<ResponseData>, options: Option<Options>): Turn {
    var d := Prepared(helpers, data);
    Finalized(device, helpers, t.WithResponse(t.response.Speak(d.speech.output).Reprompt(d.speech.reprompt)), Some(d), options)
  }

  /** What `askForPermissions` does to the turn. */
  function AskedForPermissions(device: Device, helpers: Helpers, t: Turn, data: Option<ResponseData>,
                               options: Option<Options>, permissions: Permissions): Turn
  {
    var d := Prepared(helpers, data);
    var r := t.response.Speak(d.speech.output).WithCard(AskForPermissionsConsentCard(permissions));
    var r' := if d.speech.reprompt != "" then r.Reprompt(d.speech.reprompt) else r;
    Finalized(device, helpers, t.WithResponse(r'), Some(d), options)
  }

  /** What `sendLinkAccountCard` does to the turn. */
  function LinkAccountCardSent(device: Device, helpers: Helpers, t: Turn, data: Option<ResponseData>, options: Option<Options>): Turn {
    var d := Prepared(helpers, data);
    var r := t.response.Speak(d.speech.output).WithCard(LinkAccountCard);
    var r' := if d.speech.reprompt != "" then r.Reprompt(d.speech.reprompt) else r;
    Finalized(device, helpers, t.WithResponse(r'), Some(d), options)
  }

  /** What `tell` does to the turn. */
  function Told(device: Device, helpers: Helpers, t: Turn, data: Option<ResponseData>, options: Option<Options>): Turn {
    var d := Prepared(helpers, data);
    Finalized(device, helpers, t.WithResponse(t.response.Speak(d.speech.output).WithShouldEndSession(true)), Some(d), options)
  }

  // ---------------------------------------------------------------------------
  // Properties of the finalisation
  // ---------------------------------------------------------------------------

  /** Without data and options, finalizeResponse changes nothing. */
  lemma FinalizedWithNothing(device: Device, helpers: Helpers, t: Turn)
    ensures Finalized(device, helpers, t, None, None) == t
  {
  }

  /** A card and an APL directive are never attached by the same finalisation. */
  lemma NoCardBesideApl(device: Device, helpers: Helpers, t: Turn, data: ResponseData, options: Option<Options>)
    ensures var r := Finalized(device, helpers, t, Some(data), options);
      |r.response.cards| > |t.response.cards| ==>
        forall i :: |t.response.directives| <= i < |r.response.directives| ==> !IsApl(r.response.directives[i])
  {
    var r := Finalized(device, helpers, t, Some(data), options);
    if |r.response.cards| > |t.response.cards| {
      var added := VisualDirectives(device, helpers, data, options);
      forall i | |t.response.directives| <= i < |r.response.directives|
        ensures !IsApl(r.response.directives[i])
      {
        assert r.response.directives[i] == added[i - |t.response.directives|];
      }
    }
  }

  /** On a device with Display but no APL, a qualifying card and a display
      template are both attached: a simple card beside a render-template
      directive when the card has no image. */
  lemma CardBesideDisplayTemplate(device: Device, helpers: Helpers, t: Turn, data: ResponseData, options: Option<Options>)
    requires !device.hasAplInterface && device.hasDisplayInterface
    requires CardQualifies(data) && data.card.value.image.None?
    requires helpers.buildDisplayTemplate(data.display).Some?
    ensures var r := Finalized(device, helpers, t, Some(data), options).response;
      r.cards == t.response.cards + [SimpleCard(data.card.value.title, data.card.value.output)] &&
      RenderTemplate(helpers.buildDisplayTemplate(data.display).value) in r.directives
  {
    var r := Finalized(device, helpers, t, Some(data), options).response;
    var added := VisualDirectives(device, helpers, data, options);
    assert added[0] == RenderTemplate(helpers.buildDisplayTemplate(data.display).value);
    assert r.directives[|t.response.directives|] == added[0];
  }

  /** `ask` always sets the speech and the reprompt the markup builder produced. */
  lemma AskSetsSpeechAndReprompt(device: Device, helpers: Helpers, t: Turn, data: Option<ResponseData>, options: Option<Options>)
    ensures var d := Prepared(helpers, data);
      var r := Asked(device, helpers, t, data, options).response;
      r.outputSpeech == Some(d.speech.output) && r.reprompt == Some(d.speech.reprompt)
  {
  }

  /** `askForPermissions` attaches the consent card first and sets a reprompt
      only when the built reprompt is truthy. */
  lemma AskForPermissionsReprompt(device: Device, helpers: Helpers, t: Turn, data: Option<ResponseData>,
                                  options: Option<Options>, permissions: Permissions)
    ensures var d := Prepared(helpers, data);
      var r := AskedForPermissions(device, helpers, t, data, options, permissions).response;
      r.outputSpeech == Some(d.speech.output) &&
      r.reprompt == (if d.speech.reprompt != "" then Some(d.speech.reprompt) else t.response.reprompt) &&
      |r.cards| > |t.response.cards| && r.cards[|t.response.cards|] == AskForPermissionsConsentCard(permissions)
  {
  }

  /** `sendLinkAccountCard` attaches the link-account card first and sets a
      reprompt only when the built reprompt is truthy. */
  lemma LinkAccountCardReprompt(device: Device, helpers: Helpers, t: Turn, data: Option<ResponseData>, options: Option<Options>)
    ensures var d := Prepared(helpers, data);
      var r := LinkAccountCardSent(device, helpers, t, data, options).response;
      r.outputSpeech == Some(d.speech.output) &&
      r.reprompt == (if d.speech.reprompt != "" then Some(d.speech.reprompt) else t.response.reprompt) &&
      |r.cards| > |t.response.cards| && r.cards[|t.response.cards|] == LinkAccountCard
  {
  }

  /** `tell` always ends the session, whatever the options say. */
  lemma TellEndsSession(device: Device, helpers: Helpers, t: Turn, data: Option<ResponseData>, options: Option<Options>)
    ensures var r := Told(device, helpers, t, data, options).response;
      r.shouldEndSession == Some(true) && r.reprompt == t.response.reprompt
  {
  }

  // ---------------------------------------------------------------------------
  // The entry points, on the handler input
  // ---------------------------------------------------------------------------

  /** The card step of finalizeResponse (the repeat-speech policy runs first). */
  method AttachCard(h: HandlerInput, d: ResponseData)
    modifies h.responseBuilder
    ensures h.responseBuilder.Current() ==
      match CardFor(h.device, d)
      case Some(card) => old(h.responseBuilder.Current()).WithCard(card)
      case None => old(h.responseBuilder.Current())
  {
    var hasApl := h.device.hasAplInterface;
    if d.card.Some? && d.card.value.title != "" && d.card.value.output != "" && !hasApl {
      var cardImg := d.card.value.image;
      if cardImg.Some? {
        h.responseBuilder.WithStandardCard(d.card.value.title, d.card.value.output, cardImg.value);
      } else {
        h.responseBuilder.WithSimpleCard(d.card.value.title, d.card.value.output);
      }
    }
  }

  /** The visual-template step of finalizeResponse: APL first, else Display. */
  method AttachVisuals(h: HandlerInput, d: ResponseData, options: Option<Options>)
    modifies h.responseBuilder
    ensures h.responseBuilder.Current() == old(h.responseBuilder.Current()).(directives :=
      old(h.responseBuilder.Current()).directives + VisualDirectives(h.device, h.helpers, d, options))
  {
    if h.device.hasAplInterface {
      var template := h.helpers.buildAplRenderDocument(d.apl, options);
      if template.Some? {
        h.responseBuilder.AddDirective(AplRenderDocument(template.value));
      }
      var commands := h.helpers.buildAplCommands(d.aplCommands, options);
      if commands.Some? {
        h.responseBuilder.AddDirective(AplExecuteCommands(commands.value));
      }
    } else if h.device.hasDisplayInterface {
      var template := h.helpers.buildDisplayTemplate(d.display);
      if template.Some? {
        h.responseBuilder.AddRenderTemplateDirective(template.value);
      }
      var hint := d.hint;
      if hint != "" {
        h.responseBuilder.AddHintDirective(hint);
      }
    }
  }

  /** The options step of finalizeResponse. */
  method ApplyOptions(h: HandlerInput, options: Option<Options>)
    modifies h, h.responseBuilder
    ensures h.CurrentTurn() == OptionsStep(h.helpers, old(h.CurrentTurn()), options)
  {
    if options.Some? {
      if options.value.outgoingIntent.Some? {
        h.SetRequestAttributes(map[OutgoingIntentKey := h.helpers.stringify(options.value.outgoingIntent.value)]);
      }
      if options.value.shouldEndSession == Boolean(true) {
        h.responseBuilder.WithShouldEndSession(true);
      }
    }
  }

  /** `finalizeResponse(handlerInput, data, options)` */
  method FinalizeResponse(h: HandlerInput, data: Option<ResponseData>, options: Option<Options>) returns (r: Response)
    modifies h, h.responseBuilder
    ensures h.CurrentTurn() == Finalized(h.device, h.helpers, old(h.CurrentTurn()), data, options)
    ensures r == h.responseBuilder.Current()
  {
    if data.Some? {
      h.SetRepeatSpeech(data.value, options);
      AttachCard(h, data.value);
      AttachVisuals(h, data.value, options);
    }
    ApplyOptions(h, options);
    r := h.responseBuilder.GetResponse();
  }

  /** `ask(handlerInput, data, options)` */
  method Ask(h: HandlerInput, data: Option<ResponseData>, options: Option<Options>) returns (r: Response)
    modifies h, h.responseBuilder
    ensures h.CurrentTurn() == Asked(h.device, h.helpers, old(h.CurrentTurn()), data, options)
    ensures r == h.responseBuilder.Current()
  {
    var d := data.GetOr(EmptyData);
    d := d.(speech := h.helpers.buildSsml(d));
    h.responseBuilder.Speak(d.speech.output);
    h.responseBuilder.Reprompt(d.speech.reprompt);
    r := FinalizeResponse(h, Some(d), options);
  }

  /** `askForPermissions(handlerInput, data, options, permissions)` */
  method AskForPermissions(h: HandlerInput, data: Option<ResponseData>, options: Option<Options>, permissions: Permissions)
    returns (r: Response)
    modifies h, h.responseBuilder
    ensures h.CurrentTurn() == AskedForPermissions(h.device, h.helpers, old(h.CurrentTurn()), data, options, permissions)
    ensures r == h.responseBuilder.Current()
  {
    var d := data.GetOr(EmptyData);
    d := d.(speech := h.helpers.buildSsml(d));
    h.responseBuilder.Speak(d.speech.output);
    h.responseBuilder.WithAskForPermissionsConsentCard(permissions);
    if d.speech.reprompt != "" {
      h.responseBuilder.Reprompt(d.speech.reprompt);
    }
    r := FinalizeResponse(h, Some(d), options);
  }

  /** `sendDirective(handlerInput, directive)`: a directive object is attached
      and nothing else changes; anything that is not an object is dropped. */
  method SendDirective(h: HandlerInput, directive: Option<Directive>) returns (r: Response)
    modifies h, h.responseBuilder
    ensures h.CurrentTurn() == if directive.Some? then old(h.CurrentTurn()).AddDirective(directive.value) else old(h.CurrentTurn())
    ensures r == h.responseBuilder.Current()
  {
    if directive.Some? {
      h.responseBuilder.AddDirective(directive.value);
    }
    ghost var t := h.CurrentTurn();
    r := FinalizeResponse(h, None, None);
    FinalizedWithNothing(h.device, h.helpers, t);
  }

  /** `sendLinkAccountCard(handlerInput, data, options)` */
  method SendLinkAccountCard(h: HandlerInput, data: Option<ResponseData>, options: Option<Options>) returns (r: Response)
    modifies h, h.responseBuilder
    ensures h.CurrentTurn() == LinkAccountCardSent(h.device, h.helpers, old(h.CurrentTurn()), data, options)
    ensures r == h.responseBuilder.Current()
  {
    var d := data.GetOr(EmptyData);
    d := d.(speech := h.helpers.buildSsml(d));
    h.responseBuilder.Speak(d.speech.output);
    h.responseBuilder.WithLinkAccountCard();
    if d.speech.reprompt != "" {
      h.responseBuilder.Reprompt(d.speech.reprompt);
    }
    r := FinalizeResponse(h, Some(d), options);
  }

  /** `tell(handlerInput, data, options)` */
  method Tell(h: HandlerInput, data: Option<ResponseData>, options: Option<Options>) returns (r: Response)
    modifies h, h.responseBuilder
    ensures h.CurrentTurn() == Told(h.device, h.helpers, old(h.CurrentTurn()), data, options)
    ensures r == h.responseBuilder.Current()
  {
    var d := data.GetOr(EmptyData);
    d := d.(speech := h.helpers.buildSsml(d));
    h.responseBuilder.Speak(d.speech.output);
    h.responseBuilder.WithShouldEndSession(true);
    r := FinalizeResponse(h, Some(d), options);
  }

  // ---------------------------------------------------------------------------
  // The image card as written
  // ---------------------------------------------------------------------------

  /** Evaluating the standard card's image arguments fails: they read an
      identifier, `imgObj`, that builder.js declares nowhere. */
  datatype Fault = ImageArgumentsThrow

  /** The card step as builder.js writes it: a qualifying card with an image on
      a device without APL makes finalizeResponse reject. */
  function CardStepAsWritten(device: Device, data: ResponseData): (r: Result<Option<Card>, Fault>)
    ensures r.Err? <==> CardQualifies(data) && !device.hasAplInterface && data.card.value.image.Some?
  {
    if CardQualifies(data) && !device.hasAplInterface then
      if data.card.value.image.Some? then Err(ImageArgumentsThrow)
      else Ok(Some(SimpleCard(data.card.value.title, data.card.value.output)))
    else Ok(None)
  }

  /** The written card step and CardFor agree except on an image card, where the
      written one throws and CardFor attaches the intended standard card. */
  lemma ImageCardThrowsAsWritten(device: Device, data: ResponseData)
    ensures CardQualifies(data) && !device.hasAplInterface && data.card.value.image.Some? ==>
      CardStepAsWritten(device, data) == Err(ImageArgumentsThrow) &&
      CardFor(device, data) == Some(StandardCard(data.card.value.title, data.card.value.output, data.card.value.image.value))
    ensures !(CardQualifies(data) && !device.hasAplInterface && data.card.value.image.Some?) ==>
      CardStepAsWritten(device, data) == Ok(CardFor(device, data))
  {
  }
}
