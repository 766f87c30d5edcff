# In-skill products and response finalisation, modelled in Dafny

This project models the two places where the voice-skill toolkit makes its
decisions:

- the in-skill-product helpers of `lib/isp/isp.js`. These filter a product
  catalog by type, entitlement or purchasability, look products up by id or
  reference name, and read a list of products aloud. They also run the
  purchase, refund and upsell flows, which send a `Connections.SendRequest`
  directive or reject with `NOT_FOUND`, and the list-permission consent-card
  flow;
- the response helpers of `lib/response/builder.js`. `ask`,
  `askForPermissions`, `sendLinkAccountCard` and `tell` set speech, and perhaps
  a card, on the host's response builder. `sendDirective` only attaches the
  directive object it is given. Each then calls `finalizeResponse`, which:
  - attaches a card when the device has no APL;
  - attaches either the APL directives or a display template and hint, as the
    device allows;
  - stores the outgoing intent and sets the end-session flag;
  - reads the response back.

Files:

- `wrappers.dfy` holds `Option` and `Result`: absent values and rejected promises.
- `products.dfy` holds the pure list operations: filters, lookups, the speakable list.
- `platform.dfy` holds the caller's data and options, and the host objects. The
  host's response builder is a class whose methods record each call. The handler
  input is a class that holds the device's interfaces, the collaborators outside
  this model (as functions), the request attributes and the repeat-speech record.
- `builder.dfy` holds the finalisation state machine and the entry points. Each
  method is proved against a function of the old turn (`Finalized`, `Asked`, …),
  and the lemmas are stated about those functions.
- `isp.dfy` holds the purchase, refund, upsell and permission-card flows.

Conventions: a falsy string (absent, `undefined`, `""`) is the empty string. An
absent object is `None`. A rejected promise is `Err(code)`.

Three behaviours of the code that a reader may not expect:

- `getSpeakableListOfProducts(["A","B","C"])` yields `"A, B and  C"`, with two
  spaces. The regular expression replaces only the comma and keeps the space
  after it (`SpeakableListOfThree`).
- A simple card and a display render-template can be attached together. The
  card is held back only on APL devices (`CardBesideDisplayTemplate`).
- `ask` sets the reprompt unconditionally, even when it is empty.

One behaviour of the code is not followed. For a qualifying card with an image
on a device without APL, `lib/response/builder.js:61` reads an undeclared
variable and throws. `finalizeResponse`, `ask`, `askForPermissions`,
`sendLinkAccountCard` and `tell` are proved against the corrected card step
`Builder.CardFor`, which attaches a standard card there. So for that input their
contracts describe a success where the code rejects. The behaviour as written is
modelled separately; see "## Findings".

## Model

| member | source | states |
|---|---|---|
| `Products.Filter` | lib/isp/isp.js:21-37 | the result is no longer than the list, and a product is in it exactly when it is in the list and qualifies |
| `Products.FilterCount` | lib/isp/isp.js:21-37 | each qualifying product appears as often as in the list; the others do not appear |
| `Products.FilterAppend` | lib/isp/isp.js:21-37 | filtering distributes over concatenation, so catalog order is preserved |
| `Products.FilterIdempotent` | lib/isp/isp.js:21-37 | filtering an already filtered list changes nothing |
| `Products.FilterKeepsAll` | lib/isp/isp.js:21-37 | a list whose products all qualify comes back unchanged |
| `Products.FilterHead` | lib/isp/isp.js:101-107 | the result is non-empty exactly when some product qualifies; its first element is the first qualifying product of the list |
| `Products.ConsumableProducts` | lib/isp/isp.js:21-25 | exactly the CONSUMABLE products, each with its multiplicity |
| `Products.EntitledProducts` | lib/isp/isp.js:27-31 | exactly the ENTITLED products, each with its multiplicity |
| `Products.PurchasableProducts` | lib/isp/isp.js:33-37 | exactly the PURCHASABLE products, each with its multiplicity |
| `Products.ProductById` | lib/isp/isp.js:101-103 | exactly the catalog entries with that id; empty exactly when no entry has it |
| `Products.ProductByReferenceName` | lib/isp/isp.js:105-107 | exactly the catalog entries with that reference name; empty exactly when no entry has it |
| `Products.ProductByIdAtMostOne` | lib/isp/isp.js:101-103 | in a catalog with unique ids, a lookup by id returns at most one product |
| `Products.ProductByReferenceNameHead` | lib/isp/isp.js:105-107 | the first product returned is the first catalog entry with that reference name |
| `Products.Names` | lib/isp/isp.js:40 | one name per product, in list order |
| `Products.Join` | lib/isp/isp.js:42 | a character occurs in the joined string exactly when it occurs in a part, or in the separator when there are two parts or more; the string starts with the first part |
| `Products.JoinSnoc` | lib/isp/isp.js:42 | joining two or more names ends with the separator and the last name |
| `Products.LastComma` | lib/isp/isp.js:44 | `/,([^,]*)$/` matches at the returned position, and at no other; there is no match exactly when the string has no comma |
| `Products.ReplaceLastComma` | lib/isp/isp.js:44 | without a match the string is unchanged; with a match at `i` the comma becomes " and " and the rest after it is kept |
| `Products.ReplaceFinalSeparator` | lib/isp/isp.js:44 | the comma of a final ", " before a comma-free tail becomes " and ", and the space after it is kept |
| `Products.SpeakableList` | lib/isp/isp.js:39-47 | an empty list is read as ""; for two or more products the joined names gain exactly the four characters of the " and " replacement |
| `Products.SpeakableListOfNone` | lib/isp/isp.js:39-47 | an empty list is read as "" |
| `Products.SpeakableListOfOne` | lib/isp/isp.js:39-47 | one comma-free name is read as it is |
| `Products.SpeakableListOfMany` | lib/isp/isp.js:39-47 | for two or more names with a comma-free last name: the earlier names joined by ", ", then " and ", then the kept space, then the last name |
| `Products.SpeakableListOfThree` | lib/isp/isp.js:39-47 | A, B, C is read as "A, B and  C" |
| `Builder.CardFor` | lib/response/builder.js:52-70 | a card is attached exactly when the card is present with a truthy title and output and the device has no APL; it is a standard card exactly when there is an image, carrying that image, otherwise a simple card; either carries the card's title and output |
| `Builder.VisualDirectives` | lib/response/builder.js:72-96 | APL devices get only APL directives, each exactly when its builder produced one; other Display devices get only the render template (when built) and the hint (when truthy); other devices get nothing. Each directive carries exactly what its builder returned, or the data's hint. The document comes before the commands, and the template before the hint |
| `Builder.Prepared` | lib/response/builder.js:19-21 | a missing data object becomes `{}`, and only its speech is replaced, by what the SSML builder makes of the whole object (the same two lines open `askForPermissions`, `sendLinkAccountCard` and `tell`, at 31-33, 129-131 and 145-147) |
| `Builder.Finalized` | lib/response/builder.js:46-118 | the repeat-speech policy is called once with the data and options, only when data is present; speech and reprompt are untouched; the card and visual directives are appended only when data is present; end-session becomes true only on a strict `true`; the serialised outgoing intent is stored under `outgoingIntent` only when options carry one |
| `Builder.FinalizedWithNothing` | lib/response/builder.js:46-111 | with no data and no options, finalisation changes nothing |
| `Builder.NoCardBesideApl` | lib/response/builder.js:52-83 | a finalisation that attaches a card attaches no APL directive |
| `Builder.CardBesideDisplayTemplate` | lib/response/builder.js:52-96 | on a Display device without APL, a qualifying image-less card and a built template are both attached |
| `Builder.AskSetsSpeechAndReprompt` | lib/response/builder.js:18-28 | `ask` always sets both the built speech and the built reprompt |
| `Builder.AskForPermissionsReprompt` | lib/response/builder.js:30-44 | the consent card is attached first; the reprompt is set only when the built reprompt is truthy |
| `Builder.LinkAccountCardReprompt` | lib/response/builder.js:128-142 | the link-account card is attached first; the reprompt is set only when the built reprompt is truthy |
| `Builder.TellEndsSession` | lib/response/builder.js:144-153 | `tell` always ends the session and leaves the reprompt alone |
| `Builder.AttachCard` | lib/response/builder.js:52-70 | the builder gains exactly the card `CardFor` chooses |
| `Builder.AttachVisuals` | lib/response/builder.js:72-96 | the builder gains exactly the directives `VisualDirectives` chooses, in order |
| `Builder.ApplyOptions` | lib/response/builder.js:99-109 | without options nothing changes; with options, the serialised outgoing intent is stored under `outgoingIntent` when present, and end-session is set to true only on a strict `true` |
| `Builder.FinalizeResponse` | lib/response/builder.js:46-118 | the new turn is `Finalized` of the old one, and the returned response is the builder's |
| `Builder.Ask` | lib/response/builder.js:18-28 | the new turn is `Asked` of the old one |
| `Builder.AskForPermissions` | lib/response/builder.js:30-44 | the new turn is `AskedForPermissions` of the old one |
| `Builder.SendDirective` | lib/response/builder.js:120-126 | a directive object is appended and nothing else changes; a non-object changes nothing |
| `Builder.SendLinkAccountCard` | lib/response/builder.js:128-142 | the new turn is `LinkAccountCardSent` of the old one |
| `Builder.Tell` | lib/response/builder.js:144-153 | the new turn is `Told` of the old one |
| `Builder.CardStepAsWritten` | lib/response/builder.js:52-70 | the card step as written throws exactly for a qualifying card with an image on a device without APL |
| `Builder.ImageCardThrowsAsWritten` | lib/response/builder.js:57-63 | for an image card the written step throws where `CardFor` attaches a standard card; elsewhere the two agree |
| `Isp.SendError` | lib/isp/isp.js:67-71 | always a rejection, carrying the given code, or UNKNOWN when none is given |
| `Isp.Normalised` | lib/isp/isp.js:147-150 | a non-empty array becomes its first element; anything else, the empty array included, is kept as it is |
| `Isp.SelectedId` | lib/isp/isp.js:146-156 | an id is selected exactly when the normalised target is a product with a truthy id, and it is that id |
| `Isp.FirstOfManyDecides` | lib/isp/isp.js:147-150 | of several products only the first one decides |
| `Isp.NothingIsNotFound` | lib/isp/isp.js:152-156 | `undefined` and `[]` both select nothing |
| `Isp.PurchaseByNameChoosesFirstMatch` | lib/isp/isp.js:138-144 | an id is bought only if it is the id of the first catalog entry with the reference name; when that first entry exists, its id is bought exactly when it is truthy; with no such entry nothing is selected |
| `Isp.PurchaseById` | lib/isp/isp.js:119-136 | a truthy id appends exactly one Buy request with that id and the fixed token and nothing else; a falsy id rejects with NOT_FOUND and changes nothing |
| `Isp.PurchaseProduct` | lib/isp/isp.js:146-157 | a Buy request for the selected id, or NOT_FOUND and no change |
| `Isp.PurchaseByName` | lib/isp/isp.js:138-144 | a Buy request for the id selected from the reference-name lookup, or NOT_FOUND and no change |
| `Isp.RefundProductById` | lib/isp/isp.js:159-176 | a truthy id appends exactly one Cancel request with that id and nothing else; a falsy id rejects with NOT_FOUND and changes nothing |
| `Isp.RefundProduct` | lib/isp/isp.js:178-189 | a Cancel request for the selected id, or NOT_FOUND and no change |
| `Isp.UpsellById` | lib/isp/isp.js:216-234 | a truthy id appends one Upsell request carrying the id and the message and returns the builder unfinalised; a falsy id rejects with NOT_FOUND and changes nothing |
| `Isp.UpsellProduct` | lib/isp/isp.js:236-247 | an Upsell request for the selected id, or NOT_FOUND and no change |
| `Isp.ContinueFallback` | lib/isp/isp.js:206-212 | the continue response stores no attribute, keeps the end-session flag, and sets both speech and reprompt |
| `Isp.SendPermissionCard` | lib/isp/isp.js:197-214 | with output data: `askForPermissions` with the LIST permission; without: `ask` with the continue message as output and reprompt and no options |

## Left out

- Builder.FinalizeResponse: it does not model the rejection at
  `lib/response/builder.js:61` for a qualifying card with an image on a device
  without APL. It attaches the intended standard card, and so do `Builder.Ask`,
  `Builder.AskForPermissions`, `Builder.SendLinkAccountCard` and `Builder.Tell`.
  `Builder.CardStepAsWritten` models the rejection (see "## Findings").
- The monetization service call `getInSkillProducts`. The catalog is an input
  to `PurchaseByName`, and a failed fetch (`BAD_REQUEST`) is not modelled.
- `getConsumableProducts`, `getEntitledProducts`, `getPurchasableProducts` and
  `getSpeakableEntitledProducts` are not modelled separately. Each is that fetch
  followed by the filter or speakable list above.
- `isEntitled`, `isProduct` and `isPurchasable` are not modelled. Nothing calls
  them. `isProduct` works as written. `isEntitled` and `isPurchasable` call
  `isProduct` unqualified, so they throw. `isPurchasable` also tests the
  `entitled` field.
- The analytics event in `sendPermissionCard` is not modelled. Its failure is
  caught, so the flow does not depend on it; as written, `EVENTS` is undefined
  and the call always throws.
- The error message text built by `sendError`, console logging, and the
  `LOG_RESPONSE` dump are not modelled.
- These collaborators are abstract functions in `Helpers`: SSML construction,
  the APL and display-template builders, and `JSON.stringify`. Whether they can
  reject is not modelled.
- The repeat-speech policy is not modelled. Each call is recorded with the data
  and options it was handed.
- Builder.Finalized: the model assumes that the repeat-speech policy
  (`responseUtils.setRepeatSpeech`, called at `lib/response/builder.js:48` with
  the whole handler input) leaves the response alone. Its code is not part of
  this model, and it can reach the response builder. So these clauses describe
  only the calls builder.js makes itself:
  - `Finalized`'s "speech and reprompt are untouched";
  - `AskForPermissionsReprompt` and `LinkAccountCardReprompt`'s "the reprompt is
    set only when the built reprompt is truthy";
  - `TellEndsSession`'s "leaves the reprompt alone".
- The capability checks are the two booleans of `Device`.
- `makeImagePath` and the card-image URL keys are not modelled. A standard card
  carries the card's image object as it is.
- `persistence.setRequestAttributes` is modelled as a merge into the turn's
  request attributes. The persistence module is not part of this model.
- The host builder is modelled as a record of the calls it received. Cards are
  kept in call order, and the host's rule that a later card replaces an earlier
  one is not modelled.
- Aliasing is not modelled. The helpers overwrite the caller's `data.speech` in
  place, but the model works on a copy of `data`.
- The async machinery is not modelled. Each call is one sequential step.
- A product id that is not a string (a number, say) is not modelled. An id is a
  string, and the empty string is falsy.
- The literals of `e.ISP.DIRECTIVE.TOKEN`, `c.PERMISSIONS.LIST` and
  `err.msg.CONTINUE` are not part of this model. The token is the single-value
  type `Token`. `c.PERMISSIONS.LIST` is the constructor `ListPermissions` of
  `Permissions`. `Scopes` stands for any other permission list a caller of
  `askForPermissions` passes. The continue message is a parameter.

## Findings

| source | as written | input that shows it | evidently intended | confidence | as-written member | corrected member |
|---|---|---|---|---|---|---|
| lib/response/builder.js:57-63 | the standard-card branch evaluates `utils.get(e.cardImageUrl.small, imgObj, null)`, but `imgObj` is declared nowhere in the file, so evaluating the arguments throws and `finalizeResponse` rejects | `data.card = {title: "T", output: "O", image: {…}}` on a device without APL | attach a standard card built from the card's image | high, not executed (only a global `imgObj` defined elsewhere would avoid it) | `Builder.CardStepAsWritten` (with `Builder.ImageCardThrowsAsWritten`) | `Builder.CardFor` |
