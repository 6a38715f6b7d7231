# Perfume-shop Telegram bot: the add-product dialog

This project models the update handler of a Telegram bot for a perfume
shop. The handler keeps two in-memory maps keyed by chat id: the dialog
step each chat is at, and the product draft being assembled there. With
them it does three things:

- it routes button presses: the catalog, about and buy buttons, and the
  category buttons of the add-product flow;
- it answers the `/start` and `/new` commands, and gives an "unknown command"
  reply to anything else;
- it walks the administrator through the add-product flow. The steps are
  category, photo, name, description and price, and the price step hands
  the finished product to the store.

The keyboards the bot attaches to its messages are modelled with it. They
matter because their buttons carry the tokens the router dispatches on.

The model has two layers:

- **Module `Dialog`** describes one update as a pure function. It maps the
  two maps before the update to the maps after it, plus the list of effects
  the update caused, in order. Effects are texts and photos sent, presses
  acknowledged, calls to the product store and activity records.
- **Module `Telegram`** holds `Handler`, a class whose fields are the maps,
  the command table and an append-only log of effects. Its methods update
  these fields in place, as the Go methods do. Each method is proved to
  leave exactly the state and log that the `Dialog` function prescribes.

Module `DialogProperties` proves the promises of the dialog about those
functions:

- the invariant that links each chat's step to its draft;
- steps advance one at a time, in order;
- only the administrator can open the flow;
- nothing changes on rejected input;
- a completed flow hands exactly one product to the store (one
  `CreateProduct` call, which may fail), and only an accepted price does so;
- which button presses are acknowledged;
- the keyboards' tokens reach the router's intended branches, and a buy
  token's id survives the round trip.

Modules `GoStrings` and `Keyboards` model the prefix tests, the `%d`
formatting and the keyboards. `Domain` holds the product record.

The code is looser than an idealised add-product dialog in these ways:

- Not every button press is acknowledged. These get no acknowledgement:
  - the help button;
  - unknown tokens;
  - a category token the type step does not accept;
  - the type step's missing-draft branch.
- The about button builds its text but never sends it. Only the
  acknowledgement goes out.
- Names and descriptions may be empty. Any text the number parser accepts
  is a price, negative values included.
- Finishing the flow sets the chat's step to "none"; it does not delete the
  entry. The draft itself is deleted. The model keeps that entry, and
  treats a chat without an entry as being at step "none".
- Catalog cards carry distinct buy tokens only when the product ids are
  distinct, because the code writes the id into the token:
  `CatalogBuyTokensDistinct`, and `Keyboards.BuyTokenInjective` for the
  converse.

## Model

| member | source | states |
|---|---|---|
| GoStrings.TrimPrefix | internal/delivery/telegram/handler.go:303 | When the input starts with the prefix, the prefix followed by the result is the input; otherwise the input comes back unchanged |
| GoStrings.FormatInt | internal/delivery/telegram/keyboards/keyboards.go:80 | The `%d` text of an integer is non-empty and starts with a minus sign exactly when the integer is negative |
| GoStrings.ParseFormatInt | internal/delivery/telegram/keyboards/keyboards.go:80 | Reading back the `%d` text of any integer gives that integer |
| GoStrings.FormatIntInjective | internal/delivery/telegram/keyboards/keyboards.go:80 | Two integers have the same `%d` text if and only if they are equal |
| Keyboards.MainMenu | internal/delivery/telegram/keyboards/keyboards.go:39-57 | Two rows: catalog then about, then help alone. The keyboard carries exactly these three tokens |
| Keyboards.ProductTypeKeyboard | internal/delivery/telegram/keyboards/keyboards.go:61-74 | Two rows: female then male, then unisex alone. The keyboard carries exactly these three tokens |
| Keyboards.BuyToken | internal/delivery/telegram/keyboards/keyboards.go:78-80 | The buy token of an id starts with `buy_`. Stripping `buy_` gives back the `%d` text of the id |
| Keyboards.BuyKeyboard | internal/delivery/telegram/keyboards/keyboards.go:78-88 | One row holding one button, whose token is the buy token of the product id |
| Keyboards.BuyTokenInjective | internal/delivery/telegram/keyboards/keyboards.go:78-88 | Two ids get the same buy token if and only if they are equal |
| Dialog.TypeOfToken | internal/delivery/telegram/handler.go:199-208 | Exactly `type_female`, `type_male` and `type_unisex` select a category. The category is one of the three, and the token starts with `type_` |
| Dialog.StartCommand | internal/delivery/telegram/handler.go:315-328 | `/start` changes neither map |
| Dialog.NewProductCommand | internal/delivery/telegram/handler.go:133-147 | A non-administrator gets the denial and nothing changes. The administrator's chat goes to the type step with an empty draft, replacing any previous draft, and gets the category keyboard. Other chats are untouched, and consistency is kept |
| Dialog.UnknownReply | internal/delivery/telegram/handler.go:331-334 | The unknown-command reply changes neither map |
| Dialog.CatalogCards | internal/delivery/telegram/handler.go:291-298 | One card per product, in store order. Card i is product i's picture with its name, description, price and buy keyboard |
| Dialog.Catalog | internal/delivery/telegram/handler.go:278-299 | One store query first. Then a failure text if the query failed, the "empty" text if there are no products, or exactly the cards. Nothing else is ever emitted |
| Dialog.Callback | internal/delivery/telegram/handler.go:150-218 | The outcome of each branch: catalog, about (acknowledgement only), buy (echo of the id text), a type token outside the type step (restart advice plus acknowledgement), an accepted type token at the type step (category recorded, photo step, acknowledged), any other token at the type step (nothing at all), and any other token outside the type step (nothing at all). Consistency is kept |
| Dialog.MessageStep | internal/delivery/telegram/handler.go:221-276 | Photo step: no picture means a re-prompt and no change; otherwise the largest resolution is recorded. Name and description steps: any text is recorded. Price step: unparseable text means a re-prompt and no change; otherwise one store call with the draft and the price, and the chat leaves the flow whether or not the store succeeded. Other chats are untouched |
| Dialog.CallbackLogsNothing | internal/delivery/telegram/handler.go:102-105 | A button press never produces an activity record |
| Dialog.StepLogsNothing | internal/delivery/telegram/handler.go:111-115 | A message inside the flow never produces an activity record |
| Dialog.HandleUpdate | internal/delivery/telegram/handler.go:98-130 | Keeps consistency: a chat has a draft exactly when its step is not "none". An activity record is produced if and only if the update is a message, with no press, from a chat outside the flow |
| DialogProperties.InitialInv | internal/delivery/telegram/handler.go:75-89 | The empty maps of a new handler satisfy the dialog invariant |
| DialogProperties.CallbackKeepsInv | internal/delivery/telegram/handler.go:150-218 | Every button press keeps the invariant: a draft exactly inside the flow, filled in exactly as far as the chat's step |
| DialogProperties.StepKeepsInv | internal/delivery/telegram/handler.go:221-276 | Every message inside the flow keeps the invariant |
| DialogProperties.CommandKeepsInv | internal/delivery/telegram/handler.go:117-147 | Every command or unknown message outside the flow keeps the invariant |
| DialogProperties.HandleUpdateKeepsInv | internal/delivery/telegram/handler.go:98-130 | Every update keeps the invariant |
| DialogProperties.CallbackAdvances | internal/delivery/telegram/handler.go:150-218 | A press changes only its own chat, and moves it at most one step forward |
| DialogProperties.StepAdvances | internal/delivery/telegram/handler.go:221-276 | A message inside the flow changes only its chat, and moves it at most one step forward |
| DialogProperties.CommandAdvances | internal/delivery/telegram/handler.go:117-147 | A message outside the flow changes only its chat. The chat either stays outside or moves to the type step |
| DialogProperties.OneStepAtATime | internal/delivery/telegram/handler.go:98-276 | After any update, every chat is at the same step or the next one in the order type, photo, name, description, price, none. Every chat other than the update's own keeps its step and its draft |
| DialogProperties.Dispatch | internal/delivery/telegram/handler.go:98-130 | A press goes to the callback router even when a message comes with it. A message inside the flow goes to its step, with no activity record. Outside the flow, `/start` gets the welcome menu, `/new` goes to the administrator check, and anything else gets the unknown-command reply; each of these is followed by one activity record |
| DialogProperties.OnlyAdminOpensFlow | internal/delivery/telegram/handler.go:133-146 | A chat enters the flow only through a `/new` message sent by the administrator in that chat |
| DialogProperties.NonAdminIsDenied | internal/delivery/telegram/handler.go:133-138 | Another user's `/new` gets the denial and the activity record, and changes neither map |
| DialogProperties.CommandInsideFlowIsInput | internal/delivery/telegram/handler.go:111-115 | Inside the flow a command is step input. `/new` typed at the name step becomes the name, and no activity is recorded |
| DialogProperties.StoredOnlyByAcceptedPrice | internal/delivery/telegram/handler.go:248-274 | An accepted price hands exactly one product to the store (one `CreateProduct` call, which may fail): the draft's category (one of the three), name, description and image, with the parsed price. The chat then leaves the flow and its draft is gone. Every other update makes no `CreateProduct` call |
| DialogProperties.CallbackStoresNothing | internal/delivery/telegram/handler.go:150-218 | No button press makes a `CreateProduct` call |
| DialogProperties.CommandStoresNothing | internal/delivery/telegram/handler.go:117-129 | No command, reply or activity record outside the flow makes a `CreateProduct` call |
| DialogProperties.StepStores | internal/delivery/telegram/handler.go:221-276 | Inside the flow, only an accepted price makes a `CreateProduct` call (which may fail): the chat's draft, whose category is valid, with that price |
| DialogProperties.InvalidPriceChangesNothing | internal/delivery/telegram/handler.go:249-253 | Unparseable text at the price step re-prompts and leaves both maps unchanged |
| DialogProperties.MessageAtTypeStepIgnored | internal/delivery/telegram/handler.go:221-276 | A message at the type step changes nothing and gets no reply |
| DialogProperties.AcknowledgedIff | internal/delivery/telegram/handler.go:158-217 | A press is acknowledged if and only if its token is catalog, about, a buy token, a type token outside the type step, or an accepted type token at the type step. Help and any other token get no acknowledgement |
| DialogProperties.MainMenuRouting | internal/delivery/telegram/handler.go:158-169 | Catalog lists the products and is acknowledged. About is only acknowledged. Help does nothing |
| DialogProperties.TypeKeyboardMatchesTypeStep | internal/delivery/telegram/keyboards/keyboards.go:61-74 | A token is on the category keyboard if and only if the type step accepts it. Each button selects its category |
| DialogProperties.TypeTokensReachTypeBranch | internal/delivery/telegram/handler.go:159-179 | A category token is neither catalog nor about and does not start with `buy_`, but does start with `type_` |
| DialogProperties.BuyTokenRoundTrip | internal/delivery/telegram/handler.go:171-176 | Pressing a product's buy button changes nothing, echoes exactly the `%d` text of its id, and is acknowledged. That text reads back as the id |
| DialogProperties.CatalogBuyTokensDistinct | internal/delivery/telegram/handler.go:291-298 | Products with different ids get cards with different buy tokens |
| DialogProperties.FlowOpens | internal/delivery/telegram/handler.go:140-146 | The administrator's `/new` outside the flow gives the type step with an empty draft, and makes no `CreateProduct` call |
| DialogProperties.FlowType | internal/delivery/telegram/handler.go:190-216 | An accepted category token at the type step gives the photo step with the category recorded |
| DialogProperties.FlowPhoto | internal/delivery/telegram/handler.go:226-236 | A photo at the photo step gives the name step with the largest resolution's file id recorded |
| DialogProperties.FlowTexts | internal/delivery/telegram/handler.go:238-246 | Any text at the name step, or at the description step, moves on with that text recorded |
| DialogProperties.FlowPrice | internal/delivery/telegram/handler.go:248-274 | An accepted price leaves the flow and hands the draft with that price to the store (one `CreateProduct` call, which may fail) |
| DialogProperties.FlowStep | internal/delivery/telegram/handler.go:133-276 | At each step, the input that step accepts moves the chat to the next step. It is either recorded in the draft or, at the price step, handed to the store in one `CreateProduct` call |
| DialogProperties.FlowFrom | internal/delivery/telegram/handler.go:133-276 | From any step, the remaining accepted inputs visit the remaining steps in order. They make exactly one `CreateProduct` call (which may fail), carrying the draft completed with those inputs |
| DialogProperties.AddProductFlow | internal/delivery/telegram/handler.go:133-276 | `/new`, a category, a photo, a name, a description and a price visit type, photo, name, description, price and none in that order. They make exactly one `CreateProduct` call (which may fail), carrying the product built from those inputs |
| Telegram.Handler.constructor | internal/delivery/telegram/handler.go:75-89 | A new handler has empty maps and an empty log, the registered commands, and satisfies the invariant |
| Telegram.Handler.InitCommands | internal/delivery/telegram/handler.go:92-95 | Registers `start` and `new` |
| Telegram.Handler.Handle | internal/delivery/telegram/handler.go:98-130 | Updates the maps in place and appends to the log exactly as `Dialog.HandleUpdate` prescribes, and keeps the invariant |
| Telegram.Handler.HandleNewProduct | internal/delivery/telegram/handler.go:133-147 | New maps and log as `Dialog.NewProductCommand` prescribes |
| Telegram.Handler.HandleCallback | internal/delivery/telegram/handler.go:150-218 | New maps and log as `Dialog.Callback` prescribes |
| Telegram.Handler.HandleState | internal/delivery/telegram/handler.go:221-276 | New maps and log as `Dialog.MessageStep` prescribes |
| Telegram.Handler.HandleCatalog | internal/delivery/telegram/handler.go:278-299 | Appends exactly `Dialog.Catalog`'s effects to the log |
| Telegram.Handler.SendCards | internal/delivery/telegram/handler.go:291-298 | The loop appends one card per product, in order, to the log |
| Telegram.Handler.HandleBuy | internal/delivery/telegram/handler.go:302-305 | Appends the echo of the token with `buy_` stripped |
| Telegram.Handler.HandleStart | internal/delivery/telegram/handler.go:315-328 | Appends the welcome text with the main menu |
| Telegram.Handler.HandleUnknown | internal/delivery/telegram/handler.go:331-334 | Appends the unknown-command reply |

## Left out

- Transport. The Telegram client, its update loop, and `Send`/`Request` are replaced by the effect log. Send errors are ignored by the handler, except for one log line in `handleStart`, so they are not modelled.
- Exact message texts. The Russian texts, the welcome and about texts of the message service, and the HTML parse mode are replaced by the `Reply` constructors. The caption keeps only its three fields; its `%.2f` price formatting is not modelled.
- Product store. The SQLite store is reduced to its answers during one update, given as a parameter: whether an insert succeeds, and the product list or a failure. Id assignment is left to the store, so a product built by the bot carries id 0.
- Prices. `strconv.ParseFloat` is a parameter, a partial function of the text. `float64` prices are real numbers, so binary rounding is not modelled. `ParseFloat` also accepts texts such as `NaN`, `Inf` and `infinity` without error; their values have no `real` counterpart, so for those inputs the stored price in the model is not faithful.
- Activity logging. The logger records chat id and text; the elapsed time it also receives is not modelled. `log.Printf` lines are not modelled.
- Command parsing. It is the Telegram library's job. A message carries its command name, if any, as a field.
- Integer width. Chat, user and product ids are unbounded integers, so `int64` overflow is not modelled.
- Panics. Messages and presses always carry their chat, so a nil `Chat`, `From` or callback message is not representable. A photo with no resolutions is read as "no photo"; Go would treat a non-nil empty slice as a photo and panic when indexing it. Telegram never sends one.
- Drafts are stored by value in the draft map. In Go they are pointers that live only in that map, so no aliasing is lost.
- `handleAbout` is not a member of its own. It builds a message and never sends it, so its only observable effect is none, and the about branch of `Dialog.Callback` models it.
- Keyboards.BuyKeyboard: the button's label is not part of its contract, only its row shape and token.
- The keyboard `Service` and `NewService` hold no state, so the keyboards are plain functions.
- Configuration, wiring and the program entry point are not part of this model.
