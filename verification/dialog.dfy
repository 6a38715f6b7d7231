/** What the bot's update handler does, as functions of the per-chat state.

    The handler keeps two in-memory maps keyed by chat id: the dialog step of
    each chat and the product draft being assembled there. Every update is
    handled to completion before the next one is read, so one update is one
    function from the old maps to the new maps and the list of outbound
    effects it produced, in order. The effects are everything the handler
    asks of the outside world: messages and photos sent, button presses
    acknowledged, calls to the product store and to the activity logger. */
module Dialog {
  import opened Wrappers
  import opened GoStrings
  import opened Domain
  import Keyboards

  /** The dialog steps of the add-product flow, in the order they are visited. */
  datatype State =
    | StateNone
    | StateWaitingForType
    | StateWaitingForPhoto
    | StateWaitingForName
    | StateWaitingForDescription
    | StateWaitingForPrice

  /** The draft filled in step by step; fields not reached yet hold Go's zero values. */
  datatype DraftProduct = DraftProduct(
    productType: ProductType,
    imageId: string,
    name: string,
    description: string,
    price: Price)

  const EmptyDraft := DraftProduct("", "", "", "", 0.0)

  /** One resolution of an uploaded photo; the transport lists them from smallest to largest. */
  datatype PhotoSize = PhotoSize(fileId: string, width: int, height: int)

  /** An incoming chat message. `command` is the command name without its slash
      when the message starts with a bot command, and `photo` lists the
      resolutions of the attached picture (empty when there is none). */
  datatype Message = Message(
    chatId: int,
    fromId: int,
    text: string,
    command: Option<string>,
    photo: seq<PhotoSize>)

  /** A button press: its id (needed to acknowledge it), the chat and the token. */
  datatype CallbackQuery = CallbackQuery(id: string, chatId: int, data: string)

  /** One update from the transport: a button press, a message, both or neither. */
  datatype Update = Update(callback: Option<CallbackQuery>, message: Option<Message>)

  /** The texts the bot sends, one constructor per distinct text. */
  datatype Reply =
    | Welcome            // the welcome text of the message service
    | UnknownCommand
    | PermissionDenied
    | ChooseType
    | ContextLost        // "an error occurred, maybe the bot restarted: enter /new again"
    | InternalError
    | SendPhoto
    | PhotoRequired
    | EnterName
    | EnterDescription
    | EnterPrice
    | InvalidNumber
    | SaveFailed
    | Saved
    | CatalogFailed
    | CatalogEmpty
    | BuyStub(productId: string)  // "you chose the product with id ...; ordering is not ready yet"

  /** The caption of a catalog card is formatted from these three fields. */
  datatype Caption = Caption(name: string, description: string, price: Price)

  /** Everything the handler does outside its own two maps. */
  datatype Effect =
    | SendText(chatId: int, reply: Reply, markup: Option<Keyboards.Markup>)
    | SendPicture(chatId: int, imageId: string, caption: Caption, buttons: Keyboards.Markup)
    | AnswerCallback(callbackId: string)
    | CreateProduct(product: Product)
    | GetAllProducts
    | LogActivity(chatId: int, text: string)

  /** The two per-chat maps of the handler. */
  datatype Chats = Chats(userStates: map<int, State>, drafts: map<int, DraftProduct>)

  /** The maps after one update, and the effects it produced, in order. */
  datatype Outcome = Outcome(chats: Chats, effects: seq<Effect>)

  /** What the handler is built with: the administrator's id and the number
      parser (`strconv.ParseFloat`), which is not modelled beyond being a
      partial function of the text. */
  datatype Config = Config(adminId: int, parsePrice: string -> Option<Price>)

  /** What the product store answers during one update: whether an insert
      succeeds, and the product list (absent when the query fails). */
  datatype StoreReplies = StoreReplies(createOk: bool, products: Option<seq<Product>>)

  /** The registered slash commands. */
  datatype Command = Start | NewProduct

  function Commands(): map<string, Command> {
    map["start" := Start, "new" := NewProduct]
  }

  // Tokens as the handler spells them.
  const CatalogData := "catalog"
  const AboutData := "about"
  const BuyPrefix := "buy_"
  const TypePrefix := "type_"

  /** The category a type token selects, if it is one of the three. */
  function TypeOfToken(data: string): (t: Option<ProductType>)
    ensures t.Some? ==> IsProductType(t.value) && HasPrefix(data, TypePrefix)
    ensures t.Some? <==> data in {"type_female", "type_male", "type_unisex"}
  {
    match data
    case "type_female" => Some(TypeFemale)
    case "type_male" => Some(TypeMale)
    case "type_unisex" => Some(TypeUnisex)
    case _ => None
  }

  /** The step of a chat; a chat without an entry is in `StateNone`. */
  function StateOf(c: Chats, chatId: int): State {
    if chatId in c.userStates then c.userStates[chatId] else StateNone
  }

  /** The steps whose message handler works on the chat's draft. */
  predicate NeedsDraft(s: State) {
    s.StateWaitingForPhoto? || s.StateWaitingForName? || s.StateWaitingForDescription? || s.StateWaitingForPrice?
  }

  /** A chat has a draft exactly when it is inside the flow. */
  ghost predicate Consistent(c: Chats) {
    forall k :: k in c.drafts <==> StateOf(c, k) != StateNone
  }

  /** Everything outside chat `k` is the same in `c` and `c'`. */
  predicate SameElsewhere(c: Chats, c': Chats, k: int) {
    c'.userStates - {k} == c.userStates - {k} && c'.drafts - {k} == c.drafts - {k}
  }

  // ---------------------------------------------------------------------
  // Commands
  // ---------------------------------------------------------------------

  /** `/start`: the welcome text with the main menu. */
  function StartCommand(c: Chats, m: Message): (o: Outcome)
    ensures o.chats == c
  {
    Outcome(c, [SendText(m.chatId, Welcome, Some(Keyboards.MainMenu()))])
  }

  /** `/new`: only the administrator may open the flow; doing so puts the chat at
      the type step with a fresh draft, discarding any draft it had. */
  function NewProductCommand(c: Chats, adminId: int, m: Message): (o: Outcome)
    ensures m.fromId != adminId ==> o == Outcome(c, [SendText(m.chatId, PermissionDenied, None)])
    ensures m.fromId == adminId ==>
      && StateOf(o.chats, m.chatId) == StateWaitingForType
      && m.chatId in o.chats.drafts && o.chats.drafts[m.chatId] == EmptyDraft
      && SameElsewhere(c, o.chats, m.chatId)
      && o.effects == [SendText(m.chatId, ChooseType, Some(Keyboards.ProductTypeKeyboard()))]
    ensures Consistent(c) ==> Consistent(o.chats)
  {
    if m.fromId != adminId then
      Outcome(c, [SendText(m.chatId, PermissionDenied, None)])
    else
      Outcome(
        Chats(c.userStates[m.chatId := StateWaitingForType], c.drafts[m.chatId := EmptyDraft]),
        [SendText(m.chatId, ChooseType, Some(Keyboards.ProductTypeKeyboard()))])
  }

  /** The reply to a message that is not a registered command. */
  function UnknownReply(c: Chats, m: Message): (o: Outcome)
    ensures o.chats == c
  {
    Outcome(c, [SendText(m.chatId, UnknownCommand, None)])
  }

  // ---------------------------------------------------------------------
  // Catalog
  // ---------------------------------------------------------------------

  /** The card of one product: its picture, captioned, with its buy button. */
  function Card(chatId: int, p: Product): Effect {
    SendPicture(chatId, p.imageId, Caption(p.name, p.description, p.price), Keyboards.BuyKeyboard(p.id))
  }

  /** One card per product, in the store's order. */
  function CatalogCards(chatId: int, ps: seq<Product>): (r: seq<Effect>)
    ensures |r| == |ps|
    ensures forall i :: 0 <= i < |ps| ==> r[i] == Card(chatId, ps[i])
  {
    if ps == [] then [] else CatalogCards(chatId, ps[..|ps| - 1]) + [Card(chatId, ps[|ps| - 1])]
  }

  /** The catalog listing: one store query, then an error text, an "empty"
      text, or the cards. */
  function Catalog(chatId: int, products: Option<seq<Product>>): (r: seq<Effect>)
    ensures |r| >= 2 && r[0] == GetAllProducts
    ensures products.None? ==> r == [GetAllProducts, SendText(chatId, CatalogFailed, None)]
    ensures products == Some([]) ==> r == [GetAllProducts, SendText(chatId, CatalogEmpty, None)]
    ensures products.Some? && products.value != [] ==> r[1..] == CatalogCards(chatId, products.value)
    ensures forall i :: 0 <= i < |r| ==> r[i].GetAllProducts? || r[i].SendText? || r[i].SendPicture?
  {
    match products
    case None => [GetAllProducts, SendText(chatId, CatalogFailed, None)]
    case Some(ps) =>
      if |ps| == 0 then [GetAllProducts, SendText(chatId, CatalogEmpty, None)]
      else [GetAllProducts] + CatalogCards(chatId, ps)
  }

  // ---------------------------------------------------------------------
  // Button presses
  // ---------------------------------------------------------------------

  /** A button press. Exact tokens and the buy prefix are served first; a type
      token outside the type step is answered with the restart advice; at the
      type step one of the three type tokens records the category and moves to
      the photo step. The about text is built but never sent. */
  function Callback(c: Chats, q: CallbackQuery, products: Option<seq<Product>>): (o: Outcome)
    ensures q.data == CatalogData ==> o == Outcome(c, Catalog(q.chatId, products) + [AnswerCallback(q.id)])
    ensures q.data == AboutData ==> o == Outcome(c, [AnswerCallback(q.id)])
    ensures HasPrefix(q.data, BuyPrefix) ==>
      o == Outcome(c, [SendText(q.chatId, BuyStub(TrimPrefix(q.data, BuyPrefix)), None), AnswerCallback(q.id)])
    ensures HasPrefix(q.data, TypePrefix) && StateOf(c, q.chatId) != StateWaitingForType ==>
      o == Outcome(c, [SendText(q.chatId, ContextLost, None), AnswerCallback(q.id)])
    ensures StateOf(c, q.chatId) == StateWaitingForType && q.chatId in c.drafts && TypeOfToken(q.data).Some? ==>
      && StateOf(o.chats, q.chatId) == StateWaitingForPhoto
      && q.chatId in o.chats.drafts
      && o.chats.drafts[q.chatId] == c.drafts[q.chatId].(productType := TypeOfToken(q.data).value)
      && SameElsewhere(c, o.chats, q.chatId)
      && o.effects == [SendText(q.chatId, SendPhoto, None), AnswerCallback(q.id)]
    ensures (StateOf(c, q.chatId) == StateWaitingForType && q.chatId in c.drafts && TypeOfToken(q.data).None?
             && q.data !in {CatalogData, AboutData} && !HasPrefix(q.data, BuyPrefix)) ==> o == Outcome(c, [])
    ensures (StateOf(c, q.chatId) != StateWaitingForType && q.data !in {CatalogData, AboutData}
             && !HasPrefix(q.data, BuyPrefix) && !HasPrefix(q.data, TypePrefix)) ==> o == Outcome(c, [])
    ensures Consistent(c) ==> Consistent(o.chats)
  {
    PrefixesExclusive(q.data, BuyPrefix, TypePrefix);
    PrefixesExclusive(CatalogData, CatalogData, BuyPrefix);
    PrefixesExclusive(CatalogData, CatalogData, TypePrefix);
    PrefixesExclusive(AboutData, AboutData, BuyPrefix);
    PrefixesExclusive(AboutData, AboutData, TypePrefix);
    var chatId := q.chatId;
    var ack := AnswerCallback(q.id);
    if q.data == CatalogData then
      Outcome(c, Catalog(chatId, products) + [ack])
    else if q.data == AboutData then
      Outcome(c, [ack])
    else if HasPrefix(q.data, BuyPrefix) then
      Outcome(c, [SendText(chatId, BuyStub(TrimPrefix(q.data, BuyPrefix)), None), ack])
    else if HasPrefix(q.data, TypePrefix) && !(chatId in c.userStates && c.userStates[chatId] == StateWaitingForType) then
      Outcome(c, [SendText(chatId, ContextLost, None), ack])
    else if chatId in c.userStates && c.userStates[chatId] == StateWaitingForType then
      if chatId !in c.drafts then
        // A type step without a draft: reported, the step is reset, the press is not acknowledged.
        Outcome(Chats(c.userStates[chatId := StateNone], c.drafts), [SendText(chatId, InternalError, None)])
      else
        match TypeOfToken(q.data)
        case None => Outcome(c, [])
        case Some(t) =>
          Outcome(
            Chats(c.userStates[chatId := StateWaitingForPhoto], c.drafts[chatId := c.drafts[chatId].(productType := t)]),
            [SendText(chatId, SendPhoto, None), ack])
    else
      Outcome(c, [])
  }

  // ---------------------------------------------------------------------
  // Messages inside the flow
  // ---------------------------------------------------------------------

  /** The product committed from a draft once its price is known; the store assigns the id. */
  function ProductOf(d: DraftProduct, price: Price): Product {
    Product(0, d.productType, d.name, d.description, price, d.imageId)
  }

  /** A message while the chat is at step `state`. The photo step wants a
      picture and keeps the largest resolution; the name and description steps
      take any text; the price step wants a number, hands the product to the store and
      leaves the flow whether or not the store succeeded. */
  function MessageStep(c: Chats, m: Message, state: State, parsePrice: string -> Option<Price>, createOk: bool): (o: Outcome)
    requires NeedsDraft(state) ==> m.chatId in c.drafts
    ensures state == StateWaitingForPhoto && m.photo == [] ==> o == Outcome(c, [SendText(m.chatId, PhotoRequired, None)])
    ensures state == StateWaitingForPhoto && m.photo != [] ==>
      var ps := m.photo;
      && m.chatId in o.chats.drafts
      && o.chats.drafts[m.chatId] == c.drafts[m.chatId].(imageId := ps[|ps| - 1].fileId)
      && StateOf(o.chats, m.chatId) == StateWaitingForName
      && SameElsewhere(c, o.chats, m.chatId)
      && o.effects == [SendText(m.chatId, EnterName, None)]
    ensures state == StateWaitingForName ==>
      && m.chatId in o.chats.drafts
      && o.chats.drafts[m.chatId] == c.drafts[m.chatId].(name := m.text)
      && StateOf(o.chats, m.chatId) == StateWaitingForDescription
      && SameElsewhere(c, o.chats, m.chatId)
      && o.effects == [SendText(m.chatId, EnterDescription, None)]
    ensures state == StateWaitingForDescription ==>
      && m.chatId in o.chats.drafts
      && o.chats.drafts[m.chatId] == c.drafts[m.chatId].(description := m.text)
      && StateOf(o.chats, m.chatId) == StateWaitingForPrice
      && SameElsewhere(c, o.chats, m.chatId)
      && o.effects == [SendText(m.chatId, EnterPrice, None)]
    ensures state == StateWaitingForPrice && parsePrice(m.text).None? ==>
      o == Outcome(c, [SendText(m.chatId, InvalidNumber, None)])
    ensures state == StateWaitingForPrice && parsePrice(m.text).Some? ==>
      && StateOf(o.chats, m.chatId) == StateNone
      && m.chatId !in o.chats.drafts
      && SameElsewhere(c, o.chats, m.chatId)
      && o.effects == [CreateProduct(ProductOf(c.drafts[m.chatId], parsePrice(m.text).value)),
                       SendText(m.chatId, if createOk then Saved else SaveFailed, None)]
    ensures !NeedsDraft(state) ==> o == Outcome(c, [])
  {
    var chatId := m.chatId;
    match state
    case StateWaitingForPhoto =>
      if m.photo == [] then
        Outcome(c, [SendText(chatId, PhotoRequired, None)])
      else
        var largest := m.photo[|m.photo| - 1];
        Outcome(
          Chats(c.userStates[chatId := StateWaitingForName], c.drafts[chatId := c.drafts[chatId].(imageId := largest.fileId)]),
          [SendText(chatId, EnterName, None)])
    case StateWaitingForName =>
      Outcome(
        Chats(c.userStates[chatId := StateWaitingForDescription], c.drafts[chatId := c.drafts[chatId].(name := m.text)]),
        [SendText(chatId, EnterDescription, None)])
    case StateWaitingForDescription =>
      Outcome(
        Chats(c.userStates[chatId := StateWaitingForPrice], c.drafts[chatId := c.drafts[chatId].(description := m.text)]),
        [SendText(chatId, EnterPrice, None)])
    case StateWaitingForPrice =>
      (match parsePrice(m.text)
       case None => Outcome(c, [SendText(chatId, InvalidNumber, None)])
       case Some(price) =>
         var product := ProductOf(c.drafts[chatId], price);
         Outcome(
           Chats(c.userStates[chatId := StateNone], c.drafts - {chatId}),
           [CreateProduct(product), SendText(chatId, if createOk then Saved else SaveFailed, None)]))
    case _ =>
      Outcome(c, [])
  }

  /** A button press never reaches the activity logger. */
  lemma CallbackLogsNothing(c: Chats, q: CallbackQuery, products: Option<seq<Product>>)
    ensures var es := Callback(c, q, products).effects;
      forall i :: 0 <= i < |es| ==> !es[i].LogActivity?
  {
  }

  /** Neither does a message inside the flow. */
  lemma StepLogsNothing(c: Chats, m: Message, state: State, parsePrice: string -> Option<Price>, createOk: bool)
    requires NeedsDraft(state) ==> m.chatId in c.drafts
    ensures var es := MessageStep(c, m, state, parsePrice, createOk).effects;
      forall i :: 0 <= i < |es| ==> !es[i].LogActivity?
  {
  }

  // ---------------------------------------------------------------------
  // Dispatch
  // ---------------------------------------------------------------------

  /** A message outside the flow: a registered command runs its handler,
      anything else gets the unknown-command reply. */
  function CommandOrUnknown(c: Chats, cfg: Config, m: Message): Outcome {
    if m.command.Some? && m.command.value in Commands() then
      match Commands()[m.command.value]
      case Start => StartCommand(c, m)
      case NewProduct => NewProductCommand(c, cfg.adminId, m)
    else
      UnknownReply(c, m)
  }

  /** One update. A button press goes to the callback router; a message goes
      to the dialog step while the chat is inside the flow, and otherwise to
      the commands, after which the activity logger records it. */
  function HandleUpdate(c: Chats, cfg: Config, u: Update, store: StoreReplies): (o: Outcome)
    requires Consistent(c)
    ensures Consistent(o.chats)
    ensures (exists i :: 0 <= i < |o.effects| && o.effects[i].LogActivity?) <==>
      u.callback.None? && u.message.Some? && StateOf(c, u.message.value.chatId) == StateNone
  {
    if u.callback.Some? then
      CallbackLogsNothing(c, u.callback.value, store.products);
      Callback(c, u.callback.value, store.products)
    else if u.message.None? then
      Outcome(c, [])
    else
      var m := u.message.value;
      if m.chatId in c.userStates && c.userStates[m.chatId] != StateNone then
        StepLogsNothing(c, m, c.userStates[m.chatId], cfg.parsePrice, store.createOk);
        MessageStep(c, m, c.userStates[m.chatId], cfg.parsePrice, store.createOk)
      else
        var o := CommandOrUnknown(c, cfg, m);
        var effects := o.effects + [LogActivity(m.chatId, m.text)];
        assert effects[|effects| - 1].LogActivity?;
        Outcome(o.chats, effects)
  }
}
