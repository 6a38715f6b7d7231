/** Properties of the add-product dialog, proved about the functions of
    module Dialog: the invariant linking steps to drafts, the order of the
    steps, who may open the flow, when a product is handed to the store, which presses
    are acknowledged, and how the keyboards' tokens meet the router. */
module DialogProperties {
  import opened Wrappers
  import opened GoStrings
  import opened Domain
  import Keyboards
  import opened Dialog

  // ---------------------------------------------------------------------
  // The invariant
  // ---------------------------------------------------------------------

  /** The draft of a chat at step `s` has every field of the later steps still
      at its zero value, and a category once the type step is behind it. */
  predicate DraftFits(s: State, d: DraftProduct) {
    match s
    case StateNone => false
    case StateWaitingForType => d == EmptyDraft
    case StateWaitingForPhoto =>
      IsProductType(d.productType) && d.imageId == "" && d.name == "" && d.description == "" && d.price == 0.0
    case StateWaitingForName =>
      IsProductType(d.productType) && d.name == "" && d.description == "" && d.price == 0.0
    case StateWaitingForDescription =>
      IsProductType(d.productType) && d.description == "" && d.price == 0.0
    case StateWaitingForPrice =>
      IsProductType(d.productType) && d.price == 0.0
  }

  /** A chat has a draft exactly when it is inside the flow, and the draft
      has been filled in exactly as far as the chat's step. */
  ghost predicate Inv(c: Chats) {
    && Consistent(c)
    && forall k :: k in c.drafts ==> DraftFits(StateOf(c, k), c.drafts[k])
  }

  lemma InitialInv()
    ensures Inv(Chats(map[], map[]))
  {
  }

  /** A change confined to chat `k` keeps the invariant once `k` itself fits. */
  lemma LocalChangeKeepsInv(c: Chats, c': Chats, k: int)
    requires Inv(c) && Consistent(c') && SameElsewhere(c, c', k)
    requires k in c'.drafts ==> DraftFits(StateOf(c', k), c'.drafts[k])
    ensures Inv(c')
  {
    forall j | j in c'.drafts
      ensures DraftFits(StateOf(c', j), c'.drafts[j])
    {
      if j != k {
        Untouched(c, c', k, j);
      }
    }
  }

  /** A button press keeps the invariant. */
  lemma CallbackKeepsInv(c: Chats, q: CallbackQuery, products: Option<seq<Product>>)
    requires Inv(c)
    ensures Inv(Callback(c, q, products).chats)
  {
    var o := Callback(c, q, products);
    CallbackAdvances(c, q, products);
    if q.chatId in c.drafts {
      assert DraftFits(StateOf(c, q.chatId), c.drafts[q.chatId]);
    }
    LocalChangeKeepsInv(c, o.chats, q.chatId);
  }

  /** A message inside the flow keeps the invariant. */
  lemma StepKeepsInv(c: Chats, m: Message, parsePrice: string -> Option<Price>, createOk: bool)
    requires Inv(c) && StateOf(c, m.chatId) != StateNone
    ensures Inv(MessageStep(c, m, StateOf(c, m.chatId), parsePrice, createOk).chats)
  {
    var o := MessageStep(c, m, StateOf(c, m.chatId), parsePrice, createOk);
    StepAdvances(c, m, parsePrice, createOk);
    assert DraftFits(StateOf(c, m.chatId), c.drafts[m.chatId]);
    LocalChangeKeepsInv(c, o.chats, m.chatId);
  }

  /** A message outside the flow keeps the invariant. */
  lemma CommandKeepsInv(c: Chats, cfg: Config, m: Message)
    requires Inv(c) && StateOf(c, m.chatId) == StateNone
    ensures Inv(CommandOrUnknown(c, cfg, m).chats)
  {
    var o := CommandOrUnknown(c, cfg, m);
    CommandAdvances(c, cfg, m);
    LocalChangeKeepsInv(c, o.chats, m.chatId);
  }

  /** Every update keeps the invariant. */
  lemma HandleUpdateKeepsInv(c: Chats, cfg: Config, u: Update, store: StoreReplies)
    requires Inv(c)
    ensures Inv(HandleUpdate(c, cfg, u, store).chats)
  {
    if u.callback.Some? {
      CallbackKeepsInv(c, u.callback.value, store.products);
    } else if u.message.Some? {
      var m := u.message.value;
      if StateOf(c, m.chatId) != StateNone {
        StepKeepsInv(c, m, cfg.parsePrice, store.createOk);
      } else {
        CommandKeepsInv(c, cfg, m);
      }
    }
  }

  // ---------------------------------------------------------------------
  // The order of the steps
  // ---------------------------------------------------------------------

  /** The step that follows `s` in the flow. */
  function Next(s: State): State {
    match s
    case StateNone => StateWaitingForType
    case StateWaitingForType => StateWaitingForPhoto
    case StateWaitingForPhoto => StateWaitingForName
    case StateWaitingForName => StateWaitingForDescription
    case StateWaitingForDescription => StateWaitingForPrice
    case StateWaitingForPrice => StateNone
  }

  /** The chat an update comes from. */
  function ChatOf(u: Update): Option<int> {
    if u.callback.Some? then Some(u.callback.value.chatId)
    else if u.message.Some? then Some(u.message.value.chatId)
    else None
  }

  /** An update touches at most its own chat, and moves that chat at most one
      step forward: no step is skipped and none is revisited. */
  lemma OneStepAtATime(c: Chats, cfg: Config, u: Update, store: StoreReplies, k: int)
    requires Consistent(c)
    ensures var o := HandleUpdate(c, cfg, u, store);
      && (StateOf(o.chats, k) == StateOf(c, k) || StateOf(o.chats, k) == Next(StateOf(c, k)))
      && (ChatOf(u) != Some(k) ==> StateOf(o.chats, k) == StateOf(c, k)
                                   && (k in o.chats.drafts <==> k in c.drafts)
                                   && (k in c.drafts ==> o.chats.drafts[k] == c.drafts[k]))
  {
    var o := HandleUpdate(c, cfg, u, store);
    var j: int;
    if u.callback.Some? {
      j := u.callback.value.chatId;
      CallbackAdvances(c, u.callback.value, store.products);
    } else if u.message.Some? {
      var m := u.message.value;
      j := m.chatId;
      if StateOf(c, j) != StateNone {
        StepAdvances(c, m, cfg.parsePrice, store.createOk);
      } else {
        CommandAdvances(c, cfg, m);
      }
    } else {
      return;
    }
    if k != j {
      Untouched(c, o.chats, j, k);
    }
  }

  /** Chat `k` is the only chat `c'` differs from `c` in, and it is at the same
      step as before or at the next one. */
  predicate Advances(c: Chats, c': Chats, k: int) {
    && SameElsewhere(c, c', k)
    && (StateOf(c', k) == StateOf(c, k) || StateOf(c', k) == Next(StateOf(c, k)))
  }

  /** A chat other than the changed one keeps its step and its draft. */
  lemma Untouched(c: Chats, c': Chats, j: int, k: int)
    requires SameElsewhere(c, c', j) && k != j
    ensures StateOf(c', k) == StateOf(c, k)
    ensures k in c'.drafts <==> k in c.drafts
    ensures k in c.drafts ==> c'.drafts[k] == c.drafts[k]
  {
    assert k in c'.userStates <==> k in (c'.userStates - {j});
    assert k in c.userStates <==> k in (c.userStates - {j});
    assert k in c'.drafts <==> k in (c'.drafts - {j});
    assert k in c.drafts <==> k in (c.drafts - {j});
  }

  /** A button press moves at most the pressing chat, by at most one step. */
  lemma CallbackAdvances(c: Chats, q: CallbackQuery, products: Option<seq<Product>>)
    requires Consistent(c)
    ensures Advances(c, Callback(c, q, products).chats, q.chatId)
  {
  }

  /** A message inside the flow moves its chat by at most one step. */
  lemma StepAdvances(c: Chats, m: Message, parsePrice: string -> Option<Price>, createOk: bool)
    requires Consistent(c) && StateOf(c, m.chatId) != StateNone
    ensures Advances(c, MessageStep(c, m, StateOf(c, m.chatId), parsePrice, createOk).chats, m.chatId)
  {
  }

  /** A message outside the flow either leaves it there or opens the type step. */
  lemma CommandAdvances(c: Chats, cfg: Config, m: Message)
    requires StateOf(c, m.chatId) == StateNone
    ensures Advances(c, CommandOrUnknown(c, cfg, m).chats, m.chatId)
  {
  }

  /** Where an update goes. A press goes to the callback router even when a
      message comes with it; a message inside the flow goes to its step and is
      not logged; outside the flow `/start` gets the welcome menu, `/new` the
      administrator check, and anything else the unknown-command reply, each
      followed by the activity record. */
  lemma Dispatch(c: Chats, cfg: Config, u: Update, store: StoreReplies)
    requires Consistent(c)
    ensures var o := HandleUpdate(c, cfg, u, store);
      && (u.callback.Some? ==> o == Callback(c, u.callback.value, store.products))
      && (u.callback.None? && u.message.None? ==> o == Outcome(c, []))
      && (u.callback.None? && u.message.Some? ==>
            var m := u.message.value;
            && (StateOf(c, m.chatId) != StateNone ==>
                  o == MessageStep(c, m, StateOf(c, m.chatId), cfg.parsePrice, store.createOk))
            && (StateOf(c, m.chatId) == StateNone && m.command == Some("start") ==>
                  o == Outcome(c, [SendText(m.chatId, Welcome, Some(Keyboards.MainMenu())), LogActivity(m.chatId, m.text)]))
            && (StateOf(c, m.chatId) == StateNone && m.command == Some("new") ==>
                  o == Outcome(NewProductCommand(c, cfg.adminId, m).chats,
                               NewProductCommand(c, cfg.adminId, m).effects + [LogActivity(m.chatId, m.text)]))
            && (StateOf(c, m.chatId) == StateNone && m.command != Some("start") && m.command != Some("new") ==>
                  o == Outcome(c, [SendText(m.chatId, UnknownCommand, None), LogActivity(m.chatId, m.text)])))
  {
  }

  /** Only the administrator's `/new` opens the flow for a chat. */
  lemma OnlyAdminOpensFlow(c: Chats, cfg: Config, u: Update, store: StoreReplies, k: int)
    requires Consistent(c)
    requires StateOf(c, k) == StateNone
    requires StateOf(HandleUpdate(c, cfg, u, store).chats, k) != StateNone
    ensures u.callback.None? && u.message.Some?
    ensures u.message.value.chatId == k
    ensures u.message.value.fromId == cfg.adminId
    ensures u.message.value.command == Some("new")
  {
    OneStepAtATime(c, cfg, u, store, k);
  }

  /** A non-administrator's `/new` outside the flow changes no state and gets the denial. */
  lemma NonAdminIsDenied(c: Chats, cfg: Config, m: Message, store: StoreReplies)
    requires Consistent(c)
    requires StateOf(c, m.chatId) == StateNone
    requires m.command == Some("new") && m.fromId != cfg.adminId
    ensures HandleUpdate(c, cfg, Update(None, Some(m)), store)
      == Outcome(c, [SendText(m.chatId, PermissionDenied, None), LogActivity(m.chatId, m.text)])
  {
  }

  /** Inside the flow even a registered command is step input: `/new` typed at
      the name step becomes the product's name and is not logged as activity. */
  lemma CommandInsideFlowIsInput(c: Chats, cfg: Config, m: Message, store: StoreReplies)
    requires Consistent(c)
    requires StateOf(c, m.chatId) == StateWaitingForName && m.command == Some("new")
    ensures var o := HandleUpdate(c, cfg, Update(None, Some(m)), store);
      && StateOf(o.chats, m.chatId) == StateWaitingForDescription
      && o.chats.drafts[m.chatId].name == m.text
      && o.effects == [SendText(m.chatId, EnterDescription, None)]
  {
  }

  // ---------------------------------------------------------------------
  // Storing a product
  // ---------------------------------------------------------------------

  /** The products handed to the store, in order. */
  function CreatedProducts(es: seq<Effect>): seq<Product> {
    if es == [] then []
    else (if es[0].CreateProduct? then [es[0].product] else []) + CreatedProducts(es[1..])
  }

  lemma {:induction false} CreatedProductsAppend(a: seq<Effect>, b: seq<Effect>)
    ensures CreatedProducts(a + b) == CreatedProducts(a) + CreatedProducts(b)
    decreases |a|
  {
    if a == [] {
      assert a + b == b;
    } else {
      assert (a + b)[0] == a[0];
      assert (a + b)[1..] == a[1..] + b;
      CreatedProductsAppend(a[1..], b);
    }
  }

  lemma {:induction false} NoCreatedProducts(es: seq<Effect>)
    requires forall i :: 0 <= i < |es| ==> !es[i].CreateProduct?
    ensures CreatedProducts(es) == []
    decreases |es|
  {
    if es != [] {
      NoCreatedProducts(es[1..]);
    }
  }

  /** The update is a number typed at the price step. */
  predicate PriceAccepted(c: Chats, cfg: Config, u: Update) {
    && u.callback.None? && u.message.Some?
    && StateOf(c, u.message.value.chatId) == StateWaitingForPrice
    && cfg.parsePrice(u.message.value.text).Some?
  }

  /** An accepted price makes exactly one `CreateProduct` call, which may fail; no other
      update makes one. It carries the draft's category (one of the three), name,
      description and image, and the parsed price; afterwards the chat is out
      of the flow and its draft is gone, whether or not the store succeeded. */
  lemma StoredOnlyByAcceptedPrice(c: Chats, cfg: Config, u: Update, store: StoreReplies)
    requires Inv(c)
    ensures var o := HandleUpdate(c, cfg, u, store);
      if PriceAccepted(c, cfg, u) then
        var m := u.message.value;
        var d := c.drafts[m.chatId];
        && CreatedProducts(o.effects) == [ProductOf(d, cfg.parsePrice(m.text).value)]
        && IsProductType(d.productType)
        && StateOf(o.chats, m.chatId) == StateNone && m.chatId !in o.chats.drafts
      else
        CreatedProducts(o.effects) == []
  {
    if u.callback.Some? {
      CallbackStoresNothing(c, u.callback.value, store.products);
    } else if u.message.Some? {
      var m := u.message.value;
      if StateOf(c, m.chatId) != StateNone {
        StepStores(c, m, cfg.parsePrice, store.createOk);
      } else {
        CommandStoresNothing(c, cfg, m);
      }
    }
  }

  /** No button press makes a `CreateProduct` call. */
  lemma CallbackStoresNothing(c: Chats, q: CallbackQuery, products: Option<seq<Product>>)
    ensures CreatedProducts(Callback(c, q, products).effects) == []
  {
    NoCreatedProducts(Callback(c, q, products).effects);
  }

  /** No command, reply or activity record outside the flow makes a `CreateProduct` call. */
  lemma CommandStoresNothing(c: Chats, cfg: Config, m: Message)
    ensures CreatedProducts(CommandOrUnknown(c, cfg, m).effects + [LogActivity(m.chatId, m.text)]) == []
  {
    NoCreatedProducts(CommandOrUnknown(c, cfg, m).effects + [LogActivity(m.chatId, m.text)]);
  }

  /** Inside the flow only an accepted price makes a `CreateProduct` call: the draft,
      whose category is one of the three, with the parsed price. */
  lemma StepStores(c: Chats, m: Message, parsePrice: string -> Option<Price>, createOk: bool)
    requires Inv(c) && StateOf(c, m.chatId) != StateNone
    ensures var o := MessageStep(c, m, StateOf(c, m.chatId), parsePrice, createOk);
      if StateOf(c, m.chatId) == StateWaitingForPrice && parsePrice(m.text).Some? then
        var d := c.drafts[m.chatId];
        CreatedProducts(o.effects) == [ProductOf(d, parsePrice(m.text).value)] && IsProductType(d.productType)
      else
        CreatedProducts(o.effects) == []
  {
    var o := MessageStep(c, m, StateOf(c, m.chatId), parsePrice, createOk);
    if StateOf(c, m.chatId) == StateWaitingForPrice && parsePrice(m.text).Some? {
      assert DraftFits(StateOf(c, m.chatId), c.drafts[m.chatId]);
      assert CreatedProducts(o.effects[1..]) == [];
    } else {
      NoCreatedProducts(o.effects);
    }
  }

  /** Text that does not parse at the price step changes nothing and asks again. */
  lemma InvalidPriceChangesNothing(c: Chats, cfg: Config, m: Message, store: StoreReplies)
    requires Consistent(c)
    requires StateOf(c, m.chatId) == StateWaitingForPrice && cfg.parsePrice(m.text).None?
    ensures HandleUpdate(c, cfg, Update(None, Some(m)), store) == Outcome(c, [SendText(m.chatId, InvalidNumber, None)])
  {
  }

  /** A message at the type step (the category comes from a button) changes nothing and is not answered. */
  lemma MessageAtTypeStepIgnored(c: Chats, cfg: Config, m: Message, store: StoreReplies)
    requires Consistent(c)
    requires StateOf(c, m.chatId) == StateWaitingForType
    ensures HandleUpdate(c, cfg, Update(None, Some(m)), store) == Outcome(c, [])
  {
  }

  // ---------------------------------------------------------------------
  // Acknowledgements
  // ---------------------------------------------------------------------

  /** The tokens whose press is acknowledged: catalog, about, any buy token,
      any type token outside the type step, and an accepted type token at the
      type step. Help and unrecognised tokens are left unacknowledged. */
  predicate AcknowledgedToken(c: Chats, chatId: int, data: string) {
    || data == CatalogData || data == AboutData
    || HasPrefix(data, BuyPrefix)
    || (HasPrefix(data, TypePrefix) && StateOf(c, chatId) != StateWaitingForType)
    || (StateOf(c, chatId) == StateWaitingForType && TypeOfToken(data).Some?)
  }

  lemma AcknowledgedIff(c: Chats, q: CallbackQuery, products: Option<seq<Product>>)
    requires Consistent(c)
    ensures var o := Callback(c, q, products);
      (exists i :: 0 <= i < |o.effects| && o.effects[i] == AnswerCallback(q.id))
      <==> AcknowledgedToken(c, q.chatId, q.data)
  {
    var o := Callback(c, q, products);
    if AcknowledgedToken(c, q.chatId, q.data) {
      assert |o.effects| > 0 && o.effects[|o.effects| - 1] == AnswerCallback(q.id);
    } else {
      assert o == Outcome(c, []);
    }
  }

  // ---------------------------------------------------------------------
  // Keyboards and the router
  // ---------------------------------------------------------------------

  /** The main menu's buttons: catalog lists the products, about is only
      acknowledged, help gets nothing at all. */
  lemma MainMenuRouting(c: Chats, id: string, chatId: int, products: Option<seq<Product>>)
    requires Consistent(c)
    ensures Callback(c, CallbackQuery(id, chatId, Keyboards.ButtonCatalog), products)
      == Outcome(c, Catalog(chatId, products) + [AnswerCallback(id)])
    ensures Callback(c, CallbackQuery(id, chatId, Keyboards.ButtonAbout), products)
      == Outcome(c, [AnswerCallback(id)])
    ensures Callback(c, CallbackQuery(id, chatId, Keyboards.ButtonHelp), products) == Outcome(c, [])
  {
    assert Keyboards.ButtonHelp[0] == 'h';
    PrefixesExclusive(Keyboards.ButtonHelp, Keyboards.ButtonHelp, BuyPrefix);
    PrefixesExclusive(Keyboards.ButtonHelp, Keyboards.ButtonHelp, TypePrefix);
  }

  /** The category chooser offers exactly the tokens the type step accepts,
      and each selects the category it names. */
  lemma TypeKeyboardMatchesTypeStep(t: string)
    ensures t in Keyboards.Tokens(Keyboards.ProductTypeKeyboard()) <==> TypeOfToken(t).Some?
    ensures TypeOfToken(Keyboards.TypeFemale) == Some(Domain.TypeFemale)
    ensures TypeOfToken(Keyboards.TypeMale) == Some(Domain.TypeMale)
    ensures TypeOfToken(Keyboards.TypeUnisex) == Some(Domain.TypeUnisex)
  {
  }

  /** A type token is not caught by an earlier branch of the router: it is
      neither catalog nor about and does not start with the buy prefix. */
  lemma TypeTokensReachTypeBranch(t: string)
    requires t in Keyboards.Tokens(Keyboards.ProductTypeKeyboard())
    ensures t != CatalogData && t != AboutData && !HasPrefix(t, BuyPrefix) && HasPrefix(t, TypePrefix)
  {
    TypeKeyboardMatchesTypeStep(t);
    PrefixesExclusive(t, TypePrefix, BuyPrefix);
  }

  /** Pressing the buy button of product `productId` changes nothing and echoes
      the id exactly as the keyboard wrote it. */
  lemma BuyTokenRoundTrip(c: Chats, id: string, chatId: int, productId: int, products: Option<seq<Product>>)
    ensures Callback(c, CallbackQuery(id, chatId, Keyboards.BuyToken(productId)), products)
      == Outcome(c, [SendText(chatId, BuyStub(FormatInt(productId)), None), AnswerCallback(id)])
    ensures ParseInt(FormatInt(productId)) == Some(productId)
  {
    var t := Keyboards.BuyToken(productId);
    PrefixesExclusive(t, BuyPrefix, CatalogData);
    PrefixesExclusive(t, BuyPrefix, AboutData);
    ParseFormatInt(productId);
  }

  /** Products with distinct ids get cards whose buy tokens are distinct. */
  lemma CatalogBuyTokensDistinct(chatId: int, ps: seq<Product>, i: int, j: int)
    requires 0 <= i < |ps| && 0 <= j < |ps| && ps[i].id != ps[j].id
    ensures var cards := CatalogCards(chatId, ps);
      cards[i].buttons[0][0].data != cards[j].buttons[0][0].data
  {
    Keyboards.BuyTokenInjective(ps[i].id, ps[j].id);
  }

  // ---------------------------------------------------------------------
  // A whole flow
  // ---------------------------------------------------------------------

  /** A sequence of updates handled one after the other. */
  function Run(c: Chats, cfg: Config, us: seq<Update>, store: StoreReplies): (o: Outcome)
    requires Consistent(c)
    ensures Consistent(o.chats)
    decreases |us|
  {
    if us == [] then Outcome(c, [])
    else
      var first := HandleUpdate(c, cfg, us[0], store);
      var rest := Run(first.chats, cfg, us[1..], store);
      Outcome(rest.chats, first.effects + rest.effects)
  }

  /** The step of chat `k` after each update of `us`. */
  function Trace(c: Chats, cfg: Config, us: seq<Update>, store: StoreReplies, k: int): (t: seq<State>)
    requires Consistent(c)
    ensures |t| == |us|
    decreases |us|
  {
    if us == [] then []
    else
      var first := HandleUpdate(c, cfg, us[0], store);
      [StateOf(first.chats, k)] + Trace(first.chats, cfg, us[1..], store, k)
  }

  /** The products handed to the store while handling `u` and then `us`, and the step of
      chat `k` after each: the first update's share followed by the rest's. */
  lemma RunCons(c: Chats, cfg: Config, u: Update, us: seq<Update>, store: StoreReplies, k: int)
    requires Consistent(c)
    ensures var first := HandleUpdate(c, cfg, u, store);
      && CreatedProducts(Run(c, cfg, [u] + us, store).effects)
         == CreatedProducts(first.effects) + CreatedProducts(Run(first.chats, cfg, us, store).effects)
      && Trace(c, cfg, [u] + us, store, k) == [StateOf(first.chats, k)] + Trace(first.chats, cfg, us, store, k)
  {
    var first := HandleUpdate(c, cfg, u, store);
    assert ([u] + us)[0] == u && ([u] + us)[1..] == us;
    CreatedProductsAppend(first.effects, Run(first.chats, cfg, us, store).effects);
  }

  function NewCommand(chatId: int, fromId: int): Update {
    Update(None, Some(Message(chatId, fromId, "/new", Some("new"), [])))
  }

  function Press(id: string, chatId: int, data: string): Update {
    Update(Some(CallbackQuery(id, chatId, data)), None)
  }

  function PhotoMessage(chatId: int, fromId: int, photos: seq<PhotoSize>): Update {
    Update(None, Some(Message(chatId, fromId, "", None, photos)))
  }

  function TextMessage(chatId: int, fromId: int, text: string): Update {
    Update(None, Some(Message(chatId, fromId, text, None, [])))
  }

  /** The administrator's `/new` outside the flow: type step, empty draft. */
  lemma FlowOpens(c: Chats, cfg: Config, store: StoreReplies, chatId: int)
    requires Consistent(c) && StateOf(c, chatId) == StateNone
    ensures var o := HandleUpdate(c, cfg, NewCommand(chatId, cfg.adminId), store);
      && StateOf(o.chats, chatId) == StateWaitingForType && o.chats.drafts[chatId] == EmptyDraft
      && CreatedProducts(o.effects) == []
  {
    var o := HandleUpdate(c, cfg, NewCommand(chatId, cfg.adminId), store);
    NoCreatedProducts(o.effects);
  }

  /** A category button at the type step: photo step, category recorded. */
  lemma FlowType(c: Chats, cfg: Config, store: StoreReplies, chatId: int, pressId: string, token: string)
    requires Consistent(c) && StateOf(c, chatId) == StateWaitingForType && TypeOfToken(token).Some?
    ensures var o := HandleUpdate(c, cfg, Press(pressId, chatId, token), store);
      && StateOf(o.chats, chatId) == StateWaitingForPhoto
      && o.chats.drafts[chatId] == c.drafts[chatId].(productType := TypeOfToken(token).value)
      && CreatedProducts(o.effects) == []
  {
    PrefixesExclusive(token, TypePrefix, BuyPrefix);
    var o := HandleUpdate(c, cfg, Press(pressId, chatId, token), store);
    NoCreatedProducts(o.effects);
  }

  /** A photo at the photo step: name step, largest resolution recorded. */
  lemma FlowPhoto(c: Chats, cfg: Config, store: StoreReplies, chatId: int, photos: seq<PhotoSize>)
    requires Consistent(c) && StateOf(c, chatId) == StateWaitingForPhoto && |photos| > 0
    ensures var o := HandleUpdate(c, cfg, PhotoMessage(chatId, cfg.adminId, photos), store);
      && StateOf(o.chats, chatId) == StateWaitingForName
      && o.chats.drafts[chatId] == c.drafts[chatId].(imageId := photos[|photos| - 1].fileId)
      && CreatedProducts(o.effects) == []
  {
    var o := HandleUpdate(c, cfg, PhotoMessage(chatId, cfg.adminId, photos), store);
    NoCreatedProducts(o.effects);
  }

  /** Text at the name step, then at the description step. */
  lemma FlowTexts(c: Chats, cfg: Config, store: StoreReplies, chatId: int, text: string)
    requires Consistent(c)
    requires StateOf(c, chatId) == StateWaitingForName || StateOf(c, chatId) == StateWaitingForDescription
    ensures var o := HandleUpdate(c, cfg, TextMessage(chatId, cfg.adminId, text), store);
      && StateOf(o.chats, chatId) == Next(StateOf(c, chatId))
      && o.chats.drafts[chatId] == (if StateOf(c, chatId) == StateWaitingForName
                                    then c.drafts[chatId].(name := text)
                                    else c.drafts[chatId].(description := text))
      && CreatedProducts(o.effects) == []
  {
    var o := HandleUpdate(c, cfg, TextMessage(chatId, cfg.adminId, text), store);
    NoCreatedProducts(o.effects);
  }

  /** An accepted price: out of the flow, one product handed to the store. */
  lemma FlowPrice(c: Chats, cfg: Config, store: StoreReplies, chatId: int, text: string)
    requires Consistent(c) && StateOf(c, chatId) == StateWaitingForPrice && cfg.parsePrice(text).Some?
    ensures var o := HandleUpdate(c, cfg, TextMessage(chatId, cfg.adminId, text), store);
      && StateOf(o.chats, chatId) == StateNone
      && CreatedProducts(o.effects) == [ProductOf(c.drafts[chatId], cfg.parsePrice(text).value)]
  {
    var o := HandleUpdate(c, cfg, TextMessage(chatId, cfg.adminId, text), store);
    assert CreatedProducts(o.effects[1..]) == [];
  }

  /** What the administrator sends in one pass through the flow. */
  datatype Inputs = Inputs(pressId: string, token: string, photos: seq<PhotoSize>,
                           name: string, description: string, priceText: string)

  /** Inputs every step accepts: a category token, a picture and a number. */
  predicate AcceptedInputs(cfg: Config, inputs: Inputs) {
    TypeOfToken(inputs.token).Some? && |inputs.photos| > 0 && cfg.parsePrice(inputs.priceText).Some?
  }

  /** The update the administrator sends at step `s` to move on. */
  function InputAt(chatId: int, adminId: int, inputs: Inputs, s: State): Update {
    match s
    case StateNone => NewCommand(chatId, adminId)
    case StateWaitingForType => Press(inputs.pressId, chatId, inputs.token)
    case StateWaitingForPhoto => PhotoMessage(chatId, adminId, inputs.photos)
    case StateWaitingForName => TextMessage(chatId, adminId, inputs.name)
    case StateWaitingForDescription => TextMessage(chatId, adminId, inputs.description)
    case StateWaitingForPrice => TextMessage(chatId, adminId, inputs.priceText)
  }

  /** How many steps follow `s` before the flow is over. */
  function StepsLeft(s: State): nat {
    match s
    case StateNone => 5
    case StateWaitingForType => 4
    case StateWaitingForPhoto => 3
    case StateWaitingForName => 2
    case StateWaitingForDescription => 1
    case StateWaitingForPrice => 0
  }

  /** The updates that take a chat from step `s` to the end of the flow. */
  function InputsFrom(chatId: int, adminId: int, inputs: Inputs, s: State): seq<Update>
    decreases StepsLeft(s)
  {
    if s == StateWaitingForPrice then [InputAt(chatId, adminId, inputs, s)]
    else [InputAt(chatId, adminId, inputs, s)] + InputsFrom(chatId, adminId, inputs, Next(s))
  }

  /** The steps a chat visits after step `s`, up to the end of the flow. */
  function VisitsFrom(s: State): seq<State>
    decreases StepsLeft(s)
  {
    if s == StateWaitingForPrice then [StateNone] else [Next(s)] + VisitsFrom(Next(s))
  }

  /** The chat's draft, or the empty one outside the flow. */
  function DraftOf(c: Chats, k: int): DraftProduct {
    if k in c.drafts then c.drafts[k] else EmptyDraft
  }

  /** Draft `d` at step `s` with the rest of `inputs`, all but the price, recorded. */
  function Completed(d: DraftProduct, inputs: Inputs, s: State): DraftProduct
    requires TypeOfToken(inputs.token).Some? && |inputs.photos| > 0
    decreases StepsLeft(s)
  {
    match s
    case StateNone => Completed(EmptyDraft, inputs, StateWaitingForType)
    case StateWaitingForType => Completed(d.(productType := TypeOfToken(inputs.token).value), inputs, StateWaitingForPhoto)
    case StateWaitingForPhoto => Completed(d.(imageId := inputs.photos[|inputs.photos| - 1].fileId), inputs, StateWaitingForName)
    case StateWaitingForName => Completed(d.(name := inputs.name), inputs, StateWaitingForDescription)
    case StateWaitingForDescription => d.(description := inputs.description)
    case StateWaitingForPrice => d
  }

  /** One step of the flow with accepted input: the chat moves to the next
      step, and either the input is recorded in the draft or, at the price
      step, the draft is handed to the store. */
  lemma FlowStep(c: Chats, cfg: Config, store: StoreReplies, chatId: int, inputs: Inputs, s: State)
    requires Consistent(c) && StateOf(c, chatId) == s && AcceptedInputs(cfg, inputs)
    ensures var o := HandleUpdate(c, cfg, InputAt(chatId, cfg.adminId, inputs, s), store);
      && StateOf(o.chats, chatId) == Next(s)
      && (s != StateWaitingForPrice ==>
            && Completed(DraftOf(o.chats, chatId), inputs, Next(s)) == Completed(DraftOf(c, chatId), inputs, s)
            && CreatedProducts(o.effects) == [])
      && (s == StateWaitingForPrice ==>
            CreatedProducts(o.effects) == [ProductOf(DraftOf(c, chatId), cfg.parsePrice(inputs.priceText).value)])
  {
    match s
    case StateNone => FlowOpens(c, cfg, store, chatId);
    case StateWaitingForType => FlowType(c, cfg, store, chatId, inputs.pressId, inputs.token);
    case StateWaitingForPhoto => FlowPhoto(c, cfg, store, chatId, inputs.photos);
    case StateWaitingForName => FlowTexts(c, cfg, store, chatId, inputs.name);
    case StateWaitingForDescription => FlowTexts(c, cfg, store, chatId, inputs.description);
    case StateWaitingForPrice => FlowPrice(c, cfg, store, chatId, inputs.priceText);
  }

  /** From any step, the remaining accepted inputs visit the remaining steps in
      order and store exactly one product: the draft completed with them. */
  lemma {:induction false} FlowFrom(c: Chats, cfg: Config, store: StoreReplies, chatId: int, inputs: Inputs, s: State)
    requires Consistent(c) && StateOf(c, chatId) == s && AcceptedInputs(cfg, inputs)
    ensures var us := InputsFrom(chatId, cfg.adminId, inputs, s);
      && Trace(c, cfg, us, store, chatId) == VisitsFrom(s)
      && CreatedProducts(Run(c, cfg, us, store).effects)
         == [ProductOf(Completed(DraftOf(c, chatId), inputs, s), cfg.parsePrice(inputs.priceText).value)]
    decreases StepsLeft(s)
  {
    var u := InputAt(chatId, cfg.adminId, inputs, s);
    var o := HandleUpdate(c, cfg, u, store);
    FlowStep(c, cfg, store, chatId, inputs, s);
    if s == StateWaitingForPrice {
      RunCons(c, cfg, u, [], store, chatId);
      assert [u] + [] == [u];
    } else {
      FlowFrom(o.chats, cfg, store, chatId, inputs, Next(s));
      RunCons(c, cfg, u, InputsFrom(chatId, cfg.adminId, inputs, Next(s)), store, chatId);
    }
  }

  /** The administrator's whole flow: `/new`, a category button, a photo, a
      name, a description and a price. The chat visits the steps in order and
      one `CreateProduct` call carries the product assembled from those inputs. */
  lemma AddProductFlow(c: Chats, cfg: Config, store: StoreReplies, chatId: int, inputs: Inputs)
    requires Consistent(c) && StateOf(c, chatId) == StateNone && AcceptedInputs(cfg, inputs)
    ensures var us := [NewCommand(chatId, cfg.adminId), Press(inputs.pressId, chatId, inputs.token),
                       PhotoMessage(chatId, cfg.adminId, inputs.photos), TextMessage(chatId, cfg.adminId, inputs.name),
                       TextMessage(chatId, cfg.adminId, inputs.description), TextMessage(chatId, cfg.adminId, inputs.priceText)];
      && Trace(c, cfg, us, store, chatId) == [StateWaitingForType, StateWaitingForPhoto, StateWaitingForName,
                                              StateWaitingForDescription, StateWaitingForPrice, StateNone]
      && CreatedProducts(Run(c, cfg, us, store).effects)
         == [Product(0, TypeOfToken(inputs.token).value, inputs.name, inputs.description,
                     cfg.parsePrice(inputs.priceText).value, inputs.photos[|inputs.photos| - 1].fileId)]
  {
    FlowFrom(c, cfg, store, chatId, inputs, StateNone);
    WholeFlowSpelledOut(chatId, cfg.adminId, inputs);
  }

  /** The updates and steps of a whole pass, written out. */
  lemma WholeFlowSpelledOut(chatId: int, adminId: int, inputs: Inputs)
    ensures InputsFrom(chatId, adminId, inputs, StateNone)
      == [NewCommand(chatId, adminId), Press(inputs.pressId, chatId, inputs.token),
          PhotoMessage(chatId, adminId, inputs.photos), TextMessage(chatId, adminId, inputs.name),
          TextMessage(chatId, adminId, inputs.description), TextMessage(chatId, adminId, inputs.priceText)]
    ensures VisitsFrom(StateNone) == [StateWaitingForType, StateWaitingForPhoto, StateWaitingForName,
                                      StateWaitingForDescription, StateWaitingForPrice, StateNone]
  {
  }
}
