/** The update handler as an object, the way the Go code has it: the two
    per-chat maps and the command table are fields that the methods update in
    place, and everything the handler sends out is appended to `log`. Each
    method is proved to do what the corresponding function of module Dialog
    says, so the properties proved there hold of the object. */
module Telegram {
  import opened Wrappers
  import opened GoStrings
  import opened Domain
  import Keyboards
  import opened Dialog
  import DialogProperties

  lemma AppendAssociative<T>(a: seq<T>, b: seq<T>, c: seq<T>)
    ensures a + (b + c) == (a + b) + c
  {
  }

  class Handler {
    const adminId: int
    const parsePrice: string -> Option<Price>
    var commands: map<string, Command>
    var userStates: map<int, State>
    var drafts: map<int, DraftProduct>
    /** Messages, photos and acknowledgements sent, store calls and activity
        records, oldest first. */
    var log: seq<Effect>

    function ChatState(): Chats
      reads this
    {
      Dialog.Chats(userStates, drafts)
    }

    function Configuration(): Config {
      Dialog.Config(adminId, parsePrice)
    }

    /** The command table is the registered one and the per-chat maps keep the
        dialog invariant. */
    ghost predicate Valid()
      reads this
    {
      commands == Commands() && DialogProperties.Inv(ChatState())
    }

    /** `NewHandler`: empty maps, then the commands are registered. */
    constructor (adminId: int, parsePrice: string -> Option<Price>)
      ensures Valid()
      ensures this.adminId == adminId && this.parsePrice == parsePrice
      ensures userStates == map[] && drafts == map[] && log == []
    {
      this.adminId := adminId;
      this.parsePrice := parsePrice;
      commands := map[];
      userStates := map[];
      drafts := map[];
      log := [];
      new;
      InitCommands();
      DialogProperties.InitialInv();
    }

    /** `initCommands`: registers `start` and `new`. */
    method InitCommands()
      modifies this`commands
      ensures commands == old(commands)["start" := Start]["new" := NewProduct]
    {
      commands := commands["start" := Start];
      commands := commands["new" := NewProduct];
    }

    /** `Handle`: one update from the transport. */
    method Handle(u: Update, store: StoreReplies)
      requires Valid()
      modifies this`userStates, this`drafts, this`log
      ensures Valid()
      ensures ChatState() == HandleUpdate(old(ChatState()), Configuration(), u, store).chats
      ensures log == old(log) + HandleUpdate(old(ChatState()), Configuration(), u, store).effects
    {
      ghost var before := ChatState();
      if u.callback.Some? {
        HandleCallback(u.callback.value, store.products);
      } else if u.message.Some? {
        var m := u.message.value;
        if m.chatId in userStates && userStates[m.chatId] != StateNone {
          HandleState(m, userStates[m.chatId], store.createOk);
        } else {
          if m.command.Some? && m.command.value in commands {
            match commands[m.command.value]
            case Start => HandleStart(m);
            case NewProduct => HandleNewProduct(m);
          } else {
            HandleUnknown(m);
          }
          log := log + [LogActivity(m.chatId, m.text)];
        }
      }
      DialogProperties.HandleUpdateKeepsInv(before, Configuration(), u, store);
    }

    /** `handleNewProduct`: the administrator check, then the type step with a fresh draft. */
    method HandleNewProduct(m: Message)
      modifies this`userStates, this`drafts, this`log
      ensures ChatState() == NewProductCommand(old(ChatState()), adminId, m).chats
      ensures log == old(log) + NewProductCommand(old(ChatState()), adminId, m).effects
    {
      if m.fromId != adminId {
        log := log + [SendText(m.chatId, PermissionDenied, None)];
        return;
      }
      log := log + [SendText(m.chatId, ChooseType, Some(Keyboards.ProductTypeKeyboard()))];
      userStates := userStates[m.chatId := StateWaitingForType];
      drafts := drafts[m.chatId := EmptyDraft];
    }

    /** `handleCallback`: routes a button press by its token. */
    method HandleCallback(q: CallbackQuery, products: Option<seq<Product>>)
      modifies this`userStates, this`drafts, this`log
      ensures ChatState() == Callback(old(ChatState()), q, products).chats
      ensures log == old(log) + Callback(old(ChatState()), q, products).effects
    {
      var chatId := q.chatId;
      var data := q.data;

      if data == CatalogData {
        HandleCatalog(chatId, products);
        log := log + [AnswerCallback(q.id)];
        return;
      }

      if data == AboutData {
        // The about text is built but never sent.
        log := log + [AnswerCallback(q.id)];
        return;
      }

      if HasPrefix(data, BuyPrefix) {
        HandleBuy(chatId, data);
        log := log + [AnswerCallback(q.id)];
        return;
      }

      if HasPrefix(data, TypePrefix) {
        if !(chatId in userStates && userStates[chatId] == StateWaitingForType) {
          log := log + [SendText(chatId, ContextLost, None), AnswerCallback(q.id)];
          return;
        }
      }

      if chatId in userStates && userStates[chatId] == StateWaitingForType {
        if chatId !in drafts {
          log := log + [SendText(chatId, InternalError, None)];
          userStates := userStates[chatId := StateNone];
          return;
        }
        var draft := drafts[chatId];
        match TypeOfToken(data)
        case None =>
          return;
        case Some(t) =>
          drafts := drafts[chatId := draft.(productType := t)];
          userStates := userStates[chatId := StateWaitingForPhoto];
          log := log + [SendText(chatId, SendPhoto, None), AnswerCallback(q.id)];
      }
    }

    /** `handleState`: one message at dialog step `state`. */
    method HandleState(m: Message, state: State, createOk: bool)
      requires NeedsDraft(state) ==> m.chatId in drafts
      modifies this`userStates, this`drafts, this`log
      ensures ChatState() == MessageStep(old(ChatState()), m, state, parsePrice, createOk).chats
      ensures log == old(log) + MessageStep(old(ChatState()), m, state, parsePrice, createOk).effects
    {
      var chatId := m.chatId;
      match state {
        case StateWaitingForPhoto =>
          if m.photo == [] {
            log := log + [SendText(chatId, PhotoRequired, None)];
            return;
          }
          var photos := m.photo;
          var largest := photos[|photos| - 1];
          drafts := drafts[chatId := drafts[chatId].(imageId := largest.fileId)];
          userStates := userStates[chatId := StateWaitingForName];
          log := log + [SendText(chatId, EnterName, None)];

        case StateWaitingForName =>
          drafts := drafts[chatId := drafts[chatId].(name := m.text)];
          userStates := userStates[chatId := StateWaitingForDescription];
          log := log + [SendText(chatId, EnterDescription, None)];

        case StateWaitingForDescription =>
          drafts := drafts[chatId := drafts[chatId].(description := m.text)];
          userStates := userStates[chatId := StateWaitingForPrice];
          log := log + [SendText(chatId, EnterPrice, None)];

        case StateWaitingForPrice =>
          var parsed := parsePrice(m.text);
          if parsed.None? {
            log := log + [SendText(chatId, InvalidNumber, None)];
            return;
          }
          var draft := drafts[chatId].(price := parsed.value);
          var product := Product(0, draft.productType, draft.name, draft.description, draft.price, draft.imageId);
          log := log + [CreateProduct(product)];
          if createOk {
            log := log + [SendText(chatId, Saved, None)];
          } else {
            log := log + [SendText(chatId, SaveFailed, None)];
          }
          userStates := userStates[chatId := StateNone];
          drafts := drafts - {chatId};

        case _ =>
      }
    }

    /** `handleCatalog`: one store query, then an error text, an "empty" text
        or one card per product. */
    method HandleCatalog(chatId: int, products: Option<seq<Product>>)
      modifies this`log
      ensures log == old(log) + Catalog(chatId, products)
    {
      log := log + [GetAllProducts];
      match products
      case None =>
        log := log + [SendText(chatId, CatalogFailed, None)];
      case Some(ps) =>
        if |ps| == 0 {
          log := log + [SendText(chatId, CatalogEmpty, None)];
        } else {
          SendCards(chatId, ps);
          AppendAssociative(old(log), [GetAllProducts], CatalogCards(chatId, ps));
        }
    }

    /** The loop of `handleCatalog`: a captioned photo with its buy button per product. */
    method SendCards(chatId: int, ps: seq<Product>)
      modifies this`log
      ensures log == old(log) + CatalogCards(chatId, ps)
    {
      var i := 0;
      while i < |ps|
        invariant 0 <= i <= |ps|
        invariant log == old(log) + CatalogCards(chatId, ps[..i])
      {
        var p := ps[i];
        log := log + [SendPicture(chatId, p.imageId, Caption(p.name, p.description, p.price), Keyboards.BuyKeyboard(p.id))];
        assert ps[..i + 1][..i] == ps[..i];
        i := i + 1;
      }
      assert ps[..i] == ps;
    }

    /** `handleBuy`: echoes the product id that follows the buy prefix. */
    method HandleBuy(chatId: int, data: string)
      modifies this`log
      ensures log == old(log) + [SendText(chatId, BuyStub(TrimPrefix(data, BuyPrefix)), None)]
    {
      var productId := TrimPrefix(data, BuyPrefix);
      log := log + [SendText(chatId, BuyStub(productId), None)];
    }

    /** `handleStart`: the welcome text with the main menu. */
    method HandleStart(m: Message)
      modifies this`log
      ensures log == old(log) + StartCommand(old(ChatState()), m).effects
    {
      log := log + [SendText(m.chatId, Welcome, Some(Keyboards.MainMenu()))];
    }

    /** `handleUnknown`: the unknown-command reply. */
    method HandleUnknown(m: Message)
      modifies this`log
      ensures log == old(log) + UnknownReply(old(ChatState()), m).effects
    {
      log := log + [SendText(m.chatId, UnknownCommand, None)];
    }
  }
}
