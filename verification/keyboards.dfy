/** The inline keyboards the bot attaches to its messages. Each keyboard is a
    value built from constants (and, for the buy keyboard, from its argument
    alone): the Go provider is an empty struct, so these are plain functions. */
module Keyboards {
  import opened GoStrings

  // Callback data carried by the buttons.
  const ButtonCatalog := "catalog"
  const ButtonAbout := "about"
  const ButtonHelp := "help"

  const TypeFemale := "type_female"
  const TypeMale := "type_male"
  const TypeUnisex := "type_unisex"

  /** The literal part of the `buy_%d` format. */
  const PrefixBuy := "buy_"

  /** An inline button: the text shown and the token sent back when pressed. */
  datatype Button = Button(text: string, data: string)

  /** An inline keyboard, row by row. */
  type Markup = seq<seq<Button>>

  /** Every token carried by some button of `m`. */
  function Tokens(m: Markup): set<string> {
    set r, b | r in m && b in r :: b.data
  }

  /** The main menu: catalog and about on the first row, help on the second. */
  function MainMenu(): (m: Markup)
    ensures |m| == 2 && |m[0]| == 2 && |m[1]| == 1
    ensures m[0][0].data == ButtonCatalog && m[0][1].data == ButtonAbout && m[1][0].data == ButtonHelp
    ensures Tokens(m) == {ButtonCatalog, ButtonAbout, ButtonHelp}
  {
    var m := [[Button("Каталог", ButtonCatalog), Button("О нас", ButtonAbout)],
              [Button("Помощь", ButtonHelp)]];
    assert m[0][0] in m[0] && m[0][1] in m[0] && m[1][0] in m[1];
    m
  }

  /** The category chooser: female and male on the first row, unisex on the second. */
  function ProductTypeKeyboard(): (m: Markup)
    ensures |m| == 2 && |m[0]| == 2 && |m[1]| == 1
    ensures m[0][0].data == TypeFemale && m[0][1].data == TypeMale && m[1][0].data == TypeUnisex
    ensures Tokens(m) == {TypeFemale, TypeMale, TypeUnisex}
  {
    var m := [[Button("Женские", TypeFemale), Button("Мужские", TypeMale)],
              [Button("Унисекс", TypeUnisex)]];
    assert m[0][0] in m[0] && m[0][1] in m[0] && m[1][0] in m[1];
    m
  }

  /** `fmt.Sprintf("buy_%d", productId)`. */
  function BuyToken(productId: int): (t: string)
    ensures HasPrefix(t, PrefixBuy)
    ensures TrimPrefix(t, PrefixBuy) == FormatInt(productId)
  {
    TrimPrefixOfConcat(PrefixBuy, FormatInt(productId));
    PrefixBuy + FormatInt(productId)
  }

  /** The per-product keyboard: one row with one buy button for `productId`. */
  function BuyKeyboard(productId: int): (m: Markup)
    ensures |m| == 1 && |m[0]| == 1 && m[0][0].data == BuyToken(productId)
  {
    [[Button("Купить", BuyToken(productId))]]
  }

  /** Two products get the same buy token only when they have the same id. */
  lemma BuyTokenInjective(i: int, j: int)
    ensures BuyToken(i) == BuyToken(j) <==> i == j
  {
    if BuyToken(i) == BuyToken(j) {
      assert FormatInt(i) == TrimPrefix(BuyToken(i), PrefixBuy);
      FormatIntInjective(i, j);
    }
  }
}
