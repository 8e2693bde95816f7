/**
 * The keyboard builders of app/keyboards/keyboards.py: button descriptions,
 * the markup `BaseKeyboard.build` produces from them, the concrete keyboards
 * the handlers use, and the pattern that routes the coefficient button.
 * Row layout (`adjust`) is not modelled: a markup holds its buttons in order.
 */
module Keyboards {
  import opened Wrappers
  import opened Text
  import opened Seqs
  import opened Dto

  datatype KeyboardType = Reply | Inline

  /** A button description: label, optional callback data, kind. */
  datatype Button = Button(text: string, callbackData: Option<string>, kind: KeyboardType)

  /** A button with the defaults of `Button(text)`: no callback data, a reply button. */
  function ReplyButton(text: string): Button {
    Button(text, None, Reply)
  }

  function InlineButton(text: string, callbackData: string): Button {
    Button(text, Some(callbackData), Inline)
  }

  // The `Buttons` members.
  const Question := ReplyButton("💌 Задать вопрос")
  const Shop := ReplyButton("📍 Наш магазин")
  const Bonus := ReplyButton("🎁 Бонус за отзыв")
  const Start := ReplyButton("🌐 Вернуться в главное меню")
  const Screenshot := ReplyButton("✅ Я оставил(-а) отзыв")
  const AcceptBonus := InlineButton("✅ Принять", "accept_bonus")
  const DeclineBonus := InlineButton("❌ Отклонить", "decline_bonus")
  const DeletePost := InlineButton("❌ Удалить пост", "delete_post")
  const Subscribe := ReplyButton("📬 Подписаться")
  const Unsubscribe := ReplyButton("🔕 Отписаться")
  const BonusAccepted := InlineButton("👍 Принято", "placeholder")
  const BonusDeclined := InlineButton("👎 Отклонено", "placeholder")
  const PostDeleted := InlineButton("👎 Пост удален", "delete_post")
  const AddWarehouseReply := ReplyButton("🏫 Добавить склад для отслеживания")
  const AddBoxTypeReply := ReplyButton("📦 Добавить тип поставки")
  const AddDateReply := ReplyButton("🗓️ Добавить даты")

  /** The text of the coefficient button up to the value. */
  const CoefficientReplyPrefix: string := "💵 Установить коэффициент (сейчас "

  /** The buttons as handed to the builders. */
  datatype BuiltButton = KeyboardButton(text: string) | InlineKeyboardButton(text: string, callbackData: string)

  /** `builder.as_markup(resize_keyboard=...)`. */
  datatype Markup = Markup(kind: KeyboardType, buttons: seq<BuiltButton>, resizeKeyboard: bool)

  predicate IsReply(b: Button) { b.kind == Reply }

  predicate IsInline(b: Button) { b.kind != Reply }

  /**
   * `callback_data or text[:64]`: the given data unless it is missing or
   * empty, otherwise the first 64 characters of the label.
   */
  function CallbackData(b: Button): (data: string)
    ensures b.callbackData.Some? && b.callbackData.value != "" ==> data == b.callbackData.value
    ensures !(b.callbackData.Some? && b.callbackData.value != "") ==>
      |data| == if |b.text| <= 64 then |b.text| else 64
    ensures !(b.callbackData.Some? && b.callbackData.value != "") ==> data <= b.text
  {
    if b.callbackData.Some? && b.callbackData.value != "" then b.callbackData.value else Take(b.text, 64)
  }

  function AsKeyboardButton(b: Button): BuiltButton {
    KeyboardButton(b.text)
  }

  function AsInlineButton(b: Button): BuiltButton {
    InlineKeyboardButton(b.text, CallbackData(b))
  }

  /**
   * The markup `build` produces: the reply buttons, when there is at least
   * one, with resizing on; otherwise the inline buttons, with resizing off.
   */
  function KeyboardLayout(buttons: seq<Button>): Markup {
    var replies := Map(Filter(buttons, IsReply), AsKeyboardButton);
    if replies != [] then Markup(Reply, replies, true)
    else Markup(Inline, Map(Filter(buttons, IsInline), AsInlineButton), false)
  }

  /** `BaseKeyboard.build`: one pass sorting the buttons into reply and inline ones. */
  method Build(buttons: seq<Button>) returns (m: Markup)
    ensures m == KeyboardLayout(buttons)
  {
    var replies: seq<BuiltButton> := [];
    var inlines: seq<BuiltButton> := [];
    for i := 0 to |buttons|
      invariant replies == Map(Filter(buttons[..i], IsReply), AsKeyboardButton)
      invariant inlines == Map(Filter(buttons[..i], IsInline), AsInlineButton)
    {
      assert buttons[..i + 1] == buttons[..i] + [buttons[i]];
      FilterAppend(buttons[..i], buttons[i], IsReply);
      FilterAppend(buttons[..i], buttons[i], IsInline);
      MapAppend(Filter(buttons[..i], IsReply), buttons[i], AsKeyboardButton);
      MapAppend(Filter(buttons[..i], IsInline), buttons[i], AsInlineButton);
      if buttons[i].kind == Reply {
        replies := replies + [KeyboardButton(buttons[i].text)];
      } else {
        inlines := inlines + [InlineKeyboardButton(buttons[i].text, CallbackData(buttons[i]))];
      }
    }
    assert buttons[..|buttons|] == buttons;
    if replies != [] {
      m := Markup(Reply, replies, true);
    } else {
      m := Markup(Inline, inlines, false);
    }
  }

  /**
   * The markup is a reply keyboard exactly when some button is a reply button;
   * resizing is on exactly then; an inline keyboard holds every button, in order.
   */
  lemma KeyboardLayoutKind(buttons: seq<Button>)
    ensures var m := KeyboardLayout(buttons);
      && (m.kind == Reply <==> exists i :: 0 <= i < |buttons| && buttons[i].kind == Reply)
      && (m.resizeKeyboard <==> m.kind == Reply)
      && (m.kind == Reply ==> m.buttons == Map(Filter(buttons, IsReply), AsKeyboardButton))
      && (m.kind == Inline ==> m.buttons == Map(buttons, AsInlineButton))
  {
    var rs := Filter(buttons, IsReply);
    if exists i :: 0 <= i < |buttons| && buttons[i].kind == Reply {
      var i :| 0 <= i < |buttons| && buttons[i].kind == Reply;
      FilterMembership(buttons, IsReply, buttons[i]);
      assert rs != [];
    } else {
      FilterKeepsAll(buttons, IsInline);
      if rs != [] {
        assert IsReply(rs[0]);
        FilterMembership(buttons, IsReply, rs[0]);
        assert false;
      }
    }
  }

  // ---- The concrete keyboards ----

  function GreetingsKeyboard(isSubscribed: bool): seq<Button> {
    [Question, Shop, Bonus, if isSubscribed then Unsubscribe else Subscribe]
  }

  function BonusResponseKeyboard(isAccepted: bool): seq<Button> {
    [if isAccepted then BonusAccepted else BonusDeclined]
  }

  function DeletePostKeyboard(isDeleted: bool): seq<Button> {
    [if isDeleted then PostDeleted else DeletePost]
  }

  /** The configurations of `PredefinedKeyboard`. */
  const PredefinedGreetings: seq<Button> := [Question, Shop, Bonus]
  const PredefinedBonus: seq<Button> := [Screenshot, Start]
  const PredefinedBonusResponse: seq<Button> := [AcceptBonus, DeclineBonus]
  const PredefinedDeletePost: seq<Button> := [DeletePost]

  /** `f"wh:{wh.id}"`. */
  function WarehouseCallback(w: WarehouseShort): string {
    "wh:" + IntToString(w.id)
  }

  function WarehousesKeyboard(warehouses: seq<WarehouseShort>): seq<Button> {
    Map(warehouses, (w: WarehouseShort) => InlineButton(w.name, WarehouseCallback(w)))
  }

  /** `f"bt:{box_type}"`. */
  function BoxTypeCallback(boxType: string): string {
    "bt:" + boxType
  }

  function BoxTypesKeyboard(boxTypes: seq<string>): seq<Button> {
    Map(boxTypes, (boxType: string) => InlineButton(boxType, BoxTypeCallback(boxType)))
  }

  /** `f"dt:{date.to_string()}"`. */
  function DateCallback(d: RightDate): string {
    "dt:" + d.ToString()
  }

  function DateKeyboard(dates: seq<(string, RightDate)>): seq<Button> {
    Map(dates, (p: (string, RightDate)) => InlineButton(p.0, DateCallback(p.1)))
  }

  /** The label of the coefficient button for a value. */
  function CoefficientLabel(coefficient: int): string {
    CoefficientReplyPrefix + IntToString(coefficient) + ")"
  }

  /** The tracking menu; no stored coefficient is shown as 0. */
  function AddTrackingItemsMenuKeyboard(coefficient: Option<int>): seq<Button> {
    [AddWarehouseReply, AddBoxTypeReply, AddDateReply, ReplyButton(CoefficientLabel(coefficient.GetOr(0)))]
  }

  /** Every button of a data-carrying inline keyboard carries its callback, in the order given. */
  lemma WarehousesKeyboardLayout(warehouses: seq<WarehouseShort>)
    ensures var m := KeyboardLayout(WarehousesKeyboard(warehouses));
      && m.kind == Inline && !m.resizeKeyboard && |m.buttons| == |warehouses|
      && forall i :: 0 <= i < |warehouses| ==>
           m.buttons[i] == InlineKeyboardButton(warehouses[i].name, WarehouseCallback(warehouses[i]))
  {
    KeyboardLayoutKind(WarehousesKeyboard(warehouses));
  }

  lemma BoxTypesKeyboardLayout(boxTypes: seq<string>)
    ensures var m := KeyboardLayout(BoxTypesKeyboard(boxTypes));
      && m.kind == Inline && !m.resizeKeyboard && |m.buttons| == |boxTypes|
      && forall i :: 0 <= i < |boxTypes| ==> m.buttons[i] == InlineKeyboardButton(boxTypes[i], BoxTypeCallback(boxTypes[i]))
  {
    KeyboardLayoutKind(BoxTypesKeyboard(boxTypes));
  }

  lemma DateKeyboardLayout(dates: seq<(string, RightDate)>)
    ensures var m := KeyboardLayout(DateKeyboard(dates));
      && m.kind == Inline && !m.resizeKeyboard && |m.buttons| == |dates|
      && forall i :: 0 <= i < |dates| ==> m.buttons[i] == InlineKeyboardButton(dates[i].0, DateCallback(dates[i].1))
  {
    KeyboardLayoutKind(DateKeyboard(dates));
  }

  /** The tracking menu is a resizable reply keyboard of its four labels. */
  lemma TrackingMenuLayout(coefficient: Option<int>)
    ensures KeyboardLayout(AddTrackingItemsMenuKeyboard(coefficient))
         == Markup(Reply, [KeyboardButton(AddWarehouseReply.text), KeyboardButton(AddBoxTypeReply.text),
                           KeyboardButton(AddDateReply.text), KeyboardButton(CoefficientLabel(coefficient.GetOr(0)))], true)
  {
    var bs := AddTrackingItemsMenuKeyboard(coefficient);
    FilterKeepsAll(bs, IsReply);
  }

  /**
   * The greeting keyboard is a resizable reply keyboard of the three fixed
   * buttons followed by UNSUBSCRIBE for a subscribed user and SUBSCRIBE otherwise.
   */
  lemma GreetingsLayout(isSubscribed: bool)
    ensures KeyboardLayout(GreetingsKeyboard(isSubscribed))
         == Markup(Reply, [KeyboardButton(Question.text), KeyboardButton(Shop.text), KeyboardButton(Bonus.text),
                           KeyboardButton(if isSubscribed then Unsubscribe.text else Subscribe.text)], true)
  {
    FilterKeepsAll(GreetingsKeyboard(isSubscribed), IsReply);
  }

  // ---- Routing of the coefficient button ----

  predicate DigitsOrDots(s: string) {
    |s| >= 1 && forall i :: 0 <= i < |s| ==> IsDigit(s[i]) || s[i] == '.'
  }

  /**
   * `^💵 Установить коэффициент \(сейчас [\d\.]+\)$` searched in the text,
   * reading `\d` as an ASCII digit; `$` also matches before a final newline.
   */
  predicate MatchesCoefficientReply(text: string) {
    var n := |CoefficientReplyPrefix|;
    && |text| > n
    && text[..n] == CoefficientReplyPrefix
    && ((text[|text| - 1] == ')' && DigitsOrDots(text[n..|text| - 1]))
        || (|text| >= n + 2 && text[|text| - 2..] == ")\n" && DigitsOrDots(text[n..|text| - 2])))
  }

  /**
   * The menu's own label reaches the coefficient handler exactly when the
   * shown value is not negative (a minus sign is not in `[\d\.]`).
   */
  lemma CoefficientLabelRouted(coefficient: int)
    ensures MatchesCoefficientReply(CoefficientLabel(coefficient)) <==> coefficient >= 0
  {
    var v := IntToString(coefficient);
    var shown := CoefficientLabel(coefficient);
    var n := |CoefficientReplyPrefix|;
    assert shown[..n] == CoefficientReplyPrefix;
    assert shown[n..|shown| - 1] == v;
    assert shown[|shown| - 1] == ')';
    if coefficient < 0 {
      assert !DigitsOrDots(v) by {
        assert v[0] == '-';
      }
    }
  }
}
