/** What the bot shows and what it asks its collaborators to do, for
    app/bot.py: the button labels the dispatcher matches on, the keyboards,
    the message copy (kept opaque), and the effects a handler emits. */
module Ui {
  import opened Wrappers
  import opened Callbacks

  // ---------------------------------------------------------------------
  // Button labels.  Reply-keyboard labels are compared verbatim with the
  // text of incoming messages, and offer labels are stored as the bank
  // name, so these are the exact strings of app/bot.py:52-67.
  // ---------------------------------------------------------------------

  /** The labels of the reply keyboard and of the offers, the only texts
      a message handler matches on. */
  datatype Label =
    | NextLabel
    | StartEarnLabel
    | AskLabel
    | ProfileLabel
    | TasksLabel
    | ReportCardLabel
    | ReferralLabel
    | SupportLabel
    | ReviewsLabel
    | Age14Label
    | Age18Label
    | OtherTasksLabel
    | EmojiLabel
    | AlphaOffer
    | TBankOffer
    | MtsOffer

  function LabelText(l: Label): string {
    match l
    case NextLabel => "➡ Далее"
    case StartEarnLabel => "💰 Приступить к заработку"
    case AskLabel => "❓ Задать вопрос"
    case ProfileLabel => "👤 Профиль"
    case TasksLabel => "📜 Задания"
    case ReportCardLabel => "✔️ Получил карту"
    case ReferralLabel => "🤝 Реферальная программа"
    case SupportLabel => "🆘 Тех. поддержка"
    case ReviewsLabel => "⭐ Отзывы"
    case Age14Label => "🧒 14+"
    case Age18Label => "🔞 18+"
    case OtherTasksLabel => "➕ Остальные задания"
    case EmojiLabel => "😊"
    case AlphaOffer => "💳 Карта Альфа Банк ~~2000 Р~~ 2500 Р"
    case TBankOffer => "💳 Карта Т-Банк 3ООО Р"
    case MtsOffer => "💳 Карта МТС 3ОО Р"
  }

  const NextButton: string := LabelText(NextLabel)
  const StartEarnButton: string := LabelText(StartEarnLabel)
  const AskButton: string := LabelText(AskLabel)
  const ProfileButton: string := LabelText(ProfileLabel)
  const TasksButton: string := LabelText(TasksLabel)
  const ReportCardButton: string := LabelText(ReportCardLabel)
  const ReferralButton: string := LabelText(ReferralLabel)
  const SupportButton: string := LabelText(SupportLabel)
  const ReviewsButton: string := LabelText(ReviewsLabel)
  const Age14Button: string := LabelText(Age14Label)
  const Age18Button: string := LabelText(Age18Label)
  const OtherTasksButton: string := LabelText(OtherTasksLabel)
  const EmojiButton: string := LabelText(EmojiLabel)
  const AlphaDisplay: string := LabelText(AlphaOffer)
  const TBankDisplay: string := LabelText(TBankOffer)
  const MtsDisplay: string := LabelText(MtsOffer)
  const LabelCardOrdered: string := "✅ Карта заказана"
  const LabelConfirmReceipt: string := "✅ Подтвердить получение"
  const LabelWriteMessage: string := "✉️ Написать сообщение"
  const LabelRefuseTask: string := "❌ Отказаться от выполнения"
  const LabelCancel: string := "❌ Отмена"
  const LabelBack: string := "⬅️ Назад"
  const LabelHome: string := "🏠 В главное меню"
  const LabelToTasks: string := "📜 К заданиям"
  const LabelStartTask: string := "🚀 Начать выполнение"
  const LabelSwitchAgePrefix: string := "🔄 Показать задания "

  /** The offers shown for age "14+" and for every other age (app/bot.py:69-77). */
  const Offers14: seq<Label> := [TBankOffer, AlphaOffer]
  const Offers18: seq<Label> := [TBankOffer, MtsOffer, AlphaOffer]

  // ---------------------------------------------------------------------
  // Keyboards
  // ---------------------------------------------------------------------

  datatype Button = Button(text: string, data: string)

  datatype Markup =
    | NoMarkup
    | Inline(rows: seq<seq<Button>>)
    | Reply(keys: seq<seq<string>>)

  const NextKeyboard: Markup := Inline([[Button(NextButton, Encode(NextSubmit))]])

  const ActionsKeyboard: Markup :=
    Inline([[Button(StartEarnButton, Encode(StartEarn))], [Button(AskButton, Encode(Ask))]])

  const StartReportKeyboard: Markup :=
    Inline([[Button(LabelConfirmReceipt, Encode(StartReportMessage))], [Button(LabelCancel, Encode(CancelReport))]])

  const StartSupportKeyboard: Markup :=
    Inline([[Button(LabelWriteMessage, Encode(StartSupport))], [Button(LabelCancel, Encode(CancelSupport))]])

  const AfterSendKeyboard: Markup :=
    Inline([[Button(LabelHome, Encode(GoMain)), Button(LabelToTasks, Encode(MenuTasks))]])

  const CancelSupportKeyboard: Markup := Inline([[Button(LabelCancel, Encode(CancelSupport))]])

  const CancelReportKeyboard: Markup := Inline([[Button(LabelCancel, Encode(CancelReport))]])

  const BackToMainKeyboard: Markup := Inline([[Button(LabelBack, Encode(GoMain))]])

  const BackToOffersKeyboard: Markup := Inline([[Button(LabelBack, Encode(BackToBanks))]])

  const TaskKeyboard: Markup :=
    Inline([[Button(LabelCardOrdered, Encode(CardOrdered))], [Button(LabelRefuseTask, Encode(RefuseTask))]])

  const MainMenuReply: Markup := Reply([
    [ProfileButton, TasksButton],
    [ReportCardButton],
    [ReferralButton, SupportButton],
    [ReviewsButton]
  ])

  /** `age_inline_keyboard` (app/bot.py:263-272). */
  const AgeKeyboard: Markup :=
    Inline([[Button(Age14Button, Encode(Age14)), Button(Age18Button, Encode(Age18))], [Button(AskButton, Encode(Ask))]])

  /** The keyboard under a special offer's introduction (app/bot.py:449-454). */
  function OfferIntroKeyboard(bank: string): Markup {
    Inline([[Button(LabelStartTask, Encode(StartTask(bank)))], [Button(LabelBack, Encode(BackToBanks))]])
  }

  /** The age the offer list's switch button leads to. */
  function OtherAge(age: string): string {
    if age == "14+" then "18+" else "14+"
  }

  function OffersFor(age: string): seq<Label> {
    if age == "14+" then Offers14 else Offers18
  }

  function OfferRows(offers: seq<Label>): (rows: seq<seq<Button>>)
    ensures |rows| == |offers|
    ensures forall i :: 0 <= i < |offers| ==>
      rows[i] == [Button(LabelText(offers[i]), Encode(PickOffer(LabelText(offers[i]))))]
  {
    seq(|offers|, i requires 0 <= i < |offers| =>
      [Button(LabelText(offers[i]), Encode(PickOffer(LabelText(offers[i]))))])
  }

  /** `banks_inline_keyboard` (app/bot.py:274-282): one row per offer for
      the age, then the emoji, other-tasks, ask and switch-age rows. */
  function OffersKeyboard(age: string): (m: Markup)
    ensures m.Inline?
  {
    var other := OtherAge(age);
    Inline(OfferRows(OffersFor(age)) + [
      [Button(EmojiButton, Encode(Emoji))],
      [Button(OtherTasksButton, Encode(OtherTasks))],
      [Button(AskButton, Encode(Ask))],
      [Button(LabelSwitchAgePrefix + other, Encode(SwitchAge(other)))]
    ])
  }

  // ---------------------------------------------------------------------
  // Message copy.  The Russian texts are fixed prose; the model names each
  // one and keeps the values it is formatted with.
  // ---------------------------------------------------------------------

  datatype User = User(id: int, username: Option<string>)

  /** A row of `list_submissions`. */
  datatype SubmissionRow = SubmissionRow(id: int, userId: int, bank: string, status: string, createdAt: string)

  /** A row of `list_actions`. */
  datatype ActionRow = ActionRow(createdAt: string, action: string, userId: Option<int>, details: string)

  /** The message texts, one constructor per distinct text: the report
      prompt of `start_report_message` and the intro of the report-card
      button and callback are the same text, so they share `ReportPrompt`. */
  datatype Copy =
    | Welcome
    | HowItWorks
    | WhyItWorks
    | TakeTheStep
    | AgePrompt
    | OffersTitle(age: string)
    | MainMenuTitle
    | QuestionPrompt
    | SupportMessagePrompt
    | OfferIntro(bank: string)
    | MtsComingSoon
    | CommentPrompt
    | Instruction(name: string, link: string, custom: string)
    | CardOrderedNote
    | ReportPrompt
    | ChooseTaskOrAsk
    | ChooseAgeAndTask
    | MoreTasksSoon
    | Profile(user: Option<User>)
    | ReferralInfo
    | SupportIntro
    | SupportIntroShort
    | ReportCardNotice
    | ReviewsSoon
    | HelpText
    | BankPrompt
    | EvidencePrompt
    | EvidenceRetry
    | SubmissionSent
    | AttachRetry
    | QuestionSaved
    | ReportAccepted
    | NoSubmissions
    | SubmissionLines(submissions: seq<SubmissionRow>)
    | NotAllowed
    | NoActions
    | ActionLines(actions: seq<ActionRow>)

  // ---------------------------------------------------------------------
  // Effects
  // ---------------------------------------------------------------------

  /** The `details` dictionary of a logged action. */
  datatype Details =
    | NoDetails
    | AgeDetail(age: string)
    | BankDetail(bank: string)
    | SubmissionDetail(submissionId: int, submittedBank: Option<string>)
    | FileDetail(fileId: Option<string>)

  /** A row written through `add_submission`, `add_question` or `add_report`. */
  datatype Record =
    | SubmissionRecord(submitter: int, username: Option<string>, bank: Option<string>, comment: Option<string>, fileId: Option<string>)
    | QuestionRecord(userId: Option<int>, username: Option<string>, message: string, fileId: Option<string>)
    | ReportRecord(userId: Option<int>, username: Option<string>, message: string, fileId: Option<string>)

  datatype Effect =
      /** Best-effort deletion of the previously tracked menu; a failure is swallowed. */
    | DeleteMessage(messageId: int)
      /** A text menu whose message id becomes `menu_msg_id`. */
    | ShowMenu(text: Copy, markup: Markup, messageId: int)
      /** The welcome photo, tracked like a menu. */
    | ShowPhotoMenu(photo: string, caption: Copy, markup: Markup, messageId: int)
      /** A message that is not tracked as the menu. */
    | Send(text: Copy, markup: Markup)
      /** `call.answer()`. */
    | AnswerCallback
    | Log(action: string, userId: Option<int>, username: Option<string>, details: Details)
    | Persist(record: Record)
      /** The handler raised before doing anything (`None.strip()`). */
    | Crash

  /** The records an effect list persists, in order. */
  function Records(es: seq<Effect>): (r: seq<Record>)
    ensures |r| <= |es|
  {
    if |es| == 0 then [] else RecordOf(es[0]) + Records(es[1..])
  }

  function RecordOf(e: Effect): (r: seq<Record>)
    ensures |r| <= 1
  {
    if e.Persist? then [e.record] else []
  }

  /** The message ids of the tracked menus an effect list renders. */
  function MenuIds(es: seq<Effect>): (r: seq<int>)
    ensures |r| <= |es|
  {
    if |es| == 0 then [] else MenuIdOf(es[0]) + MenuIds(es[1..])
  }

  function MenuIdOf(e: Effect): (r: seq<int>)
    ensures |r| <= 1
  {
    if e.ShowMenu? || e.ShowPhotoMenu? then [e.messageId] else []
  }

  lemma {:induction false} RecordsAppend(a: seq<Effect>, b: seq<Effect>)
    ensures Records(a + b) == Records(a) + Records(b)
  {
    if |a| > 0 {
      assert (a + b)[0] == a[0] && (a + b)[1..] == a[1..] + b;
      RecordsAppend(a[1..], b);
    } else {
      assert a + b == b;
    }
  }

  lemma {:induction false} MenuIdsAppend(a: seq<Effect>, b: seq<Effect>)
    ensures MenuIds(a + b) == MenuIds(a) + MenuIds(b)
  {
    if |a| > 0 {
      assert (a + b)[0] == a[0] && (a + b)[1..] == a[1..] + b;
      MenuIdsAppend(a[1..], b);
    } else {
      assert a + b == b;
    }
  }

  /** An effect that neither persists a row nor renders a tracked menu. */
  predicate Quiet(e: Effect) {
    !e.Persist? && !e.ShowMenu? && !e.ShowPhotoMenu?
  }

  /** A list of quiet effects persists nothing and renders no menu. */
  lemma {:induction false} QuietEffects(es: seq<Effect>)
    requires forall i :: 0 <= i < |es| ==> Quiet(es[i])
    ensures Records(es) == [] && MenuIds(es) == []
  {
    if |es| > 0 {
      QuietEffects(es[1..]);
    }
  }

  /** A single untracked message persists nothing and renders no menu. */
  lemma SendIsQuiet(c: Copy, m: Markup)
    ensures Records([Send(c, m)]) == [] && MenuIds([Send(c, m)]) == []
  {
    QuietEffects([Send(c, m)]);
  }

  /** A row persisted ahead of quiet effects is the list's only record. */
  lemma PersistThenQuiet(es: seq<Effect>)
    requires |es| > 0 && es[0].Persist?
    requires forall i :: 1 <= i < |es| ==> Quiet(es[i])
    ensures Records(es) == [es[0].record] && MenuIds(es) == []
  {
    QuietEffects(es[1..]);
  }
}
