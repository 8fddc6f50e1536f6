/** Properties of the whole transition `Bot.Step`: the one-menu
    discipline, what may be persisted and when, the invariant of the
    submission dialog, and how the buttons the bot shows lead back to its
    handlers. */
module BotProps {
  import opened Wrappers
  import opened Text
  import opened Session
  import opened Ui
  import opened Callbacks
  import opened Dispatch
  import opened Bot

  // ---------------------------------------------------------------------
  // One tracked menu
  // ---------------------------------------------------------------------

  /** A step renders at most one tracked menu, under the id Telegram gave
      it, and remembers that id as `menu_msg_id`; a step that renders none
      either keeps the stored id or forgets it. */
  predicate TracksMenu(s: Session, o: Outcome, ctx: Context) {
    (MenuIds(o.effects) == [] &&
      (o.session.data.menuMsgId == s.data.menuMsgId || o.session.data.menuMsgId.None?))
    || (MenuIds(o.effects) == [ctx.sentId] && o.session.data.menuMsgId == Some(ctx.sentId))
  }

  /** The facts each message handler group establishes. */
  predicate MessageFacts(h: Handler, s: Session, e: Event, ctx: Context) {
    var o := OnMessage(h, s, e, ctx);
    TracksMenu(s, o, ctx) && |Records(o.effects)| <= 1 &&
    (Records(o.effects) != [] ==> h == CollectEvidence || h == CollectQuestion || h == CollectReport)
  }

  /** Every message handler keeps the one-menu discipline and persists at
      most one row, and only the three collectors that finish a dialog
      persist anything. */
  lemma OnMessageTracksMenu(h: Handler, s: Session, e: Event, ctx: Context)
    ensures TracksMenu(s, OnMessage(h, s, e, ctx), ctx)
    ensures |Records(OnMessage(h, s, e, ctx).effects)| <= 1
    ensures Records(OnMessage(h, s, e, ctx).effects) != [] ==>
      h == CollectEvidence || h == CollectQuestion || h == CollectReport
  {
    HandlerFacts(h, s, e, ctx);
  }

  /** The facts of every message handler, one branch of `OnMessage` at a
      time. */
  lemma HandlerFacts(h: Handler, s: Session, e: Event, ctx: Context)
    ensures MessageFacts(h, s, e, ctx) && KeepsDialog(h, s, e, ctx)
  {
    match h
    case Start => StartFacts(s, e, ctx); StartDialog(s, e, ctx);
    case NextText => NextTextFacts(s, e, ctx); NextTextDialog(s, e, ctx);
    case StartEarnText => StartEarnTextFacts(s, e, ctx); StartEarnTextDialog(s, e, ctx);
    case Age14Text => Age14TextFacts(s, e, ctx); Age14TextDialog(s, e, ctx);
    case Age18Text => Age18TextFacts(s, e, ctx); Age18TextDialog(s, e, ctx);
    case AskText => AskTextFacts(s, e, ctx); AskTextDialog(s, e, ctx);
    case OfferShortcut => OfferShortcutFacts(s, e, ctx); OfferShortcutDialog(s, e, ctx);
    case EmojiText => EmojiTextFacts(s, e, ctx); EmojiTextDialog(s, e, ctx);
    case OtherTasksText => OtherTasksTextFacts(s, e, ctx); OtherTasksTextDialog(s, e, ctx);
    case TasksText => TasksTextFacts(s, e, ctx); TasksTextDialog(s, e, ctx);
    case ProfileText => ProfileTextFacts(s, e, ctx); ProfileTextDialog(s, e, ctx);
    case ReferralText => ReferralTextFacts(s, e, ctx); ReferralTextDialog(s, e, ctx);
    case SupportText => SupportTextFacts(s, e, ctx); SupportTextDialog(s, e, ctx);
    case ReportCardText => ReportCardTextFacts(s, e, ctx); ReportCardTextDialog(s, e, ctx);
    case TasksTextAgain => TasksTextAgainFacts(s, e, ctx); TasksTextAgainDialog(s, e, ctx);
    case ReviewsText => ReviewsTextFacts(s, e, ctx); ReviewsTextDialog(s, e, ctx);
    case Help => HelpFacts(s, e, ctx); HelpDialog(s, e, ctx);
    case Submit => SubmitFacts(s, e, ctx); SubmitDialog(s, e, ctx);
    case CollectBank => CollectBankFacts(s, e, ctx); CollectBankDialog(s, e, ctx);
    case CollectComment => CollectCommentFacts(s, e, ctx); CollectCommentDialog(s, e, ctx);
    case CollectEvidence => CollectEvidenceFacts(s, e, ctx); CollectEvidenceDialog(s, e, ctx);
    case CollectQuestion => CollectQuestionFacts(s, e, ctx); CollectQuestionDialog(s, e, ctx);
    case ReportCardTextAgain => ReportCardTextAgainFacts(s, e, ctx); ReportCardTextAgainDialog(s, e, ctx);
    case CollectReport => CollectReportFacts(s, e, ctx); CollectReportDialog(s, e, ctx);
    case My => MyFacts(s, e, ctx); MyDialog(s, e, ctx);
    case Actions => ActionsFacts(s, e, ctx); ActionsDialog(s, e, ctx);
  }

  /* One lemma per message handler, each about a single branch of
     `OnMessage`. */

  lemma StartFacts(s: Session, e: Event, ctx: Context)
    ensures MessageFacts(Start, s, e, ctx)
  {
    QuietEffects([LogAction(ctx, "start", NoDetails)]);
  }

  lemma StartDialog(s: Session, e: Event, ctx: Context)
    ensures KeepsDialog(Start, s, e, ctx)
  {
    QuietEffects([LogAction(ctx, "start", NoDetails)]);
  }

  lemma NextTextFacts(s: Session, e: Event, ctx: Context)
    ensures MessageFacts(NextText, s, e, ctx)
  {
    QuietEffects(OnMessage(NextText, s, e, ctx).effects);
  }

  lemma NextTextDialog(s: Session, e: Event, ctx: Context)
    ensures KeepsDialog(NextText, s, e, ctx)
  {
    QuietEffects(OnMessage(NextText, s, e, ctx).effects);
  }

  lemma StartEarnTextFacts(s: Session, e: Event, ctx: Context)
    ensures MessageFacts(StartEarnText, s, e, ctx)
  {
    QuietEffects([LogAction(ctx, "start_earn", NoDetails)]);
  }

  lemma StartEarnTextDialog(s: Session, e: Event, ctx: Context)
    ensures KeepsDialog(StartEarnText, s, e, ctx)
  {
    QuietEffects([LogAction(ctx, "start_earn", NoDetails)]);
  }

  lemma Age14TextFacts(s: Session, e: Event, ctx: Context)
    ensures MessageFacts(Age14Text, s, e, ctx)
  {
  }

  lemma Age14TextDialog(s: Session, e: Event, ctx: Context)
    ensures KeepsDialog(Age14Text, s, e, ctx)
  {
  }

  lemma Age18TextFacts(s: Session, e: Event, ctx: Context)
    ensures MessageFacts(Age18Text, s, e, ctx)
  {
  }

  lemma Age18TextDialog(s: Session, e: Event, ctx: Context)
    ensures KeepsDialog(Age18Text, s, e, ctx)
  {
  }

  lemma AskTextFacts(s: Session, e: Event, ctx: Context)
    ensures MessageFacts(AskText, s, e, ctx)
  {
    QuietEffects(OnMessage(AskText, s, e, ctx).effects);
  }

  lemma AskTextDialog(s: Session, e: Event, ctx: Context)
    ensures KeepsDialog(AskText, s, e, ctx)
  {
    QuietEffects(OnMessage(AskText, s, e, ctx).effects);
  }

  lemma OfferShortcutFacts(s: Session, e: Event, ctx: Context)
    ensures MessageFacts(OfferShortcut, s, e, ctx)
  {
  }

  lemma OfferShortcutDialog(s: Session, e: Event, ctx: Context)
    ensures KeepsDialog(OfferShortcut, s, e, ctx)
  {
    RunsOfferShortcut(s, e, ctx);
  }

  /** What the label shortcut does to the dialog keys, read off the bank
      selection it runs. */
  lemma RunsOfferShortcut(s: Session, e: Event, ctx: Context)
    ensures Records(OnMessage(OfferShortcut, s, e, ctx).effects) == []
    ensures OnMessage(OfferShortcut, s, e, ctx).session.data.comment == s.data.comment
    ensures var t := OnMessage(OfferShortcut, s, e, ctx).session;
      (t.state == s.state && t.data.bank == s.data.bank) ||
      (t.state == SubmissionComment && t.data.bank.Some?)
  {
  }

  lemma EmojiTextFacts(s: Session, e: Event, ctx: Context)
    ensures MessageFacts(EmojiText, s, e, ctx)
  {
    QuietEffects(OnMessage(EmojiText, s, e, ctx).effects);
  }

  lemma EmojiTextDialog(s: Session, e: Event, ctx: Context)
    ensures KeepsDialog(EmojiText, s, e, ctx)
  {
    QuietEffects(OnMessage(EmojiText, s, e, ctx).effects);
  }

  lemma OtherTasksTextFacts(s: Session, e: Event, ctx: Context)
    ensures MessageFacts(OtherTasksText, s, e, ctx)
  {
    QuietEffects(OnMessage(OtherTasksText, s, e, ctx).effects);
  }

  lemma OtherTasksTextDialog(s: Session, e: Event, ctx: Context)
    ensures KeepsDialog(OtherTasksText, s, e, ctx)
  {
    QuietEffects(OnMessage(OtherTasksText, s, e, ctx).effects);
  }

  lemma TasksTextFacts(s: Session, e: Event, ctx: Context)
    ensures MessageFacts(TasksText, s, e, ctx)
  {
  }

  lemma TasksTextDialog(s: Session, e: Event, ctx: Context)
    ensures KeepsDialog(TasksText, s, e, ctx)
  {
  }

  lemma ProfileTextFacts(s: Session, e: Event, ctx: Context)
    ensures MessageFacts(ProfileText, s, e, ctx)
  {
    QuietEffects(OnMessage(ProfileText, s, e, ctx).effects);
  }

  lemma ProfileTextDialog(s: Session, e: Event, ctx: Context)
    ensures KeepsDialog(ProfileText, s, e, ctx)
  {
    QuietEffects(OnMessage(ProfileText, s, e, ctx).effects);
  }

  lemma ReferralTextFacts(s: Session, e: Event, ctx: Context)
    ensures MessageFacts(ReferralText, s, e, ctx)
  {
    QuietEffects(OnMessage(ReferralText, s, e, ctx).effects);
  }

  lemma ReferralTextDialog(s: Session, e: Event, ctx: Context)
    ensures KeepsDialog(ReferralText, s, e, ctx)
  {
    QuietEffects(OnMessage(ReferralText, s, e, ctx).effects);
  }

  lemma SupportTextFacts(s: Session, e: Event, ctx: Context)
    ensures MessageFacts(SupportText, s, e, ctx)
  {
    QuietEffects(OnMessage(SupportText, s, e, ctx).effects);
  }

  lemma SupportTextDialog(s: Session, e: Event, ctx: Context)
    ensures KeepsDialog(SupportText, s, e, ctx)
  {
    QuietEffects(OnMessage(SupportText, s, e, ctx).effects);
  }

  lemma ReportCardTextFacts(s: Session, e: Event, ctx: Context)
    ensures MessageFacts(ReportCardText, s, e, ctx)
  {
    QuietEffects(OnMessage(ReportCardText, s, e, ctx).effects);
  }

  lemma ReportCardTextDialog(s: Session, e: Event, ctx: Context)
    ensures KeepsDialog(ReportCardText, s, e, ctx)
  {
    QuietEffects(OnMessage(ReportCardText, s, e, ctx).effects);
  }

  lemma TasksTextAgainFacts(s: Session, e: Event, ctx: Context)
    ensures MessageFacts(TasksTextAgain, s, e, ctx)
  {
  }

  lemma TasksTextAgainDialog(s: Session, e: Event, ctx: Context)
    ensures KeepsDialog(TasksTextAgain, s, e, ctx)
  {
    RunsTasksTextAgain(s, e, ctx);
  }

  /** The second "tasks" label runs the same offer list as the first. */
  lemma RunsTasksTextAgain(s: Session, e: Event, ctx: Context)
    ensures OnMessage(TasksTextAgain, s, e, ctx) == ShowTasks(s, ctx, false)
  {
  }

  lemma ReviewsTextFacts(s: Session, e: Event, ctx: Context)
    ensures MessageFacts(ReviewsText, s, e, ctx)
  {
    QuietEffects(OnMessage(ReviewsText, s, e, ctx).effects);
  }

  lemma ReviewsTextDialog(s: Session, e: Event, ctx: Context)
    ensures KeepsDialog(ReviewsText, s, e, ctx)
  {
    QuietEffects(OnMessage(ReviewsText, s, e, ctx).effects);
  }

  lemma HelpFacts(s: Session, e: Event, ctx: Context)
    ensures MessageFacts(Help, s, e, ctx)
  {
    QuietEffects(OnMessage(Help, s, e, ctx).effects);
  }

  lemma HelpDialog(s: Session, e: Event, ctx: Context)
    ensures KeepsDialog(Help, s, e, ctx)
  {
    QuietEffects(OnMessage(Help, s, e, ctx).effects);
  }

  lemma SubmitFacts(s: Session, e: Event, ctx: Context)
    ensures MessageFacts(Submit, s, e, ctx)
  {
    QuietEffects(OnMessage(Submit, s, e, ctx).effects);
  }

  lemma SubmitDialog(s: Session, e: Event, ctx: Context)
    ensures KeepsDialog(Submit, s, e, ctx)
  {
    QuietEffects(OnMessage(Submit, s, e, ctx).effects);
  }

  lemma CollectBankFacts(s: Session, e: Event, ctx: Context)
    ensures MessageFacts(CollectBank, s, e, ctx)
  {
    RunsCollectBank(s, e, ctx);
  }

  lemma CollectBankDialog(s: Session, e: Event, ctx: Context)
    ensures KeepsDialog(CollectBank, s, e, ctx)
  {
    QuietEffects(OnMessage(CollectBank, s, e, ctx).effects);
  }

  lemma CollectCommentFacts(s: Session, e: Event, ctx: Context)
    ensures MessageFacts(CollectComment, s, e, ctx)
  {
    RunsCollectComment(s, e, ctx);
  }

  lemma CollectCommentDialog(s: Session, e: Event, ctx: Context)
    ensures KeepsDialog(CollectComment, s, e, ctx)
  {
    RunsCollectComment(s, e, ctx);
  }

  lemma CollectEvidenceFacts(s: Session, e: Event, ctx: Context)
    ensures MessageFacts(CollectEvidence, s, e, ctx)
  {
  }

  lemma CollectEvidenceDialog(s: Session, e: Event, ctx: Context)
    ensures KeepsDialog(CollectEvidence, s, e, ctx)
  {
    assert OnMessage(CollectEvidence, s, e, ctx) == CollectEvidenceStep(s, e, ctx);
    SendIsQuiet(EvidenceRetry, NoMarkup);
  }

  lemma CollectQuestionFacts(s: Session, e: Event, ctx: Context)
    ensures MessageFacts(CollectQuestion, s, e, ctx)
  {
  }

  lemma CollectQuestionDialog(s: Session, e: Event, ctx: Context)
    ensures KeepsDialog(CollectQuestion, s, e, ctx)
  {
    assert OnMessage(CollectQuestion, s, e, ctx) == CollectPayloadStep(s, e, ctx, Questions);
    SendIsQuiet(AttachRetry, NoMarkup);
  }

  lemma ReportCardTextAgainFacts(s: Session, e: Event, ctx: Context)
    ensures MessageFacts(ReportCardTextAgain, s, e, ctx)
  {
    QuietEffects(OnMessage(ReportCardTextAgain, s, e, ctx).effects);
  }

  lemma ReportCardTextAgainDialog(s: Session, e: Event, ctx: Context)
    ensures KeepsDialog(ReportCardTextAgain, s, e, ctx)
  {
    QuietEffects(OnMessage(ReportCardTextAgain, s, e, ctx).effects);
  }

  lemma CollectReportFacts(s: Session, e: Event, ctx: Context)
    ensures MessageFacts(CollectReport, s, e, ctx)
  {
  }

  lemma CollectReportDialog(s: Session, e: Event, ctx: Context)
    ensures KeepsDialog(CollectReport, s, e, ctx)
  {
    assert OnMessage(CollectReport, s, e, ctx) == CollectPayloadStep(s, e, ctx, Reports);
    SendIsQuiet(AttachRetry, NoMarkup);
  }

  lemma MyFacts(s: Session, e: Event, ctx: Context)
    ensures MessageFacts(My, s, e, ctx)
  {
    assert OnMessage(My, s, e, ctx) == Outcome(s, [Send(MySubmissions(ctx), NoMarkup)]);
    SendIsQuiet(MySubmissions(ctx), NoMarkup);
  }

  lemma MyDialog(s: Session, e: Event, ctx: Context)
    ensures KeepsDialog(My, s, e, ctx)
  {
    assert OnMessage(My, s, e, ctx) == Outcome(s, [Send(MySubmissions(ctx), NoMarkup)]);
    SendIsQuiet(MySubmissions(ctx), NoMarkup);
  }

  lemma ActionsFacts(s: Session, e: Event, ctx: Context)
    ensures MessageFacts(Actions, s, e, ctx)
  {
    assert OnMessage(Actions, s, e, ctx) == Outcome(s, [Send(RecentActions(ctx), NoMarkup)]);
    SendIsQuiet(RecentActions(ctx), NoMarkup);
  }

  lemma ActionsDialog(s: Session, e: Event, ctx: Context)
    ensures KeepsDialog(Actions, s, e, ctx)
  {
    assert OnMessage(Actions, s, e, ctx) == Outcome(s, [Send(RecentActions(ctx), NoMarkup)]);
    SendIsQuiet(RecentActions(ctx), NoMarkup);
  }

  /** The facts each callback handler establishes: the one-menu
      discipline, no row persisted, and the query answered exactly when a
      handler accepted it. */
  predicate CallbackFacts(i: Intent, s: Session, ctx: Context) {
    var o := OnCallback(i, s, ctx);
    TracksMenu(s, o, ctx) && Records(o.effects) == [] &&
    (AnswerCallback in o.effects <==> !i.Unhandled?)
  }

  /** No callback persists anything; every handled one answers the query
      and keeps the one-menu discipline. */
  lemma OnCallbackTracksMenu(i: Intent, s: Session, ctx: Context)
    ensures CallbackFacts(i, s, ctx)
  {
    IntentFacts(i, s, ctx);
  }

  /** The facts of every callback handler, one branch of `OnCallback` at a
      time. */
  lemma IntentFacts(i: Intent, s: Session, ctx: Context)
    ensures CallbackFacts(i, s, ctx) && CallbackKeepsDialog(i, s, ctx)
  {
    match i
    case NextSubmit => NextSubmitCallbackFacts(s, ctx); NextSubmitCallbackDialog(s, ctx);
    case StartEarn => StartEarnCallbackFacts(s, ctx); StartEarnCallbackDialog(s, ctx);
    case Age14 => Age14CallbackFacts(s, ctx); Age14CallbackDialog(s, ctx);
    case Age18 => Age18CallbackFacts(s, ctx); Age18CallbackDialog(s, ctx);
    case PickOffer(bank) => PickOfferCallbackFacts(bank, s, ctx); PickOfferCallbackDialog(bank, s, ctx);
    case StartTask(bank) => StartTaskCallbackFacts(bank, s, ctx); StartTaskCallbackDialog(bank, s, ctx);
    case RefuseTask => RefuseTaskCallbackFacts(s, ctx); RefuseTaskCallbackDialog(s, ctx);
    case CardOrdered => CardOrderedCallbackFacts(s, ctx); CardOrderedCallbackDialog(s, ctx);
    case SwitchAge(age) => SwitchAgeCallbackFacts(age, s, ctx); SwitchAgeCallbackDialog(age, s, ctx);
    case Emoji => EmojiCallbackFacts(s, ctx); EmojiCallbackDialog(s, ctx);
    case OtherTasks => OtherTasksCallbackFacts(s, ctx); OtherTasksCallbackDialog(s, ctx);
    case Ask => AskCallbackFacts(s, ctx); AskCallbackDialog(s, ctx);
    case StartSupport => StartSupportCallbackFacts(s, ctx); StartSupportCallbackDialog(s, ctx);
    case StartReportMessage => StartReportMessageCallbackFacts(s, ctx); StartReportMessageCallbackDialog(s, ctx);
    case GoMain => GoMainCallbackFacts(s, ctx); GoMainCallbackDialog(s, ctx);
    case CancelSupport => CancelSupportCallbackFacts(s, ctx); CancelSupportCallbackDialog(s, ctx);
    case CancelReport => CancelReportCallbackFacts(s, ctx); CancelReportCallbackDialog(s, ctx);
    case BackToBanks => BackToBanksCallbackFacts(s, ctx); BackToBanksCallbackDialog(s, ctx);
    case MenuProfile => MenuProfileCallbackFacts(s, ctx); MenuProfileCallbackDialog(s, ctx);
    case MenuReferral => MenuReferralCallbackFacts(s, ctx); MenuReferralCallbackDialog(s, ctx);
    case MenuSupport => MenuSupportCallbackFacts(s, ctx); MenuSupportCallbackDialog(s, ctx);
    case MenuReportCard => MenuReportCardCallbackFacts(s, ctx); MenuReportCardCallbackDialog(s, ctx);
    case MenuTasks => MenuTasksCallbackFacts(s, ctx); MenuTasksCallbackDialog(s, ctx);
    case MenuReviews => MenuReviewsCallbackFacts(s, ctx); MenuReviewsCallbackDialog(s, ctx);
    case Unhandled(data) => UnhandledCallbackFacts(data, s, ctx); UnhandledCallbackDialog(data, s, ctx);
  }

  /* One lemma per callback handler. */

  lemma NextSubmitCallbackFacts(s: Session, ctx: Context)
    ensures CallbackFacts(NextSubmit, s, ctx)
  {
    QuietEffects(OnCallback(NextSubmit, s, ctx).effects);
  }

  lemma NextSubmitCallbackDialog(s: Session, ctx: Context)
    ensures CallbackKeepsDialog(NextSubmit, s, ctx)
  {
    QuietEffects(OnCallback(NextSubmit, s, ctx).effects);
  }

  lemma StartEarnCallbackFacts(s: Session, ctx: Context)
    ensures CallbackFacts(StartEarn, s, ctx)
  {
    QuietEffects([LogAction(ctx, "start_earn", NoDetails)]);
  }

  lemma StartEarnCallbackDialog(s: Session, ctx: Context)
    ensures CallbackKeepsDialog(StartEarn, s, ctx)
  {
    QuietEffects([LogAction(ctx, "start_earn", NoDetails)]);
  }

  lemma Age14CallbackFacts(s: Session, ctx: Context)
    ensures CallbackFacts(Age14, s, ctx)
  {
  }

  lemma Age14CallbackDialog(s: Session, ctx: Context)
    ensures CallbackKeepsDialog(Age14, s, ctx)
  {
  }

  lemma Age18CallbackFacts(s: Session, ctx: Context)
    ensures CallbackFacts(Age18, s, ctx)
  {
  }

  lemma Age18CallbackDialog(s: Session, ctx: Context)
    ensures CallbackKeepsDialog(Age18, s, ctx)
  {
  }

  lemma PickOfferCallbackFacts(bank: string, s: Session, ctx: Context)
    ensures CallbackFacts(PickOffer(bank), s, ctx)
  {
  }

  lemma PickOfferCallbackDialog(bank: string, s: Session, ctx: Context)
    ensures CallbackKeepsDialog(PickOffer(bank), s, ctx)
  {
  }

  lemma StartTaskCallbackFacts(bank: string, s: Session, ctx: Context)
    ensures CallbackFacts(StartTask(bank), s, ctx)
  {
  }

  lemma StartTaskCallbackDialog(bank: string, s: Session, ctx: Context)
    ensures CallbackKeepsDialog(StartTask(bank), s, ctx)
  {
  }

  lemma RefuseTaskCallbackFacts(s: Session, ctx: Context)
    ensures CallbackFacts(RefuseTask, s, ctx)
  {
  }

  lemma RefuseTaskCallbackDialog(s: Session, ctx: Context)
    ensures CallbackKeepsDialog(RefuseTask, s, ctx)
  {
  }

  lemma CardOrderedCallbackFacts(s: Session, ctx: Context)
    ensures CallbackFacts(CardOrdered, s, ctx)
  {
  }

  lemma CardOrderedCallbackDialog(s: Session, ctx: Context)
    ensures CallbackKeepsDialog(CardOrdered, s, ctx)
  {
  }

  lemma SwitchAgeCallbackFacts(age: string, s: Session, ctx: Context)
    ensures CallbackFacts(SwitchAge(age), s, ctx)
  {
  }

  lemma SwitchAgeCallbackDialog(age: string, s: Session, ctx: Context)
    ensures CallbackKeepsDialog(SwitchAge(age), s, ctx)
  {
  }

  lemma EmojiCallbackFacts(s: Session, ctx: Context)
    ensures CallbackFacts(Emoji, s, ctx)
  {
    QuietEffects(OnCallback(Emoji, s, ctx).effects);
  }

  lemma EmojiCallbackDialog(s: Session, ctx: Context)
    ensures CallbackKeepsDialog(Emoji, s, ctx)
  {
    QuietEffects(OnCallback(Emoji, s, ctx).effects);
  }

  lemma OtherTasksCallbackFacts(s: Session, ctx: Context)
    ensures CallbackFacts(OtherTasks, s, ctx)
  {
    QuietEffects(OnCallback(OtherTasks, s, ctx).effects);
  }

  lemma OtherTasksCallbackDialog(s: Session, ctx: Context)
    ensures CallbackKeepsDialog(OtherTasks, s, ctx)
  {
    QuietEffects(OnCallback(OtherTasks, s, ctx).effects);
  }

  lemma AskCallbackFacts(s: Session, ctx: Context)
    ensures CallbackFacts(Ask, s, ctx)
  {
    QuietEffects([LogAction(ctx, "ask_question_start", NoDetails)]);
  }

  lemma AskCallbackDialog(s: Session, ctx: Context)
    ensures CallbackKeepsDialog(Ask, s, ctx)
  {
    QuietEffects([LogAction(ctx, "ask_question_start", NoDetails)]);
  }

  lemma StartSupportCallbackFacts(s: Session, ctx: Context)
    ensures CallbackFacts(StartSupport, s, ctx)
  {
  }

  lemma StartSupportCallbackDialog(s: Session, ctx: Context)
    ensures CallbackKeepsDialog(StartSupport, s, ctx)
  {
  }

  lemma StartReportMessageCallbackFacts(s: Session, ctx: Context)
    ensures CallbackFacts(StartReportMessage, s, ctx)
  {
  }

  lemma StartReportMessageCallbackDialog(s: Session, ctx: Context)
    ensures CallbackKeepsDialog(StartReportMessage, s, ctx)
  {
  }

  lemma GoMainCallbackFacts(s: Session, ctx: Context)
    ensures CallbackFacts(GoMain, s, ctx)
  {
  }

  lemma GoMainCallbackDialog(s: Session, ctx: Context)
    ensures CallbackKeepsDialog(GoMain, s, ctx)
  {
  }

  lemma CancelSupportCallbackFacts(s: Session, ctx: Context)
    ensures CallbackFacts(CancelSupport, s, ctx)
  {
  }

  lemma CancelSupportCallbackDialog(s: Session, ctx: Context)
    ensures CallbackKeepsDialog(CancelSupport, s, ctx)
  {
  }

  lemma CancelReportCallbackFacts(s: Session, ctx: Context)
    ensures CallbackFacts(CancelReport, s, ctx)
  {
  }

  lemma CancelReportCallbackDialog(s: Session, ctx: Context)
    ensures CallbackKeepsDialog(CancelReport, s, ctx)
  {
  }

  lemma BackToBanksCallbackFacts(s: Session, ctx: Context)
    ensures CallbackFacts(BackToBanks, s, ctx)
  {
  }

  lemma BackToBanksCallbackDialog(s: Session, ctx: Context)
    ensures CallbackKeepsDialog(BackToBanks, s, ctx)
  {
    RunsBackToBanks(s, ctx);
  }

  /** Going back to the offers keeps `bank` and `comment` and leaves the
      state either as it was or none. */
  lemma RunsBackToBanks(s: Session, ctx: Context)
    ensures OnCallback(BackToBanks, s, ctx).session.data.bank == s.data.bank
    ensures OnCallback(BackToBanks, s, ctx).session.data.comment == s.data.comment
    ensures OnCallback(BackToBanks, s, ctx).session.state in {Idle, s.state}
  {
  }

  lemma MenuProfileCallbackFacts(s: Session, ctx: Context)
    ensures CallbackFacts(MenuProfile, s, ctx)
  {
    QuietEffects(OnCallback(MenuProfile, s, ctx).effects);
  }

  lemma MenuProfileCallbackDialog(s: Session, ctx: Context)
    ensures CallbackKeepsDialog(MenuProfile, s, ctx)
  {
    QuietEffects(OnCallback(MenuProfile, s, ctx).effects);
  }

  lemma MenuReferralCallbackFacts(s: Session, ctx: Context)
    ensures CallbackFacts(MenuReferral, s, ctx)
  {
    QuietEffects(OnCallback(MenuReferral, s, ctx).effects);
  }

  lemma MenuReferralCallbackDialog(s: Session, ctx: Context)
    ensures CallbackKeepsDialog(MenuReferral, s, ctx)
  {
    QuietEffects(OnCallback(MenuReferral, s, ctx).effects);
  }

  lemma MenuSupportCallbackFacts(s: Session, ctx: Context)
    ensures CallbackFacts(MenuSupport, s, ctx)
  {
    QuietEffects(OnCallback(MenuSupport, s, ctx).effects);
  }

  lemma MenuSupportCallbackDialog(s: Session, ctx: Context)
    ensures CallbackKeepsDialog(MenuSupport, s, ctx)
  {
    assert OnCallback(MenuSupport, s, ctx).session.state == Idle;
  }

  lemma MenuReportCardCallbackFacts(s: Session, ctx: Context)
    ensures CallbackFacts(MenuReportCard, s, ctx)
  {
    QuietEffects(OnCallback(MenuReportCard, s, ctx).effects);
  }

  lemma MenuReportCardCallbackDialog(s: Session, ctx: Context)
    ensures CallbackKeepsDialog(MenuReportCard, s, ctx)
  {
    QuietEffects(OnCallback(MenuReportCard, s, ctx).effects);
  }

  lemma MenuTasksCallbackFacts(s: Session, ctx: Context)
    ensures CallbackFacts(MenuTasks, s, ctx)
  {
  }

  lemma MenuTasksCallbackDialog(s: Session, ctx: Context)
    ensures CallbackKeepsDialog(MenuTasks, s, ctx)
  {
  }

  lemma MenuReviewsCallbackFacts(s: Session, ctx: Context)
    ensures CallbackFacts(MenuReviews, s, ctx)
  {
    QuietEffects(OnCallback(MenuReviews, s, ctx).effects);
  }

  lemma MenuReviewsCallbackDialog(s: Session, ctx: Context)
    ensures CallbackKeepsDialog(MenuReviews, s, ctx)
  {
    QuietEffects(OnCallback(MenuReviews, s, ctx).effects);
  }

  lemma UnhandledCallbackFacts(data: string, s: Session, ctx: Context)
    ensures CallbackFacts(Unhandled(data), s, ctx)
  {
    QuietEffects(OnCallback(Unhandled(data), s, ctx).effects);
  }

  lemma UnhandledCallbackDialog(data: string, s: Session, ctx: Context)
    ensures CallbackKeepsDialog(Unhandled(data), s, ctx)
  {
    QuietEffects(OnCallback(Unhandled(data), s, ctx).effects);
  }

  /** One update keeps the one-menu discipline and persists at most one
      row; a callback persists nothing. */
  lemma StepTracksMenu(s: Session, e: Event, ctx: Context)
    ensures TracksMenu(s, Step(s, e, ctx), ctx)
    ensures |Records(Step(s, e, ctx).effects)| <= 1
    ensures e.Callback? ==> Records(Step(s, e, ctx).effects) == []
  {
    if e.Callback? {
      OnCallbackTracksMenu(Parse(e.data), s, ctx);
    } else if Route(s.state, e).Some? {
      OnMessageTracksMenu(Route(s.state, e).value, s, e, ctx);
    }
  }

  // ---------------------------------------------------------------------
  // The submission dialog
  // ---------------------------------------------------------------------

  /** The comment step is only ever entered with a bank stored, and the
      evidence step with a bank and a comment. */
  predicate WellFormed(s: Session) {
    (s.state == SubmissionComment ==> s.data.bank.Some?) &&
    (s.state == SubmissionEvidence ==> s.data.bank.Some? && s.data.comment.Some?)
  }

  /** Every submission row in an effect list names a bank. */
  predicate SubmissionsNameBank(es: seq<Effect>) {
    forall r :: r in Records(es) && r.SubmissionRecord? ==> r.bank.Some?
  }

  /** What a message handler keeps of the dialog: run in the state its
      filter demands on a well-formed session, it leaves a well-formed
      one, and a submission it persists names the bank. */
  predicate KeepsDialog(h: Handler, s: Session, e: Event, ctx: Context) {
    var o := OnMessage(h, s, e, ctx);
    (WellFormed(s) && InOwnState(h, s) ==> WellFormed(o.session)) &&
    (WellFormed(s) && (h == CollectEvidence ==> s.state == SubmissionEvidence) ==> SubmissionsNameBank(o.effects))
  }

  /** The comment and evidence collectors run only in their own states. */
  predicate InOwnState(h: Handler, s: Session) {
    (h == CollectComment ==> s.state == SubmissionComment) &&
    (h == CollectEvidence ==> s.state == SubmissionEvidence)
  }

  /** What a callback handler keeps of the dialog. */
  predicate CallbackKeepsDialog(i: Intent, s: Session, ctx: Context) {
    WellFormed(s) ==> WellFormed(OnCallback(i, s, ctx).session)
  }

  /** A message handler run in the state its filter demands keeps the
      dialog well formed, and a submission it persists names the bank. */
  lemma OnMessageWellFormed(h: Handler, s: Session, e: Event, ctx: Context)
    requires WellFormed(s)
    requires h == CollectComment ==> s.state == SubmissionComment
    requires h == CollectEvidence ==> s.state == SubmissionEvidence
    ensures WellFormed(OnMessage(h, s, e, ctx).session)
  {
    HandlerFacts(h, s, e, ctx);
  }

  /** A submission a message handler persists names the bank, when the
      evidence collector runs in its own state on a well-formed session. */
  lemma OnMessageNamesBank(h: Handler, s: Session, e: Event, ctx: Context)
    requires WellFormed(s)
    requires h == CollectEvidence ==> s.state == SubmissionEvidence
    ensures SubmissionsNameBank(OnMessage(h, s, e, ctx).effects)
  {
    HandlerFacts(h, s, e, ctx);
  }

  /** No callback handler breaks the dialog: the only one that enters the
      comment step stores the bank as it does. */
  lemma OnCallbackWellFormed(i: Intent, s: Session, ctx: Context)
    requires WellFormed(s)
    ensures WellFormed(OnCallback(i, s, ctx).session)
  {
    IntentFacts(i, s, ctx);
  }

  /** One update keeps the dialog well formed, and a submission it
      persists names the bank the user picked. */
  lemma StepWellFormed(s: Session, e: Event, ctx: Context)
    requires WellFormed(s)
    ensures WellFormed(Step(s, e, ctx).session)
    ensures SubmissionsNameBank(Step(s, e, ctx).effects)
  {
    if e.Callback? {
      OnCallbackWellFormed(Parse(e.data), s, ctx);
      StepTracksMenu(s, e, ctx);
    } else if Route(s.state, e).Some? {
      CollectorNeedsState(s.state, e);
      OnMessageWellFormed(Route(s.state, e).value, s, e, ctx);
      OnMessageNamesBank(Route(s.state, e).value, s, e, ctx);
    }
  }

  /** A run of updates for one user, each with what its handler reads:
      the last session and every effect, in order. */
  function Run(s: Session, updates: seq<(Event, Context)>): (o: Outcome)
    decreases |updates|
  {
    if |updates| == 0 then Outcome(s, [])
    else
      var first := Step(s, updates[0].0, updates[0].1);
      var rest := Run(first.session, updates[1..]);
      Outcome(rest.session, first.effects + rest.effects)
  }

  /** From a well-formed session, however the user goes through the bot,
      the dialog stays well formed and every submission persisted names a
      bank. */
  lemma {:induction false} RunWellFormed(s: Session, updates: seq<(Event, Context)>)
    requires WellFormed(s)
    ensures WellFormed(Run(s, updates).session)
    ensures SubmissionsNameBank(Run(s, updates).effects)
    decreases |updates|
  {
    if |updates| > 0 {
      var first := Step(s, updates[0].0, updates[0].1);
      StepWellFormed(s, updates[0].0, updates[0].1);
      RunWellFormed(first.session, updates[1..]);
      RecordsAppend(first.effects, Run(first.session, updates[1..]).effects);
    }
  }

  /** In particular for a user the bot has never seen. */
  lemma FreshRunsNameBank(updates: seq<(Event, Context)>)
    ensures WellFormed(Fresh)
    ensures SubmissionsNameBank(Run(Fresh, updates).effects)
  {
    RunWellFormed(Fresh, updates);
  }

  // ---------------------------------------------------------------------
  // Buttons and labels
  // ---------------------------------------------------------------------

  /** Every button of a keyboard leads to a handler: an inline button's
      data parses to a handled intent, and a reply key's text is taken by
      a message handler in every state. */
  predicate Handled(m: Markup) {
    match m
    case NoMarkup => true
    case Inline(rows) => forall i, j :: 0 <= i < |rows| && 0 <= j < |rows[i]| ==> !Parse(rows[i][j].data).Unhandled?
    case Reply(keys) => forall i, j, st :: 0 <= i < |keys| && 0 <= j < |keys[i]| ==> Route(st, TextMessage(keys[i][j])).Some?
  }

  predicate IsCollector(h: Handler) {
    h == CollectBank || h == CollectComment || h == CollectEvidence || h == CollectQuestion || h == CollectReport
  }

  /** The registrations ahead of the collectors are label and command
      handlers. */
  lemma EarlyNotCollector(k: nat)
    requires k < 18
    ensures !IsCollector(Registrations[k].handler)
  {
    assert k == 0 || k == 1 || k == 2 || k == 3 || k == 4 || k == 5 || k == 6 || k == 7 || k == 8
      || k == 9 || k == 10 || k == 11 || k == 12 || k == 13 || k == 14 || k == 15 || k == 16 || k == 17;
  }

  /** The registration that takes a label's text. */
  function LabelSlot(l: Label): (k: nat)
    ensures k < 18
  {
    match l
    case NextLabel => 1
    case StartEarnLabel => 2
    case Age14Label => 3
    case Age18Label => 4
    case AskLabel => 5
    case AlphaOffer => 6
    case TBankOffer => 6
    case MtsOffer => 6
    case EmojiLabel => 7
    case OtherTasksLabel => 8
    case TasksLabel => 9
    case ProfileLabel => 10
    case ReferralLabel => 11
    case SupportLabel => 12
    case ReportCardLabel => 13
    case ReviewsLabel => 15
  }

  /** A label is always handled, and in a collecting state it is the
      label's handler that runs, not the collector: pressing a menu key
      in the middle of a dialog leaves the dialog. */
  lemma LabelsBeatCollectors(st: State, l: Label)
    ensures Route(st, TextMessage(LabelText(l))).Some?
    ensures !IsCollector(Route(st, TextMessage(LabelText(l))).value)
  {
    var e := TextMessage(LabelText(l));
    var k := LabelSlot(l);
    LabelTaken(st, l);
    var v := Verdicts(st, e);
    assert v[k];
    var j := FirstTrue(v, 0).value;
    assert j <= k;
    EarlyNotCollector(j);
  }

  lemma LabelTaken(st: State, l: Label)
    ensures Takes(LabelSlot(l), st, TextMessage(LabelText(l)))
  {
    match l
    case AlphaOffer =>
      assert Registrations[6].filter == TextIn(Offers14 + Offers18) && l in Offers14 + Offers18;
    case TBankOffer =>
      assert Registrations[6].filter == TextIn(Offers14 + Offers18) && l in Offers14 + Offers18;
    case MtsOffer =>
      assert Registrations[6].filter == TextIn(Offers14 + Offers18) && l in Offers14 + Offers18;
    case NextLabel =>
      assert Registrations[1].filter == TextIs(NextLabel);
    case StartEarnLabel =>
      assert Registrations[2].filter == TextIs(StartEarnLabel);
    case Age14Label =>
      assert Registrations[3].filter == TextIs(Age14Label);
    case Age18Label =>
      assert Registrations[4].filter == TextIs(Age18Label);
    case AskLabel =>
      assert Registrations[5].filter == TextIs(AskLabel);
    case EmojiLabel =>
      assert Registrations[7].filter == TextIs(EmojiLabel);
    case OtherTasksLabel =>
      assert Registrations[8].filter == TextIs(OtherTasksLabel);
    case TasksLabel =>
      assert Registrations[9].filter == TextIs(TasksLabel);
    case ProfileLabel =>
      assert Registrations[10].filter == TextIs(ProfileLabel);
    case ReferralLabel =>
      assert Registrations[11].filter == TextIs(ReferralLabel);
    case SupportLabel =>
      assert Registrations[12].filter == TextIs(SupportLabel);
    case ReportCardLabel =>
      assert Registrations[13].filter == TextIs(ReportCardLabel);
    case ReviewsLabel =>
      assert Registrations[15].filter == TextIs(ReviewsLabel);
  }

  /** A keyboard whose buttons carry the encodings of handled intents. */
  lemma {:induction false} EncodedHandled(rows: seq<seq<Button>>, intents: seq<seq<Intent>>)
    requires |rows| == |intents|
    requires forall i :: 0 <= i < |rows| ==> |rows[i]| == |intents[i]|
    requires forall i, j :: 0 <= i < |rows| && 0 <= j < |rows[i]| ==>
      rows[i][j].data == Encode(intents[i][j]) && !intents[i][j].Unhandled?
    ensures Handled(Inline(rows))
  {
    forall i, j | 0 <= i < |rows| && 0 <= j < |rows[i]|
      ensures !Parse(rows[i][j].data).Unhandled?
    {
      ParseEncode(intents[i][j]);
    }
  }

  /** No inline button of the bot leads nowhere. */
  lemma InlineKeyboardsHandled()
    ensures Handled(NextKeyboard) && Handled(ActionsKeyboard) && Handled(AgeKeyboard)
    ensures Handled(StartReportKeyboard) && Handled(StartSupportKeyboard) && Handled(AfterSendKeyboard)
    ensures Handled(CancelSupportKeyboard) && Handled(CancelReportKeyboard)
    ensures Handled(BackToMainKeyboard) && Handled(BackToOffersKeyboard) && Handled(TaskKeyboard)
  {
    EncodedHandled(NextKeyboard.rows, [[NextSubmit]]);
    EncodedHandled(ActionsKeyboard.rows, [[StartEarn], [Ask]]);
    EncodedHandled(AgeKeyboard.rows, [[Age14, Age18], [Ask]]);
    EncodedHandled(StartReportKeyboard.rows, [[StartReportMessage], [CancelReport]]);
    EncodedHandled(StartSupportKeyboard.rows, [[StartSupport], [CancelSupport]]);
    EncodedHandled(AfterSendKeyboard.rows, [[GoMain, MenuTasks]]);
    EncodedHandled(CancelSupportKeyboard.rows, [[CancelSupport]]);
    EncodedHandled(CancelReportKeyboard.rows, [[CancelReport]]);
    EncodedHandled(BackToMainKeyboard.rows, [[GoMain]]);
    EncodedHandled(BackToOffersKeyboard.rows, [[BackToBanks]]);
    EncodedHandled(TaskKeyboard.rows, [[CardOrdered], [RefuseTask]]);
  }

  /** The start-task button carries the offer it was shown for, whatever
      its name. */
  lemma OfferIntroKeyboardHandled(bank: string)
    ensures Handled(OfferIntroKeyboard(bank))
    ensures Parse(OfferIntroKeyboard(bank).rows[0][0].data) == StartTask(bank)
  {
    EncodedHandled(OfferIntroKeyboard(bank).rows, [[StartTask(bank)], [BackToBanks]]);
    ParseEncode(StartTask(bank));
  }

  /** Each offer button of the offer list picks its own offer, and the
      switch button leads to the list for the other age. */
  lemma OffersKeyboardHandled(age: string)
    ensures Handled(OffersKeyboard(age))
    ensures forall i :: 0 <= i < |OffersFor(age)| ==>
      Parse(OffersKeyboard(age).rows[i][0].data) == PickOffer(LabelText(OffersFor(age)[i]))
    ensures Parse(OffersKeyboard(age).rows[|OffersFor(age)| + 3][0].data) == SwitchAge(OtherAge(age))
    ensures age == "14+" || age == "18+" ==> OtherAge(OtherAge(age)) == age
  {
    var offers := OffersFor(age);
    var other := OtherAge(age);
    var rows := OffersKeyboard(age).rows;
    var intents := seq(|offers|, i requires 0 <= i < |offers| => [PickOffer(LabelText(offers[i]))])
      + [[Emoji], [OtherTasks], [Ask], [SwitchAge(other)]];
    EncodedHandled(rows, intents);
    forall i | 0 <= i < |offers|
      ensures Parse(rows[i][0].data) == PickOffer(LabelText(offers[i]))
    {
      ParseEncode(PickOffer(LabelText(offers[i])));
    }
    ParseEncode(SwitchAge(other));
  }

  /** Every key of the main reply keyboard is a label some handler takes,
      in every state. */
  lemma ReplyKeyboardHandled()
    ensures Handled(MainMenuReply)
  {
    var keys := MainMenuReply.keys;
    forall i, j, st | 0 <= i < |keys| && 0 <= j < |keys[i]|
      ensures Route(st, TextMessage(keys[i][j])).Some?
    {
      var l :=
        if i == 0 && j == 0 then ProfileLabel
        else if i == 0 then TasksLabel
        else if i == 1 then ReportCardLabel
        else if i == 2 && j == 0 then ReferralLabel
        else if i == 2 then SupportLabel
        else ReviewsLabel;
      assert keys[i][j] == LabelText(l);
      LabelsBeatCollectors(st, l);
    }
  }

  // ---------------------------------------------------------------------
  // Particular updates
  // ---------------------------------------------------------------------

  /** A second tracked menu replaces the first: its send deletes the
      first menu's message. */
  lemma SendMenuReplaces(s: Session, t1: Copy, m1: Markup, ctx1: Context, t2: Copy, m2: Markup, ctx2: Context)
    requires ctx1.sentId != 0
    ensures DeleteMessage(ctx1.sentId) in SendMenu(SendMenu(s, t1, m1, ctx1).session, t2, m2, ctx2).effects
  {
    var o := SendMenu(SendMenu(s, t1, m1, ctx1).session, t2, m2, ctx2);
    var i :| 0 <= i < |o.effects| && o.effects[i].DeleteMessage?;
    assert o.effects[i] == DeleteMessage(ctx1.sentId);
  }

  /** "Home" soft clears before showing the main menu, so `menu_msg_id`
      is gone by the time the menu is sent: the previous menu is never
      deleted, whatever id was stored. */
  lemma GoMainLeavesOldMenu(s: Session, ctx: Context)
    ensures var o := Step(s, Callback("go_main"), ctx);
      o.session == SoftClear(s).(data := SoftClear(s).data.(menuMsgId := Some(ctx.sentId))) &&
      ShowMenu(MainMenuTitle, MainMenuReply, ctx.sentId) in o.effects &&
      forall i :: 0 <= i < |o.effects| ==> !o.effects[i].DeleteMessage?
  {
    ParseTokens4();
    var shown := SendMenu(SoftClear(s), MainMenuTitle, MainMenuReply, ctx);
    assert Step(s, Callback("go_main"), ctx) == Outcome(shown.session, shown.effects + [AnswerCallback]);
  }

  /** The two cancel buttons soft-clear the dialog and then show the offer
      list for a truthy age, or else the main menu; as with `go_main` the
      clear drops the old menu id first, so nothing is deleted. */
  lemma CancelShowsTasksOrMain(s: Session, d: string, ctx: Context)
    requires d == "cancel_support" || d == "cancel_report"
    ensures var o := Step(s, Callback(d), ctx);
      var age := SoftClear(s).data.preferredAge;
      o.session == SoftClear(s).(data := SoftClear(s).data.(menuMsgId := Some(ctx.sentId))) &&
      (TruthyStr(age) ==> ShowMenu(OffersTitle(age.value), OffersKeyboard(age.value), ctx.sentId) in o.effects) &&
      (!TruthyStr(age) ==> ShowMenu(MainMenuTitle, MainMenuReply, ctx.sentId) in o.effects) &&
      forall i :: 0 <= i < |o.effects| ==> !o.effects[i].DeleteMessage?
  {
    ParseTokens5();
    assert Step(s, Callback(d), ctx) == ShowTasksOrMain(SoftClear(s), ctx, true);
  }

  /** The switch-age button stores its payload as the age without checking
      it; an age other than "14+" is shown the "18+" list. */
  lemma SwitchAgeStoresAnyAge(s: Session, age: string, ctx: Context)
    ensures var o := Step(s, Callback("switch_age::" + age), ctx);
      o.session.state == Idle && o.session.data.preferredAge == Some(age) &&
      o.session.data.bank == s.data.bank && o.session.data.comment == s.data.comment &&
      ShowMenu(OffersTitle(if age == "14+" then "14+" else "18+"), OffersKeyboard(age), ctx.sentId) in o.effects
  {
    assert Encode(SwitchAge(age)) == "switch_age::" + age;
    ParseEncode(SwitchAge(age));
  }

  /** Inside the bank and comment steps any text other than a label or an
      early command is collected, stripped; "-" as the comment stores no
      comment. */
  lemma StepCollectsBank(s: Session, body: string, ctx: Context)
    requires s.state == SubmissionBank
    requires !IsLabel(body) && !IsEarlyCommand(body)
    ensures Step(s, TextMessage(body), ctx).session == Session(SubmissionComment, s.data.(bank := Some(Strip(body))))
    ensures Records(Step(s, TextMessage(body), ctx).effects) == []
  {
    StepInBank(s, body, ctx);
  }

  lemma StepInBank(s: Session, body: string, ctx: Context)
    requires s.state == SubmissionBank
    requires !IsLabel(body) && !IsEarlyCommand(body)
    ensures Step(s, TextMessage(body), ctx) == CollectBankStep(s, TextMessage(body))
  {
    BankCollectorRuns(body);
    StepRunsRouted(s, TextMessage(body), ctx, CollectBank);
    RunsCollectBank(s, TextMessage(body), ctx);
  }

  /** A message runs the handler its route names. */
  lemma StepRunsRouted(s: Session, e: Event, ctx: Context, h: Handler)
    requires !e.Callback? && Route(s.state, e) == Some(h)
    ensures Step(s, e, ctx) == OnMessage(h, s, e, ctx)
  {
  }

  /* The collector handlers are their collecting steps. */

  lemma RunsCollectBank(s: Session, e: Event, ctx: Context)
    ensures OnMessage(CollectBank, s, e, ctx) == CollectBankStep(s, e)
  {
    if e.TextMessage? {
      assert OnMessage(CollectBank, s, e, ctx).session == CollectBankStep(s, e).session;
    }
  }

  lemma StepCollectsComment(s: Session, body: string, ctx: Context)
    requires s.state == SubmissionComment
    requires !IsLabel(body) && !IsEarlyCommand(body)
    ensures Step(s, TextMessage(body), ctx).session.state == SubmissionEvidence
    ensures CommentValue(Step(s, TextMessage(body), ctx).session.data) ==
      if Strip(body) == "-" then None else Some(Strip(body))
    ensures Step(s, TextMessage(body), ctx).session.data.bank == s.data.bank
  {
    CommentCollectorRuns(body);
    StepRunsRouted(s, TextMessage(body), ctx, CollectComment);
    RunsCollectComment(s, TextMessage(body), ctx);
  }

  lemma RunsCollectComment(s: Session, e: Event, ctx: Context)
    ensures OnMessage(CollectComment, s, e, ctx) == CollectCommentStep(s, e)
  {
  }

  /** In the evidence step a photo, a document or a refusal finishes the
      dialog with exactly one submission carrying the stored bank and
      comment; any other content asks again and changes nothing. */
  lemma StepCollectsEvidence(s: Session, e: Event, ctx: Context)
    requires s.state == SubmissionEvidence
    requires !e.Callback? && HasContent(e)
    requires e.TextMessage? ==> !IsLabel(e.body) && !IsEarlyCommand(e.body)
    ensures var o := Step(s, e, ctx);
      if Evidence(e).Some? then
        o.session == SoftClear(s) && |Records(o.effects)| == 1 &&
        Records(o.effects)[0].SubmissionRecord? &&
        Records(o.effects)[0].bank == s.data.bank &&
        Records(o.effects)[0].comment == CommentValue(s.data) &&
        Records(o.effects)[0].fileId == Evidence(e).value
      else
        o == Outcome(s, [Send(EvidenceRetry, NoMarkup)])
  {
    EvidenceCollectorRuns(e);
    StepRunsRouted(s, e, ctx, CollectEvidence);
    RunsCollectEvidence(s, e, ctx);
  }

  lemma RunsCollectEvidence(s: Session, e: Event, ctx: Context)
    ensures OnMessage(CollectEvidence, s, e, ctx) == CollectEvidenceStep(s, e, ctx)
  {
  }

  /** An empty text in the evidence step is taken by no handler at all:
      nothing is sent and nothing changes. */
  lemma EmptyTextIgnoredInEvidence(s: Session, body: string, ctx: Context)
    requires s.state == SubmissionEvidence && |body| == 0
    ensures Step(s, TextMessage(body), ctx) == Outcome(s, [])
  {
    NoHandlerForEmpty(s.state, body);
  }

  lemma NoHandlerForEmpty(st: State, body: string)
    requires st == SubmissionEvidence && |body| == 0
    ensures Route(st, TextMessage(body)).None?
  {
    var e := TextMessage(body);
    assert AllSpace(body);
    NotALabel(body);
    var v := Verdicts(st, e);
    PassesAllButtons(st, e);
    forall k | 18 <= k < |Registrations| ensures !Takes(k, st, e) {
      LateRegistration(st, e, k);
    }
    assert forall k :: 0 <= k < |v| ==> !v[k];
    FirstTrueSkip(v, 0, |v|);
  }

  lemma LateRegistration(st: State, e: Event, k: nat)
    requires st == SubmissionEvidence && e.TextMessage? && |e.body| == 0 && 18 <= k < |Registrations|
    ensures !Takes(k, st, e)
  {
    assert k == 18 || k == 19 || k == 20 || k == 21 || k == 22 || k == 23 || k == 24 || k == 25;
  }

  /** `/my` and `/actions` are registered after the collectors, so inside
      the bank step they, like any command word other than `/start`,
      `/help` and `/submit`, are stored as the bank's name. */
  lemma LateCommandsCollected(s: Session, w: string, ctx: Context)
    requires s.state == SubmissionBank
    requires |w| > 0 && w[0] == '/' && forall k :: 0 <= k < |w| ==> !IsSpace(w[k])
    requires w != "/start" && w != "/help" && w != "/submit"
    ensures Step(s, TextMessage(w), ctx).session.data.bank == Some(w)
  {
    FirstWordOfWord(w);
    NotALabel(w);
    StepCollectsBank(s, w, ctx);
  }

  /** No label is empty or starts with a slash. */
  lemma NotALabel(body: string)
    requires |body| == 0 || body[0] == '/'
    ensures !IsLabel(body)
  {
    forall l: Label ensures LabelText(l) != body {
      assert |LabelText(l)| > 0 && LabelText(l)[0] != '/';
    }
  }
}
