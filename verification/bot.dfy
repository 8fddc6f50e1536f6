/** The handlers of app/bot.py as one pure transition: a session and an
    update go in, the next session and the effects the handler asks of
    Telegram and of the database come out. */
module Bot {
  import opened Wrappers
  import opened Text
  import opened Config
  import opened Session
  import opened Ui
  import opened Callbacks
  import opened Dispatch

  /** What a handler reads besides the session and the update: the sender,
      the id Telegram gives the one tracked menu a handler may send, the id
      `add_submission` returns, the settings, and the rows `list_submissions`
      and `list_actions` return. */
  datatype Context = Context(
    from: Option<User>,
    sentId: int,
    submissionId: int,
    settings: Settings,
    recentSubmissions: seq<SubmissionRow>,
    recentActions: seq<ActionRow>
  )

  datatype Outcome = Outcome(session: Session, effects: seq<Effect>)

  // ---------------------------------------------------------------------
  // Small pieces shared by the handlers
  // ---------------------------------------------------------------------

  /** `from_user.id if from_user else None`. */
  function SenderId(ctx: Context): Option<int> {
    if ctx.from.Some? then Some(ctx.from.value.id) else None
  }

  /** `from_user.username if from_user else None`. */
  function SenderName(ctx: Context): Option<string> {
    if ctx.from.Some? then ctx.from.value.username else None
  }

  /** `database.add_action(action=..., user_id=..., username=..., details=...)`. */
  function LogAction(ctx: Context, action: string, details: Details): Effect {
    Log(action, SenderId(ctx), SenderName(ctx), details)
  }

  /** Effects that happen before an outcome's own. */
  function Before(es: seq<Effect>, o: Outcome): (r: Outcome)
    ensures r.session == o.session && r.effects == es + o.effects
    ensures MenuIds(r.effects) == MenuIds(es) + MenuIds(o.effects)
    ensures Records(r.effects) == Records(es) + Records(o.effects)
  {
    MenuIdsAppend(es, o.effects);
    RecordsAppend(es, o.effects);
    Outcome(o.session, es + o.effects)
  }

  /** `call.answer()` after an outcome, when the update is a callback. */
  function Answered(o: Outcome, call: bool): (r: Outcome)
    ensures r.session == o.session
    ensures MenuIds(r.effects) == MenuIds(o.effects)
    ensures Records(r.effects) == Records(o.effects)
    ensures AnswerCallback in r.effects <==> call || AnswerCallback in o.effects
  {
    if call then
      MenuIdsAppend(o.effects, [AnswerCallback]);
      RecordsAppend(o.effects, [AnswerCallback]);
      Outcome(o.session, o.effects + [AnswerCallback])
    else o
  }

  /** The deletion of the tracked menu, when `menu_msg_id` is truthy. */
  function ClearMenu(s: Session): (es: seq<Effect>)
    ensures MenuIds(es) == [] && Records(es) == []
    ensures |es| <= 1
    ensures |es| == 1 <==> TruthyInt(s.data.menuMsgId)
    ensures forall i :: 0 <= i < |es| ==> es[i] == DeleteMessage(s.data.menuMsgId.value)
  {
    if TruthyInt(s.data.menuMsgId) then [DeleteMessage(s.data.menuMsgId.value)] else []
  }

  // ---------------------------------------------------------------------
  // Menus
  // ---------------------------------------------------------------------

  /** `_send_menu` (the live definition): the previous tracked menu is
      deleted if `menu_msg_id` is truthy (a failed deletion is swallowed),
      the new menu is sent, and its id becomes `menu_msg_id`.  The state
      and every other key are left as they were. */
  function SendMenu(s: Session, text: Copy, markup: Markup, ctx: Context): (o: Outcome)
    ensures o.session == s.(data := s.data.(menuMsgId := Some(ctx.sentId)))
    ensures MenuIds(o.effects) == [ctx.sentId] && Records(o.effects) == []
    ensures o.effects[|o.effects| - 1] == ShowMenu(text, markup, ctx.sentId)
    ensures ShowMenu(text, markup, ctx.sentId) in o.effects
    ensures (exists i :: 0 <= i < |o.effects| && o.effects[i].DeleteMessage?) <==> TruthyInt(s.data.menuMsgId)
    ensures forall i :: 0 <= i < |o.effects| && o.effects[i].DeleteMessage? ==>
      o.effects[i].messageId == s.data.menuMsgId.value
  {
    var shown := [ShowMenu(text, markup, ctx.sentId)];
    MenuIdsAppend(ClearMenu(s), shown);
    RecordsAppend(ClearMenu(s), shown);
    Outcome(s.(data := s.data.(menuMsgId := Some(ctx.sentId))), ClearMenu(s) + shown)
  }

  /** `_show_tasks` (and the `menu_tasks` callback): the offer list for a
      truthy `preferred_age`, the age selection otherwise. */
  function ShowTasks(s: Session, ctx: Context, call: bool): (o: Outcome)
    ensures o.session == s.(data := s.data.(menuMsgId := Some(ctx.sentId)))
    ensures MenuIds(o.effects) == [ctx.sentId] && Records(o.effects) == []
    ensures TruthyStr(s.data.preferredAge) ==>
      ShowMenu(OffersTitle(s.data.preferredAge.value), OffersKeyboard(s.data.preferredAge.value), ctx.sentId) in o.effects
    ensures !TruthyStr(s.data.preferredAge) ==> ShowMenu(AgePrompt, AgeKeyboard, ctx.sentId) in o.effects
    ensures AnswerCallback in o.effects <==> call
  {
    var age := s.data.preferredAge;
    var o := if TruthyStr(age) then SendMenu(s, OffersTitle(age.value), OffersKeyboard(age.value), ctx)
      else SendMenu(s, AgePrompt, AgeKeyboard, ctx);
    Answered(o, call)
  }

  /** `show_tasks_or_main`: the offer list for a truthy `preferred_age`,
      the main menu otherwise. */
  function ShowTasksOrMain(s: Session, ctx: Context, call: bool): (o: Outcome)
    ensures o.session == s.(data := s.data.(menuMsgId := Some(ctx.sentId)))
    ensures MenuIds(o.effects) == [ctx.sentId] && Records(o.effects) == []
    ensures TruthyStr(s.data.preferredAge) ==>
      ShowMenu(OffersTitle(s.data.preferredAge.value), OffersKeyboard(s.data.preferredAge.value), ctx.sentId) in o.effects
    ensures !TruthyStr(s.data.preferredAge) ==> ShowMenu(MainMenuTitle, MainMenuReply, ctx.sentId) in o.effects
    ensures AnswerCallback in o.effects <==> call
  {
    var age := s.data.preferredAge;
    var o := if TruthyStr(age) then SendMenu(s, OffersTitle(age.value), OffersKeyboard(age.value), ctx)
      else SendMenu(s, MainMenuTitle, MainMenuReply, ctx);
    Answered(o, call)
  }

  /** `_store_age_and_show`: `preferred_age` is overwritten with the given
      value whatever it is, the state becomes none and every other key is
      kept; the choice is logged and the offer list for that age shown. */
  function StoreAgeAndShow(s: Session, age: string, ctx: Context, call: bool): (o: Outcome)
    ensures o.session.state == Idle
    ensures o.session.data == s.data.(preferredAge := Some(age), menuMsgId := Some(ctx.sentId))
    ensures MenuIds(o.effects) == [ctx.sentId] && Records(o.effects) == []
    ensures o.effects[0] == LogAction(ctx, "age_selected", AgeDetail(age))
    ensures ShowMenu(OffersTitle(if age == "14+" then "14+" else "18+"), OffersKeyboard(age), ctx.sentId) in o.effects
    ensures AnswerCallback in o.effects <==> call
  {
    var stored := Session(Idle, s.data.(preferredAge := Some(age)));
    var title := if age == "14+" then "14+" else "18+";
    Answered(Before([LogAction(ctx, "age_selected", AgeDetail(age))],
      SendMenu(stored, OffersTitle(title), OffersKeyboard(age), ctx)), call)
  }

  /** `_show_banks_by_age`, reached only from callbacks: with a truthy age
      the same as picking that age again, otherwise the age selection. */
  function ShowBanksByAge(s: Session, ctx: Context): (o: Outcome)
    ensures MenuIds(o.effects) == [ctx.sentId] && Records(o.effects) == []
    ensures o.session.data.menuMsgId == Some(ctx.sentId)
    ensures o.session.data.bank == s.data.bank && o.session.data.comment == s.data.comment
    ensures o.session.data.preferredAge == s.data.preferredAge
    ensures TruthyStr(s.data.preferredAge) ==> o.session.state == Idle
    ensures !TruthyStr(s.data.preferredAge) ==> o.session.state == s.state
    ensures AnswerCallback in o.effects
  {
    var age := s.data.preferredAge;
    if TruthyStr(age) then StoreAgeAndShow(s, age.value, ctx, true)
    else Answered(SendMenu(s, AgePrompt, AgeKeyboard, ctx), true)
  }

  // ---------------------------------------------------------------------
  // Offers
  // ---------------------------------------------------------------------

  /** An entry of `_special_banks`. */
  datatype SpecialBank = SpecialBank(name: string, link: string, custom: string)

  /** `_special_banks().get(bank)`: the Alfa and T-Bank offers, keyed by
      their display labels. */
  function Special(bank: string): (r: Option<SpecialBank>)
  {
    if bank == AlphaDisplay then Some(SpecialBank("Альфа-Банк", "https://alfa.me/aw4D3D", "alpha"))
    else if bank == TBankDisplay then Some(SpecialBank("Т-Банк", "https://tbank.ru/baf/1BgRcSNOGAp", "tbank"))
    else None
  }

  /** Exactly the Alfa and T-Bank labels name a special offer. */
  lemma SpecialNames(bank: string)
    ensures Special(bank).Some? <==> bank == AlphaDisplay || bank == TBankDisplay
  {
  }

  /** The common branch of `_handle_bank_selection`: the name is stored as
      `bank`, the choice logged and the comment step started. */
  function PickBank(s: Session, bank: string, ctx: Context): (o: Outcome)
    ensures MenuIds(o.effects) == [ctx.sentId] && Records(o.effects) == []
    ensures o.session == Session(SubmissionComment, s.data.(bank := Some(bank), menuMsgId := Some(ctx.sentId)))
    ensures o.effects[0] == LogAction(ctx, "bank_selected", BankDetail(bank))
    ensures ShowMenu(CommentPrompt, NoMarkup, ctx.sentId) in o.effects
  {
    var picked := Session(SubmissionComment, s.data.(bank := Some(bank)));
    Before([LogAction(ctx, "bank_selected", BankDetail(bank))], SendMenu(picked, CommentPrompt, NoMarkup, ctx))
  }

  /** `_handle_bank_selection`: a special offer shows its introduction and
      the MTS offer a "coming soon" note, both leaving the state and `bank`
      alone; any other name is stored as `bank` and starts the comment step. */
  function BankSelection(s: Session, bank: string, ctx: Context): (o: Outcome)
    ensures MenuIds(o.effects) == [ctx.sentId] && Records(o.effects) == []
    ensures o.session.data.menuMsgId == Some(ctx.sentId)
    ensures o.session.data.preferredAge == s.data.preferredAge && o.session.data.comment == s.data.comment
    ensures (o.session.state == s.state && o.session.data.bank == s.data.bank) ||
      (o.session.state == SubmissionComment && o.session.data.bank == Some(bank))
  {
    if Special(bank).Some? then SendMenu(s, OfferIntro(bank), OfferIntroKeyboard(bank), ctx)
    else if bank == MtsDisplay then SendMenu(s, MtsComingSoon, BackToOffersKeyboard, ctx)
    else PickBank(s, bank, ctx)
  }

  /** The three branches of `_handle_bank_selection` one by one. */
  lemma BankSelectionCases(s: Session, bank: string, ctx: Context)
    ensures var o := BankSelection(s, bank, ctx);
      Special(bank).Some? ==>
        o.session.state == s.state && o.session.data.bank == s.data.bank &&
        ShowMenu(OfferIntro(bank), OfferIntroKeyboard(bank), ctx.sentId) in o.effects
    ensures var o := BankSelection(s, bank, ctx);
      bank == MtsDisplay ==>
        o.session.state == s.state && o.session.data.bank == s.data.bank &&
        ShowMenu(MtsComingSoon, BackToOffersKeyboard, ctx.sentId) in o.effects
    ensures var o := BankSelection(s, bank, ctx);
      Special(bank).None? && bank != MtsDisplay ==>
        o.session.state == SubmissionComment && o.session.data.bank == Some(bank) &&
        LogAction(ctx, "bank_selected", BankDetail(bank)) in o.effects
  {
  }

  /** `handle_start_task`: the instructions of a special offer, or only the
      answer for any other name. */
  function BeginTask(s: Session, bank: string, ctx: Context): (o: Outcome)
    ensures o.session.state == s.state && Records(o.effects) == []
    ensures |o.effects| > 0 && o.effects[|o.effects| - 1] == AnswerCallback
    ensures Special(bank).None? ==> o == Outcome(s, [AnswerCallback])
    ensures Special(bank).Some? ==> o.session == s.(data := s.data.(menuMsgId := Some(ctx.sentId)))
    ensures Special(bank).Some? ==>
      var info := Special(bank).value;
      MenuIds(o.effects) == [ctx.sentId] &&
      ShowMenu(Instruction(info.name, info.link, info.custom), TaskKeyboard, ctx.sentId) in o.effects
  {
    match Special(bank)
    case None => Outcome(s, [AnswerCallback])
    case Some(info) => Answered(SendMenu(s, Instruction(info.name, info.link, info.custom), TaskKeyboard, ctx), true)
  }

  /** `send_start`: the old menu is deleted first; with a start photo id the
      welcome is a photo whose id is tracked, otherwise it goes through
      `_send_menu`, which finds the same old id and deletes it again. */
  function SendStart(s: Session, ctx: Context): (o: Outcome)
    ensures o.session == s.(data := s.data.(menuMsgId := Some(ctx.sentId)))
    ensures MenuIds(o.effects) == [ctx.sentId] && Records(o.effects) == []
    ensures forall i :: 0 <= i < |o.effects| && o.effects[i].DeleteMessage? ==>
      TruthyInt(s.data.menuMsgId) && o.effects[i].messageId == s.data.menuMsgId.value
    ensures TruthyInt(s.data.menuMsgId) <==> |o.effects| > 0 && o.effects[0].DeleteMessage?
    ensures TruthyInt(s.data.menuMsgId) ==> o.effects[0] == DeleteMessage(s.data.menuMsgId.value)
    ensures o.effects[|o.effects| - 1] ==
      if TruthyStr(ctx.settings.startPhotoFileId) then ShowPhotoMenu(ctx.settings.startPhotoFileId.value, Welcome, NextKeyboard, ctx.sentId)
      else ShowMenu(Welcome, NextKeyboard, ctx.sentId)
  {
    var photo := ctx.settings.startPhotoFileId;
    if TruthyStr(photo) then
      var shown := [ShowPhotoMenu(photo.value, Welcome, NextKeyboard, ctx.sentId)];
      MenuIdsAppend(ClearMenu(s), shown);
      RecordsAppend(ClearMenu(s), shown);
      Outcome(s.(data := s.data.(menuMsgId := Some(ctx.sentId))), ClearMenu(s) + shown)
    else Before(ClearMenu(s), SendMenu(s, Welcome, NextKeyboard, ctx))
  }

  // ---------------------------------------------------------------------
  // The state collectors
  // ---------------------------------------------------------------------

  /** `handle_bank`: the stripped text becomes `bank` and the comment step
      starts.  A message without text fails on `None.strip()`. */
  function CollectBankStep(s: Session, e: Event): (o: Outcome)
    ensures Records(o.effects) == [] && MenuIds(o.effects) == []
    ensures e.TextMessage? ==>
      o.session == Session(SubmissionComment, s.data.(bank := Some(Strip(e.body))))
    ensures !e.TextMessage? ==> o == Outcome(s, [Crash])
  {
    if e.TextMessage? then
      Outcome(Session(SubmissionComment, s.data.(bank := Some(Strip(e.body)))), [Send(CommentPrompt, NoMarkup)])
    else Outcome(s, [Crash])
  }

  /** `handle_comment`: a stripped "-" stores a comment of `None`, any other
      stripped text is stored as the comment; the evidence step starts. */
  function CollectCommentStep(s: Session, e: Event): (o: Outcome)
    ensures Records(o.effects) == [] && MenuIds(o.effects) == []
    ensures e.TextMessage? ==>
      o.session.state == SubmissionEvidence &&
      o.session.data == s.data.(comment := Some(if Strip(e.body) == "-" then None else Some(Strip(e.body))))
    ensures e.TextMessage? ==> CommentValue(o.session.data) == (if Strip(e.body) == "-" then None else Some(Strip(e.body)))
    ensures !e.TextMessage? ==> o == Outcome(s, [Crash])
  {
    if e.TextMessage? then
      var c := Strip(e.body);
      var stored: Option<string> := if c == "-" then None else Some(c);
      Outcome(Session(SubmissionEvidence, s.data.(comment := Some(stored))), [Send(EvidencePrompt, NoMarkup)])
    else Outcome(s, [Crash])
  }

  /** The file id the evidence step reads from a message: `Some(Some(id))`
      for a photo (its largest size) or a document, `Some(None)` for the
      words "нет" or "no" in any case and with spaces around, `None` when
      the message is none of these and the user is asked again. */
  function Evidence(e: Event): (r: Option<Option<string>>)
    ensures e.Photo? && |e.sizes| > 0 ==> r == Some(Some(e.sizes[|e.sizes| - 1]))
    ensures e.Document? ==> r == Some(Some(e.fileId))
    ensures e.TextMessage? ==> (r.Some? <==> e.body != "" && Strip(Lower(e.body)) in {"нет", "no"})
    ensures e.TextMessage? && r.Some? ==> r.value.None?
  {
    if e.Photo? && |e.sizes| > 0 then Some(Some(e.sizes[|e.sizes| - 1]))
    else if e.Document? then Some(Some(e.fileId))
    else if e.TextMessage? && e.body != "" && (Strip(Lower(e.body)) == "нет" || Strip(Lower(e.body)) == "no") then Some(None)
    else None
  }

  /** The refusal test lower-cases before it strips, so any letter case
      and surrounding whitespace are accepted. */
  lemma RefusalIgnoresCaseAndSpace()
    ensures Evidence(TextMessage(" No ")) == Some(None)
  {
    var l := Lower(" No ");
    assert l == " no " by {
      assert l[0] == ' ' && l[1] == 'n' && l[2] == 'o' && l[3] == ' ';
    }
    assert " no " == [' '] + "no" + [' '];
    StripPadded("no");
  }

  /** The Russian refusal is accepted in capitals too. */
  lemma CyrillicRefusal()
    ensures Evidence(TextMessage("НЕТ")) == Some(None)
  {
    var l := Lower("НЕТ");
    assert l == "нет" by {
      assert l[0] == 'н' && l[1] == 'е' && l[2] == 'т';
    }
    assert NoEdgeSpace("нет");
  }

  /** A longer answer that starts with a refusal word is no refusal. */
  lemma LongerAnswerIsNoRefusal()
    ensures Evidence(TextMessage("no thanks")) == None
  {
    var l := Lower("no thanks");
    assert l == "no thanks" by {
      forall k | 0 <= k < 9 ensures l[k] == "no thanks"[k] {}
    }
    assert NoEdgeSpace("no thanks");
  }

  /** `handle_evidence`: an acceptable message persists exactly one
      submission carrying the stored bank and comment, logs it and soft
      clears; anything else asks again and changes nothing. */
  function CollectEvidenceStep(s: Session, e: Event, ctx: Context): (o: Outcome)
    ensures MenuIds(o.effects) == []
    ensures Evidence(e).None? ==> o == Outcome(s, [Send(EvidenceRetry, NoMarkup)])
    ensures Evidence(e).Some? ==>
      o.session == SoftClear(s) &&
      Records(o.effects) == [SubmissionRecord(
        if ctx.from.Some? then ctx.from.value.id else 0, SenderName(ctx),
        s.data.bank, CommentValue(s.data), Evidence(e).value)] &&
      LogAction(ctx, "submission_created", SubmissionDetail(ctx.submissionId, s.data.bank)) in o.effects
  {
    match Evidence(e)
    case None => Outcome(s, [Send(EvidenceRetry, NoMarkup)])
    case Some(fileId) =>
      var submitter := if ctx.from.Some? then ctx.from.value.id else 0;
      var row := SubmissionRecord(submitter, SenderName(ctx), s.data.bank, CommentValue(s.data), fileId);
      var es := [
        Persist(row),
        LogAction(ctx, "submission_created", SubmissionDetail(ctx.submissionId, s.data.bank)),
        Send(SubmissionSent, NoMarkup)
      ];
      PersistThenQuiet(es);
      Outcome(SoftClear(s), es)
  }

  /** The text and file id a question or report is made of: the caption and
      file of a photo (largest size) or a document, else the message text. */
  function Payload(e: Event): (r: (Option<string>, Option<string>))
    ensures e.Photo? && |e.sizes| > 0 ==> r == (e.caption, Some(e.sizes[|e.sizes| - 1]))
    ensures e.Document? ==> r == (e.caption, Some(e.fileId))
    ensures e.TextMessage? ==> r == (Some(e.body), None)
  {
    if e.Photo? && |e.sizes| > 0 then (e.caption, Some(e.sizes[|e.sizes| - 1]))
    else if e.Document? then (e.caption, Some(e.fileId))
    else if e.TextMessage? then (Some(e.body), None)
    else (None, None)
  }

  /** Which of the two payload collectors. */
  datatype Inbox = Questions | Reports

  /** `handle_support_question` and `handle_report_payload`: with neither
      a truthy text nor a truthy file id the user is asked again and
      nothing changes; otherwise exactly one question or report is stored
      with `message = text or ""`, logged, and the session soft cleared. */
  function CollectPayloadStep(s: Session, e: Event, ctx: Context, inbox: Inbox): (o: Outcome)
    ensures MenuIds(o.effects) == []
    ensures var (text, fileId) := Payload(e);
      if !TruthyStr(text) && !TruthyStr(fileId) then
        o == Outcome(s, [Send(AttachRetry, NoMarkup)])
      else
        var message := if TruthyStr(text) then text.value else "";
        o.session == SoftClear(s) &&
        Records(o.effects) == [
          if inbox == Questions then QuestionRecord(SenderId(ctx), SenderName(ctx), message, fileId)
          else ReportRecord(SenderId(ctx), SenderName(ctx), message, fileId)]
  {
    var (text, fileId) := Payload(e);
    if !TruthyStr(text) && !TruthyStr(fileId) then Outcome(s, [Send(AttachRetry, NoMarkup)])
    else
      var message := if TruthyStr(text) then text.value else "";
      var row := if inbox == Questions then QuestionRecord(SenderId(ctx), SenderName(ctx), message, fileId)
        else ReportRecord(SenderId(ctx), SenderName(ctx), message, fileId);
      var action := if inbox == Questions then "question_submitted" else "report_submitted";
      var reply := if inbox == Questions then QuestionSaved else ReportAccepted;
      var es := [Persist(row), LogAction(ctx, action, FileDetail(fileId)), Send(reply, AfterSendKeyboard)];
      PersistThenQuiet(es);
      Outcome(SoftClear(s), es)
  }

  // ---------------------------------------------------------------------
  // /my and /actions
  // ---------------------------------------------------------------------

  /** The first `n` rows of a listing: the `limit` of the query. */
  function Limit<T>(rows: seq<T>, n: nat): (r: seq<T>)
    ensures |r| <= n && |r| <= |rows| && r == rows[..|r|]
    ensures |rows| >= n ==> |r| == n
    ensures |r| == if |rows| <= n then |rows| else n
  {
    if |rows| <= n then rows else rows[..n]
  }

  /** The sender's own rows among a listing. */
  function OwnRows(rows: seq<SubmissionRow>, from: Option<User>): (r: seq<SubmissionRow>)
    ensures forall x :: x in r <==> x in rows && from.Some? && x.userId == from.value.id
    ensures |r| <= |rows|
  {
    if |rows| == 0 then []
    else
      var rest := OwnRows(rows[1..], from);
      assert forall x :: x in rows <==> x == rows[0] || x in rows[1..];
      if from.Some? && rows[0].userId == from.value.id then [rows[0]] + rest else rest
  }

  /** The filter keeps the listing's order: the sender's rows of two
      listings put together are the sender's rows of the first followed by
      those of the second. */
  lemma {:induction false} OwnRowsAppend(a: seq<SubmissionRow>, b: seq<SubmissionRow>, from: Option<User>)
    ensures OwnRows(a + b, from) == OwnRows(a, from) + OwnRows(b, from)
    decreases |a|
  {
    if |a| == 0 {
      assert a + b == b;
    } else {
      assert (a + b)[0] == a[0];
      assert (a + b)[1..] == a[1..] + b;
      OwnRowsAppend(a[1..], b, from);
    }
  }

  /** A single row is kept exactly when it is the sender's. */
  lemma OwnRowsOne(x: SubmissionRow, from: Option<User>)
    ensures OwnRows([x], from) == if from.Some? && x.userId == from.value.id then [x] else []
  {
    assert [x][1..] == [];
  }

  /** A listing of the sender's own rows is kept whole, in its order. */
  lemma {:induction false} OwnRowsAllOwn(rows: seq<SubmissionRow>, u: User)
    requires forall i :: 0 <= i < |rows| ==> rows[i].userId == u.id
    ensures OwnRows(rows, Some(u)) == rows
    decreases |rows|
  {
    if |rows| > 0 {
      OwnRowsAllOwn(rows[1..], u);
      assert [rows[0]] + rows[1..] == rows;
    }
  }

  /** `handle_my`: the sender's submissions among the latest ten. */
  function MySubmissions(ctx: Context): (r: Copy)
    ensures r == NoSubmissions || r.SubmissionLines?
    ensures r.SubmissionLines? ==> |r.submissions| > 0
    ensures r.SubmissionLines? ==> forall x :: x in r.submissions <==>
      (x in Limit(ctx.recentSubmissions, 10) && ctx.from.Some? && x.userId == ctx.from.value.id)
    ensures r == NoSubmissions <==> forall x :: x in Limit(ctx.recentSubmissions, 10) ==>
      (ctx.from.None? || x.userId != ctx.from.value.id)
  {
    var mine := OwnRows(Limit(ctx.recentSubmissions, 10), ctx.from);
    if |mine| == 0 then NoSubmissions
    else
      assert mine[0] in mine;
      SubmissionLines(mine)
  }

  /** A sender who owns every listed row gets the latest ten back in the
      listing's order. */
  lemma MySubmissionsAllOwn(ctx: Context, u: User)
    requires ctx.from == Some(u) && |ctx.recentSubmissions| > 0
    requires forall i :: 0 <= i < |ctx.recentSubmissions| ==> ctx.recentSubmissions[i].userId == u.id
    ensures MySubmissions(ctx) == SubmissionLines(Limit(ctx.recentSubmissions, 10))
  {
    var top := Limit(ctx.recentSubmissions, 10);
    OwnRowsAllOwn(top, u);
  }

  /** The reply to `/my` lists the sender's rows of the latest ten in the
      listing's order: those of the first part of the listing come before
      those of the rest. */
  lemma MySubmissionsOrder(ctx: Context, a: seq<SubmissionRow>, b: seq<SubmissionRow>)
    requires Limit(ctx.recentSubmissions, 10) == a + b
    requires MySubmissions(ctx).SubmissionLines?
    ensures MySubmissions(ctx).submissions == OwnRows(a, ctx.from) + OwnRows(b, ctx.from)
  {
    OwnRowsAppend(a, b, ctx.from);
  }

  /** `handle_actions`: refused unless the sender is an admin, then the
      latest fifteen actions, or a note that there are none. */
  function RecentActions(ctx: Context): (r: Copy)
    ensures r == NotAllowed <==> ctx.from.None? || !IsAdmin(ctx.from.value.id, ctx.settings)
    ensures r == NoActions <==> r != NotAllowed && |ctx.recentActions| == 0
    ensures r.ActionLines? ==> r.actions == Limit(ctx.recentActions, 15) && |r.actions| > 0
    ensures r != NotAllowed && |ctx.recentActions| > 0 ==> r == ActionLines(Limit(ctx.recentActions, 15))
  {
    if ctx.from.None? || !IsAdmin(ctx.from.value.id, ctx.settings) then NotAllowed
    else if |ctx.recentActions| == 0 then NoActions
    else ActionLines(Limit(ctx.recentActions, 15))
  }

  // ---------------------------------------------------------------------
  // The message handlers
  // ---------------------------------------------------------------------

  /** The text of a text message; the label and command handlers only ever
      receive text messages. */
  function Body(e: Event): string {
    if e.TextMessage? then e.body else ""
  }

  /** The message handler `h` run on `e`. */
  function OnMessage(h: Handler, s: Session, e: Event, ctx: Context): (o: Outcome)
  {
    match h
    case Start =>                                           // :312
      Before([LogAction(ctx, "start", NoDetails)], SendStart(s, ctx))
    case NextText =>                                        // :331
      Outcome(SoftClear(s), [Send(HowItWorks, NoMarkup), Send(WhyItWorks, NoMarkup), Send(TakeTheStep, ActionsKeyboard)])
    case StartEarnText =>                                   // :371
      Before([LogAction(ctx, "start_earn", NoDetails)], ShowTasks(s.(state := Idle), ctx, false))
    case Age14Text =>                                       // :418
      StoreAgeAndShow(s, "14+", ctx, false)
    case Age18Text =>                                       // :422
      StoreAgeAndShow(s, "18+", ctx, false)
    case AskText =>                                         // :426
      Outcome(s.(state := SupportQuestion),
        [LogAction(ctx, "ask_question_start", NoDetails), Send(QuestionPrompt, CancelSupportKeyboard)])
    case OfferShortcut =>                                   // :478
      BankSelection(s, Strip(Body(e)), ctx)
    case EmojiText =>                                       // :483
      Outcome(s, [LogAction(ctx, "emoji_clicked", NoDetails), Send(ChooseTaskOrAsk, AgeKeyboard)])
    case OtherTasksText =>                                  // :493
      Outcome(s, [Send(MoreTasksSoon, NoMarkup)])
    case TasksText =>                                       // :497
      ShowTasks(s, ctx, false)
    case ProfileText =>                                     // :660
      Outcome(s, [Send(Profile(ctx.from), BackToMainKeyboard)])
    case ReferralText =>                                    // :667
      Outcome(s, [LogAction(ctx, "referral_open", NoDetails), Send(ReferralInfo, BackToMainKeyboard)])
    case SupportText =>                                     // :684
      Outcome(SoftClear(s), [LogAction(ctx, "support_open", NoDetails), Send(SupportIntro, StartSupportKeyboard)])
    case ReportCardText =>                                  // :698
      Outcome(SoftClear(s), [LogAction(ctx, "report_card", NoDetails), Send(ReportPrompt, StartReportKeyboard)])
    case TasksTextAgain =>                                  // :717
      ShowTasks(s, ctx, false)
    case ReviewsText =>                                     // :721
      Outcome(s, [Send(ReviewsSoon, BackToMainKeyboard)])
    case Help =>                                            // :787
      Outcome(s, [Send(HelpText, NoMarkup)])
    case Submit =>                                          // :796
      Outcome(s.(state := SubmissionBank), [Send(BankPrompt, NoMarkup)])
    case CollectBank =>                                     // :801
      CollectBankStep(s, e)
    case CollectComment =>                                  // :807
      CollectCommentStep(s, e)
    case CollectEvidence =>                                 // :814
      CollectEvidenceStep(s, e, ctx)
    case CollectQuestion =>                                 // :851
      CollectPayloadStep(s, e, ctx, Questions)
    case ReportCardTextAgain =>                             // :884
      Outcome(SoftClear(s), [LogAction(ctx, "report_card", NoDetails), Send(ReportCardNotice, StartReportKeyboard)])
    case CollectReport =>                                   // :913
      CollectPayloadStep(s, e, ctx, Reports)
    case My =>                                              // :945
      Outcome(s, [Send(MySubmissions(ctx), NoMarkup)])
    case Actions =>                                         // :962
      Outcome(s, [Send(RecentActions(ctx), NoMarkup)])
  }

  // ---------------------------------------------------------------------
  // The callback handlers
  // ---------------------------------------------------------------------

  /** The callback handler for a parsed data string. */
  function OnCallback(i: Intent, s: Session, ctx: Context): (o: Outcome)
  {
    match i
    case NextSubmit =>
      Outcome(SoftClear(s), [Send(AgePrompt, AgeKeyboard), AnswerCallback])
    case StartEarn =>
      Before([LogAction(ctx, "start_earn", NoDetails)], ShowTasks(s.(state := Idle), ctx, true))
    case Age14 =>
      StoreAgeAndShow(s, "14+", ctx, true)
    case Age18 =>
      StoreAgeAndShow(s, "18+", ctx, true)
    case PickOffer(bank) =>
      Answered(BankSelection(s, bank, ctx), true)
    case StartTask(bank) =>
      BeginTask(s, bank, ctx)
    case RefuseTask =>
      Answered(ShowBanksByAge(s, ctx), true)
    case CardOrdered =>
      Answered(SendMenu(s, CardOrderedNote, MainMenuReply, ctx), true)
    case SwitchAge(age) =>
      StoreAgeAndShow(s, age, ctx, true)
    case Emoji =>
      Outcome(s, [LogAction(ctx, "emoji_clicked", NoDetails), Send(ChooseAgeAndTask, AgeKeyboard), AnswerCallback])
    case OtherTasks =>
      Outcome(s, [Send(MoreTasksSoon, NoMarkup), AnswerCallback])
    case Ask =>
      Before([LogAction(ctx, "ask_question_start", NoDetails)],
        Answered(SendMenu(s.(state := SupportQuestion), QuestionPrompt, CancelSupportKeyboard, ctx), true))
    case StartSupport =>
      Answered(SendMenu(s.(state := SupportQuestion), SupportMessagePrompt, CancelSupportKeyboard, ctx), true)
    case StartReportMessage =>
      Answered(SendMenu(s.(state := ReportPayload), ReportPrompt, CancelReportKeyboard, ctx), true)
    case GoMain =>
      Answered(SendMenu(SoftClear(s), MainMenuTitle, MainMenuReply, ctx), true)
    case CancelSupport =>
      ShowTasksOrMain(SoftClear(s), ctx, true)
    case CancelReport =>
      ShowTasksOrMain(SoftClear(s), ctx, true)
    case BackToBanks =>
      Answered(ShowBanksByAge(s, ctx), true)
    case MenuProfile =>
      Outcome(s, [Send(Profile(ctx.from), BackToMainKeyboard), AnswerCallback])
    case MenuReferral =>
      Outcome(s, [LogAction(ctx, "referral_open", NoDetails), Send(ReferralInfo, BackToMainKeyboard), AnswerCallback])
    case MenuSupport =>
      Outcome(SoftClear(s), [LogAction(ctx, "support_open", NoDetails), Send(SupportIntroShort, StartSupportKeyboard), AnswerCallback])
    case MenuReportCard =>
      Outcome(SoftClear(s), [LogAction(ctx, "report_card", NoDetails), Send(ReportPrompt, StartReportKeyboard), AnswerCallback])
    case MenuTasks =>
      ShowTasks(s, ctx, true)
    case MenuReviews =>
      Outcome(s, [Send(ReviewsSoon, BackToMainKeyboard), AnswerCallback])
    case Unhandled(_) =>
      Outcome(s, [])
  }

  /** One update for one user: a callback goes to the handler its data
      parses to, a message to the first message handler that accepts it;
      an update nothing accepts changes nothing. */
  function Step(s: Session, e: Event, ctx: Context): (o: Outcome)
  {
    if e.Callback? then OnCallback(Parse(e.data), s, ctx)
    else
      match Route(s.state, e)
      case Some(h) => OnMessage(h, s, e, ctx)
      case None => Outcome(s, [])
  }
}
