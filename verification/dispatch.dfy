/** The message side of aiogram's dispatcher as app/bot.py configures it:
    the message handlers in registration order, each behind a filter on
    the update and the user's state, and the first-match rule that picks
    the one that runs.  Callback queries go through `Callbacks.Parse`. */
module Dispatch {
  import opened Wrappers
  import opened Text
  import opened Session
  import opened Ui

  /** An update from one user: a message (text, photo or document) or an
      inline-button press.  A photo carries the file ids of its sizes,
      smallest first, as Telegram sends them. */
  datatype Event =
    | TextMessage(body: string)
    | Photo(sizes: seq<string>, caption: Option<string>)
    | Document(fileId: string, caption: Option<string>)
    | Callback(data: string)

  /** The filters the message handlers use. */
  datatype Filter =
    | Command(word: string)              // Command(name) / CommandStart(), as "/name"
    | TextIs(expected: Label)            // F.text == label
    | TextIn(labels: seq<Label>)         // F.text.in_(labels)
    | InState(tag: State)                // a state filter alone
    | InStateWithContent(tag: State)   // a state filter and F.text | F.photo | F.document

  /** `F.text | F.photo | F.document`: non-empty text, a non-empty list of
      photo sizes, or any document. */
  predicate HasContent(e: Event) {
    (e.TextMessage? && e.body != "")
    || (e.Photo? && |e.sizes| > 0)
    || e.Document?
  }

  /** Whether a filter lets a message through in the given state.  A
      filter without a state part matches in every state. */
  predicate Accepts(f: Filter, st: State, e: Event) {
    !e.Callback? &&
    match f
    case Command(n) => e.TextMessage? && FirstWord(e.body) == n
    case TextIs(l) => e.TextMessage? && e.body == LabelText(l)
    case TextIn(ls) => e.TextMessage? && exists l :: l in ls && e.body == LabelText(l)
    case InState(t) => st == t
    case InStateWithContent(t) => st == t && HasContent(e)
  }

  /** The message handlers of app/bot.py, one per registration. */
  datatype Handler =
    | Start | NextText | StartEarnText | Age14Text | Age18Text | AskText
    | OfferShortcut | EmojiText | OtherTasksText | TasksText | ProfileText
    | ReferralText | SupportText | ReportCardText | TasksTextAgain
    | ReviewsText | Help | Submit | CollectBank | CollectComment
    | CollectEvidence | CollectQuestion | ReportCardTextAgain
    | CollectReport | My | Actions

  datatype Registration = Registration(filter: Filter, handler: Handler)

  /** The `@dp.message` registrations in source order: the button-label
      and command handlers (:312-799), then the state collectors among
      which one more label handler sits (:801-943), then two commands
      (:945-977). */
  const Registrations: seq<Registration> := [
    Registration(Command("/start"), Start),                                   // :312
    Registration(TextIs(NextLabel), NextText),                                // :331
    Registration(TextIs(StartEarnLabel), StartEarnText),                      // :371
    Registration(TextIs(Age14Label), Age14Text),                              // :418
    Registration(TextIs(Age18Label), Age18Text),                              // :422
    Registration(TextIs(AskLabel), AskText),                                  // :426
    Registration(TextIn(Offers14 + Offers18), OfferShortcut),                 // :478
    Registration(TextIs(EmojiLabel), EmojiText),                              // :483
    Registration(TextIs(OtherTasksLabel), OtherTasksText),                    // :493
    Registration(TextIs(TasksLabel), TasksText),                              // :497
    Registration(TextIs(ProfileLabel), ProfileText),                          // :660
    Registration(TextIs(ReferralLabel), ReferralText),                        // :667
    Registration(TextIs(SupportLabel), SupportText),                          // :684
    Registration(TextIs(ReportCardLabel), ReportCardText),                    // :698
    Registration(TextIs(TasksLabel), TasksTextAgain),                         // :717
    Registration(TextIs(ReviewsLabel), ReviewsText),                          // :721
    Registration(Command("/help"), Help),                                     // :787
    Registration(Command("/submit"), Submit),                                 // :796
    Registration(InState(SubmissionBank), CollectBank),                       // :801
    Registration(InState(SubmissionComment), CollectComment),                 // :807
    Registration(InStateWithContent(SubmissionEvidence), CollectEvidence),    // :814
    Registration(InStateWithContent(SupportQuestion), CollectQuestion),       // :851
    Registration(TextIs(ReportCardLabel), ReportCardTextAgain),               // :884
    Registration(InStateWithContent(ReportPayload), CollectReport),           // :913
    Registration(Command("/my"), My),                                         // :945
    Registration(Command("/actions"), Actions)                                // :962
  ]

  /** Whether the registration at position `k` takes the message. */
  predicate Takes(k: nat, st: State, e: Event)
    requires k < |Registrations|
  {
    Accepts(Registrations[k].filter, st, e)
  }

  /** Every registration's verdict on one message, in registration order. */
  function Verdicts(st: State, e: Event): (v: seq<bool>)
    ensures |v| == |Registrations|
  {
    seq(|Registrations|, k requires 0 <= k < |Registrations| => Takes(k, st, e))
  }

  /** The first position at or after `from` whose verdict is true: applied
      to the verdicts, the registration that runs, or `None` when no
      filter accepts (the update is dropped). */
  function FirstTrue(bs: seq<bool>, from: nat): (r: Option<nat>)
    requires from <= |bs|
    ensures r.Some? ==> from <= r.value < |bs| && bs[r.value]
    ensures r.Some? ==> forall k :: from <= k < r.value ==> !bs[k]
    ensures r.None? ==> forall k :: from <= k < |bs| ==> !bs[k]
    decreases |bs| - from
  {
    if from == |bs| then None
    else if bs[from] then Some(from)
    else FirstTrue(bs, from + 1)
  }

  /** The handler that runs for a message in a state, if any. */
  function Route(st: State, e: Event): (r: Option<Handler>)
    ensures r.Some? ==> !e.Callback?
  {
    match FirstTrue(Verdicts(st, e), 0)
    case Some(k) => Some(Registrations[k].handler)
    case None => None
  }

  /** First match is determined by the verdicts alone: if a registration
      accepts and no earlier one does, it is the one that runs. */
  lemma {:induction false} FirstTrueIs(bs: seq<bool>, from: nat, j: nat)
    requires from <= j < |bs|
    requires bs[j]
    requires forall k :: from <= k < j ==> !bs[k]
    ensures FirstTrue(bs, from) == Some(j)
    decreases j - from
  {
    if from < j {
      FirstTrueIs(bs, from + 1, j);
    }
  }

  /** Registrations that reject a message can be skipped. */
  lemma {:induction false} FirstTrueSkip(bs: seq<bool>, lo: nat, hi: nat)
    requires lo <= hi <= |bs|
    requires forall k :: lo <= k < hi ==> !bs[k]
    ensures FirstTrue(bs, lo) == FirstTrue(bs, hi)
    decreases hi - lo
  {
    if lo < hi {
      FirstTrueSkip(bs, lo + 1, hi);
    }
  }

  /** A registration whose verdict always equals an earlier one's never
      runs: the earlier one takes every message the later one would. */
  lemma SameVerdictShadowed(bs: seq<bool>, i: nat, j: nat)
    requires i < j < |bs|
    requires bs[i] == bs[j]
    ensures FirstTrue(bs, 0) != Some(j)
  {
  }

  /** The second registrations of the tasks label (:717) and of the
      report-card label (:884) never run: an earlier registration with the
      same filter (:497, :698) always takes the message first. */
  lemma ShadowedNeverRun(st: State, e: Event)
    ensures FirstTrue(Verdicts(st, e), 0) != Some(14)
    ensures FirstTrue(Verdicts(st, e), 0) != Some(22)
  {
    var v := Verdicts(st, e);
    assert Registrations[14].filter == Registrations[9].filter;
    assert Registrations[22].filter == Registrations[13].filter;
    SameVerdictShadowed(v, 9, 14);
    SameVerdictShadowed(v, 13, 22);
  }

  /** The texts the message handlers match on. */
  predicate IsLabel(body: string) {
    exists l :: LabelText(l) == body
  }

  /** The commands registered ahead of the state collectors. */
  predicate IsEarlyCommand(body: string) {
    var w := FirstWord(body);
    w == "/start" || w == "/help" || w == "/submit"
  }

  /** A filter of the button run: a label match or an early command. */
  predicate ButtonFilter(f: Filter) {
    f.TextIs? || f.TextIn? || (f.Command? && f.word in ["/start", "/help", "/submit"])
  }

  /** The first eighteen registrations all have button filters. */
  lemma ButtonRunFilters(k: nat)
    requires k < 18
    ensures ButtonFilter(Registrations[k].filter)
  {
    assert k == 0 || k == 1 || k == 2 || k == 3 || k == 4 || k == 5 || k == 6 || k == 7 || k == 8
      || k == 9 || k == 10 || k == 11 || k == 12 || k == 13 || k == 14 || k == 15 || k == 16 || k == 17;
  }

  /** A message that is neither a label nor an early command passes every
      registration before the collectors, in every state. */
  lemma PassesButtonRun(st: State, e: Event, k: nat)
    requires k < 18
    requires e.TextMessage? ==> !IsLabel(e.body) && !IsEarlyCommand(e.body)
    ensures !Takes(k, st, e)
  {
    var f := Registrations[k].filter;
    assert ButtonFilter(f) by { ButtonRunFilters(k); }
    if f.TextIs? && e.TextMessage? {
      assert LabelText(f.expected) != e.body;
    }
  }

  /** A message that is neither a label nor an early command is not taken
      by any registration of the button run. */
  lemma PassesAllButtons(st: State, e: Event)
    requires e.TextMessage? ==> !IsLabel(e.body) && !IsEarlyCommand(e.body)
    ensures forall k :: 0 <= k < 18 ==> !Takes(k, st, e)
  {
    forall k | 0 <= k < 18 ensures !Takes(k, st, e) {
      PassesButtonRun(st, e, k);
    }
  }

  /** A message that is neither a label nor an early command is routed as
      if the button run were not there. */
  lemma SkipButtons(st: State, e: Event)
    requires e.TextMessage? ==> !IsLabel(e.body) && !IsEarlyCommand(e.body)
    ensures FirstTrue(Verdicts(st, e), 0) == FirstTrue(Verdicts(st, e), 18)
  {
    var v := Verdicts(st, e);
    forall k | 0 <= k < 18 ensures !v[k] {
      PassesButtonRun(st, e, k);
    }
    FirstTrueSkip(v, 0, 18);
  }

  /** Inside a collecting state, a message reaches the state's collector
      exactly when no label or early command takes it first.  `/my` and
      `/actions` are registered after the collectors, so inside a
      collecting state they are collected like any other text. */
  lemma CollectorRuns(st: State, body: string)
    requires st == SubmissionBank || st == SubmissionComment
    requires !IsLabel(body) && !IsEarlyCommand(body)
    ensures Route(st, TextMessage(body)) ==
      Some(if st == SubmissionBank then CollectBank else CollectComment)
  {
    if st == SubmissionBank {
      BankCollectorRuns(body);
    } else {
      CommentCollectorRuns(body);
    }
  }

  /** The same for the three content collectors, whose filter also needs
      content. */
  lemma ContentCollectorRuns(st: State, e: Event)
    requires st == SubmissionEvidence || st == SupportQuestion || st == ReportPayload
    requires !e.Callback? && HasContent(e)
    requires e.TextMessage? ==> !IsLabel(e.body) && !IsEarlyCommand(e.body)
    ensures Route(st, e) == Some(
      if st == SubmissionEvidence then CollectEvidence
      else if st == SupportQuestion then CollectQuestion
      else CollectReport)
  {
    if st == SubmissionEvidence {
      EvidenceCollectorRuns(e);
    } else if st == SupportQuestion {
      QuestionCollectorRuns(e);
    } else {
      ReportCollectorRuns(e);
    }
  }

  lemma BankCollectorRuns(body: string)
    requires !IsLabel(body) && !IsEarlyCommand(body)
    ensures Route(SubmissionBank, TextMessage(body)) == Some(CollectBank)
  {
    SkipButtons(SubmissionBank, TextMessage(body));
    BankSlot(SubmissionBank, TextMessage(body));
  }

  lemma CommentCollectorRuns(body: string)
    requires !IsLabel(body) && !IsEarlyCommand(body)
    ensures Route(SubmissionComment, TextMessage(body)) == Some(CollectComment)
  {
    SkipButtons(SubmissionComment, TextMessage(body));
    BankSlot(SubmissionComment, TextMessage(body));
    CommentSlot(SubmissionComment, TextMessage(body));
  }

  lemma EvidenceCollectorRuns(e: Event)
    requires !e.Callback? && HasContent(e)
    requires e.TextMessage? ==> !IsLabel(e.body) && !IsEarlyCommand(e.body)
    ensures Route(SubmissionEvidence, e) == Some(CollectEvidence)
  {
    SkipButtons(SubmissionEvidence, e);
    BankSlot(SubmissionEvidence, e);
    CommentSlot(SubmissionEvidence, e);
    EvidenceSlot(SubmissionEvidence, e);
  }

  lemma QuestionCollectorRuns(e: Event)
    requires !e.Callback? && HasContent(e)
    requires e.TextMessage? ==> !IsLabel(e.body) && !IsEarlyCommand(e.body)
    ensures Route(SupportQuestion, e) == Some(CollectQuestion)
  {
    PastSubmissionSlots(SupportQuestion, e);
    QuestionSlot(SupportQuestion, e);
  }

  lemma ReportCollectorRuns(e: Event)
    requires !e.Callback? && HasContent(e)
    requires e.TextMessage? ==> !IsLabel(e.body) && !IsEarlyCommand(e.body)
    ensures Route(ReportPayload, e) == Some(CollectReport)
  {
    PastSubmissionSlots(ReportPayload, e);
    QuestionSlot(ReportPayload, e);
    SecondReportCardSlot(ReportPayload, e);
    ReportSlot(ReportPayload, e);
  }

  /** Outside the submission dialog, a message that passes the buttons
      also passes the three submission collectors. */
  lemma PastSubmissionSlots(st: State, e: Event)
    requires st != SubmissionBank && st != SubmissionComment && st != SubmissionEvidence
    requires e.TextMessage? ==> !IsLabel(e.body) && !IsEarlyCommand(e.body)
    ensures FirstTrue(Verdicts(st, e), 0) == FirstTrue(Verdicts(st, e), 21)
  {
    SkipButtons(st, e);
    BankSlot(st, e);
    CommentSlot(st, e);
    EvidenceSlot(st, e);
  }

  /* Past the button run, one registration at a time: each either takes
     the message or hands it on to the next. */

  lemma BankSlot(st: State, e: Event)
    ensures FirstTrue(Verdicts(st, e), 18) ==
      if st == SubmissionBank && !e.Callback? then Some(18) else FirstTrue(Verdicts(st, e), 19)
  {
    assert Verdicts(st, e)[18] == (st == SubmissionBank && !e.Callback?);
  }

  lemma CommentSlot(st: State, e: Event)
    ensures FirstTrue(Verdicts(st, e), 19) ==
      if st == SubmissionComment && !e.Callback? then Some(19) else FirstTrue(Verdicts(st, e), 20)
  {
    assert Verdicts(st, e)[19] == (st == SubmissionComment && !e.Callback?);
  }

  lemma EvidenceSlot(st: State, e: Event)
    ensures FirstTrue(Verdicts(st, e), 20) ==
      if st == SubmissionEvidence && !e.Callback? && HasContent(e) then Some(20)
      else FirstTrue(Verdicts(st, e), 21)
  {
    assert Verdicts(st, e)[20] == (st == SubmissionEvidence && !e.Callback? && HasContent(e));
  }

  lemma QuestionSlot(st: State, e: Event)
    ensures FirstTrue(Verdicts(st, e), 21) ==
      if st == SupportQuestion && !e.Callback? && HasContent(e) then Some(21)
      else FirstTrue(Verdicts(st, e), 22)
  {
    assert Verdicts(st, e)[21] == (st == SupportQuestion && !e.Callback? && HasContent(e));
  }

  lemma SecondReportCardSlot(st: State, e: Event)
    ensures FirstTrue(Verdicts(st, e), 22) ==
      if e.TextMessage? && e.body == LabelText(ReportCardLabel) then Some(22)
      else FirstTrue(Verdicts(st, e), 23)
  {
    assert Verdicts(st, e)[22] == (e.TextMessage? && e.body == LabelText(ReportCardLabel));
  }

  lemma ReportSlot(st: State, e: Event)
    ensures FirstTrue(Verdicts(st, e), 23) ==
      if st == ReportPayload && !e.Callback? && HasContent(e) then Some(23)
      else FirstTrue(Verdicts(st, e), 24)
  {
    assert Verdicts(st, e)[23] == (st == ReportPayload && !e.Callback? && HasContent(e));
  }

  /** Each collector is registered once, behind its own state filter. */
  lemma CollectorPositions(k: nat)
    requires k < |Registrations|
    ensures Registrations[k].handler == CollectBank ==> Registrations[k].filter == InState(SubmissionBank)
    ensures Registrations[k].handler == CollectComment ==> Registrations[k].filter == InState(SubmissionComment)
    ensures Registrations[k].handler == CollectEvidence ==> Registrations[k].filter == InStateWithContent(SubmissionEvidence)
    ensures Registrations[k].handler == CollectQuestion ==> Registrations[k].filter == InStateWithContent(SupportQuestion)
    ensures Registrations[k].handler == CollectReport ==> Registrations[k].filter == InStateWithContent(ReportPayload)
  {
    assert k == 0 || k == 1 || k == 2 || k == 3 || k == 4 || k == 5 || k == 6 || k == 7 || k == 8
      || k == 9 || k == 10 || k == 11 || k == 12 || k == 13 || k == 14 || k == 15 || k == 16 || k == 17
      || k == 18 || k == 19 || k == 20 || k == 21 || k == 22 || k == 23 || k == 24 || k == 25;
  }

  /** The registration behind a routed handler takes the message. */
  lemma RouteTakes(st: State, e: Event) returns (k: nat)
    requires Route(st, e).Some?
    ensures k < |Registrations| && Takes(k, st, e) && Route(st, e) == Some(Registrations[k].handler)
  {
    k := FirstTrue(Verdicts(st, e), 0).value;
  }

  lemma CollectorNeedsState(st: State, e: Event)
    ensures Route(st, e) == Some(CollectBank) ==> st == SubmissionBank
    ensures Route(st, e) == Some(CollectComment) ==> st == SubmissionComment
    ensures Route(st, e) == Some(CollectEvidence) ==> st == SubmissionEvidence
    ensures Route(st, e) == Some(CollectQuestion) ==> st == SupportQuestion
    ensures Route(st, e) == Some(CollectReport) ==> st == ReportPayload
  {
    if Route(st, e).Some? {
      var k := RouteTakes(st, e);
      CollectorPositions(k);
      var f := Registrations[k].filter;
      assert Accepts(f, st, e);
    }
  }
}
