/** Callback-query data of app/bot.py.  Every inline button carries a data
    string; the dispatcher tries the callback handlers in registration
    order and the first whose filter accepts the string runs.  `Parse` is
    that first-match rule, turning the raw string into a closed set of
    intents; `Encode` is the string a button carries for an intent. */
module Callbacks {
  import opened Text

  datatype Intent =
    | NextSubmit                 // app/bot.py:322
    | StartEarn                  // :382
    | Age14                      // :501
    | Age18                      // :505
    | PickOffer(offer: string)   // :509, "bank::<offer>"
    | StartTask(offer: string)   // :515, "start_task::<offer>"
    | RefuseTask                 // :532
    | CardOrdered                // :537
    | SwitchAge(age: string)     // :547, "switch_age::<age>"
    | Emoji                      // :552
    | OtherTasks                 // :563
    | Ask                        // :568
    | StartSupport               // :580
    | StartReportMessage         // :586
    | GoMain                     // :602
    | CancelSupport              // :608
    | CancelReport               // :613
    | BackToBanks                // :618
    | MenuProfile                // :634
    | MenuReferral               // :642
    | MenuSupport                // :731
    | MenuReportCard             // :746 (the registration at :898 is never reached)
    | MenuTasks                  // :766
    | MenuReviews                // :776
    | Unhandled(data: string)    // no filter accepts the string

  /** `data.split("::", 1)[1]` for data that starts with `prefix + "::"`:
      the text after the first "::", which is everything after the prefix. */
  function PayloadAfter(data: string, prefix: string): (r: string)
    requires ':' !in prefix && StartsWith(data, prefix + "::")
    ensures r == data[|prefix| + 2..]
    ensures data == prefix + "::" + r
  {
    var rest := data[|prefix| + 2..];
    assert data == prefix + "::" + rest by {
      assert data == data[..|prefix| + 2] + rest;
    }
    NoOccurrenceInside(prefix, "::", rest);
    SplitOnceUnique(data, "::", prefix, rest);
    SplitOnce(data, "::").value.1
  }

  /** The separator between a callback tag and its payload. */
  const Sep := "::"

  /** First match in registration order.  The handlers are tried in three
      runs: onboarding and offers (app/bot.py:321-549), then support and
      navigation (:551-620), then the main menu (:633-777). */
  function Parse(data: string): Intent {
    if data == "next_submit" then NextSubmit
    else if data == "start_earn" then StartEarn
    else if data == "age_14" then Age14
    else if data == "age_18" then Age18
    else if StartsWith(data, "bank" + Sep) then PickOffer(PayloadAfter(data, "bank"))
    else if StartsWith(data, "start_task" + Sep) then StartTask(PayloadAfter(data, "start_task"))
    else if data == "refuse_task" then RefuseTask
    else if data == "card_ordered" then CardOrdered
    else if StartsWith(data, "switch_age" + Sep) then SwitchAge(PayloadAfter(data, "switch_age"))
    else ParseNavigation(data)
  }

  function ParseNavigation(data: string): Intent {
    if data == "emoji" then Emoji
    else if data == "other_tasks" then OtherTasks
    else if data == "ask" then Ask
    else if data == "start_support" then StartSupport
    else if data == "start_report_message" then StartReportMessage
    else if data == "go_main" then GoMain
    else if data == "cancel_support" then CancelSupport
    else if data == "cancel_report" then CancelReport
    else if data == "back_to_banks" then BackToBanks
    else ParseMenu(data)
  }

  function ParseMenu(data: string): Intent {
    if data == "menu_profile" then MenuProfile
    else if data == "menu_referral" then MenuReferral
    else if data == "menu_support" then MenuSupport
    else if data == "menu_report_card" then MenuReportCard
    else if data == "menu_tasks" then MenuTasks
    else if data == "menu_reviews" then MenuReviews
    else Unhandled(data)
  }

  /** The data strings the first run of callback handlers (onboarding and
      offers, app/bot.py:321-549) takes. */
  predicate TakenByOffers(data: string) {
    data == "next_submit" || data == "start_earn" || data == "age_14" || data == "age_18"
    || StartsWith(data, "bank" + Sep) || StartsWith(data, "start_task" + Sep)
    || data == "refuse_task" || data == "card_ordered" || StartsWith(data, "switch_age" + Sep)
  }

  /** The data strings the second run (support and navigation,
      app/bot.py:551-620) takes. */
  predicate TakenByNavigation(data: string) {
    data == "emoji" || data == "other_tasks" || data == "ask" || data == "start_support"
    || data == "start_report_message" || data == "go_main" || data == "cancel_support"
    || data == "cancel_report" || data == "back_to_banks"
  }

  /** Data the first run does not take falls through to the second. */
  lemma PassesOffers(data: string)
    requires !TakenByOffers(data)
    ensures Parse(data) == ParseNavigation(data)
  {
  }

  /** Data the second run does not take falls through to the main menu. */
  lemma PassesNavigation(data: string)
    requires !TakenByNavigation(data)
    ensures ParseNavigation(data) == ParseMenu(data)
  {
  }

  /** The data string a button carries for an intent. */
  function Encode(i: Intent): string {
    match i
    case NextSubmit => "next_submit"
    case StartEarn => "start_earn"
    case Age14 => "age_14"
    case Age18 => "age_18"
    case PickOffer(o) => "bank" + Sep + o
    case StartTask(o) => "start_task" + Sep + o
    case RefuseTask => "refuse_task"
    case CardOrdered => "card_ordered"
    case SwitchAge(a) => "switch_age" + Sep + a
    case Emoji => "emoji"
    case OtherTasks => "other_tasks"
    case Ask => "ask"
    case StartSupport => "start_support"
    case StartReportMessage => "start_report_message"
    case GoMain => "go_main"
    case CancelSupport => "cancel_support"
    case CancelReport => "cancel_report"
    case BackToBanks => "back_to_banks"
    case MenuProfile => "menu_profile"
    case MenuReferral => "menu_referral"
    case MenuSupport => "menu_support"
    case MenuReportCard => "menu_report_card"
    case MenuTasks => "menu_tasks"
    case MenuReviews => "menu_reviews"
    case Unhandled(d) => d
  }

  /** Parsing loses nothing: re-encoding the parsed intent gives back the
      raw data, so two different strings never parse to the same intent. */
  lemma EncodeParse(data: string)
    ensures Encode(Parse(data)) == data
  {
    if TakenByOffers(data) {
      EncodeParseOffers(data);
    } else {
      PassesOffers(data);
      EncodeParseNavigation(data);
    }
  }

  lemma EncodeParseOffers(data: string)
    requires TakenByOffers(data)
    ensures Encode(Parse(data)) == data
  {
    if StartsWith(data, "bank" + Sep) {
      ParseBank(data);
    } else if StartsWith(data, "start_task" + Sep) {
      ParseStartTask(data);
    } else if StartsWith(data, "switch_age" + Sep) {
      ParseSwitchAge(data);
    }
  }

  /** A string that starts with a prefix agrees with it at every position
      of the prefix. */
  lemma PrefixAt(s: string, p: string, i: nat)
    requires StartsWith(s, p) && i < |p|
    ensures s[i] == p[i]
  {
    assert s[..|p|][i] == s[i];
  }

  lemma ParseBank(data: string)
    requires StartsWith(data, "bank" + Sep)
    ensures Parse(data) == PickOffer(PayloadAfter(data, "bank"))
  {
    PrefixAt(data, "bank" + Sep, 0);
  }

  lemma ParseStartTask(data: string)
    requires StartsWith(data, "start_task" + Sep)
    ensures Parse(data) == StartTask(PayloadAfter(data, "start_task"))
  {
    PrefixAt(data, "start_task" + Sep, 0);
    PrefixAt(data, "start_task" + Sep, 6);
  }

  lemma ParseSwitchAge(data: string)
    requires StartsWith(data, "switch_age" + Sep)
    ensures Parse(data) == SwitchAge(PayloadAfter(data, "switch_age"))
  {
    PrefixAt(data, "switch_age" + Sep, 0);
    PrefixAt(data, "switch_age" + Sep, 1);
    PrefixAt(data, "switch_age" + Sep, 6);
  }

  lemma EncodeParseNavigation(data: string)
    ensures Encode(ParseNavigation(data)) == data
  {
    if !TakenByNavigation(data) {
      PassesNavigation(data);
      EncodeParseMenu(data);
    }
  }

  lemma EncodeParseMenu(data: string)
    ensures Encode(ParseMenu(data)) == data
  {
  }

  /** A string whose first characters rule out all three payload prefixes. */
  lemma NotPrefixed(d: string)
    requires |d| >= 6
    requires d[0] != 'b' || d[2] != 'n'
    requires d[0] != 's' || (|d| > 6 && d[1] != 'w' && d[6] != 't')
    ensures !StartsWith(d, "bank" + Sep)
    ensures !StartsWith(d, "start_task" + Sep)
    ensures !StartsWith(d, "switch_age" + Sep)
  {
    assert d[..6][0] == d[0] && d[..6][2] == d[2];
    if |d| >= 12 {
      assert d[..12][0] == d[0] && d[..12][1] == d[1] && d[..12][6] == d[6];
    }
  }

  /* Each exact token parses to its own intent: the prefix filters reject it
     (NotPrefixed) and the exact filters before it name other strings. */
  lemma ParseTokens1()
    ensures Parse("next_submit") == NextSubmit
    ensures Parse("start_earn") == StartEarn
    ensures Parse("age_14") == Age14
  {
    NotPrefixed("next_submit");
    NotPrefixed("start_earn");
    NotPrefixed("age_14");
  }

  lemma ParseTokens2()
    ensures Parse("age_18") == Age18
    ensures Parse("refuse_task") == RefuseTask
    ensures Parse("card_ordered") == CardOrdered
  {
    NotPrefixed("age_18");
    NotPrefixed("refuse_task");
    NotPrefixed("card_ordered");
  }

  lemma ParseTokens3()
    ensures Parse("emoji") == Emoji
    ensures Parse("other_tasks") == OtherTasks
    ensures Parse("ask") == Ask
  {
    NotPrefixed("other_tasks");
  }

  lemma ParseTokens4()
    ensures Parse("start_support") == StartSupport
    ensures Parse("start_report_message") == StartReportMessage
    ensures Parse("go_main") == GoMain
  {
    NotPrefixed("start_support");
    PassesOffers("start_support");
    NotPrefixed("start_report_message");
    PassesOffers("start_report_message");
    NotPrefixed("go_main");
    PassesOffers("go_main");
  }

  lemma ParseTokens5()
    ensures Parse("cancel_support") == CancelSupport
    ensures Parse("cancel_report") == CancelReport
    ensures Parse("back_to_banks") == BackToBanks
  {
    NotPrefixed("cancel_support");
    PassesOffers("cancel_support");
    NotPrefixed("cancel_report");
    PassesOffers("cancel_report");
    NotPrefixed("back_to_banks");
    PassesOffers("back_to_banks");
  }

  lemma ParseTokens6()
    ensures Parse("menu_profile") == MenuProfile
    ensures Parse("menu_referral") == MenuReferral
    ensures Parse("menu_support") == MenuSupport
  {
    NotPrefixed("menu_profile");
    PassesOffers("menu_profile");
    PassesNavigation("menu_profile");
    NotPrefixed("menu_referral");
    PassesOffers("menu_referral");
    PassesNavigation("menu_referral");
    NotPrefixed("menu_support");
    PassesOffers("menu_support");
    PassesNavigation("menu_support");
  }

  lemma ParseTokens7()
    ensures Parse("menu_report_card") == MenuReportCard
    ensures Parse("menu_tasks") == MenuTasks
    ensures Parse("menu_reviews") == MenuReviews
  {
    NotPrefixed("menu_report_card");
    PassesOffers("menu_report_card");
    PassesNavigation("menu_report_card");
    NotPrefixed("menu_tasks");
    PassesOffers("menu_tasks");
    PassesNavigation("menu_tasks");
    NotPrefixed("menu_reviews");
    PassesOffers("menu_reviews");
    PassesNavigation("menu_reviews");
  }

  /** Every intent a button can carry is recovered by parsing its data:
      the filters before an intent's own never accept its string. */
  lemma ParseEncode(i: Intent)
    requires !i.Unhandled?
    ensures Parse(Encode(i)) == i
  {
    var d := Encode(i);
    match i
    case PickOffer(o) =>
      assert d[..6] == "bank" + Sep;
      ParseBank(d);
      assert d[6..] == o;
    case StartTask(o) =>
      assert d[..12] == "start_task" + Sep;
      ParseStartTask(d);
      assert d[12..] == o;
    case SwitchAge(a) =>
      assert d[..12] == "switch_age" + Sep;
      ParseSwitchAge(d);
      assert d[12..] == a;
    case NextSubmit =>
      ParseTokens1();
    case StartEarn =>
      ParseTokens1();
    case Age14 =>
      ParseTokens1();
    case Age18 =>
      ParseTokens2();
    case RefuseTask =>
      ParseTokens2();
    case CardOrdered =>
      ParseTokens2();
    case Emoji =>
      ParseTokens3();
    case OtherTasks =>
      ParseTokens3();
    case Ask =>
      ParseTokens3();
    case StartSupport =>
      ParseTokens4();
    case StartReportMessage =>
      ParseTokens4();
    case GoMain =>
      ParseTokens4();
    case CancelSupport =>
      ParseTokens5();
    case CancelReport =>
      ParseTokens5();
    case BackToBanks =>
      ParseTokens5();
    case MenuProfile =>
      ParseTokens6();
    case MenuReferral =>
      ParseTokens6();
    case MenuSupport =>
      ParseTokens6();
    case MenuReportCard =>
      ParseTokens7();
    case MenuTasks =>
      ParseTokens7();
    case MenuReviews =>
      ParseTokens7();
  }
}
