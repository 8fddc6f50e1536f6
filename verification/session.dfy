/** The per-user FSM storage of app/bot.py: one of six state tags plus a
    scratch data dictionary with the keys `preferred_age`, `bank`,
    `comment` and `menu_msg_id`. */
module Session {
  import opened Wrappers

  /** The state tags: no state, the three `SubmissionForm` states,
      `SupportForm.question` and `ReportForm.report`. */
  datatype State =
    | Idle
    | SubmissionBank
    | SubmissionComment
    | SubmissionEvidence
    | SupportQuestion
    | ReportPayload

  /** The scratch dictionary.  A field is `Some` exactly when its key is
      present.  `comment` may be present with the value `None` (the "-"
      sentinel), hence its nested option. */
  datatype Data = Data(
    preferredAge: Option<string>,
    bank: Option<string>,
    comment: Option<Option<string>>,
    menuMsgId: Option<int>
  )

  datatype Key = PreferredAge | Bank | Comment | MenuMsgId

  /** The keys present in the dictionary. */
  function Keys(d: Data): set<Key> {
    (if d.preferredAge.Some? then {PreferredAge} else {})
    + (if d.bank.Some? then {Bank} else {})
    + (if d.comment.Some? then {Comment} else {})
    + (if d.menuMsgId.Some? then {MenuMsgId} else {})
  }

  datatype Session = Session(state: State, data: Data)

  /** What aiogram's storage yields for a user it has never seen. */
  const Fresh: Session := Session(Idle, Data(None, None, None, None))

  /** `data.get("comment")`: a missing key and a stored `None` read alike. */
  function CommentValue(d: Data): Option<string> {
    match d.comment
    case Some(c) => c
    case None => None
  }

  /** `clear_state_keep_age`: the state becomes none and the dictionary is
      cleared, except that a truthy `preferred_age` is written back. */
  function SoftClear(s: Session): (r: Session)
    ensures r.state == Idle
    ensures Keys(r.data) == if TruthyStr(s.data.preferredAge) then {PreferredAge} else {}
    ensures r.data.preferredAge.Some? ==> r.data.preferredAge == s.data.preferredAge
    ensures r.data.bank.None? && r.data.comment.None? && r.data.menuMsgId.None?
  {
    var age := s.data.preferredAge;
    var cleared := Session(Idle, Data(None, None, None, None));
    if TruthyStr(age) then cleared.(data := cleared.data.(preferredAge := age)) else cleared
  }

  /** Clearing twice is clearing once. */
  lemma SoftClearIdempotent(s: Session)
    ensures SoftClear(SoftClear(s)) == SoftClear(s)
  {
  }

  /** The soft clear depends on nothing but the old age: two sessions with
      the same `preferred_age` clear to the same session, whatever their
      states and other keys. */
  lemma SoftClearForgetsAllButAge(s: Session, t: Session)
    requires s.data.preferredAge == t.data.preferredAge
    ensures SoftClear(s) == SoftClear(t)
  {
  }
}
