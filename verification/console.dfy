/** The decisions of the operator console in app/admin_routes.py: the
    signed session cookie, the authentication gate, the login form, the
    replies to questions and reports, and the broadcast.  The MAC is an
    arbitrary function of the secret and the user id, the outcome of every
    Telegram send is an input, and the database is reduced to the rows the
    handlers read and the writes they ask for. */
module Console {
  import opened Wrappers
  import opened Text
  import opened Config

  const BadRequest := 400
  const Unauthorized := 401
  const NotFound := 404
  const ServerError := 500
  const BadGateway := 502

  /** The `admin_credentials` attribute `_allowed_logins` and
      `_require_credentials` read from the settings.  `Settings`
      (app/config.py:21-33) declares no such field, so on every settings
      object the program builds it is `Undeclared` and reading it raises
      `AttributeError`, which the console answers with 500.  `Declared` is
      the evidently intended attribute, `None` meaning no pairs. */
  datatype CredentialsAttr = Undeclared | Declared(pairs: Option<seq<(string, string)>>)

  /** What the console reads besides the request: the settings, the
      `admin_credentials` attribute, and the MAC `_sign_session` computes
      (HMAC-SHA256 as hex in the source, hence ASCII). */
  datatype Panel = Panel(
    settings: Settings,
    credentials: CredentialsAttr,
    mac: (string, string) -> AsciiText
  )

  /** `settings.admin_credentials or []`, when the attribute exists. */
  function Configured(p: Panel): seq<(string, string)> {
    if p.credentials.Declared? then p.credentials.pairs.GetOr([]) else []
  }

  // ---------------------------------------------------------------------
  // Session cookies
  // ---------------------------------------------------------------------

  /** `_session_secret`: the panel secret if set and non-empty, else the
      API key; with neither the request fails with 500. */
  function SessionSecret(p: Panel): (r: Result<string, int>)
    ensures r.Err? <==> !TruthyStr(p.settings.adminPanelSecret) && !TruthyStr(p.settings.apiKey)
    ensures r.Err? ==> r.error == ServerError
    ensures r.Ok? ==> (r.value != "" &&
      (r.value == p.settings.adminPanelSecret.GetOr("") || r.value == p.settings.apiKey.GetOr("")))
    ensures TruthyStr(p.settings.adminPanelSecret) ==> r == Ok(p.settings.adminPanelSecret.value)
  {
    if TruthyStr(p.settings.adminPanelSecret) then Ok(p.settings.adminPanelSecret.value)
    else if TruthyStr(p.settings.apiKey) then Ok(p.settings.apiKey.value)
    else Err(ServerError)
  }

  /** `_allowed_logins`: the configured logins, then the panel user id as
      decimal text when it is set and non-zero; 500 when the attribute
      does not exist. */
  function AllowedLogins(p: Panel): (r: Result<seq<string>, int>)
    ensures r.Err? <==> p.credentials.Undeclared?
    ensures r.Err? ==> r.error == ServerError
    ensures r.Ok? ==> forall u :: u in r.value <==>
      (exists c :: c in Configured(p) && c.0 == u) ||
      (TruthyInt(p.settings.adminPanelUserId) && u == IntToString(p.settings.adminPanelUserId.value))
  {
    if p.credentials.Undeclared? then Err(ServerError)
    else
    var pairs := Configured(p);
    var logins := seq(|pairs|, i requires 0 <= i < |pairs| => pairs[i].0);
    assert forall u :: u in logins <==> exists c :: c in pairs && c.0 == u by {
      forall u | u in logins ensures exists c :: c in pairs && c.0 == u {
        var i :| 0 <= i < |logins| && logins[i] == u;
        assert pairs[i] in pairs;
      }
      forall u | exists c :: c in pairs && c.0 == u ensures u in logins {
        var c :| c in pairs && c.0 == u;
        var i :| 0 <= i < |pairs| && pairs[i] == c;
        assert logins[i] == u;
      }
    }
    if TruthyInt(p.settings.adminPanelUserId) then Ok(logins + [IntToString(p.settings.adminPanelUserId.value)])
    else Ok(logins)
  }

  /** Whether the allowed list exists and admits a user id: an empty list
      admits everyone. */
  predicate Admits(p: Panel, u: string) {
    AllowedLogins(p).Ok? && (|AllowedLogins(p).value| == 0 || u in AllowedLogins(p).value)
  }

  /** `_sign_session`: the user id, a dot, and the MAC of the id under the
      secret. */
  function Sign(p: Panel, u: string): (r: Result<string, int>)
    ensures r.Err? <==> SessionSecret(p).Err?
    ensures r.Err? ==> r.error == ServerError
    ensures r.Ok? ==> r.value == u + "." + p.mac(SessionSecret(p).value, u)
  {
    match SessionSecret(p)
    case Err(e) => Err(e)
    case Ok(secret) => Ok(u + "." + p.mac(secret, u))
  }

  /** `_verify_session`: `Ok(None)` for a missing or empty cookie, one
      without a dot, one that is not the signature of the text before its
      first dot, or one whose id the allowed list does not admit;
      `Ok(Some(id))` otherwise.  Signing needs the secret, so without one
      the check itself fails with 500; `hmac.compare_digest` raises
      `TypeError` on `str` arguments that are not all ASCII, so a dotted
      cookie with a non-ASCII character fails with 500 too; and a cookie
      whose signature checks fails with 500 when the allowed list cannot
      be read. */
  function VerifySession(p: Panel, raw: Option<string>): (r: Result<Option<string>, int>)
    ensures !TruthyStr(raw) ==> r == Ok(None)
    ensures r.Err? ==>
      TruthyStr(raw) && '.' in raw.value && r.error == ServerError &&
      (SessionSecret(p).Err? || !IsAscii(raw.value) || p.credentials.Undeclared?)
    ensures TruthyStr(raw) && '.' in raw.value && (SessionSecret(p).Err? || !IsAscii(raw.value)) ==> r.Err?
    ensures r.Ok? && r.value.Some? ==> '.' !in r.value.value && IsAscii(raw.value) && Admits(p, r.value.value)
  {
    DotSplits(raw);
    if !TruthyStr(raw) then Ok(None)
    else
      match SplitOnce(raw.value, ".")
      case None => Ok(None)
      case Some((u, rest)) =>
        assert '.' !in u by {
          forall k | 0 <= k < |u| ensures u[k] != '.' {
            assert !OccursAt(raw.value, ".", k);
            assert raw.value[k..k + 1] == [u[k]];
          }
        }
        match Sign(p, u)
        case Err(e) => Err(e)
        case Ok(expected) =>
          AsciiSigned(raw.value, u, rest, p.mac(SessionSecret(p).value, u));
          if !IsAscii(expected) || !IsAscii(raw.value) then Err(ServerError)
          else if expected != raw.value then Ok(None)
          else
            match AllowedLogins(p)
            case Err(e) => Err(e)
            case Ok(allowed) => if |allowed| > 0 && u !in allowed then Ok(None) else Ok(Some(u))
  }

  /** A cookie splits on "." exactly when it holds a dot. */
  lemma DotSplits(raw: Option<string>)
    ensures raw.Some? ==> ('.' in raw.value <==> SplitOnce(raw.value, ".").Some?)
  {
    if raw.Some? && '.' in raw.value {
      var s := raw.value;
      var k :| 0 <= k < |s| && s[k] == '.';
      assert OccursAt(s, ".", k) by { assert s[k..k + 1] == [s[k]]; }
    }
    if raw.Some? && SplitOnce(raw.value, ".").Some? {
      var (u, rest) := SplitOnce(raw.value, ".").value;
      assert raw.value[|u|] == '.';
    }
  }

  /** An ASCII cookie's prefix before its first dot signs to ASCII text,
      so only the cookie itself can make `compare_digest` raise. */
  lemma AsciiSigned(raw: string, u: string, rest: string, m: AsciiText)
    requires raw == u + "." + rest
    ensures IsAscii(raw) ==> IsAscii(u + "." + m)
  {
    if IsAscii(raw) {
      var e := u + "." + m;
      forall k | 0 <= k < |e| ensures e[k] < 128 as char {
        if k < |u| { assert e[k] == raw[k]; }
        else if k > |u| { assert e[k] == m[k - |u| - 1]; }
      }
    }
  }

  /** The text before the first dot of a signed cookie is the signed id,
      when the id has no dot. */
  lemma SplitSigned(u: string, digest: string)
    requires '.' !in u
    ensures SplitOnce(u + "." + digest, ".") == Some((u, digest))
  {
    NoOccurrenceInside(u, ".", digest);
    SplitOnceUnique(u + "." + digest, ".", u, digest);
  }

  /** The token signed for an ASCII id is ASCII. */
  lemma SignedAscii(u: string, m: AsciiText)
    requires IsAscii(u)
    ensures IsAscii(u + "." + m)
  {
    var e := u + "." + m;
    forall k | 0 <= k < |e| ensures e[k] < 128 as char {
      if k < |u| { assert e[k] == u[k]; }
      else if k > |u| { assert e[k] == m[k - |u| - 1]; }
    }
  }

  /** Signing and verifying are inverse: a cookie signed for an admitted
      ASCII id without a dot verifies to that id. */
  lemma SignVerify(p: Panel, u: string)
    requires SessionSecret(p).Ok?
    requires '.' !in u && IsAscii(u) && Admits(p, u)
    ensures VerifySession(p, Some(Sign(p, u).value)) == Ok(Some(u))
  {
    SignedAscii(u, p.mac(SessionSecret(p).value, u));
    SplitSigned(u, p.mac(SessionSecret(p).value, u));
  }

  /** The other side of `SignVerify`: once the secret is there, a cookie
      with a dot and a non-ASCII character is a 500, whatever it signs. */
  lemma NonAsciiCookieFails(p: Panel, raw: string)
    requires SessionSecret(p).Ok?
    requires '.' in raw && !IsAscii(raw)
    ensures VerifySession(p, Some(raw)) == Err(ServerError)
  {
  }

  /** A cookie verifies to an id exactly when it is that id's signature,
      the id is ASCII with no dot and the allowed list admits it. */
  lemma VerifyIsSignature(p: Panel, raw: string, u: string)
    ensures VerifySession(p, Some(raw)) == Ok(Some(u)) <==>
      Sign(p, u).Ok? && raw == Sign(p, u).value && '.' !in u && IsAscii(u) && Admits(p, u)
  {
    if Sign(p, u).Ok? && raw == Sign(p, u).value && '.' !in u && IsAscii(u) && Admits(p, u) {
      SignVerify(p, u);
    }
    if VerifySession(p, Some(raw)) == Ok(Some(u)) {
      var parts := SplitOnce(raw, ".");
      assert parts.Some? && parts.value.0 == u;
      forall k | 0 <= k < |u| ensures u[k] < 128 as char {
        assert u[k] == raw[k];
      }
    }
  }

  /** Every digest the MAC produces is free of dots (true of hex). */
  ghost predicate DotFreeMac(p: Panel) {
    forall secret, u :: '.' !in p.mac(secret, u)
  }

  /** With dot-free digests, the token of an id that contains a dot splits
      at the id's own dot, and the signature of the prefix differs from
      the token. */
  lemma DottedTokenMismatch(p: Panel, secret: string, u: string)
    requires DotFreeMac(p) && '.' in u
    ensures SplitOnce(u + "." + p.mac(secret, u), ".").Some?
    ensures var v := SplitOnce(u + "." + p.mac(secret, u), ".").value.0;
      v + "." + p.mac(secret, v) != u + "." + p.mac(secret, u)
  {
    var raw := u + "." + p.mac(secret, u);
    var i :| 0 <= i < |u| && u[i] == '.';
    assert OccursAt(raw, ".", i) by {
      assert raw[i..i + 1] == [u[i]];
    }
    var (v, tail) := SplitOnce(raw, ".").value;
    assert |v| <= i < |u|;
    var m := p.mac(secret, v);
    var expected := v + "." + m;
    assert raw[|u|] == '.';
    if |expected| == |raw| {
      assert expected[|u|] == m[|u| - |v| - 1];
      assert '.' !in m;
    }
    assert expected != raw;
  }

  /** With dot-free digests, the cookie signed for an id that contains a
      dot never verifies. */
  lemma DottedIdNeverVerifies(p: Panel, u: string)
    requires DotFreeMac(p) && Sign(p, u).Ok? && '.' in u && IsAscii(u)
    ensures VerifySession(p, Some(Sign(p, u).value)) == Ok(None)
  {
    var secret := SessionSecret(p).value;
    SignedAscii(u, p.mac(secret, u));
    DottedTokenMismatch(p, secret, u);
  }

  // ---------------------------------------------------------------------
  // The gate and the login form
  // ---------------------------------------------------------------------

  /** `verify_admin`: a configured API key in the `x-api-key` header
      passes; otherwise a session cookie that verifies to a non-empty id
      passes; otherwise 401.  A failure to sign propagates as 500. */
  function VerifyAdmin(p: Panel, header: Option<string>, cookie: Option<string>): (r: Result<(), int>)
    ensures TruthyStr(p.settings.apiKey) && header == p.settings.apiKey ==> r.Ok?
    ensures r.Ok? <==>
      (TruthyStr(p.settings.apiKey) && header == p.settings.apiKey) ||
      (exists u :: u != "" && VerifySession(p, cookie) == Ok(Some(u)))
    ensures r.Err? ==> r.error == Unauthorized || r.error == ServerError
    ensures r.Err? ==> (r.error == ServerError <==> VerifySession(p, cookie).Err?)
  {
    if TruthyStr(p.settings.apiKey) && header == p.settings.apiKey then Ok(())
    else
      match VerifySession(p, cookie)
      case Err(e) => Err(e)
      case Ok(v) =>
        if v.Some? && v.value != "" then Ok(()) else Err(Unauthorized)
  }

  /** `_require_credentials`: the configured pairs, then the panel user id
      and password when both are set and non-empty; none at all is 500,
      and so is a missing attribute. */
  function RequireCredentials(p: Panel): (r: Result<seq<(string, string)>, int>)
    ensures r.Err? ==> r.error == ServerError
    ensures r.Ok? ==> |r.value| > 0
    ensures r.Ok? ==> forall c :: c in r.value <==>
      c in Configured(p) ||
      (TruthyInt(p.settings.adminPanelUserId) && TruthyStr(p.settings.adminPanelPassword) &&
       c == (IntToString(p.settings.adminPanelUserId.value), p.settings.adminPanelPassword.value))
    ensures r.Err? <==> (p.credentials.Undeclared? || (|Configured(p)| == 0 &&
      !(TruthyInt(p.settings.adminPanelUserId) && TruthyStr(p.settings.adminPanelPassword))))
  {
    if p.credentials.Undeclared? then Err(ServerError)
    else
    var pairs := Configured(p);
    var all := if TruthyInt(p.settings.adminPanelUserId) && TruthyStr(p.settings.adminPanelPassword)
      then pairs + [(IntToString(p.settings.adminPanelUserId.value), p.settings.adminPanelPassword.value)]
      else pairs;
    if |all| == 0 then Err(ServerError) else Ok(all)
  }

  /** `login`: without credentials the dependency answers 500; with some
      pair equal to both inputs the answer is a redirect to the panel
      carrying the signed cookie for the id (500 when signing fails);
      otherwise 401 and no cookie. */
  function Login(p: Panel, userId: string, password: string): (r: Result<string, int>)
    ensures r.Ok? <==> RequireCredentials(p).Ok? && (userId, password) in RequireCredentials(p).value && Sign(p, userId).Ok?
    ensures r.Ok? ==> r == Sign(p, userId)
    ensures RequireCredentials(p).Err? ==> r == Err(ServerError)
    ensures RequireCredentials(p).Ok? && (userId, password) in RequireCredentials(p).value && Sign(p, userId).Err? ==>
      r == Err(ServerError)
    ensures RequireCredentials(p).Ok? && (userId, password) !in RequireCredentials(p).value ==> r == Err(Unauthorized)
  {
    match RequireCredentials(p)
    case Err(e) => Err(e)
    case Ok(pairs) =>
      if exists c :: c in pairs && c.0 == userId && c.1 == password then Sign(p, userId)
      else Err(Unauthorized)
  }

  /** With the attribute declared, a configured pair logs in: the answer
      carries the signed cookie for its id once a secret exists. */
  lemma LoginConfiguredPair(p: Panel, userId: string, password: string)
    requires p.credentials.Declared? && (userId, password) in Configured(p)
    requires SessionSecret(p).Ok?
    ensures Login(p, userId, password) == Sign(p, userId) && Sign(p, userId).Ok?
  {
    assert (userId, password) in RequireCredentials(p).value;
  }

  /** A login that succeeds for a non-empty ASCII id with no dot gives a
      cookie the gate lets through: every id a pair can log in with is an
      allowed login. */
  lemma LoginOpensGate(p: Panel, userId: string, password: string, header: Option<string>)
    requires Login(p, userId, password).Ok?
    requires '.' !in userId && userId != "" && IsAscii(userId)
    ensures VerifyAdmin(p, header, Some(Login(p, userId, password).value)).Ok?
  {
    var pairs := Configured(p);
    if (userId, password) in pairs {
      assert exists c :: c in pairs && c.0 == userId;
    }
    assert userId in AllowedLogins(p).value;
    SignVerify(p, userId);
  }

  /** A login that succeeds for an id with a non-ASCII character sets a
      cookie the gate answers with 500, unless the API key header passes
      first. */
  lemma NonAsciiLoginFailsGate(p: Panel, userId: string, password: string, header: Option<string>)
    requires Login(p, userId, password).Ok? && !IsAscii(userId)
    requires !(TruthyStr(p.settings.apiKey) && header == p.settings.apiKey)
    ensures VerifyAdmin(p, header, Some(Login(p, userId, password).value)) == Err(ServerError)
  {
    var raw := Login(p, userId, password).value;
    assert raw == userId + "." + p.mac(SessionSecret(p).value, userId);
    assert raw[|userId|] == '.';
    var k :| 0 <= k < |userId| && !(userId[k] < 128 as char);
    assert raw[k] == userId[k];
    NonAsciiCookieFails(p, raw);
  }

  // ---------------------------------------------------------------------
  // The console as written: `admin_credentials` is not a settings field
  // ---------------------------------------------------------------------

  /** As written, every login answers 500: the credentials dependency
      reads the undeclared attribute before any pair is compared. */
  lemma LoginFailsAsWritten(p: Panel, userId: string, password: string)
    requires p.credentials.Undeclared?
    ensures Login(p, userId, password) == Err(ServerError)
  {
  }

  /** As written, the token `_sign_session` makes for an ASCII id without
      a dot answers 500 instead of verifying: its signature checks, and
      the allowed list it reads next cannot be built. */
  lemma SignedCookieFailsAsWritten(p: Panel, u: string)
    requires p.credentials.Undeclared? && SessionSecret(p).Ok?
    requires '.' !in u && IsAscii(u)
    ensures VerifySession(p, Some(Sign(p, u).value)) == Err(ServerError)
  {
    SignedAscii(u, p.mac(SessionSecret(p).value, u));
    SplitSigned(u, p.mac(SessionSecret(p).value, u));
  }

  /** As written, only the API key header opens the gate: no cookie ever
      verifies to an id. */
  lemma GateNeedsApiKeyAsWritten(p: Panel, header: Option<string>, cookie: Option<string>)
    requires p.credentials.Undeclared?
    ensures VerifyAdmin(p, header, cookie).Ok? <==> TruthyStr(p.settings.apiKey) && header == p.settings.apiKey
  {
  }

  // ---------------------------------------------------------------------
  // Replies and the broadcast
  // ---------------------------------------------------------------------

  /** The fields of a question or report row the reply reads. */
  datatype Inquiry = Inquiry(userId: Option<int>, username: Option<string>)

  /** The `details` of a console action. */
  datatype Details =
    | QuestionReplyDetail(questionId: int, message: string)
    | ReportReplyDetail(reportId: int, message: string)
    | BroadcastDetail(message: string, sent: nat, failed: nat)

  /** What a console request asks of Telegram and the database. */
  datatype Effect =
    | Deliver(chatId: int, text: string)
    | Log(action: string, userId: Option<int>, username: Option<string>, details: Details)
    | DeleteReport(reportId: int)

  /** A status code and the effects that happened before it was returned. */
  datatype Answer = Answer(status: int, effects: seq<Effect>)

  const Ok200 := 200

  /** `reply_question`: 404 without a row, 400 without a truthy user id,
      502 when the send fails (after the attempt, with nothing logged),
      otherwise the send and one `question_reply` action. */
  function ReplyQuestion(questionId: int, row: Option<Inquiry>, message: string, delivered: bool): (a: Answer)
    ensures row.None? ==> a == Answer(NotFound, [])
    ensures row.Some? && !TruthyInt(row.value.userId) ==> a == Answer(BadRequest, [])
    ensures row.Some? && TruthyInt(row.value.userId) ==>
      |a.effects| > 0 && a.effects[0] == Deliver(row.value.userId.value, message) &&
      (a.status == Ok200 <==> delivered) && (a.status == BadGateway <==> !delivered) &&
      (delivered ==> a.effects[1..] == [Log("question_reply", row.value.userId, row.value.username,
        QuestionReplyDetail(questionId, message))]) &&
      (!delivered ==> |a.effects| == 1)
  {
    match row
    case None => Answer(NotFound, [])
    case Some(q) =>
      if !TruthyInt(q.userId) then Answer(BadRequest, [])
      else if !delivered then Answer(BadGateway, [Deliver(q.userId.value, message)])
      else Answer(Ok200, [
        Deliver(q.userId.value, message),
        Log("question_reply", q.userId, q.username, QuestionReplyDetail(questionId, message))
      ])
  }

  /** `reply_report`: the same checks in the same order; on success the
      report is deleted after the `report_reply` action is logged. */
  function ReplyReport(reportId: int, row: Option<Inquiry>, message: string, delivered: bool): (a: Answer)
    ensures row.None? ==> a == Answer(NotFound, [])
    ensures row.Some? && !TruthyInt(row.value.userId) ==> a == Answer(BadRequest, [])
    ensures a.status != Ok200 ==> DeleteReport(reportId) !in a.effects
    ensures a.status == Ok200 <==> row.Some? && TruthyInt(row.value.userId) && delivered
    ensures a.status == Ok200 ==> (|a.effects| == 3 && a.effects[2] == DeleteReport(reportId) &&
      a.effects[1] == Log("report_reply", row.value.userId, row.value.username, ReportReplyDetail(reportId, message)))
  {
    match row
    case None => Answer(NotFound, [])
    case Some(r) =>
      if !TruthyInt(r.userId) then Answer(BadRequest, [])
      else if !delivered then Answer(BadGateway, [Deliver(r.userId.value, message)])
      else Answer(Ok200, [
        Deliver(r.userId.value, message),
        Log("report_reply", r.userId, r.username, ReportReplyDetail(reportId, message)),
        DeleteReport(reportId)
      ])
  }

  /** A report reply answers as a question reply does, with the same send;
      it differs only in the logged action and, on success, the deletion
      that follows it. */
  lemma ReplyReportLikeQuestion(id: int, row: Option<Inquiry>, message: string, delivered: bool)
    ensures ReplyReport(id, row, message, delivered).status == ReplyQuestion(id, row, message, delivered).status
    ensures ReplyQuestion(id, row, message, delivered).status != Ok200 ==>
      ReplyReport(id, row, message, delivered).effects == ReplyQuestion(id, row, message, delivered).effects
    ensures ReplyQuestion(id, row, message, delivered).status == Ok200 ==>
      ReplyReport(id, row, message, delivered).effects ==
        [ReplyQuestion(id, row, message, delivered).effects[0],
         Log("report_reply", row.value.userId, row.value.username, ReportReplyDetail(id, message)),
         DeleteReport(id)]
  {
  }

  /** The number of successful sends. */
  function CountDelivered(outcomes: seq<bool>): (n: nat)
    ensures n <= |outcomes|
  {
    if |outcomes| == 0 then 0
    else CountDelivered(outcomes[..|outcomes| - 1]) + (if outcomes[|outcomes| - 1] then 1 else 0)
  }

  /** `broadcast`: one send attempt per user id, in order, with the
      outcome of each attempt given; the successes and failures are tallied
      and one `broadcast` action carries the counts. */
  method Broadcast(ids: seq<int>, message: string, outcomes: seq<bool>)
    returns (sent: nat, failed: nat, total: nat, effects: seq<Effect>)
    requires |outcomes| == |ids|
    ensures sent + failed == total == |ids|
    ensures sent == CountDelivered(outcomes)
    ensures |effects| == |ids| + 1
    ensures forall i :: 0 <= i < |ids| ==> effects[i] == Deliver(ids[i], message)
    ensures effects[|ids|] == Log("broadcast", None, None, BroadcastDetail(message, sent, failed))
  {
    sent, failed := 0, 0;
    effects := [];
    var i := 0;
    while i < |ids|
      invariant 0 <= i <= |ids|
      invariant sent + failed == i
      invariant sent == CountDelivered(outcomes[..i])
      invariant |effects| == i
      invariant forall k :: 0 <= k < i ==> effects[k] == Deliver(ids[k], message)
    {
      effects := effects + [Deliver(ids[i], message)];
      assert outcomes[..i + 1][..i] == outcomes[..i];
      if outcomes[i] {
        sent := sent + 1;
      } else {
        failed := failed + 1;
      }
      i := i + 1;
    }
    assert outcomes[..i] == outcomes;
    total := |ids|;
    effects := effects + [Log("broadcast", None, None, BroadcastDetail(message, sent, failed))];
  }
}
