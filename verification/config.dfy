/** app/config.py: the settings record and the ADMIN_IDS parser. */
module Config {
  import opened Wrappers
  import opened Text

  /** The fields of `Settings` the bot and the console read.  The bot
      token, host, port, database path and start-photo path are wiring and
      are not modelled. */
  datatype Settings = Settings(
    apiKey: Option<string>,
    adminIds: seq<int>,
    adminPanelUserId: Option<int>,
    adminPanelPassword: Option<string>,
    adminPanelSecret: Option<string>,
    startPhotoFileId: Option<string>
  )

  /** The admin ids contributed by a list of comma-separated pieces: each
      piece is stripped, empty pieces are skipped, and pieces `int()`
      rejects are skipped. */
  function CollectIds(pieces: seq<string>): (r: seq<int>)
    ensures |r| <= |pieces|
    ensures forall x :: x in r <==> exists p :: p in pieces && ParseInt(Strip(p)) == Some(x)
    decreases |pieces|
  {
    if |pieces| == 0 then []
    else
      var raw := Strip(pieces[0]);
      var rest := CollectIds(pieces[1..]);
      assert forall p :: p in pieces <==> p == pieces[0] || p in pieces[1..];
      if raw == "" then rest
      else
        match ParseInt(raw)
        case Some(n) => [n] + rest
        case None => rest
  }

  /** `_parse_admins`: a missing or empty value gives no ids; otherwise the
      value is split on "," and every piece that is an integer once
      stripped contributes that integer, in input order.  It never fails. */
  function ParseAdmins(value: Option<string>): (r: seq<int>)
    ensures value.None? || value == Some("") ==> r == []
    ensures value.Some? && value.value != "" ==>
      |r| <= |Split(value.value, ',')| &&
      forall x :: x in r <==> exists p :: p in Split(value.value, ',') && ParseInt(Strip(p)) == Some(x)
  {
    match value
    case None => []
    case Some(v) => if v == "" then [] else CollectIds(Split(v, ','))
  }

  /** `_is_admin`. */
  predicate IsAdmin(userId: int, settings: Settings) {
    userId in settings.adminIds
  }

  /** A piece that is already an integer's decimal rendering contributes
      exactly that integer, so a list of renderings yields the integers in
      the same order. */
  lemma {:induction false} CollectRenderings(xs: seq<int>)
    ensures CollectIds(Render(xs)) == xs
    decreases |xs|
  {
    if |xs| > 0 {
      var tail := Render(xs[1..]);
      RenderCons(xs);
      IntToStringIsStripped(xs[0]);
      CollectHead(IntToString(xs[0]), tail, xs[0]);
      CollectRenderings(xs[1..]);
      HeadTail(xs);
    }
  }

  lemma RenderCons(xs: seq<int>)
    requires |xs| > 0
    ensures Render(xs) == [IntToString(xs[0])] + Render(xs[1..])
  {
    var r := [IntToString(xs[0])] + Render(xs[1..]);
    assert forall i :: 0 <= i < |xs| ==> r[i] == IntToString(xs[i]);
  }

  lemma HeadTail(xs: seq<int>)
    requires |xs| > 0
    ensures [xs[0]] + xs[1..] == xs
  {
  }

  /** A piece that parses once stripped contributes its integer ahead of the rest. */
  lemma CollectHead(p0: string, rest: seq<string>, n: int)
    requires Strip(p0) == p0 && ParseInt(p0) == Some(n)
    ensures CollectIds([p0] + rest) == [n] + CollectIds(rest)
  {
    assert ([p0] + rest)[1..] == rest;
  }

  function Render(xs: seq<int>): (r: seq<string>)
    ensures |r| == |xs|
    ensures forall i :: 0 <= i < |xs| ==> r[i] == IntToString(xs[i])
  {
    seq(|xs|, i requires 0 <= i < |xs| => IntToString(xs[i]))
  }

  /** Round trip: parsing the comma-join of the decimal renderings of a list
      of ids gives the list back. */
  lemma ParseAdminsRoundTrip(xs: seq<int>)
    ensures ParseAdmins(Some(Join(Render(xs), ','))) == xs
  {
    var parts := Render(xs);
    if |xs| > 0 {
      forall i | 0 <= i < |parts| ensures ',' !in parts[i] {
        var r := IntToString(xs[i]);
        assert forall k :: 0 <= k < |r| ==> r[k] != ',';
      }
      assert |Join(parts, ',')| > 0 by {
        JoinLength(parts, ',');
      }
      SplitJoin(parts, ',');
      CollectRenderings(xs);
    }
  }

  lemma {:induction false} JoinLength(parts: seq<string>, sep: char)
    requires |parts| >= 1
    ensures |Join(parts, sep)| >= |parts[0]|
  {
  }

  /** One piece contributes its integer when it parses once stripped, and
      nothing otherwise (an empty piece does not parse). */
  lemma CollectIdsOne(p: string)
    ensures CollectIds([p]) == if ParseInt(Strip(p)).Some? then [ParseInt(Strip(p)).value] else []
  {
    assert [p][1..] == [];
  }

  /** The pieces contribute independently and in order: the ids of a
      concatenation are the ids of the first part followed by those of the
      second.  With `CollectIdsOne` this pins down order and multiplicity:
      each accepted piece yields exactly one entry, at its own position. */
  lemma {:induction false} CollectIdsAppend(a: seq<string>, b: seq<string>)
    ensures CollectIds(a + b) == CollectIds(a) + CollectIds(b)
    decreases |a|
  {
    if |a| == 0 {
      assert a + b == b;
    } else {
      assert (a + b)[0] == a[0];
      assert (a + b)[1..] == a[1..] + b;
      CollectIdsAppend(a[1..], b);
    }
  }

  /** Parsing a non-empty comma-join of comma-free pieces collects those
      pieces, in order. */
  lemma ParseAdminsPieces(ps: seq<string>)
    requires |ps| >= 1
    requires forall i :: 0 <= i < |ps| ==> ',' !in ps[i]
    requires Join(ps, ',') != ""
    ensures ParseAdmins(Some(Join(ps, ','))) == CollectIds(ps)
  {
    SplitJoin(ps, ',');
  }

  /** The admin check reads exactly the ids the parser accepted: a user is
      an admin iff some piece of ADMIN_IDS is that user's id. */
  lemma IsAdminFromEnvironment(userId: int, adminIdsVar: string, s: Settings)
    requires adminIdsVar != ""
    requires s.adminIds == ParseAdmins(Some(adminIdsVar))
    ensures IsAdmin(userId, s) <==>
      exists p :: p in Split(adminIdsVar, ',') && ParseInt(Strip(p)) == Some(userId)
  {
  }
}
