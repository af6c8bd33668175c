/** Refresh tokens: signing in, rotating a token, logging out. Rows store only ciphertexts, and
    every lookup compares ciphertexts. */
module Sessions {
  import opened Common
  import opened Encrypter

  type UserId = nat
  type Id = nat

  datatype Row = Row(user: UserId, cipher: string)

  /** The calls, in the order they complete. `found` is the database's answer to the handler's
      lookup; `gate` says whether the checks before the lookup succeed (grant type, identifier,
      client application, user). The row made by a sign-in is named by the call's position.
      A refresh answers with the renewed token and does not wait for the update that puts it into
      the row; `Stored` is the moment the update started by call `of` takes effect. */
  datatype Call =
    | SignIn(user: UserId, token: Bytes)
    | Refresh(user: UserId, token: Bytes, renewed: Bytes, gate: bool, found: Option<Id>)
    | Stored(of: nat, id: Id, renewed: Bytes)
    | Logout(token: Bytes, found: Option<Id>)
    | LogoutAll(user: UserId)

  // ---- The table ----------------------------------------------------------------------

  /** The rows refreshTokens may get: the user's own rows with the token's ciphertext. */
  function OwnRows(k: Key, rows: map<Id, Row>, user: UserId, token: Bytes): set<Id> {
    set id | id in rows && rows[id].user == user && rows[id].cipher == Encrypted(k, token)
  }

  /** The rows logout may get: those with the token's ciphertext, whoever owns them. */
  function AnyRows(k: Key, rows: map<Id, Row>, token: Bytes): set<Id> {
    set id | id in rows && rows[id].cipher == Encrypted(k, token)
  }

  predicate Accepted(c: Call) {
    c.Refresh? && c.gate && c.found.Some?
  }

  /** `c` is the update call `c.of` started, and it has not taken effect before. */
  predicate Started(cs: seq<Call>, c: Call)
    requires c.Stored?
  {
    c.of < |cs| && Accepted(cs[c.of]) && cs[c.of].found == Some(c.id) && cs[c.of].renewed == c.renewed &&
    forall j :: 0 <= j < |cs| && cs[j].Stored? ==> cs[j].of != c.of
  }

  function After(k: Key, rows: map<Id, Row>, c: Call, n: Id): map<Id, Row> {
    match c
    case SignIn(user, token) => rows[n := Row(user, Encrypted(k, token))]
    case Refresh(_, _, _, _, _) => rows
    case Stored(_, id, renewed) =>
      if id in rows then rows[id := rows[id].(cipher := Encrypted(k, renewed))] else rows
    case Logout(_, found) => if found.Some? then rows - {found.value} else rows
    case LogoutAll(user) => map id | id in rows && rows[id].user != user :: rows[id]
  }

  function Run(k: Key, cs: seq<Call>): map<Id, Row>
    decreases |cs|
  {
    if cs == [] then map[] else After(k, Run(k, cs[..|cs| - 1]), cs[|cs| - 1], |cs| - 1)
  }

  /** After the calls `cs`, the call's answer is one the database may give. */
  predicate Legal(k: Key, cs: seq<Call>, c: Call) {
    match c
    case Refresh(user, token, _, _, found) => IsAnswer(found, OwnRows(k, Run(k, cs), user, token))
    case Stored(_, _, _) => Started(cs, c)
    case Logout(token, found) => IsAnswer(found, AnyRows(k, Run(k, cs), token))
    case _ => true
  }

  ghost predicate LegalRun(k: Key, cs: seq<Call>)
    decreases |cs|
  {
    cs == [] || (LegalRun(k, cs[..|cs| - 1]) && Legal(k, cs[..|cs| - 1], cs[|cs| - 1]))
  }

  lemma RunExtends(k: Key, cs: seq<Call>, c: Call)
    ensures Run(k, cs + [c]) == After(k, Run(k, cs), c, |cs|)
    ensures LegalRun(k, cs + [c]) <==> LegalRun(k, cs) && Legal(k, cs, c)
  {
    hide After, Legal;
    assert (cs + [c])[..|cs|] == cs;
  }

  lemma FirstSignIn(k: Key, user: UserId, token: Bytes)
    ensures Run(k, [SignIn(user, token)]) == map[0 := Row(user, Encrypted(k, token))]
    ensures LegalRun(k, [SignIn(user, token)])
  {
    RunExtends(k, [], SignIn(user, token));
    assert [] + [SignIn(user, token)] == [SignIn(user, token)];
  }

  // ---- Rotation chains, read off the calls --------------------------------------------

  /** The token call `i` stores for session `id`: at its sign-in, or at a rotation. */
  function IssuesAt(cs: seq<Call>, i: nat, id: Id): Option<Bytes>
    requires i < |cs|
  {
    if cs[i].SignIn? && i == id then Some(cs[i].token)
    else if cs[i].Stored? && cs[i].id == id then Some(cs[i].renewed)
    else None
  }

  predicate Opened(cs: seq<Call>, id: Id, user: UserId) {
    id < |cs| && cs[id].SignIn? && cs[id].user == user
  }

  /** Call `i` logs session `id` out. */
  predicate EndsAt(cs: seq<Call>, i: nat, id: Id)
    requires i < |cs|
  {
    (cs[i].Logout? && cs[i].found == Some(id)) ||
    (cs[i].LogoutAll? && id < i && Opened(cs, id, cs[i].user))
  }

  /** Session `id` was opened and nothing has logged it out. */
  predicate Lasts(cs: seq<Call>, id: Id) {
    id < |cs| && cs[id].SignIn? && forall j :: id < j < |cs| ==> !EndsAt(cs, j, id)
  }

  /** Call `i` is the last that stores a token for session `id`. */
  predicate LastIssue(cs: seq<Call>, i: nat, id: Id)
    requires i < |cs|
  {
    IssuesAt(cs, i, id).Some? && forall j :: i < j < |cs| ==> IssuesAt(cs, j, id).None?
  }

  /** Call `i` stored `token` for session `id`, which lasts, and nothing was stored for it since. */
  ghost predicate NewestAt(cs: seq<Call>, i: int, id: Id, token: Bytes) {
    Lasts(cs, id) && id <= i < |cs| && IssuesAt(cs, i, id) == Some(token) && LastIssue(cs, i, id)
  }

  ghost predicate Newest(cs: seq<Call>, id: Id, user: UserId, token: Bytes) {
    Opened(cs, id, user) && exists i :: NewestAt(cs, i, id, token)
  }

  /** The newest token of session `id` while it lasts. */
  function Current(cs: seq<Call>, id: Id): Option<Bytes>
    decreases |cs|
  {
    if cs == [] then None
    else if EndsAt(cs, |cs| - 1, id) then None
    else if cs[|cs| - 1].Stored? && Current(cs[..|cs| - 1], id).None? then None
    else if IssuesAt(cs, |cs| - 1, id).Some? then IssuesAt(cs, |cs| - 1, id)
    else Current(cs[..|cs| - 1], id)
  }

  lemma AtPrefix(cs: seq<Call>, j: nat, id: Id)
    requires cs != [] && j < |cs| - 1
    ensures IssuesAt(cs[..|cs| - 1], j, id) == IssuesAt(cs, j, id)
    ensures EndsAt(cs[..|cs| - 1], j, id) == EndsAt(cs, j, id)
  {
  }

  lemma LastsShorter(cs: seq<Call>, id: Id)
    requires cs != [] && id < |cs| - 1
    ensures Lasts(cs, id) <==> Lasts(cs[..|cs| - 1], id) && !EndsAt(cs, |cs| - 1, id)
  {
    hide EndsAt;
    var before := cs[..|cs| - 1];
    forall j | id < j < |before| ensures EndsAt(before, j, id) == EndsAt(cs, j, id) {
      AtPrefix(cs, j, id);
    }
    if Lasts(before, id) && !EndsAt(cs, |cs| - 1, id) {
      forall j | id < j < |cs| ensures !EndsAt(cs, j, id) {
        if j < |before| { assert !EndsAt(before, j, id); }
      }
    }
    if Lasts(cs, id) {
      forall j | id < j < |before| ensures !EndsAt(before, j, id) {
        assert !EndsAt(cs, j, id);
      }
    }
  }

  lemma LastIssueShorter(cs: seq<Call>, i: nat, id: Id)
    requires i < |cs| - 1
    ensures LastIssue(cs, i, id) <==> LastIssue(cs[..|cs| - 1], i, id) && IssuesAt(cs, |cs| - 1, id).None?
  {
    hide IssuesAt;
    var before := cs[..|cs| - 1];
    forall j | 0 <= j < |before| ensures IssuesAt(before, j, id) == IssuesAt(cs, j, id) {
      AtPrefix(cs, j, id);
    }
    if LastIssue(before, i, id) && IssuesAt(cs, |cs| - 1, id).None? {
      forall j | i < j < |cs| ensures IssuesAt(cs, j, id).None? {
        if j < |before| { assert IssuesAt(before, j, id).None?; }
      }
    }
    if LastIssue(cs, i, id) {
      forall j | i < j < |before| ensures IssuesAt(before, j, id).None? {
        assert IssuesAt(cs, j, id).None?;
      }
    }
  }

  lemma NewestShorter(cs: seq<Call>, i: int, id: Id, token: Bytes)
    requires cs != [] && id <= i < |cs| - 1
    ensures NewestAt(cs, i, id, token) <==>
            NewestAt(cs[..|cs| - 1], i, id, token) && IssuesAt(cs, |cs| - 1, id).None? && !EndsAt(cs, |cs| - 1, id)
  {
    hide EndsAt, IssuesAt, Lasts, LastIssue;
    LastsShorter(cs, id);
    LastIssueShorter(cs, i, id);
    AtPrefix(cs, i, id);
  }

  lemma {:induction false} CurrentWhileLasting(cs: seq<Call>, id: Id)
    ensures Current(cs, id).Some? <==> Lasts(cs, id)
    decreases |cs|
  {
    if cs != [] {
      CurrentWhileLasting(cs[..|cs| - 1], id);
      if id < |cs| - 1 { LastsShorter(cs, id); }
    }
  }

  /** `Current` is the newest token, if the session has one. */
  lemma {:induction false} CurrentIsNewest(cs: seq<Call>, id: Id, token: Bytes)
    ensures Current(cs, id) == Some(token) <==> exists i :: NewestAt(cs, i, id, token)
    decreases |cs|
  {
    hide EndsAt;
    CurrentWhileLasting(cs, id);
    if cs != [] {
      var before, last := cs[..|cs| - 1], |cs| - 1;
      CurrentIsNewest(before, id, token);
      forall i | id <= i < last
        ensures NewestAt(cs, i, id, token) <==>
                NewestAt(before, i, id, token) && IssuesAt(cs, last, id).None? && !EndsAt(cs, last, id)
      {
        NewestShorter(cs, i, id, token);
      }
      assert NewestAt(cs, last, id, token) <==>
               Lasts(cs, id) && id <= last && IssuesAt(cs, last, id) == Some(token);
      if i :| NewestAt(before, i, id, token) && IssuesAt(cs, last, id).None? && !EndsAt(cs, last, id) {
        assert NewestAt(cs, i, id, token);
      }
    }
  }

  // ---- The table agrees with the chains -----------------------------------------------

  /** The row of session `id` is there while the session lasts, with its owner and newest token. */
  predicate RowAgrees(k: Key, rows: map<Id, Row>, cs: seq<Call>, id: Id) {
    var current := Current(cs, id);
    (id in rows <==> current.Some?) &&
    (id in rows ==> Opened(cs, id, rows[id].user) && rows[id].cipher == Encrypted(k, current.value))
  }

  lemma {:induction false} RunAgrees(k: Key, cs: seq<Call>, id: Id)
    requires LegalRun(k, cs)
    ensures RowAgrees(k, Run(k, cs), cs, id)
    decreases |cs|
  {
    if cs != [] {
      RunAgrees(k, cs[..|cs| - 1], id);
    }
  }

  /** Comparing ciphertexts finds exactly the user's sessions whose newest token is the given one. */
  lemma LookupFindsNewest(k: Key, cs: seq<Call>, user: UserId, token: Bytes, id: Id)
    requires LegalRun(k, cs)
    ensures id in OwnRows(k, Run(k, cs), user, token) <==> Newest(cs, id, user, token)
  {
    RunAgrees(k, cs, id);
    CurrentIsNewest(cs, id, token);
    if Current(cs, id).Some? { EncryptInjective(k, Current(cs, id).value, token); }
  }

  /** In every run, a refresh that passes its checks is accepted if and only if its token is the
      newest one stored for one of the user's sessions that is not logged out. */
  lemma RefreshAcceptedIff(k: Key, cs: seq<Call>, r: Call)
    requires LegalRun(k, cs) && r.Refresh? && Legal(k, cs, r)
    ensures Accepted(r) <==> r.gate && exists id :: Newest(cs, id, r.user, r.token)
  {
    forall id ensures id in OwnRows(k, Run(k, cs), r.user, r.token) <==> Newest(cs, id, r.user, r.token) {
      LookupFindsNewest(k, cs, r.user, r.token, id);
    }
    if id :| Newest(cs, id, r.user, r.token) {
      assert id in OwnRows(k, Run(k, cs), r.user, r.token);
    }
  }

  // ---- Logging out --------------------------------------------------------------------

  /** Logout's lookup finds exactly the sessions whose newest token is the one presented. */
  lemma LogoutFindsNewest(k: Key, cs: seq<Call>, token: Bytes, id: Id)
    requires LegalRun(k, cs)
    ensures id in AnyRows(k, Run(k, cs), token) <==> exists user :: Newest(cs, id, user, token)
  {
    RunAgrees(k, cs, id);
    CurrentIsNewest(cs, id, token);
    if Current(cs, id).Some? { EncryptInjective(k, Current(cs, id).value, token); }
    if id in Run(k, cs) { assert Opened(cs, id, Run(k, cs)[id].user); }
    if id in AnyRows(k, Run(k, cs), token) { assert Newest(cs, id, Run(k, cs)[id].user, token); }
    if user :| Newest(cs, id, user, token) { assert Current(cs, id) == Some(token); }
  }

  /** In every run, a logout succeeds if and only if its token is the newest one stored for some
      session that is not over, and it then ends such a session. */
  lemma LogoutSucceedsIff(k: Key, cs: seq<Call>, c: Call)
    requires LegalRun(k, cs) && c.Logout? && Legal(k, cs, c)
    ensures c.found.Some? <==> exists id, user :: Newest(cs, id, user, c.token)
    ensures c.found.Some? ==> exists user :: Newest(cs, c.found.value, user, c.token)
  {
    forall id ensures id in AnyRows(k, Run(k, cs), c.token) <==> exists user :: Newest(cs, id, user, c.token) {
      LogoutFindsNewest(k, cs, c.token, id);
    }
    if id, user :| Newest(cs, id, user, c.token) {
      assert id in AnyRows(k, Run(k, cs), c.token);
    }
  }

  /** It ends that session, whose token is refused from then on, and every other session keeps its
      newest token. A logout that finds none changes nothing. */
  lemma LogoutEndsOne(k: Key, cs: seq<Call>, c: Call, id: Id)
    requires LegalRun(k, cs) && c.Logout? && Legal(k, cs, c)
    ensures Lasts(cs + [c], id) <==> Lasts(cs, id) && c.found != Some(id)
    ensures Current(cs + [c], id) == if c.found == Some(id) then None else Current(cs, id)
  {
    hide Run;
    var longer := cs + [c];
    assert longer[..|cs|] == cs;
    if c.found == Some(id) {
      LogoutSucceedsIff(k, cs, c);
    }
    if id < |cs| { LastsShorter(longer, id); }
  }

  /** Logging out everywhere ends exactly the user's sessions. */
  lemma LogoutAllEnds(cs: seq<Call>, user: UserId, id: Id)
    ensures Lasts(cs + [LogoutAll(user)], id) <==> Lasts(cs, id) && !Opened(cs, id, user)
    ensures Current(cs + [LogoutAll(user)], id) == if Opened(cs, id, user) then None else Current(cs, id)
  {
    var longer := cs + [LogoutAll(user)];
    assert longer[..|cs|] == cs;
    if id < |cs| { LastsShorter(longer, id); }
  }

  /** Neither a refresh nor the update it starts opens or ends a session. */
  lemma RefreshKeepsSessions(k: Key, cs: seq<Call>, c: Call)
    requires c.Refresh? || c.Stored?
    ensures Run(k, cs + [c]).Keys == Run(k, cs).Keys
  {
    RunExtends(k, cs, c);
  }

  // ---- Between the answer and the update ----------------------------------------------

  /** A token nothing has stored is refused. */
  lemma UnstoredRefused(k: Key, cs: seq<Call>, w: Call)
    requires LegalRun(k, cs) && w.Refresh? && Legal(k, cs, w)
    requires forall i :: 0 <= i < |cs| ==> Issued(cs[i]) != Some(w.token)
    ensures !Accepted(w)
  {
    RefreshAcceptedIff(k, cs, w);
    forall id, i ensures !NewestAt(cs, i, id, w.token) {
      assert 0 <= i < |cs| ==> Issued(cs[i]) != Some(w.token);
    }
  }

  /** Until the update takes effect the old token is accepted again, and the renewed one, which the
      client already has, is refused. */
  lemma OldTokenUntilStored(k: Key, cs: seq<Call>, r: Call, w: Call)
    requires LegalRun(k, cs) && Legal(k, cs, r) && Accepted(r)
    requires w.Refresh? && w.gate && w.user == r.user && Legal(k, cs + [r], w)
    ensures w.token == r.token ==> Accepted(w)
    ensures w.token == r.renewed && (forall i :: 0 <= i < |cs| ==> Issued(cs[i]) != Some(w.token)) ==> !Accepted(w)
  {
    RunExtends(k, cs, r);
    if w.token == r.token { assert r.found.value in OwnRows(k, Run(k, cs + [r]), w.user, w.token); }
    if w.token == r.renewed && forall i :: 0 <= i < |cs| ==> Issued(cs[i]) != Some(w.token) {
      UnstoredRefused(k, cs + [r], w);
    }
  }

  lemma LegalCallWas(k: Key, cs: seq<Call>, i: nat)
    requires LegalRun(k, cs) && i < |cs|
    ensures LegalRun(k, cs[..i]) && Legal(k, cs[..i], cs[i])
    decreases |cs|
  {
    hide Legal;
    if i < |cs| - 1 {
      LegalCallWas(k, cs[..|cs| - 1], i);
      assert cs[..|cs| - 1][..i] == cs[..i];
    }
  }

  /** When the update takes effect while the session lasts, the renewed token is the session's newest. */
  lemma StoredIsNewest(k: Key, cs: seq<Call>, c: Call)
    requires LegalRun(k, cs) && c.Stored? && Legal(k, cs, c) && Lasts(cs, c.id)
    ensures Newest(cs + [c], c.id, cs[c.of].user, c.renewed)
  {
    hide Run, Encrypted, Lasts;
    var longer, r := cs + [c], cs[c.of];
    LegalCallWas(k, cs, c.of);
    assert c.id in OwnRows(k, Run(k, cs[..c.of]), r.user, r.token);
    LookupFindsNewest(k, cs[..c.of], r.user, r.token, c.id);
    assert Opened(cs, c.id, r.user);
    assert longer[..|cs|] == cs;
    LastsShorter(longer, c.id);
    assert NewestAt(longer, |cs|, c.id, c.renewed);
  }

  /** Two refreshes that overlap are both accepted with the same token, and the one whose update
      comes first hands out a token that is never accepted. */
  lemma OverlappingRefreshes(k: Key, user: UserId, t: Bytes, a: Bytes, b: Bytes, w: Call)
    requires a != b
    requires var cs := [SignIn(user, t), Refresh(user, t, a, true, Some(0)), Refresh(user, t, b, true, Some(0)),
                        Stored(1, 0, a), Stored(2, 0, b)];
             w.Refresh? && w.token == a && Legal(k, cs, w)
    ensures var cs := [SignIn(user, t), Refresh(user, t, a, true, Some(0)), Refresh(user, t, b, true, Some(0)),
                       Stored(1, 0, a), Stored(2, 0, b)];
            LegalRun(k, cs) && !Accepted(w)
  {
    hide Encrypted, Run, LegalRun;
    var c0, c1, c2 := SignIn(user, t), Refresh(user, t, a, true, Some(0)), Refresh(user, t, b, true, Some(0));
    var c3, c4 := Stored(1, 0, a), Stored(2, 0, b);
    FirstSignIn(k, user, t);
    RunExtends(k, [c0], c1);
    RunExtends(k, [c0, c1], c2);
    RunExtends(k, [c0, c1, c2], c3);
    RunExtends(k, [c0, c1, c2, c3], c4);
    assert [c0] + [c1] == [c0, c1] && [c0, c1] + [c2] == [c0, c1, c2];
    assert [c0, c1, c2] + [c3] == [c0, c1, c2, c3] && [c0, c1, c2, c3] + [c4] == [c0, c1, c2, c3, c4];
    assert 0 in OwnRows(k, Run(k, [c0]), user, t) && 0 in OwnRows(k, Run(k, [c0, c1]), user, t);
    EncryptInjective(k, a, b);
    assert Run(k, [c0, c1, c2, c3, c4]) == map[0 := Row(user, Encrypted(k, b))];
  }

  // ---- Distinct tokens ----------------------------------------------------------------

  /** The token a call stores, for whichever session. */
  function Issued(c: Call): Option<Bytes> {
    if c.SignIn? then Some(c.token) else if c.Stored? then Some(c.renewed) else None
  }

  /** No token is stored twice. */
  ghost predicate DistinctTokens(cs: seq<Call>) {
    forall i, j :: 0 <= i < j < |cs| && Issued(cs[i]).Some? ==> Issued(cs[i]) != Issued(cs[j])
  }

  lemma IssueUnique(cs: seq<Call>, i: nat, j: nat, a: Id, b: Id, token: Bytes)
    requires DistinctTokens(cs) && i < |cs| && j < |cs|
    requires IssuesAt(cs, i, a) == Some(token) && IssuesAt(cs, j, b) == Some(token)
    ensures i == j && a == b
  {
    assert Issued(cs[i]) == Some(token) && Issued(cs[j]) == Some(token);
  }

  lemma ReplacedNotNewest(cs: seq<Call>, i: nat, j: nat, id: Id, other: Id, user: UserId, token: Bytes)
    requires DistinctTokens(cs) && i < j < |cs|
    requires IssuesAt(cs, i, id) == Some(token) && (IssuesAt(cs, j, id).Some? || EndsAt(cs, j, id))
    ensures !Newest(cs, other, user, token)
  {
    hide EndsAt, Issued, DistinctTokens;
    if Newest(cs, other, user, token) {
      var n :| NewestAt(cs, n, other, token);
      IssueUnique(cs, i, n, id, other, token);
      assert false;
    }
  }

  /** A token that was replaced by a stored rotation, or whose session is over, is never accepted again. */
  lemma ReplacedTokenRejected(k: Key, cs: seq<Call>, i: nat, j: nat, id: Id, r: Call)
    requires LegalRun(k, cs) && DistinctTokens(cs) && i < j < |cs|
    requires r.Refresh? && Legal(k, cs, r)
    requires IssuesAt(cs, i, id) == Some(r.token) && (IssuesAt(cs, j, id).Some? || EndsAt(cs, j, id))
    ensures !Accepted(r)
  {
    RefreshAcceptedIff(k, cs, r);
    forall other ensures !Newest(cs, other, r.user, r.token) {
      ReplacedNotNewest(cs, i, j, id, other, r.user, r.token);
    }
  }

  /** With distinct tokens a ciphertext lookup has at most one row to find. */
  lemma LookupUnique(k: Key, cs: seq<Call>, user: UserId, token: Bytes, a: Id, b: Id)
    requires LegalRun(k, cs) && DistinctTokens(cs)
    requires a in OwnRows(k, Run(k, cs), user, token) && b in OwnRows(k, Run(k, cs), user, token)
    ensures a == b
  {
    LookupFindsNewest(k, cs, user, token, a);
    LookupFindsNewest(k, cs, user, token, b);
    var i :| NewestAt(cs, i, a, token);
    var j :| NewestAt(cs, j, b, token);
    IssueUnique(cs, i, j, a, b, token);
  }

  /** When the same token is issued to two sessions - two sign-ins in one second sign the same
      claims - rotating it in one leaves it usable through the other. */
  lemma RepeatedTokenSurvives(k: Key, user: UserId, t: Bytes, renewed: Bytes, later: Bytes)
    ensures var cs := [SignIn(user, t), SignIn(user, t),
                       Refresh(user, t, renewed, true, Some(0)), Stored(2, 0, renewed)];
            var again := Refresh(user, t, later, true, Some(1));
            LegalRun(k, cs) && Legal(k, cs, again) && Accepted(again)
  {
    hide Encrypted, Run, LegalRun;
    var a, b, c := SignIn(user, t), SignIn(user, t), Refresh(user, t, renewed, true, Some(0));
    var d := Stored(2, 0, renewed);
    FirstSignIn(k, user, t);
    RunExtends(k, [a], b);
    RunExtends(k, [a, b], c);
    RunExtends(k, [a, b, c], d);
    assert [a] + [b] == [a, b] && [a, b] + [c] == [a, b, c] && [a, b, c] + [d] == [a, b, c, d];
    assert 0 in OwnRows(k, Run(k, [a, b]), user, t);
    assert 1 in OwnRows(k, Run(k, [a, b, c, d]), user, t);
  }

  // ---- The handlers -------------------------------------------------------------------

  class AuthTokens {
    const key: Key
    var rows: map<Id, Row>
    ghost var calls: seq<Call>
    var next: Id

    ghost predicate Valid()
      reads this
    {
      rows == Run(key, calls) && LegalRun(key, calls) && next == |calls|
    }

    constructor (key: Key)
      ensures Valid() && calls == [] && this.key == key
    {
      this.key := key;
      rows, calls, next := map[], [], 0;
    }

    ghost method Record(c: Call)
      requires LegalRun(key, calls) && Legal(key, calls, c)
      modifies `calls
      ensures calls == old(calls) + [c] && LegalRun(key, calls)
      ensures Run(key, calls) == After(key, old(Run(key, calls)), c, old(|calls|))
    {
      RunExtends(key, calls, c);
      calls := calls + [c];
    }

    method StoreTokensForUser(user: UserId, token: Bytes)
      requires Valid()
      modifies this
      ensures Valid() && calls == old(calls) + [SignIn(user, token)]
    {
      Record(SignIn(user, token));
      rows := rows[next := Row(user, Encrypted(key, token))];
      next := next + 1;
    }

    /** refreshTokens, up to its answer; `renewed` is the newly signed refresh token. */
    method RefreshTokens(user: UserId, token: Bytes, renewed: Bytes, gate: bool, found: Option<Id>) returns (ok: bool)
      requires Valid() && IsAnswer(found, OwnRows(key, rows, user, token))
      modifies `calls, `next
      ensures Valid() && calls == old(calls) + [Refresh(user, token, renewed, gate, found)]
      ensures ok <==> gate && exists id :: Newest(old(calls), id, user, token)
    {
      ghost var c := Refresh(user, token, renewed, gate, found);
      RefreshAcceptedIff(key, calls, c);
      Record(c);
      next := next + 1;
      return gate && found.Some?;
    }

    /** updateTokens, for the refresh that was call `of`: changes a row, if it is still there. */
    method UpdateTokens(ghost of: nat, id: Id, renewed: Bytes)
      requires Valid() && Started(calls, Stored(of, id, renewed))
      modifies this
      ensures Valid() && calls == old(calls) + [Stored(of, id, renewed)] && rows.Keys == old(rows).Keys
      ensures id in rows ==> Newest(calls, id, old(calls)[of].user, renewed)
    {
      ghost var c := Stored(of, id, renewed);
      RunAgrees(key, calls, id);
      CurrentWhileLasting(calls, id);
      if id in rows { StoredIsNewest(key, calls, c); }
      hide Lasts, Newest, NewestAt;
      Record(c);
      next := next + 1;
      if id in rows {
        rows := rows[id := rows[id].(cipher := Encrypted(key, renewed))];
      }
    }

    method LogOut(token: Bytes, found: Option<Id>) returns (ok: bool)
      requires Valid() && IsAnswer(found, AnyRows(key, rows, token))
      modifies this
      ensures Valid() && calls == old(calls) + [Logout(token, found)]
      ensures ok <==> exists id, user :: Newest(old(calls), id, user, token)
      ensures ok ==> found.Some? && !Lasts(calls, found.value) && rows == old(rows) - {found.value}
      ensures !ok ==> rows == old(rows)
    {
      LogoutSucceedsIff(key, calls, Logout(token, found));
      if found.Some? { LogoutEndsOne(key, calls, Logout(token, found), found.value); }
      Record(Logout(token, found));
      next := next + 1;
      if found.None? { return false; }
      rows := rows - {found.value};
      return true;
    }

    method LogOutAll(user: UserId)
      requires Valid()
      modifies this
      ensures Valid() && calls == old(calls) + [LogoutAll(user)]
      ensures forall id :: id in rows <==> id in old(rows) && old(rows)[id].user != user
    {
      Record(LogoutAll(user));
      next := next + 1;
      rows := map id | id in rows && rows[id].user != user :: rows[id];
    }
  }
}
