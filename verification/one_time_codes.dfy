/** One-time codes: the table of codes, the handlers that send, verify, issue and spend them, and
    what an accepted code proves about the calls before it.

    Sign-in and verification codes are looked up by owner and kind. A cash-out's codes are inserted
    without a lookup, and a cash-out looks a code up by its number alone. */
module OneTimeCodes {
  import opened Common

  const LIFETIME := 15 * 60 * 1000
  const TRANSACTION_LIFETIME := 60 * 1000

  type Id = nat

  datatype Owner = User(id: nat) | Input(text: string)
  datatype Kind = Auth | Verification | Transaction

  /** The kinds the send and verify handlers work with. */
  type Challenge = k: Kind | k != Transaction witness Auth

  datatype Row = Row(owner: Owner, kind: Kind, code: int, expiry: int)

  /** The calls. `found` is the database's answer to the handler's lookup in the table of codes.
      `gate` says whether the checks before that lookup succeed (the client application, the user, a
      mobile number or e-mail being there, a mobile not being verified yet); `profile` whether the
      verification record that verifyMobile and verifyEmail ask for after the code has matched
      exists; `commits` whether the withdrawal's remaining checks succeed and it is committed. The
      row a call inserts is named by the call's position. */
  datatype Call =
    | Send(owner: Owner, kind: Challenge, code: int, now: int, gate: bool, found: Option<Id>)
    | Verify(owner: Owner, kind: Challenge, code: int, now: int, gate: bool, profile: bool, found: Option<Id>)
    | Issue(user: nat, code: int, now: int, gate: bool)
    | CashOut(user: nat, code: int, now: int, commits: bool, found: Option<Id>)

  // ---- The table ----------------------------------------------------------------------

  predicate Owns(r: Row, owner: Owner, kind: Kind) {
    r.owner == owner && r.kind == kind
  }

  function OwnRows(rows: map<Id, Row>, owner: Owner, kind: Kind): set<Id> {
    set id | id in rows && Owns(rows[id], owner, kind)
  }

  /** The rows a verification may get: the owner's rows of the kind, with the code, not expired. */
  function MatchingRows(rows: map<Id, Row>, owner: Owner, kind: Kind, code: int, now: int): set<Id> {
    set id | id in rows && Owns(rows[id], owner, kind) && rows[id].code == code && rows[id].expiry > now
  }

  /** The rows a cash-out may get: any with the code that has not expired. */
  function NumberedRows(rows: map<Id, Row>, code: int, now: int): set<Id> {
    set id | id in rows && rows[id].code == code && rows[id].expiry >= now
  }

  /** The call's answer is one the database may give. */
  predicate Legal(rows: map<Id, Row>, c: Call) {
    match c
    case Send(owner, kind, _, _, _, found) => IsAnswer(found, OwnRows(rows, owner, kind))
    case Verify(owner, kind, code, now, _, _, found) => IsAnswer(found, MatchingRows(rows, owner, kind, code, now))
    case Issue(_, _, _, _) => true
    case CashOut(_, code, now, _, found) => IsAnswer(found, NumberedRows(rows, code, now))
  }

  /** The row the call deletes. */
  function Taken(c: Call): Option<Id> {
    if (c.Verify? && c.gate && c.profile) || (c.CashOut? && c.commits) then c.found else None
  }

  predicate Accepted(c: Call) {
    Taken(c).Some?
  }

  function After(rows: map<Id, Row>, c: Call, n: Id): map<Id, Row> {
    match c
    case Send(owner, kind, code, now, gate, found) =>
      if !gate then rows
      else if found.None? then rows[n := Row(owner, kind, code, now + LIFETIME)]
      else if found.value in rows then
        rows[found.value := rows[found.value].(code := code, expiry := now + LIFETIME)]
      else rows
    case Issue(user, code, now, gate) =>
      if gate then rows[n := Row(User(user), Transaction, code, now + TRANSACTION_LIFETIME)] else rows
    case _ => if Accepted(c) then rows - {Taken(c).value} else rows
  }

  function Run(cs: seq<Call>): map<Id, Row>
    decreases |cs|
  {
    if cs == [] then map[] else After(Run(cs[..|cs| - 1]), cs[|cs| - 1], |cs| - 1)
  }

  ghost predicate LegalRun(cs: seq<Call>)
    decreases |cs|
  {
    cs == [] || (LegalRun(cs[..|cs| - 1]) && Legal(Run(cs[..|cs| - 1]), cs[|cs| - 1]))
  }

  lemma RunExtends(cs: seq<Call>, c: Call)
    ensures Run(cs + [c]) == After(Run(cs), c, |cs|)
    ensures LegalRun(cs + [c]) <==> LegalRun(cs) && Legal(Run(cs), c)
  {
    hide After, Legal;
    assert (cs + [c])[..|cs|] == cs;
  }

  // ---- The history, read off the calls ------------------------------------------------

  /** Call `i` carried out a send to (owner, kind). */
  predicate SentAt(cs: seq<Call>, i: nat, owner: Owner, kind: Kind)
    requires i < |cs|
  {
    cs[i].Send? && cs[i].gate && cs[i].owner == owner && cs[i].kind == kind
  }

  predicate IssuedAt(cs: seq<Call>, i: nat)
    requires i < |cs|
  {
    cs[i].Issue? && cs[i].gate
  }

  /** Row `id` was inserted for (owner, kind). */
  predicate Names(cs: seq<Call>, id: Id, owner: Owner, kind: Kind) {
    id < |cs| &&
    (SentAt(cs, id, owner, kind) || (IssuedAt(cs, id) && owner == User(cs[id].user) && kind == Transaction))
  }

  /** Call `j` deleted a row of (owner, kind). */
  predicate TakesAt(cs: seq<Call>, j: nat, owner: Owner, kind: Kind)
    requires j < |cs|
  {
    Accepted(cs[j]) && Taken(cs[j]).value < j && Names(cs, Taken(cs[j]).value, owner, kind)
  }

  /** Call `j` ends what was outstanding for (owner, kind): a new send, or a deletion. */
  predicate Ends(cs: seq<Call>, j: nat, owner: Owner, kind: Kind)
    requires j < |cs|
  {
    SentAt(cs, j, owner, kind) || TakesAt(cs, j, owner, kind)
  }

  /** Call `i` is the latest send to (owner, kind), and nothing since has deleted its row. */
  ghost predicate Outstanding(cs: seq<Call>, i: int, owner: Owner, kind: Challenge) {
    0 <= i < |cs| && SentAt(cs, i, owner, kind) && forall j :: i < j < |cs| ==> !Ends(cs, j, owner, kind)
  }

  /** Call `i` issued a TRANSACTION code, and nothing since has deleted its row. */
  ghost predicate OutstandingIssue(cs: seq<Call>, i: int) {
    0 <= i < |cs| && IssuedAt(cs, i) && forall j :: i < j < |cs| ==> Taken(cs[j]) != Some(i)
  }

  /** The outstanding send to (owner, kind) carried `code` and is less than fifteen minutes old. */
  ghost predicate Redeems(cs: seq<Call>, owner: Owner, kind: Challenge, code: int, now: int) {
    exists i :: Outstanding(cs, i, owner, kind) && cs[i].code == code && now < cs[i].now + 15 * 60 * 1000
  }

  /** Call `i` sent or issued `code`, to whomever and of whatever kind; the code is outstanding, and at
      `now` at most fifteen minutes or, if it was issued for a cash-out, one minute old. */
  ghost predicate Spends(cs: seq<Call>, i: int, code: int, now: int) {
    0 <= i < |cs| && cs[i].code == code &&
    ((cs[i].Send? && Outstanding(cs, i, cs[i].owner, cs[i].kind) && now <= cs[i].now + 15 * 60 * 1000) ||
     (OutstandingIssue(cs, i) && now <= cs[i].now + 60 * 1000))
  }

  /** The position of the outstanding send, read off the history from its end. */
  function Live(cs: seq<Call>, owner: Owner, kind: Challenge): (i: Option<int>)
    ensures i.Some? ==> 0 <= i.value < |cs| && SentAt(cs, i.value, owner, kind)
    decreases |cs|
  {
    if cs == [] then None
    else if SentAt(cs, |cs| - 1, owner, kind) then Some(|cs| - 1)
    else if TakesAt(cs, |cs| - 1, owner, kind) then None
    else Live(cs[..|cs| - 1], owner, kind)
  }

  /** What call `j` did depends only on the calls up to it. */
  lemma AtPrefix(cs: seq<Call>, n: nat, j: nat, owner: Owner, kind: Kind)
    requires j < n <= |cs|
    ensures SentAt(cs[..n], j, owner, kind) == SentAt(cs, j, owner, kind)
    ensures TakesAt(cs[..n], j, owner, kind) == TakesAt(cs, j, owner, kind)
    ensures Names(cs[..n], j, owner, kind) == Names(cs, j, owner, kind)
  {
  }

  lemma OutstandingShorter(cs: seq<Call>, i: int, owner: Owner, kind: Challenge)
    requires cs != [] && 0 <= i < |cs| - 1
    ensures Outstanding(cs, i, owner, kind) <==>
            Outstanding(cs[..|cs| - 1], i, owner, kind) && !Ends(cs, |cs| - 1, owner, kind)
  {
    hide TakesAt, SentAt, Names;
    var before := cs[..|cs| - 1];
    forall j | 0 <= j < |before|
      ensures SentAt(before, j, owner, kind) == SentAt(cs, j, owner, kind)
      ensures Ends(before, j, owner, kind) == Ends(cs, j, owner, kind)
    {
      AtPrefix(cs, |cs| - 1, j, owner, kind);
    }
  }

  /** `Live` finds the outstanding send, if there is one. */
  lemma {:induction false} LiveIsOutstanding(cs: seq<Call>, i: int, owner: Owner, kind: Challenge)
    ensures Live(cs, owner, kind) == Some(i) <==> Outstanding(cs, i, owner, kind)
    decreases |cs|
  {
    hide TakesAt, SentAt, Names;
    if 0 <= i < |cs| - 1 {
      LiveIsOutstanding(cs[..|cs| - 1], i, owner, kind);
      OutstandingShorter(cs, i, owner, kind);
    }
  }

  // ---- Rows and the calls that made them ----------------------------------------------

  /** Every row belongs to whom the call that inserted it was for. */
  lemma {:induction false} RowOrigin(cs: seq<Call>, id: Id)
    requires id in Run(cs)
    ensures Names(cs, id, Run(cs)[id].owner, Run(cs)[id].kind)
    decreases |cs|
  {
    var before := cs[..|cs| - 1];
    if id in Run(before) { RowOrigin(before, id); }
  }

  /** At most one row of `kind` for each owner. */
  predicate Unique(rows: map<Id, Row>, kind: Kind) {
    forall a, b :: a in rows && b in rows && rows[a].kind == kind && Owns(rows[b], rows[a].owner, kind) ==> a == b
  }

  lemma AfterUnique(rows: map<Id, Row>, c: Call, n: Id, kind: Challenge)
    requires Unique(rows, kind) && Legal(rows, c)
    ensures Unique(After(rows, c, n), kind)
  {
    if c.Send? && c.gate {
      if c.found.None? {
        assert forall id :: id in rows ==> id !in OwnRows(rows, c.owner, c.kind);
      } else {
        assert c.found.value in OwnRows(rows, c.owner, c.kind);
      }
    }
  }

  /** In every run, at most one sign-in code and one verification code exists for each owner. */
  lemma {:induction false} RunUnique(cs: seq<Call>, kind: Challenge)
    requires LegalRun(cs)
    ensures Unique(Run(cs), kind)
    decreases |cs|
  {
    hide After, Legal;
    if cs != [] {
      RunUnique(cs[..|cs| - 1], kind);
      AfterUnique(Run(cs[..|cs| - 1]), cs[|cs| - 1], |cs| - 1, kind);
    }
  }

  /** The table holds a row of (owner, kind) just when a send is outstanding, with its code and time. */
  predicate Explained(rows: map<Id, Row>, cs: seq<Call>, owner: Owner, kind: Challenge) {
    var live := Live(cs, owner, kind);
    (live.Some? <==> OwnRows(rows, owner, kind) != {}) &&
    (live.Some? ==> forall id :: id in OwnRows(rows, owner, kind) ==>
       rows[id].code == cs[live.value].code && rows[id].expiry == cs[live.value].now + LIFETIME)
  }

  /** A send to (owner, kind) leaves one row of theirs, with its code and time. */
  lemma SendExplained(rows: map<Id, Row>, c: Call, n: Id)
    requires c.Send? && c.gate && Legal(rows, c) && Unique(rows, c.kind)
    ensures var id := if c.found.Some? then c.found.value else n;
            var post := After(rows, c, n);
            OwnRows(post, c.owner, c.kind) == {id} && id in post &&
            post[id].code == c.code && post[id].expiry == c.now + LIFETIME
  {
    if c.found.None? {
      assert forall id :: id in rows ==> id !in OwnRows(rows, c.owner, c.kind);
    } else {
      assert c.found.value in OwnRows(rows, c.owner, c.kind);
    }
  }

  lemma TakenIsThere(rows: map<Id, Row>, c: Call)
    requires Legal(rows, c) && Accepted(c)
    ensures Taken(c).value in rows
    ensures c.Verify? ==> Owns(rows[Taken(c).value], c.owner, c.kind)
    ensures rows[Taken(c).value].code == c.code && rows[Taken(c).value].expiry >= c.now
  {
    if c.Verify? {
      assert c.found.value in MatchingRows(rows, c.owner, c.kind, c.code, c.now);
    } else {
      assert c.found.value in NumberedRows(rows, c.code, c.now);
    }
  }

  /** Deleting the only row of (owner, kind) leaves none. */
  lemma TakenGone(rows: map<Id, Row>, c: Call, n: Id, owner: Owner, kind: Challenge)
    requires Legal(rows, c) && Accepted(c) && Unique(rows, kind)
    requires Taken(c).value in rows && Owns(rows[Taken(c).value], owner, kind)
    ensures OwnRows(After(rows, c, n), owner, kind) == {}
  {
    assert forall id :: id in rows && Owns(rows[id], owner, kind) ==> id == Taken(c).value;
  }

  /** A call that neither sends to (owner, kind) nor deletes a row of theirs leaves their rows alone. */
  lemma OthersKept(rows: map<Id, Row>, c: Call, n: Id, owner: Owner, kind: Challenge)
    requires Legal(rows, c) && n !in rows
    requires c.Send? && c.gate ==> c.owner != owner || c.kind != kind
    requires Accepted(c) ==> Taken(c).value in rows && !Owns(rows[Taken(c).value], owner, kind)
    ensures OwnRows(After(rows, c, n), owner, kind) == OwnRows(rows, owner, kind)
    ensures forall id :: id in OwnRows(rows, owner, kind) ==> After(rows, c, n)[id] == rows[id]
  {
    if c.Send? && c.gate && c.found.Some? {
      assert c.found.value in OwnRows(rows, c.owner, c.kind);
    }
    var post := After(rows, c, n);
    assert forall id :: id in post && Owns(post[id], owner, kind) ==> id in rows && post[id] == rows[id];
    assert forall id :: id in rows && Owns(rows[id], owner, kind) ==> id in post && post[id] == rows[id];
  }

  /** The last call deletes a row of (owner, kind) exactly if the history says so. */
  lemma TakenNames(cs: seq<Call>, owner: Owner, kind: Kind)
    requires cs != [] && LegalRun(cs) && Accepted(cs[|cs| - 1])
    ensures var id := Taken(cs[|cs| - 1]).value;
            id in Run(cs[..|cs| - 1]) &&
            (Owns(Run(cs[..|cs| - 1])[id], owner, kind) <==> TakesAt(cs, |cs| - 1, owner, kind))
  {
    hide After, Legal;
    var before, c := cs[..|cs| - 1], cs[|cs| - 1];
    TakenIsThere(Run(before), c);
    RowOrigin(before, Taken(c).value);
  }

  lemma NewIsFresh(cs: seq<Call>)
    ensures |cs| !in Run(cs)
  {
    if |cs| in Run(cs) { RowOrigin(cs, |cs|); }
  }

  /** In every run the rows of sign-in and verification codes are exactly the outstanding sends. */
  lemma {:induction false} RunExplained(cs: seq<Call>, owner: Owner, kind: Challenge)
    requires LegalRun(cs)
    ensures Explained(Run(cs), cs, owner, kind)
    decreases |cs|
  {
    hide After, Legal, Owns, OwnRows, Unique, Accepted, Taken, TakesAt;
    if cs != [] {
      var before, c := cs[..|cs| - 1], cs[|cs| - 1];
      var rows := Run(before);
      RunExplained(before, owner, kind);
      RunUnique(before, kind);
      NewIsFresh(before);
      if SentAt(cs, |cs| - 1, owner, kind) {
        SendExplained(rows, c, |before|);
      } else {
        TakesNeedsAccepted(cs, owner, kind);
        if Accepted(c) { TakenNames(cs, owner, kind); }
        if TakesAt(cs, |cs| - 1, owner, kind) {
          TakenGone(rows, c, |before|, owner, kind);
        } else {
          OthersKept(rows, c, |before|, owner, kind);
        }
      }
    } else {
      NoRows(owner, kind);
    }
  }

  lemma NoRows(owner: Owner, kind: Kind)
    ensures OwnRows(map[], owner, kind) == {}
  {
  }

  lemma TakesNeedsAccepted(cs: seq<Call>, owner: Owner, kind: Kind)
    requires cs != []
    ensures TakesAt(cs, |cs| - 1, owner, kind) ==> Accepted(cs[|cs| - 1])
  {
  }

  // ---- Verifying ----------------------------------------------------------------------

  /** The outstanding send and the row, seen from the calls. */
  lemma OutstandingRow(cs: seq<Call>, i: int, owner: Owner, kind: Challenge)
    requires LegalRun(cs) && Outstanding(cs, i, owner, kind)
    ensures OwnRows(Run(cs), owner, kind) != {}
    ensures forall id :: id in OwnRows(Run(cs), owner, kind) ==>
              Run(cs)[id].code == cs[i].code && Run(cs)[id].expiry == cs[i].now + LIFETIME
  {
    RunExplained(cs, owner, kind);
    LiveIsOutstanding(cs, i, owner, kind);
  }

  lemma RowOutstanding(cs: seq<Call>, id: Id, owner: Owner, kind: Challenge) returns (i: int)
    requires LegalRun(cs) && id in OwnRows(Run(cs), owner, kind)
    ensures Outstanding(cs, i, owner, kind)
    ensures Run(cs)[id].code == cs[i].code && Run(cs)[id].expiry == cs[i].now + LIFETIME
  {
    RunExplained(cs, owner, kind);
    i := Live(cs, owner, kind).value;
    LiveIsOutstanding(cs, i, owner, kind);
  }

  /** In every run: a verification at time `now` is accepted if and only if its checks succeed and
      the latest send to that owner and kind carried its code, was made less than fifteen minutes
      before, and its row has been deleted neither by a verification nor by a cash-out. */
  lemma VerifyAcceptedIff(cs: seq<Call>, v: Call)
    requires LegalRun(cs) && v.Verify? && Legal(Run(cs), v)
    ensures Accepted(v) <==> v.gate && v.profile && Redeems(cs, v.owner, v.kind, v.code, v.now)
  {
    hide Run, LegalRun;
    var rows := Run(cs);
    var matching := MatchingRows(rows, v.owner, v.kind, v.code, v.now);
    if matching != {} {
      var id :| id in matching;
      assert id in OwnRows(rows, v.owner, v.kind);
      var i := RowOutstanding(cs, id, v.owner, v.kind);
    }
    if i :| Outstanding(cs, i, v.owner, v.kind) && cs[i].code == v.code && v.now < cs[i].now + LIFETIME {
      OutstandingRow(cs, i, v.owner, v.kind);
      var id :| id in OwnRows(rows, v.owner, v.kind);
      assert id in matching;
    }
  }

  /** Once the row is deleted and nothing is sent after that, nothing can be redeemed. */
  lemma ConsumedNotRedeemed(cs: seq<Call>, j: nat, owner: Owner, kind: Challenge, code: int, now: int)
    requires j < |cs| && TakesAt(cs, j, owner, kind)
    requires forall i :: j < i < |cs| ==> !SentAt(cs, i, owner, kind)
    ensures !Redeems(cs, owner, kind, code, now)
  {
    assert Ends(cs, j, owner, kind);
  }

  lemma {:induction false} LegalPrefix(cs: seq<Call>, n: nat)
    requires LegalRun(cs) && n <= |cs|
    ensures LegalRun(cs[..n])
    decreases |cs|
  {
    if n == |cs| {
      assert cs[..n] == cs;
    } else {
      LegalPrefix(cs[..|cs| - 1], n);
      assert cs[..|cs| - 1][..n] == cs[..n];
    }
  }

  /** An accepted verification deletes a row of its own owner and kind. */
  lemma VerifyTakesOwn(cs: seq<Call>, j: nat)
    requires LegalRun(cs) && j < |cs| && cs[j].Verify? && Accepted(cs[j])
    ensures TakesAt(cs, j, cs[j].owner, cs[j].kind)
  {
    hide TakesAt, Accepted, Taken, Legal, After, Names, SentAt;
    var upTo := cs[..j + 1];
    LegalPrefix(cs, j + 1);
    assert upTo[..j] == cs[..j] && upTo[j] == cs[j];
    assert Legal(Run(cs[..j]), cs[j]);
    TakenIsThere(Run(cs[..j]), cs[j]);
    TakenNames(upTo, cs[j].owner, cs[j].kind);
    AtPrefix(cs, j + 1, j, cs[j].owner, cs[j].kind);
  }

  /** No code is accepted twice: a later verification fails unless a new send came between. */
  lemma NoReplay(cs: seq<Call>, j: nat, w: Call)
    requires LegalRun(cs) && j < |cs| && cs[j].Verify? && Accepted(cs[j])
    requires w.Verify? && Legal(Run(cs), w) && cs[j].owner == w.owner && cs[j].kind == w.kind
    requires forall i :: j < i < |cs| ==> !SentAt(cs, i, w.owner, w.kind)
    ensures !Accepted(w)
  {
    hide TakesAt, Redeems, Legal, Run, SentAt, LegalRun;
    VerifyTakesOwn(cs, j);
    ConsumedNotRedeemed(cs, j, w.owner, w.kind, w.code, w.now);
    VerifyAcceptedIff(cs, w);
  }

  // ---- Codes for cash-outs ------------------------------------------------------------

  /** In every run the TRANSACTION rows are exactly the outstanding issues, each its own row. */
  lemma {:induction false} IssueRows(cs: seq<Call>, id: Id)
    requires LegalRun(cs)
    ensures id in Run(cs) && Run(cs)[id].kind == Transaction <==> OutstandingIssue(cs, id)
    ensures OutstandingIssue(cs, id) ==>
              Run(cs)[id] == Row(User(cs[id].user), Transaction, cs[id].code, cs[id].now + TRANSACTION_LIFETIME)
    decreases |cs|
  {
    if cs != [] {
      var before, c := cs[..|cs| - 1], cs[|cs| - 1];
      IssueRows(before, id);
      NewIsFresh(before);
      assert id < |before| ==> (OutstandingIssue(cs, id) <==> OutstandingIssue(before, id) && Taken(c) != Some(id));
      if c.Send? && c.found.Some? { assert c.found.value in OwnRows(Run(before), c.owner, c.kind); }
    }
  }

  /** A user has one TRANSACTION row at most if and only if no two of the user's codes are
      outstanding: issuing looks for no earlier row. */
  lemma TransactionUniqueIff(cs: seq<Call>)
    requires LegalRun(cs)
    ensures Unique(Run(cs), Transaction) <==>
            forall i, j :: i < j && OutstandingIssue(cs, i) && OutstandingIssue(cs, j) ==> cs[i].user != cs[j].user
  {
    hide Run, LegalRun;
    forall id: Id
      ensures id in Run(cs) && Run(cs)[id].kind == Transaction <==> OutstandingIssue(cs, id)
      ensures OutstandingIssue(cs, id) ==> Run(cs)[id].owner == User(cs[id].user)
    {
      IssueRows(cs, id);
    }
  }

  /** Two codes issued to one user are two rows, and both can be spent. */
  lemma TwoIssues(user: nat, a: int, b: int)
    ensures var cs := [Issue(user, a, 0, true), Issue(user, b, 0, true)];
            LegalRun(cs) && !Unique(Run(cs), Transaction) &&
            NumberedRows(Run(cs), a, 0) != {} && NumberedRows(Run(cs), b, 0) != {}
  {
    var x, y := Issue(user, a, 0, true), Issue(user, b, 0, true);
    RunExtends([], x);
    RunExtends([x], y);
    assert [] + [x] == [x] && [x] + [y] == [x, y];
    var rows := Run([x, y]);
    assert 0 in NumberedRows(rows, a, 0) && 1 in NumberedRows(rows, b, 0);
    assert Owns(rows[1], rows[0].owner, Transaction);
  }

  // ---- Cash-outs ----------------------------------------------------------------------

  lemma SpendableRow(cs: seq<Call>, i: int, code: int, now: int) returns (id: Id)
    requires LegalRun(cs) && Spends(cs, i, code, now)
    ensures id in NumberedRows(Run(cs), code, now)
    ensures cs[i].Send? ==> Owns(Run(cs)[id], cs[i].owner, cs[i].kind)
  {
    hide Run, LegalRun, Outstanding, OutstandingIssue;
    if cs[i].Send? && Outstanding(cs, i, cs[i].owner, cs[i].kind) {
      OutstandingRow(cs, i, cs[i].owner, cs[i].kind);
      id :| id in OwnRows(Run(cs), cs[i].owner, cs[i].kind);
    } else {
      IssuesAreIssues(cs);
      id := i;
      IssueRows(cs, id);
    }
  }

  lemma IssuesAreIssues(cs: seq<Call>)
    ensures forall i :: OutstandingIssue(cs, i) ==> 0 <= i < |cs| && cs[i].Issue?
  {
  }

  lemma SpentCall(cs: seq<Call>, id: Id, code: int, now: int) returns (i: int)
    requires LegalRun(cs) && id in NumberedRows(Run(cs), code, now)
    ensures Spends(cs, i, code, now)
  {
    hide Run, LegalRun, OutstandingIssue;
    var row := Run(cs)[id];
    if row.kind == Transaction {
      IssueRows(cs, id);
      IssuesAreIssues(cs);
      i := id;
    } else {
      assert id in OwnRows(Run(cs), row.owner, row.kind);
      i := RowOutstanding(cs, id, row.owner, row.kind);
    }
  }

  /** In every run: a withdrawal whose other checks succeed is accepted if and only if some
      outstanding code has its number and has not expired - sent to whomever, for whatever purpose. */
  lemma CashOutAcceptedIff(cs: seq<Call>, c: Call)
    requires LegalRun(cs) && c.CashOut? && Legal(Run(cs), c)
    ensures Accepted(c) <==> c.commits && exists i :: Spends(cs, i, c.code, c.now)
  {
    hide Run, LegalRun, Spends;
    var numbered := NumberedRows(Run(cs), c.code, c.now);
    if numbered != {} {
      var id :| id in numbered;
      var i := SpentCall(cs, id, c.code, c.now);
    }
    if i :| Spends(cs, i, c.code, c.now) {
      var id := SpendableRow(cs, i, c.code, c.now);
    }
  }

  /** An accepted withdrawal deletes the one row it found, and changes nothing else. */
  lemma CashOutTakesOne(cs: seq<Call>, c: Call)
    requires LegalRun(cs) && c.CashOut? && Legal(Run(cs), c) && Accepted(c)
    ensures var id := c.found.value;
            id in Run(cs) && Run(cs)[id].code == c.code && Run(cs)[id].expiry >= c.now &&
            Run(cs + [c]) == Run(cs) - {id}
  {
    RunExtends(cs, c);
    TakenIsThere(Run(cs), c);
  }

  /** Whatever unexpired code is outstanding for an owner, any user's withdrawal may delete its row,
      and then no verification by that owner is accepted until a new send. */
  lemma CashOutConsumesAnyCode(cs: seq<Call>, i: int, owner: Owner, kind: Challenge, user: nat, now: int, code: int,
                               later: int)
    requires LegalRun(cs) && Outstanding(cs, i, owner, kind) && now <= cs[i].now + LIFETIME
    ensures exists id ::
              var c := CashOut(user, cs[i].code, now, true, Some(id));
              Legal(Run(cs), c) && Accepted(c) && !Redeems(cs + [c], owner, kind, code, later)
  {
    hide Run, LegalRun, Redeems, TakesAt, Outstanding, OutstandingIssue;
    SentByOutstanding(cs, i, owner, kind);
    assert Spends(cs, i, cs[i].code, now);
    var id := SpendableRow(cs, i, cs[i].code, now);
    var c := CashOut(user, cs[i].code, now, true, Some(id));
    assert Legal(Run(cs), c) && Accepted(c);
    RunExtends(cs, c);
    var longer := cs + [c];
    assert longer[..|cs|] == cs;
    TakenNames(longer, owner, kind);
    ConsumedNotRedeemed(longer, |cs|, owner, kind, code, later);
  }

  lemma SentByOutstanding(cs: seq<Call>, i: int, owner: Owner, kind: Challenge)
    requires Outstanding(cs, i, owner, kind)
    ensures 0 <= i < |cs| && cs[i].Send? && cs[i].owner == owner && cs[i].kind == kind
  {
  }

  /** For example: user 1's sign-in code, spent by a withdrawal of user 2, no longer signs in. */
  lemma SpentByAnother(code: int)
    ensures var cs := [Send(User(1), Auth, code, 0, true, None), CashOut(2, code, 0, true, Some(0))];
            LegalRun(cs) && Accepted(cs[1]) &&
            forall v: Call :: v.Verify? && v.owner == User(1) && v.kind == Auth && Legal(Run(cs), v) ==> !Accepted(v)
  {
    var x, y := Send(User(1), Auth, code, 0, true, None), CashOut(2, code, 0, true, Some(0));
    RunExtends([], x);
    RunExtends([x], y);
    assert [] + [x] == [x] && [x] + [y] == [x, y];
    NoRows(User(1), Auth);
    assert 0 in NumberedRows(Run([x]), code, 0);
    assert Run([x, y]) == map[];
  }

  // ---- The handlers -------------------------------------------------------------------

  class OtpService {
    var rows: map<Id, Row>
    var next: Id
    ghost var calls: seq<Call>   // the calls made so far

    ghost predicate Valid()
      reads this
    {
      rows == Run(calls) && LegalRun(calls) && next == |calls|
    }

    constructor ()
      ensures Valid() && calls == []
    {
      rows, next, calls := map[], 0, [];
    }

    ghost method Record(c: Call)
      requires LegalRun(calls) && Legal(Run(calls), c)
      modifies `calls
      ensures calls == old(calls) + [c] && LegalRun(calls)
      ensures Run(calls) == After(old(Run(calls)), c, old(|calls|))
    {
      RunExtends(calls, c);
      calls := calls + [c];
    }

    /** The part the four send handlers share. */
    method SendCode(owner: Owner, kind: Challenge, code: int, now: int, gate: bool, found: Option<Id>)
      returns (ok: bool)
      requires Valid() && IsAnswer(found, OwnRows(rows, owner, kind))
      modifies this
      ensures Valid() && calls == old(calls) + [Send(owner, kind, code, now, gate, found)] && ok == gate
      ensures gate ==> OwnRows(rows, owner, kind) == {if found.Some? then found.value else old(next)}
    {
      ghost var c := Send(owner, kind, code, now, gate, found);
      hide Unique, Legal;
      RunUnique(calls, kind);
      if gate { SendExplained(rows, c, next); }
      hide OwnRows, LegalRun;
      Record(c);
      var id := next;
      next := next + 1;
      if !gate { return false; }
      var expiry := now + LIFETIME;
      if found.Some? {
        rows := rows[found.value := rows[found.value].(code := code, expiry := expiry)];
      } else {
        rows := rows[id := Row(owner, kind, code, expiry)];
      }
      return true;
    }

    /** The part the four verify handlers share: the row is removed only when everything succeeds. */
    method VerifyCode(owner: Owner, kind: Challenge, code: int, now: int, gate: bool, profile: bool, found: Option<Id>)
      returns (ok: bool)
      requires Valid() && IsAnswer(found, MatchingRows(rows, owner, kind, code, now))
      modifies this
      ensures Valid() && calls == old(calls) + [Verify(owner, kind, code, now, gate, profile, found)]
      ensures ok <==> gate && profile && Redeems(old(calls), owner, kind, code, now)
    {
      ghost var v := Verify(owner, kind, code, now, gate, profile, found);
      VerifyAcceptedIff(calls, v);
      Record(v);
      next := next + 1;
      if !gate || found.None? || !profile { return false; }
      rows := rows - {found.value};
      return true;
    }

    /** getOTP: a new row each time. */
    method GetOtp(user: nat, code: int, now: int, gate: bool) returns (ok: bool)
      requires Valid()
      modifies this
      ensures Valid() && calls == old(calls) + [Issue(user, code, now, gate)] && ok == gate
      ensures gate ==> rows == old(rows)[old(next) := Row(User(user), Transaction, code, now + TRANSACTION_LIFETIME)]
    {
      Record(Issue(user, code, now, gate));
      var id := next;
      next := next + 1;
      if !gate { return false; }
      rows := rows[id := Row(User(user), Transaction, code, now + TRANSACTION_LIFETIME)];
      return true;
    }

    /** The part of a cash-out that concerns its code. */
    method SpendCode(user: nat, code: int, now: int, commits: bool, found: Option<Id>) returns (ok: bool)
      requires Valid() && IsAnswer(found, NumberedRows(rows, code, now))
      modifies this
      ensures Valid() && calls == old(calls) + [CashOut(user, code, now, commits, found)]
      ensures ok <==> commits && exists i :: Spends(old(calls), i, code, now)
    {
      ghost var c := CashOut(user, code, now, commits, found);
      CashOutAcceptedIff(calls, c);
      Record(c);
      next := next + 1;
      if found.None? || !commits { return false; }
      rows := rows - {found.value};
      return true;
    }
  }
}
