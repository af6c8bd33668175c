/** Identity verification: the status and flag that the events drive, and the name splitter. */
module Kyc {
  import opened Common

  datatype Status = Pending | Created | InProcess | ReviewNeeded | Rejected | Verified

  datatype Identity = IdentityVerified | IdentityRejected | IdentityReviewNeeded | OtherIdentity
  datatype EventName = VerificationStarted | InputsCompleted | VerificationCompleted | VerificationExpired | OtherEvent

  /** A webhook event; `userKnown` says that its metadata names a user and the user exists. */
  datatype Event = Event(userKnown: bool, verificationId: string, name: Option<EventName>, identity: Option<Identity>)

  /** The kyc_verifications row of a user. */
  datatype Verification = Verification(status: Status, attempts: int, verificationId: string)

  const LIMIT := 3

  /** A user's rows: the verification, if any, and the kyc flag of the verifications row, if that
      row is there. A user who signed up has the row, with the flag false. */
  datatype Case = Case(verification: Option<Verification>, flag: Option<bool>)

  function Fresh(): Case { Case(None, Some(false)) }

  /** The attempts column after the named event: the handler stores the value before the increment. */
  function AfterName(v: Verification, name: Option<EventName>, id: string): Verification {
    match name
    case Some(VerificationStarted) => v.(status := InProcess)
    case Some(InputsCompleted) => v.(status := InProcess)
    case Some(VerificationCompleted) => v.(verificationId := id)
    case Some(VerificationExpired) => v.(verificationId := id, status := Created)
    case _ => v
  }

  /** The attempts the handler holds in memory afterwards: those were incremented. */
  function AttemptsInMemory(v: Verification, name: Option<EventName>): int {
    if name == Some(VerificationCompleted) || name == Some(VerificationExpired) then v.attempts + 1 else v.attempts
  }

  function Outcome(i: Identity, attempts: int): Status {
    if i != IdentityVerified && attempts == LIMIT then Pending
    else match i
         case IdentityVerified => Verified
         case IdentityRejected => Rejected
         case IdentityReviewNeeded => ReviewNeeded
         case OtherIdentity => Pending
  }

  /** manageEvent. */
  function After(c: Case, e: Event): Case {
    if !e.userKnown then c
    else
      var v := if c.verification.Some? then c.verification.value else Verification(Created, 1, e.verificationId);
      var named := AfterName(v, e.name, e.verificationId);
      if e.identity.None? then c.(verification := Some(named))
      else
        var status := Outcome(e.identity.value, AttemptsInMemory(v, e.name));
        var judged := Some(named.(status := status));
        if c.flag.None? then c.(verification := judged)
        else if status == Rejected then Case(judged, Some(false))
        else if e.identity.value.IdentityVerified? then Case(judged, Some(true))
        else c.(verification := judged)
  }

  function Run(c: Case, es: seq<Event>): Case {
    if es == [] then c else After(Run(c, es[..|es| - 1]), es[|es| - 1])
  }

  // ---- What every run keeps -----------------------------------------------------------

  /** The attempts a user starts with: those stored, or the one a first event stores. */
  function Attempts(c: Case): int {
    if c.verification.Some? then c.verification.value.attempts else 1
  }

  /** The attempt counter never moves, whatever the events and whatever it was. */
  lemma {:induction false} AttemptsStay(c: Case, es: seq<Event>)
    ensures Attempts(Run(c, es)) == Attempts(c)
    ensures c.verification.Some? ==> Run(c, es).verification.Some?
  {
    if es != [] { AttemptsStay(c, es[..|es| - 1]); }
  }

  /** A rejection met by the limit is turned into PENDING: the attempts in memory are exactly three. */
  predicate AtLimit(attempts: int, name: Option<EventName>) {
    AttemptsInMemory(Verification(Created, attempts, ""), name) == LIMIT
  }

  /** An event that decides the flag of a user with `attempts` stored attempts. */
  predicate Decisive(e: Event, attempts: int) {
    e.userKnown && (e.identity == Some(IdentityVerified) ||
                    (e.identity == Some(IdentityRejected) && !AtLimit(attempts, e.name)))
  }

  /** The verdict of the events, read from the last one back; `start` if none decides. */
  predicate Verdict(es: seq<Event>, attempts: int, start: bool) {
    if es == [] then start
    else if Decisive(es[|es| - 1], attempts) then es[|es| - 1].identity == Some(IdentityVerified)
    else Verdict(es[..|es| - 1], attempts, start)
  }

  /** Event `i` decides, and none after it does. */
  predicate DecidedAt(es: seq<Event>, attempts: int, i: int) {
    0 <= i < |es| && Decisive(es[i], attempts) && forall j :: i < j < |es| ==> !Decisive(es[j], attempts)
  }

  lemma DecidedShorter(es: seq<Event>, attempts: int, i: int)
    requires DecidedAt(es, attempts, i) && i < |es| - 1
    ensures DecidedAt(es[..|es| - 1], attempts, i) && !Decisive(es[|es| - 1], attempts)
  {
    hide Decisive;
    var before := es[..|es| - 1];
    forall j | i < j < |before| ensures !Decisive(before[j], attempts) {
      assert before[j] == es[j];
    }
  }

  /** The verdict is that of the last deciding event, or the start if there is none. */
  lemma {:induction false} VerdictMeaning(es: seq<Event>, attempts: int, start: bool)
    ensures forall i :: DecidedAt(es, attempts, i) ==>
              Verdict(es, attempts, start) == (es[i].identity == Some(IdentityVerified))
    ensures (forall i :: 0 <= i < |es| ==> !Decisive(es[i], attempts)) ==> Verdict(es, attempts, start) == start
  {
    hide Decisive;
    if es != [] {
      VerdictMeaning(es[..|es| - 1], attempts, start);
      forall i | DecidedAt(es, attempts, i)
        ensures Verdict(es, attempts, start) == (es[i].identity == Some(IdentityVerified))
      {
        if i < |es| - 1 { DecidedShorter(es, attempts, i); }
      }
    }
  }

  /** From any rows: the flag is the latest verdict; a missing flag row stays missing. */
  lemma {:induction false} FlagIsLatestVerdict(c: Case, es: seq<Event>)
    ensures Run(c, es).flag == if c.flag.None? then None else Some(Verdict(es, Attempts(c), c.flag.value))
  {
    if es != [] {
      FlagIsLatestVerdict(c, es[..|es| - 1]);
      AttemptsStay(c, es[..|es| - 1]);
    }
  }

  /** VERIFIED goes with a true flag and REJECTED with a false one. */
  predicate StatusAgrees(c: Case) {
    c.verification.Some? && c.flag.Some? ==>
      (c.verification.value.status == Verified ==> c.flag.value) &&
      (c.verification.value.status == Rejected ==> !c.flag.value)
  }

  /** Status and flag agree after any events if they do before: from a fresh user always. */
  lemma {:induction false} StatusStaysInAgreement(c: Case, es: seq<Event>)
    requires StatusAgrees(c)
    ensures StatusAgrees(Run(c, es))
  {
    if es != [] { StatusStaysInAgreement(c, es[..|es| - 1]); }
  }

  lemma FreshAgrees(es: seq<Event>)
    ensures StatusAgrees(Run(Fresh(), es)) && Run(Fresh(), es).flag == Some(Verdict(es, 1, false))
  {
    StatusStaysInAgreement(Fresh(), es);
    FlagIsLatestVerdict(Fresh(), es);
  }

  /** The status an event leaves: that of the identity it reports - PENDING instead, if it is not verified
      and the attempts in memory are three - or else that of its name, or else the one before. */
  lemma StatusAfter(c: Case, e: Event)
    ensures !e.userKnown ==> After(c, e) == c
    ensures e.userKnown ==> After(c, e).verification.Some?
    ensures var post := After(c, e).verification;
            var counted := e.name == Some(VerificationCompleted) || e.name == Some(VerificationExpired);
            var third := Attempts(c) + (if counted then 1 else 0) == 3;
            e.userKnown ==>
              (e.identity == Some(IdentityVerified) ==> post.value.status == Verified) &&
              (e.identity == Some(IdentityRejected) ==> post.value.status == if third then Pending else Rejected) &&
              (e.identity == Some(IdentityReviewNeeded) ==>
                 post.value.status == if third then Pending else ReviewNeeded) &&
              (e.identity == Some(OtherIdentity) ==> post.value.status == Pending) &&
              (e.identity == None && (e.name == Some(VerificationStarted) || e.name == Some(InputsCompleted)) ==>
                 post.value.status == InProcess) &&
              (e.identity == None && e.name == Some(VerificationExpired) ==> post.value.status == Created) &&
              (!SetsStatus(e) ==>
                 post.value.status == if c.verification.Some? then c.verification.value.status else Created)
    ensures var post := After(c, e).verification;
            var renewed := e.name == Some(VerificationCompleted) || e.name == Some(VerificationExpired);
            e.userKnown ==>
              post.value.verificationId ==
                if renewed || c.verification.None? then e.verificationId else c.verification.value.verificationId
  {
  }

  /** The event decides the status by itself. */
  predicate SetsStatus(e: Event) {
    e.userKnown &&
    (e.identity.Some? || e.name == Some(VerificationStarted) || e.name == Some(InputsCompleted) ||
     e.name == Some(VerificationExpired))
  }

  predicate IsVerified(c: Case) {
    c.verification.Some? && c.verification.value.status == Verified
  }

  /** Event `i` sets the status, and none after it does. */
  predicate LastSetAt(es: seq<Event>, i: int) {
    0 <= i < |es| && SetsStatus(es[i]) && forall j :: i < j < |es| ==> !SetsStatus(es[j])
  }

  lemma VerifiedStep(c: Case, e: Event)
    ensures IsVerified(After(c, e)) <==>
            if SetsStatus(e) then e.identity == Some(IdentityVerified) else IsVerified(c)
  {
    StatusAfter(c, e);
  }

  lemma LastSetShorter(es: seq<Event>, i: int)
    requires es != [] && i < |es| - 1
    ensures LastSetAt(es, i) <==> LastSetAt(es[..|es| - 1], i) && !SetsStatus(es[|es| - 1])
  {
    hide SetsStatus;
    var before := es[..|es| - 1];
    assert forall j :: 0 <= j < |before| ==> before[j] == es[j];
    if LastSetAt(es, i) {
      forall j | i < j < |before| ensures !SetsStatus(before[j]) { assert before[j] == es[j]; }
    }
    if LastSetAt(before, i) && !SetsStatus(es[|es| - 1]) {
      forall j | i < j < |es| ensures !SetsStatus(es[j]) {
        if j < |before| { assert before[j] == es[j]; }
      }
    }
  }

  /** After any events from any rows the status is VERIFIED if and only if the last event that sets the
      status reported a verified identity, or none set it and it was VERIFIED before. */
  lemma {:induction false} VerifiedIff(c: Case, es: seq<Event>)
    ensures IsVerified(Run(c, es)) <==>
            (exists i :: LastSetAt(es, i) && es[i].identity == Some(IdentityVerified)) ||
            ((forall i :: 0 <= i < |es| ==> !SetsStatus(es[i])) && IsVerified(c))
  {
    hide After, SetsStatus, IsVerified;
    if es != [] {
      var before, e := es[..|es| - 1], es[|es| - 1];
      VerifiedIff(c, before);
      VerifiedStep(Run(c, before), e);
      forall i | i < |es| - 1 ensures LastSetAt(es, i) <==> LastSetAt(before, i) && !SetsStatus(e) {
        LastSetShorter(es, i);
      }
      assert forall i :: 0 <= i < |before| ==> before[i] == es[i];
      if SetsStatus(e) {
        assert LastSetAt(es, |es| - 1);
      } else if i :| LastSetAt(before, i) && before[i].identity == Some(IdentityVerified) {
        assert LastSetAt(es, i);
      }
    }
  }

  /** After any events from any rows, a rejection reaches the status, and the flag if its row is
      there, if and only if it does not meet the limit. */
  lemma RejectionReachesIff(c: Case, es: seq<Event>, e: Event)
    requires e.userKnown && e.identity == Some(IdentityRejected)
    ensures var before := Run(c, es);
            var post := Run(c, es + [e]);
            post.verification.Some? &&
            (post.verification.value.status == Rejected <==> !AtLimit(Attempts(c), e.name)) &&
            post.flag == if c.flag.Some? && !AtLimit(Attempts(c), e.name) then Some(false) else before.flag
  {
    AttemptsStay(c, es);
    FlagIsLatestVerdict(c, es);
    assert (es + [e])[..|es|] == es;
  }

  /** A user who signed up never meets the limit: the counter stays at 1. */
  lemma FreshNeverAtLimit(es: seq<Event>, name: Option<EventName>)
    ensures Attempts(Run(Fresh(), es)) == 1 && !AtLimit(Attempts(Run(Fresh(), es)), name)
  {
    AttemptsStay(Fresh(), es);
  }

  /** A verified user whose row was migrated with two attempts - as CREATED, with a true flag - meets it:
      a rejection that comes with a completed verification gives PENDING and leaves the flag true. */
  lemma MigratedRowMeetsLimit(id: string)
    ensures var c := Case(Some(Verification(Created, 2, id)), Some(true));
            var post := After(c, Event(true, id, Some(VerificationCompleted), Some(IdentityRejected)));
            post == Case(Some(Verification(Pending, 2, id)), Some(true))
  {
  }

  class KycService {
    var verification: Option<Verification>
    var flag: Option<bool>
    ghost const start: Case      // the user's rows before the first event
    ghost var events: seq<Event>

    ghost predicate Valid()
      reads this
    {
      Case(verification, flag) == Run(start, events)
    }

    constructor (start: Case)
      ensures Valid() && events == [] && this.start == start
    {
      this.start := start;
      verification, flag, events := start.verification, start.flag, [];
    }

    method UpdateStatus(status: Status)
      requires verification.Some?
      modifies `verification
      ensures verification == Some(old(verification).value.(status := status))
    {
      verification := Some(verification.value.(status := status));
    }

    /** What the handler does with the event's name; the attempts it holds in memory come back. */
    method ApplyName(name: Option<EventName>, id: string) returns (attempts: int)
      requires verification.Some?
      modifies `verification
      ensures verification == Some(AfterName(old(verification).value, name, id))
      ensures attempts == AttemptsInMemory(old(verification).value, name)
    {
      attempts := verification.value.attempts;
      if name == Some(InputsCompleted) || name == Some(VerificationStarted) {
        UpdateStatus(InProcess);
      }
      if name == Some(VerificationCompleted) {
        verification := Some(verification.value.(attempts := attempts, verificationId := id));
        attempts := attempts + 1;
      }
      if name == Some(VerificationExpired) {
        verification := Some(Verification(Created, attempts, id));
        attempts := attempts + 1;
      }
    }

    /** What it does with the identity status; the flag row may be missing, which throws. */
    method ApplyIdentity(identity: Identity, attempts: int)
      requires verification.Some?
      modifies `verification, `flag
      ensures verification == Some(old(verification).value.(status := Outcome(identity, attempts)))
      ensures flag == if old(flag).None? then None
                      else if Outcome(identity, attempts) == Rejected then Some(false)
                      else if identity.IdentityVerified? then Some(true) else old(flag)
    {
      var status := Pending;
      match identity {
        case IdentityVerified => status := Verified;
        case IdentityRejected => status := Rejected;
        case IdentityReviewNeeded => status := ReviewNeeded;
        case OtherIdentity =>
      }
      if identity != IdentityVerified && attempts == LIMIT {
        status := Pending;
      }
      UpdateStatus(status);
      if status == Rejected {
        if flag.None? { return; }
        flag := Some(false);
      }
      if identity == IdentityVerified {
        if flag.None? { return; }
        flag := Some(true);
      }
    }

    method ManageEvent(e: Event)
      requires Valid()
      modifies this
      ensures Valid() && events == old(events) + [e]
      ensures start.flag.Some? ==> flag == Some(Verdict(events, Attempts(start), start.flag.value))
    {
      hide Outcome, AfterName;
      events := events + [e];
      assert events[..|events| - 1] == old(events);
      FlagIsLatestVerdict(start, events);
      if !e.userKnown { return; }
      if verification.None? {
        verification := Some(Verification(Created, 1, e.verificationId));
      }
      var attempts := ApplyName(e.name, e.verificationId);
      if e.identity.Some? {
        ApplyIdentity(e.identity.value, attempts);
      }
    }
  }

  // ---- Names --------------------------------------------------------------------------

  const SPACE := ' '

  /** String.split(' '). */
  function Split(s: string): (parts: seq<string>)
    ensures |parts| >= 1
  {
    if s == "" then [""]
    else
      var rest := Split(s[1..]);
      if s[0] == SPACE then [""] + rest else [[s[0]] + rest[0]] + rest[1..]
  }

  /** Array.join(' '). */
  function Join(parts: seq<string>): string {
    if parts == [] then ""
    else if |parts| == 1 then parts[0]
    else parts[0] + [SPACE] + Join(parts[1..])
  }

  predicate NoSpace(s: string) {
    forall i :: 0 <= i < |s| ==> s[i] != SPACE
  }

  datatype Name = Name(first: string, last: string)

  function ParseName(full: string): Name {
    var parts := Split(full);
    if |parts| == 1 then Name(full, "")
    else if |parts| == 2 then Name(parts[0], parts[1])
    else if |parts| == 3 then Name(parts[0] + [SPACE] + parts[1], parts[2])
    else if |parts| >= 4 then Name(parts[0] + [SPACE] + parts[1], Join(parts[2..]))
    else Name("", "")
  }

  /** Splitting loses nothing, and the parts are the stretches between spaces. */
  lemma {:induction false} JoinSplit(s: string)
    ensures Join(Split(s)) == s
    ensures forall i :: 0 <= i < |Split(s)| ==> NoSpace(Split(s)[i])
  {
    if s != "" {
      JoinSplit(s[1..]);
      var rest := Split(s[1..]);
      assert s == [s[0]] + s[1..];
      if s[0] == SPACE {
        assert Split(s)[1..] == rest;
      } else {
        assert Split(s)[1..] == rest[1..];
        if |rest| > 1 {
          assert Join(Split(s)) == [s[0]] + (rest[0] + [SPACE] + Join(rest[1..]));
        }
      }
    }
  }

  lemma {:induction false} SpaceCount(s: string)
    ensures |Split(s)| == 1 <==> NoSpace(s)
  {
    if s != "" {
      SpaceCount(s[1..]);
      assert NoSpace(s) <==> s[0] != SPACE && NoSpace(s[1..]) by {
        assert forall i :: 0 <= i < |s[1..]| ==> s[1..][i] == s[i + 1];
      }
    }
  }

  lemma JoinTwo(parts: seq<string>)
    requires |parts| >= 2
    ensures Join(parts) == parts[0] + [SPACE] + Join(parts[1..])
  {
  }

  lemma JoinThree(parts: seq<string>)
    requires |parts| >= 3
    ensures Join(parts) == (parts[0] + [SPACE] + parts[1]) + [SPACE] + Join(parts[2..])
  {
    hide Join;
    JoinTwo(parts);
    JoinTwo(parts[1..]);
    assert parts[1..][1..] == parts[2..] && parts[1..][0] == parts[1];
    Regroup(parts[0], [SPACE], parts[1], Join(parts[2..]));
  }

  lemma Regroup(a: string, b: string, c: string, d: string)
    ensures a + b + (c + b + d) == (a + b + c) + b + d
  {
  }

  /** Nothing is lost, for any string: a name without spaces is all first name, and any other is
      the first name, a space and the last name. The first name is at most two words, and exactly
      one when the last name is one word and only one space is there. */
  lemma ParseNameExact(full: string)
    ensures NoSpace(full) ==> ParseName(full) == Name(full, "")
    ensures !NoSpace(full) ==> ParseName(full).first + [SPACE] + ParseName(full).last == full
    ensures !NoSpace(full) ==> |Split(ParseName(full).first)| == (if |Split(full)| == 2 then 1 else 2)
  {
    JoinSplit(full);
    SpaceCount(full);
    var parts := Split(full);
    if |parts| == 2 {
      JoinTwo(parts);
      SplitWord(parts[0]);
    } else if |parts| >= 3 {
      JoinThree(parts);
      SplitTwo(parts[0], parts[1]);
    }
  }

  lemma SplitWord(w: string)
    requires NoSpace(w)
    ensures Split(w) == [w]
  {
    SpaceCount(w);
    JoinSplit(w);
  }

  lemma {:induction false} SplitTwo(a: string, b: string)
    requires NoSpace(a) && NoSpace(b)
    ensures Split(a + [SPACE] + b) == [a, b]
  {
    var s := a + [SPACE] + b;
    if a == "" {
      assert s[1..] == b;
      SplitWord(b);
    } else {
      assert s[1..] == a[1..] + [SPACE] + b;
      assert NoSpace(a[1..]);
      SplitTwo(a[1..], b);
      assert a == [a[0]] + a[1..];
    }
  }
}
