/** Saved cards: at most three for a user, at most one of them the default. */
module Cards {
  import opened Common

  type Id = nat
  datatype User = Authenticated(id: nat) | PublicUser
  datatype Card = Card(user: User, isDefault: bool)

  const LIMIT := 3

  /** `paid` says whether the payment provider's call, made before the row is written, succeeds. */
  datatype Call =
    | CreatePublic(paid: bool)
    | Create(user: nat, isDefault: bool, paid: bool)
    | Delete(user: nat, id: Id, paid: bool)
    | SetDefault(user: nat, id: Id)

  datatype Store = Store(cards: map<Id, Card>, next: Id)

  function Empty(): Store { Store(map[], 0) }

  function CardsOf(cards: map<Id, Card>, u: User): set<Id> {
    set id | id in cards && cards[id].user == u
  }

  function Defaults(cards: map<Id, Card>, u: User): set<Id> {
    set id | id in cards && cards[id].user == u && cards[id].isDefault
  }

  function Insert(s: Store, u: User): Store {
    Store(s.cards[s.next := Card(u, false)], s.next + 1)
  }

  /** setDefaultCard: clear the user's cards, then mark the chosen one. */
  function MarkDefault(cards: map<Id, Card>, u: User, id: Id): map<Id, Card> {
    if id !in cards || cards[id].user != u then cards
    else map i | i in cards :: if cards[i].user == u then cards[i].(isDefault := i == id) else cards[i]
  }

  function After(s: Store, c: Call): Store {
    match c
    case CreatePublic(paid) => if paid then Insert(s, PublicUser) else s
    case Create(user, isDefault, paid) =>
      var u := Authenticated(user);
      var before := |CardsOf(s.cards, u)|;
      if before == LIMIT || !paid then s
      else if before == 1 || isDefault then Insert(s, u).(cards := MarkDefault(Insert(s, u).cards, u, s.next))
      else Insert(s, u)
    case Delete(user, id, paid) =>
      if id !in s.cards || s.cards[id].user != Authenticated(user) || !paid then s
      else s.(cards := s.cards - {id})
    case SetDefault(user, id) => s.(cards := MarkDefault(s.cards, Authenticated(user), id))
  }

  function Run(cs: seq<Call>): Store {
    if cs == [] then Empty() else After(Run(cs[..|cs| - 1]), cs[|cs| - 1])
  }

  /** Identifiers are below the counter; no authenticated user has too many cards or defaults. */
  ghost predicate Sound(s: Store) {
    (forall id :: id in s.cards ==> id < s.next) &&
    forall n :: |CardsOf(s.cards, Authenticated(n))| <= 3 && |Defaults(s.cards, Authenticated(n))| <= 1
  }

  lemma InsertCounts(s: Store, u: User, w: User)
    requires s.next !in s.cards
    ensures CardsOf(Insert(s, u).cards, w) == CardsOf(s.cards, w) + if u == w then {s.next} else {}
    ensures Defaults(Insert(s, u).cards, w) == Defaults(s.cards, w)
  {
  }

  /** After setDefaultCard exactly the chosen card of that user is the default, and the other
      users' defaults are as they were; nobody's cards change. */
  lemma MarkDefaultExact(cards: map<Id, Card>, u: User, id: Id, w: User)
    requires id in cards && cards[id].user == u
    ensures MarkDefault(cards, u, id).Keys == cards.Keys
    ensures CardsOf(MarkDefault(cards, u, id), w) == CardsOf(cards, w)
    ensures Defaults(MarkDefault(cards, u, id), w) == if w == u then {id} else Defaults(cards, w)
  {
  }

  lemma RemoveCounts(cards: map<Id, Card>, id: Id, w: User)
    ensures CardsOf(cards - {id}, w) == CardsOf(cards, w) - {id}
    ensures Defaults(cards - {id}, w) == Defaults(cards, w) - {id}
  {
  }

  /** What creating a card does: the new card is added, and it becomes the only default exactly when
      the user had one card or asked for it - so a first card is no default unless asked for. */
  lemma CreateExact(s: Store, user: nat, isDefault: bool)
    requires Sound(s) && |CardsOf(s.cards, Authenticated(user))| < 3
    ensures var u := Authenticated(user);
            var post := After(s, Create(user, isDefault, true));
            CardsOf(post.cards, u) == CardsOf(s.cards, u) + {s.next} &&
            Defaults(post.cards, u)
              == if isDefault || |CardsOf(s.cards, u)| == 1 then {s.next} else Defaults(s.cards, u)
  {
    var u := Authenticated(user);
    InsertCounts(s, u, u);
    MarkDefaultExact(Insert(s, u).cards, u, s.next, u);
  }

  /** At the limit, or when the provider's call fails, creating changes nothing. */
  lemma CreateRefused(s: Store, user: nat, isDefault: bool, paid: bool)
    requires |CardsOf(s.cards, Authenticated(user))| == 3 || !paid
    ensures After(s, Create(user, isDefault, paid)) == s
  {
  }

  /** A public payment method adds a card of nobody's and changes no default. */
  lemma CreatePublicExact(s: Store, paid: bool, w: User)
    requires Sound(s)
    ensures var post := After(s, CreatePublic(paid)).cards;
            CardsOf(post, w) == CardsOf(s.cards, w) + (if paid && w == PublicUser then {s.next} else {}) &&
            Defaults(post, w) == Defaults(s.cards, w)
  {
    InsertCounts(s, PublicUser, w);
  }

  /** Choosing a default works for one's own card, and otherwise changes nothing. */
  lemma SetDefaultExact(s: Store, user: nat, id: Id)
    ensures var u := Authenticated(user);
            var post := After(s, SetDefault(user, id));
            if id !in CardsOf(s.cards, u) then post == s
            else Defaults(post.cards, u) == {id} && CardsOf(post.cards, u) == CardsOf(s.cards, u)
  {
    var u := Authenticated(user);
    if id in s.cards && s.cards[id].user == u { MarkDefaultExact(s.cards, u, id, u); }
  }

  /** What deleting does: the user's card goes, a default stays a default unless it was the one. */
  lemma DeleteExact(s: Store, user: nat, id: Id, paid: bool)
    ensures var u := Authenticated(user);
            var post := After(s, Delete(user, id, paid));
            CardsOf(post.cards, u) == (if paid then CardsOf(s.cards, u) - {id} else CardsOf(s.cards, u)) &&
            Defaults(post.cards, u) == (if paid then Defaults(s.cards, u) - {id} else Defaults(s.cards, u))
  {
    RemoveCounts(s.cards, id, Authenticated(user));
  }

  /** A call by one user leaves every other user's cards as they are. */
  lemma OthersUntouched(s: Store, c: Call, id: Id)
    requires Sound(s) && id in s.cards
    requires !c.CreatePublic? ==> s.cards[id].user != Authenticated(c.user)
    ensures id in After(s, c).cards && After(s, c).cards[id] == s.cards[id]
  {
  }

  lemma CreateElsewhere(s: Store, user: nat, isDefault: bool, paid: bool, w: User)
    requires Sound(s) && w != Authenticated(user)
    ensures var post := After(s, Create(user, isDefault, paid)).cards;
            CardsOf(post, w) == CardsOf(s.cards, w) && Defaults(post, w) == Defaults(s.cards, w)
  {
    var inserted := Insert(s, Authenticated(user)).cards;
    InsertCounts(s, Authenticated(user), w);
    MarkDefaultExact(inserted, Authenticated(user), s.next, w);
    assert s.cards == After(s, Create(user, isDefault, paid)).cards ||
           inserted == After(s, Create(user, isDefault, paid)).cards ||
           MarkDefault(inserted, Authenticated(user), s.next) == After(s, Create(user, isDefault, paid)).cards;
  }

  lemma NobodyElseGains(s: Store, c: Call, w: User)
    requires Sound(s)
    requires if c.CreatePublic? then w != PublicUser else w != Authenticated(c.user)
    ensures CardsOf(After(s, c).cards, w) == CardsOf(s.cards, w)
    ensures Defaults(After(s, c).cards, w) == Defaults(s.cards, w)
  {
    match c
    case CreatePublic(paid) => InsertCounts(s, PublicUser, w);
    case Create(user, isDefault, paid) => CreateElsewhere(s, user, isDefault, paid, w);
    case Delete(_, id, _) => RemoveCounts(s.cards, id, w);
    case SetDefault(user, id) =>
      if id in s.cards && s.cards[id].user == Authenticated(user) {
        MarkDefaultExact(s.cards, Authenticated(user), id, w);
      }
  }

  lemma OwnerStaysSound(s: Store, c: Call)
    requires Sound(s) && !c.CreatePublic?
    ensures |CardsOf(After(s, c).cards, Authenticated(c.user))| <= LIMIT
    ensures |Defaults(After(s, c).cards, Authenticated(c.user))| <= 1
  {
    var u := Authenticated(c.user);
    match c
    case Create(user, isDefault, paid) =>
      if paid && |CardsOf(s.cards, u)| < LIMIT { CreateExact(s, user, isDefault); }
    case Delete(_, id, _) =>
      RemoveCounts(s.cards, id, u);
      SubsetSize(CardsOf(s.cards, u) - {id}, CardsOf(s.cards, u));
      SubsetSize(Defaults(s.cards, u) - {id}, Defaults(s.cards, u));
    case SetDefault(user, id) =>
      if id in s.cards && s.cards[id].user == u { MarkDefaultExact(s.cards, u, id, u); }
  }

  lemma StepSound(s: Store, c: Call)
    requires Sound(s)
    ensures Sound(After(s, c))
  {
    if !c.CreatePublic? { OwnerStaysSound(s, c); }
    forall n | c.CreatePublic? || n != c.user
      ensures |CardsOf(After(s, c).cards, Authenticated(n))| <= LIMIT
      ensures |Defaults(After(s, c).cards, Authenticated(n))| <= 1
    {
      NobodyElseGains(s, c, Authenticated(n));
    }
    assert forall id :: id in After(s, c).cards ==> id < After(s, c).next;
  }

  /** In every run of calls by any users: three cards at most and one default at most for each. */
  lemma {:induction false} RunSound(cs: seq<Call>)
    ensures Sound(Run(cs))
  {
    if cs == [] {
      assert forall u :: CardsOf(Run(cs).cards, u) == {} && Defaults(Run(cs).cards, u) == {};
    } else {
      RunSound(cs[..|cs| - 1]);
      StepSound(Run(cs[..|cs| - 1]), cs[|cs| - 1]);
    }
  }

  class CardService {
    var cards: map<Id, Card>
    var next: Id
    ghost var calls: seq<Call>

    ghost predicate Valid()
      reads this
    {
      Store(cards, next) == Run(calls)
    }

    constructor ()
      ensures Valid() && calls == []
    {
      cards, next, calls := map[], 0, [];
    }

    ghost method Record(c: Call)
      modifies `calls
      ensures calls == old(calls) + [c] && Run(calls) == After(Run(old(calls)), c)
    {
      calls := calls + [c];
      assert calls[..|calls| - 1] == old(calls);
    }

    method SavePaymentMethod(u: User) returns (id: Id)
      modifies `cards, `next
      ensures id == old(next) && Store(cards, next) == Insert(Store(old(cards), old(next)), u)
    {
      id := next;
      cards := cards[id := Card(u, false)];
      next := next + 1;
    }

    method CreatePublicPaymentMethod(paid: bool)
      requires Valid()
      modifies this
      ensures Valid() && calls == old(calls) + [CreatePublic(paid)]
    {
      Record(CreatePublic(paid));
      if paid {
        var id := SavePaymentMethod(PublicUser);
      }
    }

    method CreatePaymentMethod(user: nat, isDefault: bool, paid: bool) returns (ok: bool)
      requires Valid()
      modifies this
      ensures Valid() && calls == old(calls) + [Create(user, isDefault, paid)]
      ensures ok <==> paid && |CardsOf(old(cards), Authenticated(user))| < 3
      ensures |CardsOf(cards, Authenticated(user))| <= 3 && |Defaults(cards, Authenticated(user))| <= 1
    {
      RunSound(calls);
      Record(Create(user, isDefault, paid));
      RunSound(calls);
      var payments := CardsOf(cards, Authenticated(user));
      if |payments| == LIMIT || !paid { return false; }
      var id := SavePaymentMethod(Authenticated(user));
      if |payments| == 1 || isDefault {
        var marked := Mark(user, id);
      }
      return true;
    }

    method DeletePaymentMethod(user: nat, id: Id, paid: bool) returns (ok: bool)
      requires Valid()
      modifies this
      ensures Valid() && calls == old(calls) + [Delete(user, id, paid)]
      ensures ok <==> paid && id in CardsOf(old(cards), Authenticated(user))
    {
      Record(Delete(user, id, paid));
      if id !in cards || cards[id].user != Authenticated(user) || !paid { return false; }
      cards := cards - {id};
      return true;
    }

    method SetDefaultCard(user: nat, id: Id) returns (ok: bool)
      requires Valid()
      modifies this
      ensures Valid() && calls == old(calls) + [SetDefault(user, id)]
      ensures ok <==> id in CardsOf(old(cards), Authenticated(user))
      ensures ok ==> Defaults(cards, Authenticated(user)) == {id}
    {
      Record(SetDefault(user, id));
      ok := Mark(user, id);
      if ok { MarkDefaultExact(old(cards), Authenticated(user), id, Authenticated(user)); }
    }

    method Mark(user: nat, id: Id) returns (ok: bool)
      modifies `cards
      ensures ok <==> id in CardsOf(old(cards), Authenticated(user))
      ensures cards == MarkDefault(old(cards), Authenticated(user), id)
    {
      var u := Authenticated(user);
      if id !in cards || cards[id].user != u { return false; }
      cards := map i | i in cards :: if cards[i].user == u then cards[i].(isDefault := false) else cards[i];
      cards := cards[id := cards[id].(isDefault := true)];
      return true;
    }
  }
}
