/** The authorization cache, against a list kept in order of use (src/station/authorization.rs). */
module AuthorizationCache {
  import opened Basics

  /** What the CSMS said about a token; only remembered here. */
  datatype IdTokenInfo = IdTokenInfo(status: string, expires: Option<int>)

  // -- the reference: a list, the token used last in front ----------------------------------

  datatype Card = Card(token: string, info: IdTokenInfo)

  datatype Reference = Reference(cards: seq<Card>, capacity: nat, enabled: bool)

  ghost predicate Distinct(cards: seq<Card>)
  {
    forall i, j :: 0 <= i < j < |cards| ==> cards[i].token != cards[j].token
  }

  /** Where the token is, counted from the front. */
  function Find(cards: seq<Card>, token: string): (r: Option<nat>)
    ensures r.Some? ==> r.value < |cards| && cards[r.value].token == token
    ensures r.None? ==> forall i :: 0 <= i < |cards| ==> cards[i].token != token
  {
    if cards == [] then None
    else if cards[|cards| - 1].token == token then Some(|cards| - 1)
    else Find(cards[..|cards| - 1], token)
  }

  function MoveToFront(cards: seq<Card>, card: Card): (r: seq<Card>)
  {
    var i := Find(cards, card.token);
    [card] + if i.Some? then RemoveAt(cards, i.value) else cards
  }

  function Truncated(cards: seq<Card>, capacity: nat): (r: seq<Card>)
  {
    if |cards| <= capacity then cards else cards[..capacity]
  }

  function Remembered(c: Reference, card: Card): (r: Reference)
  {
    if c.enabled then c.(cards := Truncated(MoveToFront(c.cards, card), c.capacity)) else c
  }

  function Looked(c: Reference, token: string): (r: Reference)
  {
    var i := Find(c.cards, token);
    if c.enabled && i.Some? then c.(cards := MoveToFront(c.cards, c.cards[i.value])) else c
  }

  function Answer(c: Reference, token: string): (r: Option<IdTokenInfo>)
  {
    var i := Find(c.cards, token);
    if c.enabled && i.Some? then Some(c.cards[i.value].info) else None
  }

  // -- stamps against the list --------------------------------------------------------------

  type Entries = map<string, (nat, IdTokenInfo)>

  ghost predicate Holds(entries: Entries, cards: seq<Card>)
  {
    forall i :: 0 <= i < |cards| ==> cards[i].token in entries && entries[cards[i].token].1 == cards[i].info
  }

  ghost predicate Listed(entries: Entries, cards: seq<Card>)
  {
    forall t :: t in entries ==> Find(cards, t).Some?
  }

  ghost predicate Falling(entries: Entries, cards: seq<Card>)
    requires Holds(entries, cards)
  {
    forall i, j :: 0 <= i < j < |cards| ==> entries[cards[i].token].0 > entries[cards[j].token].0
  }

  ghost predicate Dated(entries: Entries, clock: nat)
  {
    forall t :: t in entries ==> entries[t].0 <= clock
  }

  /** The map holds what the list holds, and its stamps fall along the list. */
  ghost predicate Mirrors(entries: Entries, clock: nat, cards: seq<Card>)
  {
    && Distinct(cards) && Holds(entries, cards) && Listed(entries, cards)
    && Falling(entries, cards) && Dated(entries, clock)
  }

  lemma FindAt(cards: seq<Card>, i: nat)
    requires Distinct(cards) && i < |cards|
    ensures Find(cards, cards[i].token) == Some(i)
  {
  }

  /** Where a card of the moved list was before, and where one of the list goes. */
  function Back(at: Option<nat>, k: nat): (r: int) { if at.Some? && at.value < k then k else k - 1 }

  function Forth(at: Option<nat>, m: nat): (r: nat) { if at.Some? && at.value < m then m else m + 1 }

  predicate Elsewhere(at: Option<nat>, m: int) { at.None? || at.value != m }

  lemma FrontShape(cards: seq<Card>, card: Card)
    ensures var at, moved := Find(cards, card.token), MoveToFront(cards, card);
            && |moved| == (if at.Some? then |cards| else |cards| + 1)
            && moved[0] == card
            && (forall k :: 0 < k < |moved| ==>
                  Elsewhere(at, Back(at, k)) && 0 <= Back(at, k) < |cards| && moved[k] == cards[Back(at, k)])
            && (forall m :: 0 <= m < |cards| && Elsewhere(at, m) ==>
                  Forth(at, m) < |moved| && moved[Forth(at, m)] == cards[m])
  {
    hide Find;
    var at, moved := Find(cards, card.token), MoveToFront(cards, card);
    var rest := if at.Some? then RemoveAt(cards, at.value) else cards;
    assert moved == [card] + rest;
    if at.Some? {
      RemovedShape(cards, at.value, rest);
    }
  }

  lemma RemovedShape(cards: seq<Card>, i: nat, rest: seq<Card>)
    requires i < |cards| && rest == RemoveAt(cards, i)
    ensures forall k :: 0 < k <= |rest| ==> rest[k - 1] == cards[Back(Some(i), k)]
    ensures forall m :: 0 <= m < |cards| && m != i ==> Forth(Some(i), m) <= |rest| && rest[Forth(Some(i), m) - 1] == cards[m]
  {
  }

  lemma FrontMirrors(entries: Entries, clock: nat, cards: seq<Card>, card: Card)
    requires Mirrors(entries, clock, cards)
    ensures Mirrors(entries[card.token := (clock + 1, card.info)], clock + 1, MoveToFront(cards, card))
  {
    hide Find, MoveToFront, Distinct, Listed;
    FrontDistinct(cards, card);
    FrontListed(entries, cards, card, (clock + 1, card.info));
    FrontOthers(cards, card);
    FrontShape(cards, card);
    var now, moved := entries[card.token := (clock + 1, card.info)], MoveToFront(cards, card);
    assert Holds(now, moved);
  }

  lemma FrontListed(entries: Entries, cards: seq<Card>, card: Card, entry: (nat, IdTokenInfo))
    requires Listed(entries, cards)
    ensures Listed(entries[card.token := entry], MoveToFront(cards, card))
  {
    hide Find, MoveToFront;
    FrontShape(cards, card);
    var at, moved := Find(cards, card.token), MoveToFront(cards, card);
    forall t | t in entries[card.token := entry]
      ensures Find(moved, t).Some?
    {
      if t == card.token {
        assert moved[0].token == t;
      } else {
        var m := Find(cards, t).value;
        assert moved[Forth(at, m)].token == t;
      }
    }
  }

  /** Only the front card carries its token. */
  lemma FrontOthers(cards: seq<Card>, card: Card)
    requires Distinct(cards)
    ensures forall k :: 0 < k < |MoveToFront(cards, card)| ==> MoveToFront(cards, card)[k].token != card.token
  {
    hide Find, MoveToFront;
    FrontShape(cards, card);
    var at := Find(cards, card.token);
    assert forall m :: 0 <= m < |cards| && Elsewhere(at, m) ==> cards[m].token != card.token by {
      if at.Some? {
        assert cards[at.value].token == card.token;
      }
    }
  }

  lemma {:induction false} SameSize(entries: Entries, clock: nat, cards: seq<Card>)
    requires Mirrors(entries, clock, cards)
    ensures |entries| == |cards|
    decreases |cards|
  {
    if cards == [] {
      assert entries.Keys == {};
      assert |entries| == |entries.Keys|;
    } else {
      var last := cards[|cards| - 1].token;
      LastMirrors(entries, clock, cards);
      SameSize(entries - {last}, clock, cards[..|cards| - 1]);
      assert (entries - {last}).Keys == entries.Keys - {last};
      assert |entries| == |entries.Keys| && |entries - {last}| == |(entries - {last}).Keys|;
    }
  }

  /** Without the last of the list, the map mirrors the rest. */
  lemma LastMirrors(entries: Entries, clock: nat, cards: seq<Card>)
    requires Mirrors(entries, clock, cards) && cards != []
    ensures Mirrors(entries - {cards[|cards| - 1].token}, clock, cards[..|cards| - 1])
  {
    var front := cards[..|cards| - 1];
    var rest := entries - {cards[|cards| - 1].token};
    assert forall i :: 0 <= i < |front| ==> front[i] == cards[i];
  }

  /** The oldest stamp belongs to the last of the list. */
  lemma OldestIsLast(entries: Entries, clock: nat, cards: seq<Card>, oldest: string)
    requires Mirrors(entries, clock, cards) && oldest in entries
    requires forall t :: t in entries ==> entries[oldest].0 <= entries[t].0
    ensures cards != [] && cards[|cards| - 1].token == oldest
  {
    hide Find;
    var i := Find(cards, oldest).value;
    assert cards[|cards| - 1].token in entries;
  }

  // -- the cache as it runs -----------------------------------------------------------------

  class AuthorizationCache {
    var entries: Entries
    const capacity: nat
    var clock: nat
    var enabled: bool
    /** The list the stamps stand for. */
    ghost var cards: seq<Card>

    ghost predicate Valid()
      reads this
    {
      capacity >= 1 && Mirrors(entries, clock, cards) && |cards| <= capacity && (!enabled ==> cards == [])
    }

    ghost function Abs(): (r: Reference)
      reads this
    {
      Reference(cards, capacity, enabled)
    }

    constructor (wanted: nat)
      ensures Valid() && Abs() == Reference([], if wanted < 1 then 1 else wanted, true)
    {
      entries := map[];
      capacity := if wanted < 1 then 1 else wanted;
      clock := 0;
      enabled := true;
      cards := [];
    }

    method SetEnabled(on: bool)
      requires Valid()
      modifies this
      ensures Valid() && Abs() == old(Abs()).(enabled := on, cards := if on then old(cards) else [])
    {
      enabled := on;
      if !on {
        entries := map[];
        cards := [];
      }
    }

    method Clear()
      requires Valid()
      modifies this`entries, this`cards
      ensures Valid() && Abs() == old(Abs()).(cards := [])
    {
      entries := map[];
      cards := [];
    }

    method Remember(token: string, info: IdTokenInfo)
      requires Valid()
      modifies this
      ensures Valid() && Abs() == Remembered(old(Abs()), Card(token, info))
    {
      hide Mirrors, MoveToFront, Find;
      if enabled {
        FrontMirrors(entries, clock, cards, Card(token, info));
        clock := clock + 1;
        entries := entries[token := (clock, info)];
        cards := MoveToFront(cards, Card(token, info));
        Evict();
      }
    }

    /** The eviction loop. */
    method Evict()
      requires capacity >= 1 && Mirrors(entries, clock, cards)
      modifies this`entries, this`cards
      ensures Mirrors(entries, clock, cards) && cards == Truncated(old(cards), capacity)
    {
      hide Mirrors;
      ghost var all := cards;
      SameSize(entries, clock, cards);
      while |entries| > capacity
        modifies this`entries, this`cards
        invariant Mirrors(entries, clock, cards) && |entries| == |cards|
        invariant |cards| <= |all| && cards == all[..|cards|]
        invariant |cards| == |all| || |cards| >= capacity
        decreases |entries|
      {
        var oldest := Oldest();
        OldestIsLast(entries, clock, cards, oldest);
        LastMirrors(entries, clock, cards);
        entries := entries - {oldest};
        cards := cards[..|cards| - 1];
        SameSize(entries, clock, cards);
      }
    }

    method Oldest() returns (token: string)
      requires |entries| > 0
      ensures token in entries && forall t :: t in entries ==> entries[token].0 <= entries[t].0
    {
      assert entries.Keys != {};
      token :| token in entries;
      var left := entries.Keys - {token};
      while left != {}
        invariant left <= entries.Keys && token in entries
        invariant forall t :: t in entries && t !in left ==> entries[token].0 <= entries[t].0
        decreases left
      {
        var t :| t in left;
        if entries[t].0 < entries[token].0 {
          token := t;
        }
        left := left - {t};
      }
    }

    method Get(token: string) returns (info: Option<IdTokenInfo>)
      requires Valid()
      modifies this
      ensures Valid() && Abs() == Looked(old(Abs()), token)
      ensures info == Answer(old(Abs()), token)
    {
      hide MoveToFront, Mirrors, Find;
      info := None;
      if enabled {
        Known(entries, clock, cards, token);
        clock := clock + 1;
        if token in entries {
          info := Some(entries[token].1);
          ghost var card := Card(token, info.value);
          FrontMirrors(entries, clock - 1, cards, card);
          SameFront(cards, card);
          entries := entries[token := (clock, info.value)];
          cards := MoveToFront(cards, card);
        } else {
          LaterMirrors(entries, clock - 1, cards);
        }
      }
    }
  }

  lemma Known(entries: Entries, clock: nat, cards: seq<Card>, token: string)
    requires Mirrors(entries, clock, cards)
    ensures token in entries <==> Find(cards, token).Some?
    ensures token in entries ==> cards[Find(cards, token).value] == Card(token, entries[token].1)
  {
  }

  lemma LaterMirrors(entries: Entries, clock: nat, cards: seq<Card>)
    requires Mirrors(entries, clock, cards)
    ensures Mirrors(entries, clock + 1, cards)
  {
  }

  lemma SameFront(cards: seq<Card>, card: Card)
    requires Find(cards, card.token).Some?
    ensures |MoveToFront(cards, card)| == |cards|
  {
  }

  // -- how long a token stays ---------------------------------------------------------------

  datatype Use = Remembering(card: Card) | Looking(token: string)

  function After(c: Reference, u: Use): (r: Reference)
  {
    match u
    case Remembering(card) => Remembered(c, card)
    case Looking(token) => Looked(c, token)
  }

  function AfterAll(c: Reference, uses: seq<Use>): (r: Reference)
  {
    if uses == [] then c else After(AfterAll(c, uses[..|uses| - 1]), uses[|uses| - 1])
  }

  /** The token a use brings to the front, if it brings any. */
  function Touched(c: Reference, u: Use): (r: set<string>)
  {
    match u
    case Remembering(card) => {card.token}
    case Looking(token) => if Find(c.cards, token).Some? then {token} else {}
  }

  function TouchedByAll(c: Reference, uses: seq<Use>): (r: set<string>)
  {
    if uses == [] then {}
    else TouchedByAll(c, uses[..|uses| - 1]) + Touched(AfterAll(c, uses[..|uses| - 1]), uses[|uses| - 1])
  }

  ghost function Tokens(cards: seq<Card>): (r: set<string>)
  {
    set i | 0 <= i < |cards| :: cards[i].token
  }

  /** While the token is in the list, those in front of it are those touched since; once as many were
      touched as fit, it is gone. */
  ghost predicate Behind(c: Reference, token: string, touched: set<string>)
  {
    && Distinct(c.cards) && |c.cards| <= c.capacity && c.enabled && token !in touched
    && match Find(c.cards, token)
       case Some(i) => Tokens(c.cards[..i]) == touched && |touched| == i
       case None => |touched| >= c.capacity
  }

  /** A token last used before these uses is still cached if and only if fewer other tokens than the
      cache holds have been used since. */
  lemma KeptIffRecent(c: Reference, token: string, uses: seq<Use>)
    requires Distinct(c.cards) && c.enabled && 1 <= |c.cards| <= c.capacity && c.cards[0].token == token
    requires forall k :: 0 <= k < |uses| ==> uses[k] != Looking(token)
    requires forall k :: 0 <= k < |uses| && uses[k].Remembering? ==> uses[k].card.token != token
    ensures Find(AfterAll(c, uses).cards, token).Some? <==> |TouchedByAll(c, uses)| < c.capacity
  {
    StaysBehind(c, token, uses);
    var r := AfterAll(c, uses);
    assert Find(r.cards, token).Some? ==> Find(r.cards, token).value < |r.cards|;
  }

  lemma {:induction false} StaysBehind(c: Reference, token: string, uses: seq<Use>)
    requires Distinct(c.cards) && c.enabled && 1 <= |c.cards| <= c.capacity && c.cards[0].token == token
    requires forall k :: 0 <= k < |uses| ==> uses[k] != Looking(token)
    requires forall k :: 0 <= k < |uses| && uses[k].Remembering? ==> uses[k].card.token != token
    ensures Behind(AfterAll(c, uses), token, TouchedByAll(c, uses)) && AfterAll(c, uses).capacity == c.capacity
  {
    hide Behind;
    if uses == [] {
      InFront(c, token);
    } else {
      var front, last := uses[..|uses| - 1], uses[|uses| - 1];
      assert forall k :: 0 <= k < |front| ==> front[k] == uses[k];
      StaysBehind(c, token, front);
      UseKeepsBehind(AfterAll(c, front), token, TouchedByAll(c, front), last);
    }
  }

  lemma InFront(c: Reference, token: string)
    requires Distinct(c.cards) && c.enabled && 1 <= |c.cards| <= c.capacity && c.cards[0].token == token
    ensures Behind(c, token, {})
  {
    FindAt(c.cards, 0);
  }

  lemma UseKeepsBehind(c: Reference, token: string, touched: set<string>, u: Use)
    requires Behind(c, token, touched)
    requires u != Looking(token) && (u.Remembering? ==> u.card.token != token)
    ensures Behind(After(c, u), token, touched + Touched(c, u)) && After(c, u).capacity == c.capacity
  {
    match u
    case Remembering(card) => FrontKeepsBehind(c, token, touched, card);
    case Looking(t) =>
      var i := Find(c.cards, t);
      if i.Some? {
        FrontKeepsBehind(c, token, touched, c.cards[i.value]);
        SameFront(c.cards, c.cards[i.value]);
      } else {
        assert touched + {} == touched;
      }
  }

  lemma FrontKeepsBehind(c: Reference, token: string, touched: set<string>, card: Card)
    requires Behind(c, token, touched) && card.token != token
    ensures Behind(Remembered(c, card), token, touched + {card.token})
  {
    hide Find, MoveToFront, Tokens, Distinct;
    var moved, r := MoveToFront(c.cards, card), Remembered(c, card);
    FrontDistinct(c.cards, card);
    PrefixDistinct(moved, |r.cards|);
    var i := Find(c.cards, token);
    if i.Some? {
      FrontTokens(c.cards, card, i.value, touched);
      var j := if card.token in touched then i.value else i.value + 1;
      if j < |r.cards| {
        assert r.cards[..j] == moved[..j];
        FindAt(r.cards, j);
      } else {
        NotInPrefix(moved, j, r.cards, token);
      }
    } else {
      StillAbsent(c.cards, card, r.cards, token);
      Larger(touched, card.token);
    }
  }

  lemma PrefixDistinct(cards: seq<Card>, n: nat)
    requires Distinct(cards) && n <= |cards|
    ensures Distinct(cards[..n])
  {
  }

  lemma Larger(s: set<string>, t: string)
    ensures |s| <= |s + {t}|
  {
    assert |s + {t}| == |s| + |{t} - s|;
  }

  lemma FrontDistinct(cards: seq<Card>, card: Card)
    requires Distinct(cards)
    ensures Distinct(MoveToFront(cards, card))
  {
    hide Find, MoveToFront;
    FrontShape(cards, card);
    FrontOthers(cards, card);
  }

  /** What stands in front of position `i` after a card moved to the front. */
  lemma FrontTokens(cards: seq<Card>, card: Card, i: nat, ahead: set<string>)
    requires Distinct(cards) && i < |cards| && cards[i].token != card.token && ahead == Tokens(cards[..i]) && |ahead| == i
    ensures var moved, j := MoveToFront(cards, card), if card.token in ahead then i else i + 1;
            && j < |moved| && moved[j] == cards[i]
            && Tokens(moved[..j]) == ahead + {card.token} && |ahead + {card.token}| == j
  {
    hide Find, MoveToFront, Tokens;
    var at := Find(cards, card.token);
    FrontShape(cards, card);
    AheadIff(cards, card.token, i);
    var j := Forth(at, i);
    if card.token in ahead {
      assert ahead + {card.token} == ahead;
    }
    forall t
      ensures t in Tokens(MoveToFront(cards, card)[..j]) <==> t in ahead + {card.token}
    {
      FrontMember(cards, card, i, t);
    }
  }

  lemma AheadIff(cards: seq<Card>, token: string, i: nat)
    requires Distinct(cards) && i < |cards| && cards[i].token != token
    ensures var at := Find(cards, token); token in Tokens(cards[..i]) <==> at.Some? && at.value < i
  {
    hide Find;
    var at := Find(cards, token);
    if token in Tokens(cards[..i]) {
      var k :| 0 <= k < i && cards[..i][k].token == token;
      assert cards[k].token == token;
    } else if at.Some? && at.value < i {
      TokenIn(cards, i, at.value);
      assert false;
    }
  }

  lemma TokenIn(cards: seq<Card>, i: nat, m: nat)
    requires m < i <= |cards|
    ensures cards[m].token in Tokens(cards[..i])
  {
    assert cards[..i][m] == cards[m];
  }

  lemma FrontMember(cards: seq<Card>, card: Card, i: nat, t: string)
    requires Distinct(cards) && i < |cards| && cards[i].token != card.token
    ensures Forth(Find(cards, card.token), i) < |MoveToFront(cards, card)|
    ensures t in Tokens(MoveToFront(cards, card)[..Forth(Find(cards, card.token), i)]) <==>
            t in Tokens(cards[..i]) + {card.token}
  {
    hide Find, MoveToFront, Tokens, Distinct;
    var at, moved := Find(cards, card.token), MoveToFront(cards, card);
    var j := Forth(at, i);
    FrontShape(cards, card);
    TokenIn(moved, j, 0);
    if t != card.token {
      if t in Tokens(moved[..j]) {
        var k := TokenAt(moved, j, t);
        TokenIn(cards, i, Back(at, k));
      }
      if t in Tokens(cards[..i]) {
        var m := TokenAt(cards, i, t);
        TokenIn(moved, j, Forth(at, m));
      }
    }
  }

  lemma TokenAt(cards: seq<Card>, i: nat, t: string) returns (m: nat)
    requires i <= |cards| && t in Tokens(cards[..i])
    ensures m < i && cards[m].token == t
  {
    m :| 0 <= m < i && cards[..i][m].token == t;
  }

  lemma NotInPrefix(moved: seq<Card>, j: nat, prefix: seq<Card>, token: string)
    requires Distinct(moved) && j < |moved| && moved[j].token == token && |prefix| <= j && prefix == moved[..|prefix|]
    ensures Find(prefix, token) == None
  {
    assert forall k :: 0 <= k < |prefix| ==> prefix[k] == moved[k];
  }

  lemma StillAbsent(cards: seq<Card>, card: Card, r: seq<Card>, token: string)
    requires Find(cards, token) == None && card.token != token
    requires |r| <= |MoveToFront(cards, card)| && r == MoveToFront(cards, card)[..|r|]
    ensures Find(r, token) == None
  {
    hide Find;
    var moved := MoveToFront(cards, card);
    assert forall k :: 0 <= k < |moved| ==> moved[k].token != token;
    assert forall k :: 0 <= k < |r| ==> r[k] == moved[k];
  }

  // -- what it answers ----------------------------------------------------------------------

  predicate Remembers(u: Use, token: string) { u.Remembering? && u.card.token == token }

  predicate LatestAt(uses: seq<Use>, k: nat, card: Card)
  {
    && k < |uses| && uses[k] == Remembering(card)
    && forall j :: k < j < |uses| ==> !Remembers(uses[j], card.token)
  }

  /** This card was remembered last for its token, or was there from the start and not replaced. */
  ghost predicate Current(c: Reference, uses: seq<Use>, card: Card)
  {
    || (exists k: nat :: LatestAt(uses, k, card))
    || (card in c.cards && forall j :: 0 <= j < |uses| ==> !Remembers(uses[j], card.token))
  }

  /** Whatever the uses, an answer is what was remembered last for the token; and there is one if and only
      if the cache is on and holds the token still. */
  lemma AnswersLatest(c: Reference, uses: seq<Use>, token: string)
    requires Distinct(c.cards) && |c.cards| <= c.capacity
    ensures forall info :: Answer(AfterAll(c, uses), token) == Some(info) && c.enabled ==> Current(c, uses, Card(token, info))
    ensures Answer(AfterAll(c, uses), token).Some? <==>
            c.enabled && exists i :: 0 <= i < |AfterAll(c, uses).cards| && AfterAll(c, uses).cards[i].token == token
  {
    hide Current, Find;
    AllCurrent(c, uses);
    var r := AfterAll(c, uses);
    var i := Find(r.cards, token);
    assert i.Some? ==> r.cards[i.value] == Card(token, r.cards[i.value].info);
  }

  lemma {:induction false} AllCurrent(c: Reference, uses: seq<Use>)
    requires Distinct(c.cards) && |c.cards| <= c.capacity
    ensures Distinct(AfterAll(c, uses).cards) && AfterAll(c, uses).enabled == c.enabled
    ensures c.enabled ==> forall card :: card in AfterAll(c, uses).cards ==> Current(c, uses, card)
    ensures !c.enabled ==> AfterAll(c, uses) == c
  {
    hide Current, Find, Remembered, Looked;
    if uses == [] {
      StartCurrent(c);
    } else {
      var front, last := uses[..|uses| - 1], uses[|uses| - 1];
      AllCurrent(c, front);
      UseKeeps(AfterAll(c, front), last);
      forall card | c.enabled && card in AfterAll(c, uses).cards
        ensures Current(c, uses, card)
      {
        StaysCurrent(c, uses, card);
      }
    }
  }

  lemma StartCurrent(c: Reference)
    ensures forall card :: card in c.cards ==> Current(c, [], card)
  {
  }

  /** A use brings in the card it remembers, replaces the one with its token, and changes no other. */
  lemma UseKeeps(c: Reference, u: Use)
    requires Distinct(c.cards)
    ensures Distinct(After(c, u).cards) && After(c, u).enabled == c.enabled
    ensures forall card :: card in After(c, u).cards ==>
              (c.enabled && u == Remembering(card)) || (card in c.cards && (c.enabled ==> !Remembers(u, card.token)))
    ensures !c.enabled ==> After(c, u) == c
  {
    hide Find, MoveToFront;
    var i := Find(c.cards, if u.Looking? then u.token else u.card.token);
    if c.enabled && (u.Remembering? || i.Some?) {
      var moved := if u.Remembering? then u.card else c.cards[i.value];
      FrontDistinct(c.cards, moved);
      FrontShape(c.cards, moved);
      FrontOthers(c.cards, moved);
      PrefixDistinct(MoveToFront(c.cards, moved), |After(c, u).cards|);
    }
  }

  lemma StaysCurrent(c: Reference, uses: seq<Use>, card: Card)
    requires uses != []
    requires var front, last := uses[..|uses| - 1], uses[|uses| - 1];
             last == Remembering(card) || (Current(c, front, card) && !Remembers(last, card.token))
    ensures Current(c, uses, card)
  {
    var front := uses[..|uses| - 1];
    assert forall j :: 0 <= j < |front| ==> front[j] == uses[j];
    if uses[|uses| - 1] == Remembering(card) {
      assert LatestAt(uses, |uses| - 1, card);
    } else if k: nat :| LatestAt(front, k, card) {
      assert LatestAt(uses, k, card);
    }
  }
}
