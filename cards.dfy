/** The flashcard deck of `composables/useCards.ts`: the card sets, the
    navigation position, the flip flag and the edit buffers, with the
    operations that change them locally or through the session's fetch
    wrapper. */
module Cards {
  import opened Js
  import opened JsText
  import opened Http
  import opened Storage
  import opened Auth

  /** A card; `id` is present exactly when the card mirrors a server record. */
  datatype Card = Card(japanese: string, english: string, id: Option<int>)
  datatype CardSet = CardSet(name: string, cards: seq<Card>, userId: string)

  /** A card record as the server sends it. */
  datatype ServerCard = ServerCard(id: int, front: string, back: string)
  /** The body of a reply to a create or update request. */
  datatype CardReply = CardReply(ok: bool, card: Option<ServerCard>)

  const CardsPath := "/api/flash-cards"
  const ServerSetName := "My Cards (Server)"
  const ServerUserId := "server"

  /** The path of one server record. */
  function CardPath(id: int): string {
    CardsPath + "/" + NumberToString(id)
  }

  /** Distinct records have distinct paths. */
  lemma CardPathInjective(a: int, b: int)
    requires CardPath(a) == CardPath(b)
    ensures a == b
  {
    var p := CardsPath + "/";
    assert NumberToString(a) == CardPath(a)[|p|..];
    assert NumberToString(b) == CardPath(b)[|p|..];
    NumberToStringInjective(a, b);
  }

  /** The body of a create or update request. */
  function CardBody(front: string, back: string): map<string, string> {
    map["front" := front, "back" := back]
  }

  /** A server record as a local card. */
  function FromServer(c: ServerCard): Card {
    Card(c.front, c.back, Some(c.id))
  }

  /** `list.map(...)` in `loadServerCards`: one card per record, in order,
      each carrying the record's id, front and back. */
  function FromServerList(list: seq<ServerCard>): (cards: seq<Card>)
    ensures |cards| == |list|
    ensures forall i :: 0 <= i < |list| ==>
      cards[i].id == Some(list[i].id) && cards[i].japanese == list[i].front && cards[i].english == list[i].back
  {
    if list == [] then [] else [FromServer(list[0])] + FromServerList(list[1..])
  }

  /** The single set `loadServerCards` installs. */
  function ServerSet(list: seq<ServerCard>): CardSet {
    CardSet(ServerSetName, FromServerList(list), ServerUserId)
  }

  /** `created?.ok && created.card`: the record of a successful reply. */
  function Accepted(body: Option<CardReply>): Option<ServerCard> {
    if body.Some? && body.value.ok && body.value.card.Some? then body.value.card else None
  }

  /** `sets[k]` as JavaScript reads it: the index when it is in range,
      `undefined` otherwise. */
  function Slot(sets: seq<CardSet>, k: int): Option<nat> {
    if 0 <= k < |sets| then Some(k) else None
  }

  /** `cards[i]` as JavaScript reads it. */
  function CardAt(cards: seq<Card>, i: int): Option<Card> {
    if 0 <= i < |cards| then Some(cards[i]) else None
  }

  /** `currentSetIndex ?? 0`. */
  function OrFirst(selection: Option<int>): int {
    if selection.Some? then selection.value else 0
  }

  /** The set the active index points at (a null index points nowhere). */
  function Active(sets: seq<CardSet>, selection: Option<int>): Option<nat> {
    if selection.None? then None else Slot(sets, selection.value)
  }

  /** `cardSets[currentSetIndex!]?.cards || []` — the number of cards
      navigation moves over. */
  function ActiveCount(sets: seq<CardSet>, selection: Option<int>): nat {
    var k := Active(sets, selection);
    if k.None? then 0 else |sets[k.value].cards|
  }

  /** The sets with set `k`'s card list replaced; every other set and set
      `k`'s name and owner are kept. */
  function WithCards(sets: seq<CardSet>, k: nat, cards: seq<Card>): (r: seq<CardSet>)
    requires k < |sets|
    ensures |r| == |sets|
    ensures r[k].cards == cards && r[k].name == sets[k].name && r[k].userId == sets[k].userId
    ensures forall j :: 0 <= j < |sets| && j != k ==> r[j] == sets[j]
  {
    sets[k := sets[k].(cards := cards)]
  }

  /** The sets with the text of card `i` of set `k` rewritten: that card
      keeps its id, and no other card of any set changes. */
  function Rewrite(sets: seq<CardSet>, k: nat, i: nat, front: string, back: string): (r: seq<CardSet>)
    requires k < |sets| && i < |sets[k].cards|
    ensures |r| == |sets| && |r[k].cards| == |sets[k].cards|
    ensures r[k].cards[i] == Card(front, back, sets[k].cards[i].id)
    ensures forall j :: 0 <= j < |sets[k].cards| && j != i ==> r[k].cards[j] == sets[k].cards[j]
    ensures r[k].name == sets[k].name && r[k].userId == sets[k].userId
    ensures forall j :: 0 <= j < |sets| && j != k ==> r[j] == sets[j]
  {
    var c := sets[k].cards[i];
    WithCards(sets, k, sets[k].cards[i := c.(japanese := front, english := back)])
  }

  /** Rewriting a card back to its old text restores every set. */
  lemma RewriteUndone(sets: seq<CardSet>, k: nat, i: nat, front: string, back: string)
    requires k < |sets| && i < |sets[k].cards|
    ensures var c := sets[k].cards[i];
      Rewrite(Rewrite(sets, k, i, front, back), k, i, c.japanese, c.english) == sets
  {
    var c := sets[k].cards[i];
    var r := Rewrite(Rewrite(sets, k, i, front, back), k, i, c.japanese, c.english);
    assert r[k].cards == sets[k].cards;
    assert r[k] == sets[k];
  }

  /** `nextCard`'s `(i + 1) % n`: one step forward, wrapping from the last
      card to the first. */
  function NextIndex(i: nat, n: nat): (r: nat)
    requires n > 0
    ensures r < n
    ensures i + 1 < n ==> r == i + 1
    ensures i + 1 == n ==> r == 0
    ensures r == (i + 1) % n
  {
    if i + 1 < n then (ModUnique(i + 1, n, 0, i + 1); Rem(i + 1, n))
    else if i + 1 == n then (ModUnique(i + 1, n, 1, 0); Rem(i + 1, n))
    else Rem(i + 1, n)
  }

  /** `prevCard`'s `(i - 1 + n) % n`: one step back, wrapping from the first
      card to the last. */
  function PrevIndex(i: nat, n: nat): (r: nat)
    requires n > 0
    ensures r < n
    ensures 0 < i <= n ==> r == i - 1
    ensures i == 0 ==> r == n - 1
    ensures r == (i + n - 1) % n
  {
    if 0 < i <= n then (ModUnique(i - 1 + n, n, 1, i - 1); Rem(i - 1 + n, n))
    else if i == 0 then (ModUnique(i - 1 + n, n, 0, n - 1); Rem(i - 1 + n, n))
    else Rem(i - 1 + n, n)
  }

  /** On a valid position the two steps undo each other. */
  lemma NextPrevInverse(i: nat, n: nat)
    requires i < n
    ensures PrevIndex(NextIndex(i, n), n) == i
    ensures NextIndex(PrevIndex(i, n), n) == i
  {
  }

  /** The position after `k` calls of `nextCard` on an `n`-card set. */
  function Advance(i: nat, n: nat, k: nat): (r: nat)
    requires n > 0
    decreases k
  {
    if k == 0 then i else NextIndex(Advance(i, n, k - 1), n)
  }

  /** The position after `k` calls of `prevCard` on an `n`-card set. */
  function Retreat(i: nat, n: nat, k: nat): (r: nat)
    requires n > 0
    decreases k
  {
    if k == 0 then i else PrevIndex(Retreat(i, n, k - 1), n)
  }

  /** The quotient and remainder of a division by `n > 0` are the unique
      `q`, `r` with `a == q * n + r` and `0 <= r < n`. */
  lemma ModUnique(a: int, n: int, q: int, r: int)
    requires n > 0 && 0 <= r < n && a == q * n + r
    ensures a % n == r
  {
    var q0, r0 := a / n, a % n;
    assert a == q0 * n + r0;
    assert (q - q0) * n == r0 - r;
    if q > q0 {
      MulAtLeast(q - q0, n);
    } else if q < q0 {
      MulAtLeast(q0 - q, n);
    }
  }

  lemma {:induction false} MulAtLeast(d: int, n: int)
    requires d >= 1 && n > 0
    ensures d * n >= n
    decreases d
  {
    if d > 1 {
      MulAtLeast(d - 1, n);
      assert d * n == (d - 1) * n + n;
    }
  }

  lemma ModShift(a: int, n: int)
    requires n > 0
    ensures (a + n) % n == a % n
  {
    var q, r := a / n, a % n;
    assert a == q * n + r;
    ModUnique(a + n, n, q + 1, r);
  }

  lemma ModStep(a: int, n: int)
    requires n > 0
    ensures (a % n + 1) % n == (a + 1) % n
  {
    var q, r := a / n, a % n;
    assert a == q * n + r;
    if r + 1 == n {
      ModUnique(a + 1, n, q + 1, 0);
      ModUnique(r + 1, n, 1, 0);
    } else {
      ModUnique(a + 1, n, q, r + 1);
      ModUnique(r + 1, n, 0, r + 1);
    }
  }

  lemma ModStepBack(a: int, n: int)
    requires n > 0
    ensures (a % n + n - 1) % n == (a - 1) % n
  {
    var q, r := a / n, a % n;
    assert a == q * n + r;
    if r == 0 {
      ModUnique(a - 1, n, q - 1, n - 1);
      ModUnique(r + n - 1, n, 0, n - 1);
    } else {
      ModUnique(a - 1, n, q, r - 1);
      ModUnique(r + n - 1, n, 1, r - 1);
    }
  }

  /** `k` forward steps from `i` land on `(i + k) mod n`. */
  lemma {:induction false} AdvanceIsShift(i: nat, n: nat, k: nat)
    requires n > 0
    ensures k > 0 ==> Advance(i, n, k) == (i + k) % n
    decreases k
  {
    if k > 1 {
      AdvanceIsShift(i, n, k - 1);
      ModStep(i + k - 1, n);
    }
  }

  /** `k` backward steps from `i` land on `(i - k) mod n`. */
  lemma {:induction false} RetreatIsShift(i: nat, n: nat, k: nat)
    requires n > 0
    ensures k > 0 ==> Retreat(i, n, k) == (i - k) % n
    decreases k
  {
    if k == 1 {
      ModShift(i - 1, n);
    } else if k > 1 {
      RetreatIsShift(i, n, k - 1);
      ModStepBack(i - (k - 1), n);
    }
  }

  /** On an `n`-card set the positions visited by `nextCard` and by
      `prevCard` repeat with period `n`: `n` steps return to the start. */
  lemma NavigationPeriodic(i: nat, n: nat)
    requires i < n
    ensures Advance(i, n, n) == i
    ensures Retreat(i, n, n) == i
  {
    AdvanceIsShift(i, n, n);
    RetreatIsShift(i, n, n);
    ModUnique(i + n, n, 1, i);
    ModUnique(i - n, n, -1, i);
  }

  class Deck {
    var cardSets: seq<CardSet>
    var currentSetIndex: Option<int>
    var currentCardIndex: nat
    var isFlipped: bool
    var editingCardIndex: Option<int>
    var editJapanese: string
    var editEnglish: string
    const auth: Session

    constructor (auth: Session)
      ensures this.auth == auth
      ensures cardSets == [] && currentSetIndex.None? && currentCardIndex == 0 && !isFlipped
      ensures editingCardIndex.None? && editJapanese == "" && editEnglish == ""
    {
      this.auth := auth;
      cardSets := [];
      currentSetIndex := None;
      currentCardIndex := 0;
      isFlipped := false;
      editingCardIndex := None;
      editJapanese := "";
      editEnglish := "";
    }

    twostate predicate ViewUnchanged()
      reads this
    {
      currentSetIndex == old(currentSetIndex) && currentCardIndex == old(currentCardIndex) && isFlipped == old(isFlipped)
    }

    twostate predicate EditUnchanged()
      reads this
    {
      editingCardIndex == old(editingCardIndex) && editJapanese == old(editJapanese) && editEnglish == old(editEnglish)
    }

    /** `loadServerCards`: fetches the records and replaces all sets by the
        one server set; selects it only when no set was selected. A failed
        fetch leaves the deck as it was. */
    method LoadServerCards(reply: Response<seq<ServerCard>>) returns (sent: Option<Request>, result: Result<()>)
      modifies this, auth, auth.store
      ensures sent == AuthorizedRequest(old(auth.store.items), CardsPath, Options("GET", None, None))
      ensures auth.State() == AfterFetch(old(auth.State()), reply)
      ensures currentCardIndex == old(currentCardIndex) && isFlipped == old(isFlipped) && EditUnchanged()
      ensures var fetched := FetchedResult(old(auth.store.items), reply);
        && (fetched.Thrown? ==>
              result == Thrown(fetched.failure) && cardSets == old(cardSets) && currentSetIndex == old(currentSetIndex))
        && (fetched.Ok? ==>
              && result == Ok(())
              && cardSets == [ServerSet(fetched.value)]
              && currentSetIndex == if old(currentSetIndex).None? then Some(0) else old(currentSetIndex))
    {
      var list;
      sent, list := auth.FetchWithAuth(CardsPath, Options("GET", None, None), reply);
      if list.Thrown? {
        return sent, Thrown(list.failure);
      }
      cardSets := [ServerSet(list.value)];
      if currentSetIndex.None? {
        currentSetIndex := Some(0);
      }
      result := Ok(());
    }

    /** `addNewCard`: logged in, posts the card and puts the server's record
        in front of set 0 when the reply accepts it; logged out, appends a
        card without id to the active set. */
    method AddNewCard(japanese: string, english: string, reply: Response<Option<CardReply>>)
        returns (sent: Option<Request>, result: Result<()>)
      modifies this, auth, auth.store
      ensures ViewUnchanged() && EditUnchanged()
      ensures old(auth.isLoggedIn) ==>
        var fetched := FetchedResult(old(auth.store.items), reply);
        && sent == AuthorizedRequest(old(auth.store.items), CardsPath, Options("POST", Some(CardBody(japanese, english)), None))
        && auth.State() == AfterFetch(old(auth.State()), reply)
        && (fetched.Thrown? ==> result == Thrown(fetched.failure) && cardSets == old(cardSets))
        && (fetched.Ok? && Accepted(fetched.value).None? ==> result == Ok(()) && cardSets == old(cardSets))
        && (fetched.Ok? && Accepted(fetched.value).Some? && old(cardSets) == [] ==>
              result == Thrown(TypeError) && cardSets == old(cardSets))
        && (fetched.Ok? && Accepted(fetched.value).Some? && old(cardSets) != [] ==>
              && result == Ok(())
              && cardSets == WithCards(old(cardSets), 0, [FromServer(Accepted(fetched.value).value)] + old(cardSets)[0].cards))
      ensures !old(auth.isLoggedIn) ==>
        var k := Active(old(cardSets), old(currentSetIndex));
        && sent.None? && auth.State() == old(auth.State())
        && (k.None? ==> result == Thrown(TypeError) && cardSets == old(cardSets))
        && (k.Some? ==>
              result == Ok(()) && cardSets == WithCards(old(cardSets), k.value, old(cardSets)[k.value].cards + [Card(japanese, english, None)]))
    {
      if auth.isLoggedIn {
        var created;
        sent, created := auth.FetchWithAuth(CardsPath, Options("POST", Some(CardBody(japanese, english)), None), reply);
        if created.Thrown? {
          return sent, Thrown(created.failure);
        }
        var card := Accepted(created.value);
        if card.Some? {
          if |cardSets| == 0 {
            return sent, Thrown(TypeError);
          }
          cardSets := WithCards(cardSets, 0, [FromServer(card.value)] + cardSets[0].cards);
        }
        result := Ok(());
      } else {
        sent := None;
        var k := Active(cardSets, currentSetIndex);
        if k.None? {
          return sent, Thrown(TypeError);
        }
        cardSets := WithCards(cardSets, k.value, cardSets[k.value].cards + [Card(japanese, english, None)]);
        result := Ok(());
      }
    }

    /** `deleteCard`: in the set `currentSetIndex ?? 0`, logged out, splices
        out position `index`; logged in, ignores a card without id and
        otherwise deletes the record and then splices the card out. */
    method DeleteCard<B>(index: int, reply: Response<B>) returns (sent: Option<Request>, result: Result<()>)
      modifies this, auth, auth.store
      ensures ViewUnchanged() && EditUnchanged()
      ensures var k := Slot(old(cardSets), OrFirst(old(currentSetIndex)));
        k.None? ==>
          sent.None? && result == Thrown(TypeError) && cardSets == old(cardSets) && auth.State() == old(auth.State())
      ensures var k := Slot(old(cardSets), OrFirst(old(currentSetIndex)));
        k.Some? && !old(auth.isLoggedIn) ==>
          && sent.None? && result == Ok(()) && auth.State() == old(auth.State())
          && cardSets == WithCards(old(cardSets), k.value, SpliceOne(old(cardSets)[k.value].cards, index))
      ensures var k := Slot(old(cardSets), OrFirst(old(currentSetIndex)));
        k.Some? && old(auth.isLoggedIn) ==>
          var c := CardAt(old(cardSets)[k.value].cards, index);
          && (c.None? ==>
                sent.None? && result == Thrown(TypeError) && cardSets == old(cardSets) && auth.State() == old(auth.State()))
          && (c.Some? && c.value.id.None? ==>
                sent.None? && result == Ok(()) && cardSets == old(cardSets) && auth.State() == old(auth.State()))
          && (c.Some? && c.value.id.Some? ==>
                var fetched := FetchedResult(old(auth.store.items), reply);
                && sent == AuthorizedRequest(old(auth.store.items), CardPath(c.value.id.value), Options("DELETE", None, None))
                && auth.State() == AfterFetch(old(auth.State()), reply)
                && (fetched.Thrown? ==> result == Thrown(fetched.failure) && cardSets == old(cardSets))
                && (fetched.Ok? ==>
                      result == Ok(()) && cardSets == WithCards(old(cardSets), k.value, SpliceOne(old(cardSets)[k.value].cards, index))))
    {
      var k := Slot(cardSets, OrFirst(currentSetIndex));
      if k.None? {
        return None, Thrown(TypeError);
      }
      sent := None;
      if auth.isLoggedIn {
        var c := CardAt(cardSets[k.value].cards, index);
        if c.None? {
          return None, Thrown(TypeError);
        }
        if c.value.id.None? {
          return None, Ok(());
        }
        var done;
        sent, done := auth.FetchWithAuth(CardPath(c.value.id.value), Options("DELETE", None, None), reply);
        if done.Thrown? {
          return sent, Thrown(done.failure);
        }
      }
      cardSets := WithCards(cardSets, k.value, SpliceOne(cardSets[k.value].cards, index));
      result := Ok(());
    }

    /** `startEditCard`: marks position `index` as being edited and copies
        that card's text into the buffers. The editing index is set before
        the card is read, so it stays set when the card does not exist. */
    method StartEditCard(index: int) returns (result: Result<()>)
      modifies this
      ensures cardSets == old(cardSets) && ViewUnchanged()
      ensures editingCardIndex == Some(index)
      ensures var k := Slot(cardSets, OrFirst(currentSetIndex));
        var c := if k.None? then None else CardAt(cardSets[k.value].cards, index);
        && (c.None? ==>
              result == Thrown(TypeError) && editJapanese == old(editJapanese) && editEnglish == old(editEnglish))
        && (c.Some? ==>
              result == Ok(()) && editJapanese == c.value.japanese && editEnglish == c.value.english)
    {
      editingCardIndex := Some(index);
      var k := Slot(cardSets, OrFirst(currentSetIndex));
      if k.None? {
        return Thrown(TypeError);
      }
      var c := CardAt(cardSets[k.value].cards, index);
      if c.None? {
        return Thrown(TypeError);
      }
      editJapanese := c.value.japanese;
      editEnglish := c.value.english;
      result := Ok(());
    }

    /** `saveEditCard`: no-op without an editing index. Otherwise, for a
        logged-in session and a card with an id, sends the trimmed buffers
        and takes the server's text when the reply accepts it; in every
        other case writes the trimmed buffers into the card. The editing
        index is cleared unless the operation throws. */
    method SaveEditCard(reply: Response<Option<CardReply>>) returns (sent: Option<Request>, result: Result<()>)
      modifies this, auth, auth.store
      ensures ViewUnchanged() && editJapanese == old(editJapanese) && editEnglish == old(editEnglish)
      ensures old(editingCardIndex).None? ==>
        && sent.None? && result == Ok(()) && cardSets == old(cardSets)
        && editingCardIndex == old(editingCardIndex) && auth.State() == old(auth.State())
      ensures old(editingCardIndex).Some? ==>
        var e := old(editingCardIndex).value;
        var k := Slot(old(cardSets), OrFirst(old(currentSetIndex)));
        var c := if k.None? then None else CardAt(old(cardSets)[k.value].cards, e);
        && (c.None? ==>
              && sent.None? && result == Thrown(TypeError) && cardSets == old(cardSets)
              && editingCardIndex == old(editingCardIndex) && auth.State() == old(auth.State()))
        && (c.Some? && !(old(auth.isLoggedIn) && c.value.id.Some?) ==>
              && sent.None? && result == Ok(()) && editingCardIndex.None? && auth.State() == old(auth.State())
              && cardSets == Rewrite(old(cardSets), k.value, e, Trim(old(editJapanese)), Trim(old(editEnglish))))
        && (c.Some? && old(auth.isLoggedIn) && c.value.id.Some? ==>
              var fetched := FetchedResult(old(auth.store.items), reply);
              && sent == AuthorizedRequest(old(auth.store.items), CardPath(c.value.id.value),
                           Options("PATCH", Some(CardBody(Trim(old(editJapanese)), Trim(old(editEnglish)))), None))
              && auth.State() == AfterFetch(old(auth.State()), reply)
              && (fetched.Thrown? ==>
                    result == Thrown(fetched.failure) && cardSets == old(cardSets) && editingCardIndex == old(editingCardIndex))
              && (fetched.Ok? ==>
                    && result == Ok(()) && editingCardIndex.None?
                    && cardSets == (var card := Accepted(fetched.value);
                                    if card.None? then old(cardSets)
                                    else Rewrite(old(cardSets), k.value, e, card.value.front, card.value.back))))
    {
      if editingCardIndex.None? {
        return None, Ok(());
      }
      var e := editingCardIndex.value;
      var k := Slot(cardSets, OrFirst(currentSetIndex));
      if k.None? {
        return None, Thrown(TypeError);
      }
      var c := CardAt(cardSets[k.value].cards, e);
      if c.None? {
        return None, Thrown(TypeError);
      }
      sent := None;
      if auth.isLoggedIn && c.value.id.Some? {
        var updated;
        sent, updated := auth.FetchWithAuth(CardPath(c.value.id.value),
                           Options("PATCH", Some(CardBody(Trim(editJapanese), Trim(editEnglish))), None), reply);
        if updated.Thrown? {
          return sent, Thrown(updated.failure);
        }
        var card := Accepted(updated.value);
        if card.Some? {
          cardSets := Rewrite(cardSets, k.value, e, card.value.front, card.value.back);
        }
      } else {
        cardSets := Rewrite(cardSets, k.value, e, Trim(editJapanese), Trim(editEnglish));
      }
      editingCardIndex := None;
      result := Ok(());
    }

    /** `cancelEdit`: clears the editing index and nothing else. */
    method CancelEdit()
      modifies this
      ensures editingCardIndex.None?
      ensures cardSets == old(cardSets) && ViewUnchanged()
      ensures editJapanese == old(editJapanese) && editEnglish == old(editEnglish)
    {
      editingCardIndex := None;
    }

    /** `playCardSet`: selects set `index` and starts at its first card,
        face up. */
    method PlayCardSet(index: int)
      modifies this
      ensures currentSetIndex == Some(index) && currentCardIndex == 0 && !isFlipped
      ensures cardSets == old(cardSets) && EditUnchanged()
    {
      currentSetIndex := Some(index);
      currentCardIndex := 0;
      isFlipped := false;
    }

    /** `backToList`: clears the set selection only. */
    method BackToList()
      modifies this
      ensures currentSetIndex.None?
      ensures cardSets == old(cardSets) && currentCardIndex == old(currentCardIndex) && isFlipped == old(isFlipped)
      ensures EditUnchanged()
    {
      currentSetIndex := None;
    }

    /** `nextCard`: turns the card face up and, when the active set has
        cards, steps forward with wraparound. */
    method NextCard()
      modifies this
      ensures !isFlipped
      ensures cardSets == old(cardSets) && currentSetIndex == old(currentSetIndex) && EditUnchanged()
      ensures var n := ActiveCount(cardSets, currentSetIndex);
        currentCardIndex == if n > 0 then NextIndex(old(currentCardIndex), n) else old(currentCardIndex)
    {
      isFlipped := false;
      var n := ActiveCount(cardSets, currentSetIndex);
      if n > 0 {
        currentCardIndex := NextIndex(currentCardIndex, n);
      }
    }

    /** `prevCard`: turns the card face up and, when the active set has
        cards, steps back with wraparound. */
    method PrevCard()
      modifies this
      ensures !isFlipped
      ensures cardSets == old(cardSets) && currentSetIndex == old(currentSetIndex) && EditUnchanged()
      ensures var n := ActiveCount(cardSets, currentSetIndex);
        currentCardIndex == if n > 0 then PrevIndex(old(currentCardIndex), n) else old(currentCardIndex)
    {
      isFlipped := false;
      var n := ActiveCount(cardSets, currentSetIndex);
      if n > 0 {
        currentCardIndex := PrevIndex(currentCardIndex, n);
      }
    }

    /** `flipCard`: turns the card over. */
    method FlipCard()
      modifies this
      ensures isFlipped == !old(isFlipped)
      ensures cardSets == old(cardSets) && currentSetIndex == old(currentSetIndex)
      ensures currentCardIndex == old(currentCardIndex) && EditUnchanged()
    {
      isFlipped := !isFlipped;
    }
  }
  /** Neither `deleteCard` nor `loadServerCards` moves `currentCardIndex`,
      so it can be left past the end of the active set. On a two-card
      server set: `playCardSet(0)` and `nextCard()` go to card 1; a
      logged-out `deleteCard(1)` leaves one card with the index still at 1;
      reloading an empty collection leaves no card with the index at 1. */
  method StaleCardIndex() returns (afterDelete: (nat, nat), afterReload: (nat, nat))
    ensures afterDelete == (1, 1)
    ensures afterReload == (1, 0)
  {
    var store := new LocalStorage();
    store.SetItem(TokenKey, "t");
    var session := new Session(store);
    var deck := new Deck(session);
    assert Token(store.items) == Some("t");
    var _, _ := deck.LoadServerCards(Reply([ServerCard(1, "a", "A"), ServerCard(2, "b", "B")]));
    assert deck.cardSets == [ServerSet([ServerCard(1, "a", "A"), ServerCard(2, "b", "B")])];
    assert !session.isLoggedIn && Token(store.items) == Some("t");
    deck.PlayCardSet(0);
    deck.NextCard();
    var _, _ := deck.DeleteCard(1, Reply(()));
    afterDelete := (deck.currentCardIndex, ActiveCount(deck.cardSets, deck.currentSetIndex));
    assert Token(store.items) == Some("t");
    var _, _ := deck.LoadServerCards(Reply([]));
    afterReload := (deck.currentCardIndex, ActiveCount(deck.cardSets, deck.currentSetIndex));
  }
}
