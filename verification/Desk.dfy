/** The book-keeping behind the order book: the id cache, the ledger of every
    order ever accepted, the internal queue and the orders in hand, with the
    elementary steps that every operation is made of. */
module Desk {
  import opened Ladder

  datatype OrderType = Market | LimitOrder | StopOrder | StopLimit
  datatype Condition = Plain | AllOrNone | FillOrKill(partialOk: bool)

  /** An order on its way into the book; prices are in ticks. */
  datatype Ticket = Ticket(otype: OrderType, isBuy: bool, limit: nat, stop: nat, sz: nat, cond: Condition, id: nat)

  /** The life of an accepted order: its side and size, what was filled, and
      what was released (cancelled, killed, triggered, dropped). */
  datatype Account = Account(isBuy: bool, aon: bool, size: nat, filled: nat, released: nat)

  function Open(a: Account): int {
    a.size - a.filled - a.released
  }

  /** An all-or-none order is filled entirely or not at all. */
  predicate Whole(a: Account) {
    a.aon ==> a.filled == 0 || a.filled == a.size
  }

  /** A trade: the time-and-sales entry with the ids of its two fill messages. */
  datatype Sale = Sale(price: int, size: nat, taker: nat, maker: nat)

  /** hand: the orders accepted but not resting, those in the queue included. */
  datatype Books = Books(book: seq<Level>, bid: nat, ask: nat, cache: map<nat, Place>, queue: seq<Ticket>,
                         lastId: nat, ledger: map<nat, Account>, hand: set<nat>, tape: seq<Sale>)

  function Without(c: seq<Bundle>, i: nat): (r: seq<Bundle>)
    requires i < |c|
    ensures |r| == |c| - 1
  {
    c[..i] + c[i + 1..]
  }

  function With(c: seq<Bundle>, i: nat, b: Bundle): seq<Bundle>
    requires i <= |c|
  {
    c[..i] + [b] + c[i..]
  }

  /** Where id is in a chain; the chain's length if nowhere. */
  function IndexOf(c: seq<Bundle>, id: nat): (i: nat)
    ensures i <= |c| && (i < |c| ==> c[i].id == id) && forall j :: 0 <= j < i ==> c[j].id != id
  {
    if c == [] || c[0].id == id then 0 else 1 + IndexOf(c[1..], id)
  }

  function SetChain(book: seq<Level>, p: nat, k: Kind, c: seq<Bundle>): (r: seq<Level>)
    requires p < |book|
    ensures |r| == |book| && Chain(r[p], k) == c
  {
    book[p := WithChain(book[p], k, c)]
  }

  lemma SetSame(book: seq<Level>, p: nat, k: Kind)
    requires p < |book|
    ensures SetChain(book, p, k, Chain(book[p], k)) == book
  {
  }

  lemma SetTwice(book: seq<Level>, p: nat, k: Kind, c: seq<Bundle>, c': seq<Bundle>)
    requires p < |book|
    ensures SetChain(SetChain(book, p, k, c), p, k, c') == SetChain(book, p, k, c')
  {
  }

  /* ---- the invariant ---- */

  ghost predicate Holds(c: seq<Bundle>, id: nat) {
    exists b :: b in c && b.id == id
  }

  ghost predicate Distinct(c: seq<Bundle>) {
    forall i, j :: 0 <= i < j < |c| ==> c[i].id != c[j].id
  }

  /** The cache names the chain of every resting order ... */
  ghost predicate Named(book: seq<Level>, cache: map<nat, Place>) {
    forall p, k, b :: 0 <= p < |book| && b in Chain(book[p], k) ==> b.id in cache && cache[b.id] == Place(k, p)
  }

  /** ... which holds it only once ... */
  ghost predicate Unique(book: seq<Level>) {
    forall p, k :: 0 <= p < |book| ==> Distinct(Chain(book[p], k))
  }

  /** ... and names nothing else. */
  ghost predicate Found(book: seq<Level>, cache: map<nat, Place>) {
    forall id :: id in cache ==> cache[id].level < |book| && Holds(Chain(book[cache[id].level], cache[id].kind), id)
  }

  /** A bundle of chain k is what its account says. */
  predicate Tallies(b: Bundle, k: Kind, a: Account) {
    && b.sz > 0 && Open(a) == b.sz
    && (b.Stop? <==> k == Stops)
    && (b.Stop? ==> a.isBuy == b.isBuy && !a.aon)
    && (b.Resting? ==> a.aon == b.aon && (b.aon ==> b.sz == a.size))
    && (k == AonBuys || k == AonSells ==> b.Resting? && b.aon && a.isBuy == (k == AonBuys))
  }

  /** Every resting order tallies with its account. */
  ghost predicate Tallied(book: seq<Level>, ledger: map<nat, Account>) {
    forall p, k, b :: 0 <= p < |book| && b in Chain(book[p], k) ==> b.id in ledger && Tallies(b, k, ledger[b.id])
  }

  /** Limit chains up to the bid hold buys and those from the ask on hold sells. */
  ghost predicate Sided(book: seq<Level>, ledger: map<nat, Account>, bid: nat, ask: nat) {
    forall p, b :: 0 <= p < |book| && b in book[p].limits && b.id in ledger ==>
      if ledger[b.id].isBuy then p <= bid else p >= ask
  }

  /** Queued orders are in hand, whole, and queued once. */
  ghost predicate Queued(queue: seq<Ticket>, ledger: map<nat, Account>, hand: set<nat>) {
    && (forall t :: t in queue ==>
          && t.id in hand && t.id in ledger
          && t.sz > 0 && Open(ledger[t.id]) == t.sz && ledger[t.id].isBuy == t.isBuy
          && !ledger[t.id].aon && ledger[t.id].filled == 0 && ledger[t.id].released == 0)
    && (forall i, j :: 0 <= i < j < |queue| ==> queue[i].id != queue[j].id)
  }

  /** No size is lost: an order neither resting nor in hand has none open. */
  ghost predicate Audited(ledger: map<nat, Account>, cache: map<nat, Place>, hand: set<nat>, lastId: nat) {
    forall id :: id in ledger ==>
      && 0 < id <= lastId && Open(ledger[id]) >= 0
      && (id !in hand ==> Whole(ledger[id]) && (id !in cache ==> Open(ledger[id]) == 0))
  }

  ghost predicate Handled(hand: set<nat>, ledger: map<nat, Account>, cache: map<nat, Place>) {
    hand <= ledger.Keys && hand !! cache.Keys
  }

  /** What the tape says id traded. */
  function Traded(tape: seq<Sale>, id: nat): nat {
    if tape == [] then 0
    else
      var s := tape[|tape| - 1];
      Traded(tape[..|tape| - 1], id) + if s.taker == id || s.maker == id then s.size else 0
  }

  function Volume(tape: seq<Sale>): nat {
    if tape == [] then 0 else Volume(tape[..|tape| - 1]) + tape[|tape| - 1].size
  }

  /** Every sale is between a buyer and a seller, and the sales of an order add
      up to what its account has filled. */
  ghost predicate Posted(tape: seq<Sale>, ledger: map<nat, Account>) {
    && (forall s :: s in tape ==>
          s.taker in ledger && s.maker in ledger && ledger[s.taker].isBuy != ledger[s.maker].isBuy)
    && (forall id :: id in ledger ==> Traded(tape, id) == ledger[id].filled)
  }

  ghost predicate Ok(d: Books) {
    && |d.book| > 1 && d.book[0] == VACANT
    && Named(d.book, d.cache) && Unique(d.book) && Found(d.book, d.cache)
    && Tallied(d.book, d.ledger)
    && Sided(d.book, d.ledger, d.bid, d.ask)
    && Queued(d.queue, d.ledger, d.hand)
    && Audited(d.ledger, d.cache, d.hand, d.lastId)
    && Handled(d.hand, d.ledger, d.cache)
    && Posted(d.tape, d.ledger)
  }

  /* ---- taking an order out of a chain ---- */

  function Take(d: Books, p: nat, k: Kind, i: nat): Books
    requires p < |d.book| && i < |Chain(d.book[p], k)|
  {
    var c := Chain(d.book[p], k);
    d.(book := SetChain(d.book, p, k, Without(c, i)), cache := d.cache - {c[i].id}, hand := d.hand + {c[i].id})
  }

  lemma WithoutChain(c: seq<Bundle>, i: nat)
    requires i < |c| && Distinct(c)
    ensures Distinct(Without(c, i))
    ensures forall b :: b in Without(c, i) <==> b in c && b.id != c[i].id
  {
    var c' := Without(c, i);
    assert forall j :: 0 <= j < |c'| ==> c'[j] == c[if j < i then j else j + 1];
    forall b | b in c && b.id != c[i].id ensures b in c' {
      var j :| 0 <= j < |c| && c[j] == b;
      assert c'[if j < i then j else j - 1] == b;
    }
  }

  lemma CutFound(book: seq<Level>, cache: map<nat, Place>, p: nat, k: Kind, c: seq<Bundle>, id: nat)
    requires Found(book, cache) && p < |book|
    requires forall b :: b in Chain(book[p], k) && b.id != id ==> b in c
    ensures Found(SetChain(book, p, k, c), cache - {id})
  {
    var book' := SetChain(book, p, k, c);
    var cache' := cache - {id};
    forall x | x in cache' ensures cache'[x].level < |book'|
      && Holds(Chain(book'[cache'[x].level], cache'[x].kind), x) {
      var b :| b in Chain(book[cache[x].level], cache[x].kind) && b.id == x;
      assert b in Chain(book'[cache'[x].level], cache'[x].kind);
    }
  }

  lemma CutNamed(book: seq<Level>, cache: map<nat, Place>, p: nat, k: Kind, c: seq<Bundle>, id: nat)
    requires Named(book, cache) && p < |book|
    requires forall b :: b in c ==> b in Chain(book[p], k) && b.id != id
    requires id in cache && cache[id] == Place(k, p)
    ensures Named(SetChain(book, p, k, c), cache - {id})
  {
  }

  lemma SetUnique(book: seq<Level>, p: nat, k: Kind, c: seq<Bundle>)
    requires Unique(book) && p < |book| && Distinct(c)
    ensures Unique(SetChain(book, p, k, c))
  {
  }

  lemma SetTallied(book: seq<Level>, ledger: map<nat, Account>, p: nat, k: Kind, c: seq<Bundle>)
    requires Tallied(book, ledger) && p < |book|
    requires forall b :: b in c ==> b.id in ledger && Tallies(b, k, ledger[b.id])
    ensures Tallied(SetChain(book, p, k, c), ledger)
  {
  }

  lemma SetSided(book: seq<Level>, ledger: map<nat, Account>, bid: nat, ask: nat, p: nat, k: Kind, c: seq<Bundle>)
    requires Sided(book, ledger, bid, ask) && p < |book|
    requires k == Limits ==> forall b :: b in c && b.id in ledger ==> if ledger[b.id].isBuy then p <= bid else p >= ask
    ensures Sided(SetChain(book, p, k, c), ledger, bid, ask)
  {
  }

  lemma Known(book: seq<Level>, cache: map<nat, Place>, ledger: map<nat, Account>, p: nat, k: Kind, i: nat)
    requires Named(book, cache) && Tallied(book, ledger) && p < |book| && i < |Chain(book[p], k)|
    ensures var b := Chain(book[p], k)[i];
      b.id in cache && cache[b.id] == Place(k, p) && b.id in ledger && Tallies(b, k, ledger[b.id])
  {
    assert Chain(book[p], k)[i] in Chain(book[p], k);
  }

  lemma TakeHand(d: Books, id: nat)
    requires id in d.cache && id in d.ledger
    requires Queued(d.queue, d.ledger, d.hand) && Audited(d.ledger, d.cache, d.hand, d.lastId)
      && Handled(d.hand, d.ledger, d.cache)
    ensures Queued(d.queue, d.ledger, d.hand + {id})
    ensures Audited(d.ledger, d.cache - {id}, d.hand + {id}, d.lastId)
    ensures Handled(d.hand + {id}, d.ledger, d.cache - {id})
  {
  }

  lemma TakeIndexed(book: seq<Level>, cache: map<nat, Place>, ledger: map<nat, Account>, p: nat, k: Kind, i: nat)
    requires Named(book, cache) && Unique(book) && Found(book, cache) && Tallied(book, ledger)
    requires p < |book| && i < |Chain(book[p], k)|
    ensures var c := Chain(book[p], k);
            var book' := SetChain(book, p, k, Without(c, i));
            var cache' := cache - {c[i].id};
            Named(book', cache') && Unique(book') && Found(book', cache')
  {
    var c := Chain(book[p], k);
    var c' := Without(c, i);
    Known(book, cache, ledger, p, k, i);
    WithoutChain(c, i);
    CutFound(book, cache, p, k, c', c[i].id);
    CutNamed(book, cache, p, k, c', c[i].id);
    SetUnique(book, p, k, c');
  }

  lemma ChainLimits(l: Level)
    ensures Chain(l, Limits) == l.limits
  {
  }

  lemma TakeTallied(book: seq<Level>, ledger: map<nat, Account>, bid: nat, ask: nat, p: nat, k: Kind, i: nat)
    requires Unique(book) && Tallied(book, ledger) && Sided(book, ledger, bid, ask)
    requires p < |book| && i < |Chain(book[p], k)|
    ensures var book' := SetChain(book, p, k, Without(Chain(book[p], k), i));
            Tallied(book', ledger) && Sided(book', ledger, bid, ask)
  {
    hide Without, Tallies, Distinct, Chain;
    var c := Chain(book[p], k);
    WithoutChain(c, i);
    assert forall b :: b in Without(c, i) ==> b in c;
    SetTallied(book, ledger, p, k, Without(c, i));
    assert k == Limits ==> c == book[p].limits by {
      ChainLimits(book[p]);
    }
    SetSided(book, ledger, bid, ask, p, k, Without(c, i));
  }

  lemma TakeOk(d: Books, p: nat, k: Kind, i: nat)
    requires Ok(d) && p < |d.book| && i < |Chain(d.book[p], k)|
    ensures Ok(Take(d, p, k, i))
  {
    Known(d.book, d.cache, d.ledger, p, k, i);
    TakeIndexed(d.book, d.cache, d.ledger, p, k, i);
    TakeTallied(d.book, d.ledger, d.bid, d.ask, p, k, i);
    TakeHand(d, Chain(d.book[p], k)[i].id);
  }

  /* ---- putting an order in hand into a chain ---- */

  function Put(d: Books, p: nat, k: Kind, i: nat, b: Bundle): Books
    requires p < |d.book| && i <= |Chain(d.book[p], k)|
  {
    d.(book := SetChain(d.book, p, k, With(Chain(d.book[p], k), i, b)), cache := d.cache[b.id := Place(k, p)],
      hand := d.hand - {b.id})
  }

  lemma WithMembers(c: seq<Bundle>, i: nat, b: Bundle)
    requires i <= |c|
    ensures forall x :: x in With(c, i, b) <==> x in c || x == b
  {
    assert c == c[..i] + c[i..];
  }

  lemma WithDistinct(c: seq<Bundle>, i: nat, b: Bundle)
    requires i <= |c| && Distinct(c) && forall x :: x in c ==> x.id != b.id
    ensures Distinct(With(c, i, b))
  {
    var c' := With(c, i, b);
    assert forall j :: 0 <= j < |c'| && j != i ==> c'[j] == c[if j < i then j else j - 1] && c'[j] in c;
  }

  lemma AddFound(book: seq<Level>, cache: map<nat, Place>, p: nat, k: Kind, c: seq<Bundle>, b: Bundle)
    requires Found(book, cache) && p < |book|
    requires b in c && forall x :: x in Chain(book[p], k) ==> x in c
    ensures Found(SetChain(book, p, k, c), cache[b.id := Place(k, p)])
  {
    var book' := SetChain(book, p, k, c);
    var cache' := cache[b.id := Place(k, p)];
    forall x | x in cache' ensures cache'[x].level < |book'|
      && Holds(Chain(book'[cache'[x].level], cache'[x].kind), x) {
      var y :| if x == b.id then y == b else y in Chain(book[cache[x].level], cache[x].kind) && y.id == x;
      assert y in Chain(book'[cache'[x].level], cache'[x].kind);
    }
  }

  lemma AddNamed(book: seq<Level>, cache: map<nat, Place>, p: nat, k: Kind, c: seq<Bundle>, b: Bundle)
    requires Named(book, cache) && p < |book| && b.id !in cache
    requires forall x :: x in c ==> x in Chain(book[p], k) || x == b
    ensures Named(SetChain(book, p, k, c), cache[b.id := Place(k, p)])
    ensures forall x :: x in Chain(book[p], k) ==> x.id != b.id
  {
  }

  lemma PutHand(d: Books, id: nat, place: Place)
    requires id in d.hand && id in d.ledger && Whole(d.ledger[id]) && forall t :: t in d.queue ==> t.id != id
    requires Queued(d.queue, d.ledger, d.hand) && Audited(d.ledger, d.cache, d.hand, d.lastId)
      && Handled(d.hand, d.ledger, d.cache)
    ensures Queued(d.queue, d.ledger, d.hand - {id})
    ensures Audited(d.ledger, d.cache[id := place], d.hand - {id}, d.lastId)
    ensures Handled(d.hand - {id}, d.ledger, d.cache[id := place])
  {
  }

  lemma PutIndexed(book: seq<Level>, cache: map<nat, Place>, p: nat, k: Kind, i: nat, b: Bundle)
    requires Named(book, cache) && Unique(book) && Found(book, cache)
    requires p < |book| && i <= |Chain(book[p], k)| && b.id !in cache
    ensures var book' := SetChain(book, p, k, With(Chain(book[p], k), i, b));
            var cache' := cache[b.id := Place(k, p)];
            Named(book', cache') && Unique(book') && Found(book', cache')
  {
    var c := Chain(book[p], k);
    var c' := With(c, i, b);
    WithMembers(c, i, b);
    AddFound(book, cache, p, k, c', b);
    AddNamed(book, cache, p, k, c', b);
    WithDistinct(c, i, b);
    SetUnique(book, p, k, c');
  }

  lemma PutTallied(book: seq<Level>, ledger: map<nat, Account>, bid: nat, ask: nat, p: nat, k: Kind, i: nat, b: Bundle)
    requires Tallied(book, ledger) && Sided(book, ledger, bid, ask)
    requires p < |book| && i <= |Chain(book[p], k)| && b.id in ledger && Tallies(b, k, ledger[b.id])
    requires k == Limits ==> if ledger[b.id].isBuy then p <= bid else p >= ask
    ensures var book' := SetChain(book, p, k, With(Chain(book[p], k), i, b));
            Tallied(book', ledger) && Sided(book', ledger, bid, ask)
  {
    var c := Chain(book[p], k);
    WithMembers(c, i, b);
    SetTallied(book, ledger, p, k, With(c, i, b));
    SetSided(book, ledger, bid, ask, p, k, With(c, i, b));
  }

  lemma PutOk(d: Books, p: nat, k: Kind, i: nat, b: Bundle)
    requires Ok(d) && 0 < p < |d.book| && i <= |Chain(d.book[p], k)|
    requires b.id in d.hand && b.id in d.ledger && Tallies(b, k, d.ledger[b.id]) && Whole(d.ledger[b.id])
    requires forall t :: t in d.queue ==> t.id != b.id
    requires k == Limits ==> if d.ledger[b.id].isBuy then p <= d.bid else p >= d.ask
    ensures Ok(Put(d, p, k, i, b))
  {
    PutIndexed(d.book, d.cache, p, k, i, b);
    PutTallied(d.book, d.ledger, d.bid, d.ask, p, k, i, b);
    PutHand(d, b.id, Place(k, p));
  }

  /* ---- two orders in hand trade ---- */

  function Credit(ledger: map<nat, Account>, id: nat, size: nat): map<nat, Account>
    requires id in ledger
  {
    ledger[id := ledger[id].(filled := ledger[id].filled + size)]
  }

  /** x, already at work, trades with y. */
  function Deal(d: Books, x: nat, y: nat, size: nat, price: int): Books
    requires x in d.ledger && y in d.ledger
  {
    d.(ledger := Credit(Credit(d.ledger, x, size), y, size), tape := d.tape + [Sale(price, size, x, y)])
  }

  lemma DealPosted(tape: seq<Sale>, ledger: map<nat, Account>, x: nat, y: nat, size: nat, price: int)
    requires Posted(tape, ledger) && x in ledger && y in ledger && ledger[x].isBuy != ledger[y].isBuy
    ensures Posted(tape + [Sale(price, size, x, y)], Credit(Credit(ledger, x, size), y, size))
  {
    var tape' := tape + [Sale(price, size, x, y)];
    assert tape'[..|tape|] == tape && tape'[|tape|] == Sale(price, size, x, y);
    assert forall s :: s in tape' ==> s in tape || s == tape'[|tape|];
  }

  lemma {:induction false} Untraded(tape: seq<Sale>, ledger: map<nat, Account>, id: nat)
    requires id !in ledger && forall s :: s in tape ==> s.taker in ledger && s.maker in ledger
    ensures Traded(tape, id) == 0
  {
    if tape != [] {
      assert tape[|tape| - 1] in tape;
      Untraded(tape[..|tape| - 1], ledger, id);
    }
  }

  /** Only the open size of orders in hand changed. */
  ghost predicate Amended(ledger: map<nat, Account>, ledger': map<nat, Account>, ids: set<nat>) {
    forall id :: id in ledger ==>
      && id in ledger'
      && ledger'[id].isBuy == ledger[id].isBuy && ledger'[id].aon == ledger[id].aon
        && ledger'[id].size == ledger[id].size
      && (id !in ids ==> ledger'[id] == ledger[id])
  }

  lemma AmendTallied(book: seq<Level>, cache: map<nat, Place>, ledger: map<nat, Account>, ledger': map<nat, Account>,
          ids: set<nat>)
    requires Named(book, cache) && Tallied(book, ledger) && Amended(ledger, ledger', ids) && ids !! cache.Keys
    ensures Tallied(book, ledger')
  {
  }

  lemma AmendSided(book: seq<Level>, ledger: map<nat, Account>, ledger': map<nat, Account>, ids: set<nat>, bid: nat,
          ask: nat)
    requires Sided(book, ledger, bid, ask) && Tallied(book, ledger) && Amended(ledger, ledger', ids)
    ensures Sided(book, ledger', bid, ask)
  {
    forall p, b | 0 <= p < |book| && b in Chain(book[p], Limits) && b.id in ledger'
      ensures if ledger'[b.id].isBuy then p <= bid else p >= ask
    {
    }
  }

  lemma AmendQueued(queue: seq<Ticket>, hand: set<nat>, ledger: map<nat, Account>, ledger': map<nat, Account>,
          ids: set<nat>)
    requires Queued(queue, ledger, hand) && Amended(ledger, ledger', ids)
    requires forall t :: t in queue ==> t.id !in ids
    ensures Queued(queue, ledger', hand)
  {
  }

  lemma DealAudited(d: Books, x: nat, y: nat, size: nat, price: int)
    requires Audited(d.ledger, d.cache, d.hand, d.lastId) && x in d.hand && y in d.hand && x in d.ledger
      && y in d.ledger
    requires size <= Open(d.ledger[x]) && size <= Open(d.ledger[y]) && x != y
    ensures Audited(Deal(d, x, y, size, price).ledger, d.cache, d.hand, d.lastId)
    ensures Amended(d.ledger, Deal(d, x, y, size, price).ledger, {x, y})
    ensures Deal(d, x, y, size, price).ledger.Keys == d.ledger.Keys
  {
  }

  lemma DealOk(d: Books, x: nat, y: nat, size: nat, price: int)
    requires Ok(d) && x in d.hand && y in d.hand && x in d.ledger && y in d.ledger
      && d.ledger[x].isBuy != d.ledger[y].isBuy
    requires forall t :: t in d.queue ==> t.id != x && t.id != y
    requires size <= Open(d.ledger[x]) && size <= Open(d.ledger[y])
    ensures Ok(Deal(d, x, y, size, price))
    ensures Amended(d.ledger, Deal(d, x, y, size, price).ledger, {x, y})
  {
    hide Named, Unique, Found, Tallied, Sided, Posted, Queued, Audited, Credit;
    var d' := Deal(d, x, y, size, price);
    DealAudited(d, x, y, size, price);
    DealPosted(d.tape, d.ledger, x, y, size, price);
    AmendTallied(d.book, d.cache, d.ledger, d'.ledger, {x, y});
    AmendSided(d.book, d.ledger, d'.ledger, {x, y}, d.bid, d.ask);
    AmendQueued(d.queue, d.hand, d.ledger, d'.ledger, {x, y});
  }

  /* ---- an order leaves the hand for good ---- */

  /** What is still open of id is given up. */
  function Release(d: Books, id: nat): Books
    requires id in d.ledger && Open(d.ledger[id]) >= 0
  {
    d.(ledger := d.ledger[id := d.ledger[id].(released := d.ledger[id].released + Open(d.ledger[id]))],
      hand := d.hand - {id})
  }

  lemma AmendPosted(tape: seq<Sale>, ledger: map<nat, Account>, ledger': map<nat, Account>, ids: set<nat>)
    requires Posted(tape, ledger) && Amended(ledger, ledger', ids) && ledger'.Keys == ledger.Keys
    requires forall id :: id in ids && id in ledger ==> ledger'[id].filled == ledger[id].filled
    ensures Posted(tape, ledger')
  {
  }

  lemma ReleaseOk(d: Books, id: nat)
    requires Ok(d) && id in d.hand && id in d.ledger && Open(d.ledger[id]) >= 0 && Whole(d.ledger[id])
    requires forall t :: t in d.queue ==> t.id != id
    ensures Ok(Release(d, id))
    ensures Amended(d.ledger, Release(d, id).ledger, {id})
  {
    hide Named, Unique, Found, Tallied, Sided, Posted;
    var d' := Release(d, id);
    AmendTallied(d.book, d.cache, d.ledger, d'.ledger, {id});
    AmendSided(d.book, d.ledger, d'.ledger, {id}, d.bid, d.ask);
    AmendQueued(d.queue, d.hand, d.ledger, d'.ledger, {id});
    AmendPosted(d.tape, d.ledger, d'.ledger, {id});
  }

  /* ---- a new order is accepted ---- */

  function Accept(d: Books, a: Account): Books {
    d.(lastId := d.lastId + 1, ledger := d.ledger[d.lastId + 1 := a], hand := d.hand + {d.lastId + 1})
  }

  lemma Cached(d: Books, id: nat)
    requires Ok(d) && id in d.cache
    ensures id in d.ledger && 0 < id <= d.lastId
  {
    hide Named, Unique, Sided, Queued, Posted;
    var place := d.cache[id];
    var b :| b in Chain(d.book[place.level], place.kind) && b.id == id;
  }

  lemma Unused(d: Books)
    requires Ok(d)
    ensures d.lastId + 1 !in d.ledger && d.lastId + 1 !in d.cache && d.lastId + 1 !in d.hand
  {
    hide Named, Unique, Found, Tallied, Sided, Queued, Posted;
    if d.lastId + 1 in d.cache {
      Cached(d, d.lastId + 1);
    }
  }

  lemma AcceptOk(d: Books, a: Account)
    requires Ok(d) && Open(a) >= 0 && a.filled == 0
    ensures Ok(Accept(d, a))
    ensures Amended(d.ledger, Accept(d, a).ledger, {})
    ensures d.lastId + 1 !in d.ledger
  {
    hide Named, Unique, Found, Tallied, Sided;
    var d' := Accept(d, a);
    Unused(d);
    Untraded(d.tape, d.ledger, d.lastId + 1);
    AmendTallied(d.book, d.cache, d.ledger, d'.ledger, {});
    AmendSided(d.book, d.ledger, d'.ledger, {}, d.bid, d.ask);
  }

  lemma SettleOk(d: Books, id: nat)
    requires Ok(d) && id in d.hand && id in d.ledger && Open(d.ledger[id]) == 0 && Whole(d.ledger[id])
    requires forall t :: t in d.queue ==> t.id != id
    ensures Ok(d.(hand := d.hand - {id}))
  {
    hide Named, Unique, Found, Tallied, Sided;
  }

  /* ---- a resting order is hit ---- */

  /** The ids of the resting stops. */
  ghost function StopIds(cache: map<nat, Place>): set<nat> {
    set id | id in cache && cache[id].kind == Stops
  }

  function Struck(c: seq<Bundle>, i: nat, size: nat): (r: seq<Bundle>)
    requires i < |c| && size <= c[i].sz
    ensures |r| == if size == c[i].sz then |c| - 1 else |c|
  {
    if size == c[i].sz then Without(c, i) else c[i := Resized(c[i], c[i].sz - size)]
  }

  /** taker trades size with bundle i of chain k. */
  function Strike(d: Books, p: nat, k: Kind, i: nat, taker: nat, size: nat, price: int): Books
    requires p < |d.book| && i < |Chain(d.book[p], k)| && Chain(d.book[p], k)[i].sz >= size
    requires taker in d.ledger && Chain(d.book[p], k)[i].id in d.ledger
  {
    var c := Chain(d.book[p], k);
    var b := c[i];
    d.(book := SetChain(d.book, p, k, Struck(c, i, size)),
       cache := if size == b.sz then d.cache - {b.id} else d.cache,
       ledger := Credit(Credit(d.ledger, taker, size), b.id, size),
       tape := d.tape + [Sale(price, size, taker, b.id)])
  }

  lemma StrikeOk(d: Books, p: nat, k: Kind, i: nat, taker: nat, size: nat, price: int)
    requires Ok(d) && 0 < p < |d.book| && k != Stops && i < |Chain(d.book[p], k)|
      && Chain(d.book[p], k)[i].id in d.ledger
    requires taker in d.hand && taker in d.ledger && d.ledger[taker].isBuy != d.ledger[Chain(d.book[p], k)[i].id].isBuy
    requires forall t :: t in d.queue ==> t.id != taker
    requires size <= Chain(d.book[p], k)[i].sz && size <= Open(d.ledger[taker])
    requires IsAon(Chain(d.book[p], k)[i]) ==> size == Chain(d.book[p], k)[i].sz
    ensures Ok(Strike(d, p, k, i, taker, size, price))
    ensures StopIds(Strike(d, p, k, i, taker, size, price).cache) == StopIds(d.cache)
  {
    hide Named, Unique, Found, Tallied, Sided, Queued, Audited, Handled, Posted;
    var b := Chain(d.book[p], k)[i];
    var d' := Strike(d, p, k, i, taker, size, price);
    Known(d.book, d.cache, d.ledger, p, k, i);
    TakeOk(d, p, k, i);
    var d1 := Take(d, p, k, i);
    Apart(d, b.id);
    DealOk(d1, taker, b.id, size, price);
    var d2 := Deal(d1, taker, b.id, size, price);
    assert d.hand + {b.id} - {b.id} == d.hand;
    if size == b.sz {
      SettleOk(d2, b.id);
      assert d2.(hand := d2.hand - {b.id}) == d';
    } else {
      var c := Chain(d1.book[p], k);
      var b' := Resized(b, b.sz - size);
      SideKept(d, p, k, i);
      PutOk(d2, p, k, i, b');
      assert With(c, i, b') == Chain(d.book[p], k)[i := b'];
      assert SetChain(d1.book, p, k, With(c, i, b')) == d'.book;
      assert d2.cache[b.id := Place(k, p)] == d.cache;
      assert Put(d2, p, k, i, b') == d';
    }
  }

  /** A resting order is neither in hand nor queued. */
  lemma Apart(d: Books, id: nat)
    requires Ok(d) && id in d.cache
    ensures id !in d.hand && forall t :: t in d.queue ==> t.id != id
  {
    hide Named, Unique, Found, Tallied, Sided, Audited, Posted;
  }

  lemma SideKept(d: Books, p: nat, k: Kind, i: nat)
    requires Ok(d) && p < |d.book| && i < |Chain(d.book[p], k)| && Chain(d.book[p], k)[i].id in d.ledger
    ensures k == Limits ==> if d.ledger[Chain(d.book[p], k)[i].id].isBuy then p <= d.bid else p >= d.ask
  {
    hide Named, Unique, Found, Tallied, Queued, Audited, Handled, Posted;
    if k == Limits {
      assert Chain(d.book[p], k)[i] in d.book[p].limits;
    }
  }

  /** An AON order of limit chain p moves to the AON buys of the level. */
  function Demote(d: Books, p: nat, i: nat): Books
    requires p < |d.book| && i < |d.book[p].limits|
  {
    var l := d.book[p];
    var b := l.limits[i];
    d.(book := d.book[p := l.(limits := Without(l.limits, i), aonBuys := l.aonBuys + [b])],
       cache := d.cache[b.id := Place(AonBuys, p)])
  }

  lemma DemoteOk(d: Books, p: nat, i: nat)
    requires Ok(d) && 0 < p < |d.book| && i < |d.book[p].limits| && IsAon(d.book[p].limits[i])
    requires d.book[p].limits[i].id in d.ledger && d.ledger[d.book[p].limits[i].id].isBuy
    ensures Ok(Demote(d, p, i))
    ensures StopIds(Demote(d, p, i).cache) == StopIds(d.cache)
  {
    hide Named, Unique, Found, Tallied, Sided, Queued, Audited, Handled, Posted;
    var b := d.book[p].limits[i];
    var d' := Demote(d, p, i);
    assert Chain(d.book[p], Limits)[i] == b;
    Known(d.book, d.cache, d.ledger, p, Limits, i);
    Sound(d, b.id);
    TakeOk(d, p, Limits, i);
    var d1 := Take(d, p, Limits, i);
    Apart(d, b.id);
    var c := Chain(d1.book[p], AonBuys);
    PutOk(d1, p, AonBuys, |c|, b);
    assert With(c, |c|, b) == c + [b];
    assert SetChain(d1.book, p, AonBuys, c + [b]) == d'.book;
    assert d1.cache[b.id := Place(AonBuys, p)] == d'.cache;
    assert d1.hand - {b.id} == d.hand;
    assert Put(d1, p, AonBuys, |c|, b) == d';
  }

  /** The account of an order not in hand is whole. */
  lemma Sound(d: Books, id: nat)
    requires Ok(d) && id in d.ledger
    ensures Open(d.ledger[id]) >= 0 && 0 < id <= d.lastId
    ensures id in d.cache ==> Whole(d.ledger[id])
    ensures id in d.cache && d.ledger[id].aon && Open(d.ledger[id]) > 0 ==> d.ledger[id].filled == 0
  {
    hide Named, Unique, Found, Tallied, Sided, Queued, Posted;
  }

  /* ---- the queue ---- */

  lemma EnqueueOk(d: Books, t: Ticket)
    requires Ok(d) && t.id in d.hand && t.id in d.ledger && forall u :: u in d.queue ==> u.id != t.id
    requires t.sz > 0 && Open(d.ledger[t.id]) == t.sz && d.ledger[t.id].isBuy == t.isBuy
    requires !d.ledger[t.id].aon && d.ledger[t.id].filled == 0 && d.ledger[t.id].released == 0
    ensures Ok(d.(queue := d.queue + [t]))
  {
    hide Named, Unique, Found, Tallied, Sided, Audited, Handled, Posted;
    var q := d.queue + [t];
    assert forall i :: 0 <= i < |d.queue| ==> q[i] == d.queue[i] && q[i] in d.queue;
  }

  lemma DequeueOk(d: Books)
    requires Ok(d) && d.queue != []
    ensures Ok(d.(queue := d.queue[1..]))
    ensures var t := d.queue[0];
      && t.id in d.hand && t.id in d.ledger && t.sz > 0 && Open(d.ledger[t.id]) == t.sz
        && d.ledger[t.id].isBuy == t.isBuy
      && !d.ledger[t.id].aon && d.ledger[t.id].filled == 0 && d.ledger[t.id].released == 0
      && forall u :: u in d.queue[1..] ==> u.id != t.id
  {
    hide Named, Unique, Found, Tallied, Sided, Audited, Handled, Posted;
    var q := d.queue[1..];
    assert d.queue[0] in d.queue;
    assert forall i :: 0 <= i < |q| ==> q[i] == d.queue[i + 1];
    assert forall u :: u in q ==> u in d.queue;
  }

  /* ---- a stop is triggered ---- */

  /** What a triggered stop becomes, under a new id. */
  function Triggered(b: Bundle, id: nat): Ticket
    requires b.Stop?
  {
    Ticket(if b.limit == 0 then Market else LimitOrder, b.isBuy, b.limit, 0, b.sz, Plain, id)
  }

  /** The oldest stop at p becomes a queued order. */
  function Trigger(d: Books, p: nat): Books
    requires p < |d.book| && d.book[p].stops != [] && d.book[p].stops[0].Stop? && d.book[p].stops[0].id in d.ledger
    requires Open(d.ledger[d.book[p].stops[0].id]) >= 0
  {
    var b := d.book[p].stops[0];
    var a := d.ledger[b.id];
    var id := d.lastId + 1;
    Books(d.book[p := d.book[p].(stops := d.book[p].stops[1..])], d.bid, d.ask, d.cache - {b.id},
          d.queue + [Triggered(b, id)], id,
          d.ledger[b.id := a.(released := a.released + Open(a))][id := Account(b.isBuy, false, b.sz, 0, 0)],
          d.hand + {id}, d.tape)
  }

  lemma TriggerOk(d: Books, p: nat)
    requires Ok(d) && p < |d.book| && d.book[p].stops != []
    requires d.book[p].stops[0].Stop? && d.book[p].stops[0].id in d.ledger && Open(d.ledger[d.book[p].stops[0].id]) >= 0
    ensures Ok(Trigger(d, p))
    ensures StopIds(Trigger(d, p).cache) == StopIds(d.cache) - {d.book[p].stops[0].id}
      && d.book[p].stops[0].id in StopIds(d.cache)
    ensures d.lastId + 1 !in d.ledger && d.lastId + 1 !in d.hand
  {
    hide Named, Unique, Found, Tallied, Sided, Queued, Audited, Handled, Posted;
    var b := d.book[p].stops[0];
    assert Chain(d.book[p], Stops)[0] == b;
    Known(d.book, d.cache, d.ledger, p, Stops, 0);
    Sound(d, b.id);
    Apart(d, b.id);
    Unused(d);
    TakeOk(d, p, Stops, 0);
    var d1 := Take(d, p, Stops, 0);
    assert Without(d.book[p].stops, 0) == d.book[p].stops[1..];
    ReleaseOk(d1, b.id);
    var d2 := Release(d1, b.id);
    assert d2.hand == d.hand;
    AcceptOk(d2, Account(b.isBuy, false, b.sz, 0, 0));
    var d3 := Accept(d2, Account(b.isBuy, false, b.sz, 0, 0));
    Fresh(d, d.lastId + 1);
    EnqueueOk(d3, Triggered(b, d.lastId + 1));
    assert d3.(queue := d3.queue + [Triggered(b, d.lastId + 1)]) == Trigger(d, p);
  }

  lemma Fresh(d: Books, id: nat)
    requires Ok(d) && id !in d.ledger
    ensures forall t :: t in d.queue ==> t.id != id
  {
    hide Named, Unique, Found, Tallied, Sided, Audited, Handled, Posted;
  }

  /* ---- the edges move over empty levels ---- */

  lemma EdgeOk(d: Books, bid: nat, ask: nat)
    requires Ok(d)
    requires forall p :: 0 <= p < |d.book| && d.book[p].limits != [] ==>
      (p <= d.bid ==> p <= bid) && (p >= d.ask ==> p >= ask)
    ensures Ok(d.(bid := bid, ask := ask))
  {
    hide Named, Unique, Found, Tallied, Queued, Audited, Handled, Posted;
  }

  /** id is where the cache says. */
  predicate Located(book: seq<Level>, cache: map<nat, Place>, id: nat) {
    && id in cache && 0 < cache[id].level < |book|
    && var c := Chain(book[cache[id].level], cache[id].kind); IndexOf(c, id) < |c|
  }

  lemma InPlace(d: Books, id: nat)
    requires Ok(d) && id in d.cache
    ensures Located(d.book, d.cache, id)
  {
    hide Named, Unique, Tallied, Sided, Queued, Audited, Handled, Posted;
    var c := Chain(d.book[d.cache[id].level], d.cache[id].kind);
    var b :| b in c && b.id == id;
  }

  /** The book without the order id. */
  function Cut(book: seq<Level>, cache: map<nat, Place>, id: nat): (r: seq<Level>)
    requires Located(book, cache, id)
    ensures |r| == |book|
  {
    var c := Chain(book[cache[id].level], cache[id].kind);
    SetChain(book, cache[id].level, cache[id].kind, Without(c, IndexOf(c, id)))
  }

  /** The order id. */
  function BundleOf(book: seq<Level>, cache: map<nat, Place>, id: nat): Bundle
    requires Located(book, cache, id)
  {
    var c := Chain(book[cache[id].level], cache[id].kind);
    c[IndexOf(c, id)]
  }

  /** The AON orders in front of a limit chain. */
  function FrontAons(c: seq<Bundle>): (n: nat)
    ensures n <= |c| && (n < |c| ==> !IsAon(c[n])) && forall i :: 0 <= i < n ==> IsAon(c[i])
  {
    if c == [] || !IsAon(c[0]) then 0 else 1 + FrontAons(c[1..])
  }

  lemma WidenOk(d: Books, bid: nat, ask: nat)
    requires Ok(d) && d.bid <= bid && ask <= d.ask
    ensures Ok(d.(bid := bid, ask := ask))
  {
    hide Named, Unique, Found, Tallied, Queued, Audited, Handled, Posted;
  }

  /** An order in hand, for b at the back of chain k. */
  ghost predicate Ready(d: Books, k: Kind, b: Bundle) {
    && b.id in d.hand && b.id in d.ledger && Tallies(b, k, d.ledger[b.id]) && Whole(d.ledger[b.id])
    && forall t :: t in d.queue ==> t.id != b.id
  }

  /** The book with b at the back of chain k of level p. */
  function Pushed(book: seq<Level>, p: nat, k: Kind, b: Bundle): (r: seq<Level>)
    requires p < |book|
    ensures |r| == |book|
  {
    SetChain(book, p, k, Chain(book[p], k) + [b])
  }

  lemma PushOk(d: Books, p: nat, k: Kind, b: Bundle)
    requires Ok(d) && 0 < p < |d.book| && Ready(d, k, b)
    requires k == Limits ==> if d.ledger[b.id].isBuy then p <= d.bid else p >= d.ask
    ensures Ok(d.(book := Pushed(d.book, p, k, b), cache := d.cache[b.id := Place(k, p)], hand := d.hand - {b.id}))
    ensures b.id !in d.cache
  {
    hide Named, Unique, Found, Tallied, Sided, Queued, Audited, Posted;
    var c := Chain(d.book[p], k);
    PutOk(d, p, k, |c|, b);
    assert With(c, |c|, b) == c + [b];
  }
}
