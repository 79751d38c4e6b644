/**
  The two-party trade: a state machine over the players' trade fields, the table of
  items on offer, and the references the game holds on them.
 */
module Trade {

  type PlayerId = nat
  type ItemId = nat

  datatype Option<T> = None | Some(value: T)

  datatype TradeState = NoTrade | Initiated | Accepted | Acknowledged | Transfer

  /** A player's three trade fields. */
  datatype Party = Party(state: TradeState, partner: Option<PlayerId>, item: Option<ItemId>)

  const IDLE := Party(NoTrade, None, None)

  /**
    Everything the protocol reads and writes. `held` counts the references taken on items
    for trading; `toRelease` lists those that the next cleanup gives back.
   */
  datatype Desk = Desk(parties: map<PlayerId, Party>, tradeItems: map<ItemId, PlayerId>,
                       held: multiset<ItemId>, toRelease: seq<ItemId>)

  // ---------------------------------------------------------------------------
  // The operations on values
  // ---------------------------------------------------------------------------

  /** Takes an offered item off the table and schedules its reference for release. */
  function Withdraw(d: Desk, item: Option<ItemId>): Desk {
    if item.Some? && item.value in d.tradeItems
    then d.(tradeItems := d.tradeItems - {item.value}, toRelease := d.toRelease + [item.value])
    else d
  }

  /** Withdraws a player's item and replaces the player's trade fields. */
  function Retire(d: Desk, p: PlayerId, now: Party): Desk
    requires p in d.parties
  {
    Withdraw(d, d.parties[p].item).(parties := d.parties[p := now])
  }

  predicate MayStart(d: Desk, p: PlayerId, q: PlayerId)
    requires p in d.parties && q in d.parties
  {
    var me, other := d.parties[p], d.parties[q];
    && (me.state == NoTrade || (me.state == Acknowledged && me.partner == Some(q)))
    && (other.state == NoTrade || other.partner == Some(p))
  }

  function Start(d: Desk, p: PlayerId, q: PlayerId, item: ItemId): Desk
    requires p in d.parties && q in d.parties
  {
    if !MayStart(d, p, q) then d
    else
      var parties := d.parties[p := Party(Initiated, Some(q), Some(item))];
      var other := parties[q];
      d.(parties := if other.state == NoTrade then parties[q := other.(state := Acknowledged, partner := Some(p))] else parties,
         tradeItems := d.tradeItems[item := p],
         held := d.held + multiset{item})
  }

  /** An item that is on offer, or is inside or around one on offer, cannot be offered. */
  predicate Conflicts(tradeItems: map<ItemId, PlayerId>, holds: (ItemId, ItemId) -> bool, item: ItemId) {
    exists i :: i in tradeItems && (i == item || holds(item, i) || holds(i, item))
  }

  function Request(d: Desk, holds: (ItemId, ItemId) -> bool, p: PlayerId, q: PlayerId, item: ItemId): Desk {
    if p !in d.parties || q !in d.parties || p == q || Conflicts(d.tradeItems, holds, item) then d
    else Start(d, p, q, item)
  }

  function Close(d: Desk, p: PlayerId): Desk
    requires p in d.parties
  {
    var me := d.parties[p];
    var partner := me.partner;
    if me.state == Transfer || (partner.Some? && partner.value in d.parties && d.parties[partner.value].state == Transfer) then d
    else
      var d1 := Retire(d, p, IDLE);
      if partner.Some? && partner.value in d.parties then Retire(d1, partner.value, IDLE) else d1
  }

  function Accept(d: Desk, p: PlayerId, reachable: bool, allowed: bool): Desk
    requires p in d.parties
  {
    var me := d.parties[p];
    if me.state !in {Acknowledged, Initiated} || me.partner.None? || me.partner.value !in d.parties || !reachable then d
    else
      var q := me.partner.value;
      var d1 := d.(parties := d.parties[p := me.(state := Accepted)]);
      if d1.parties[q].state != Accepted then d1
      else if !allowed then Close(d1, p)
      else
        var d2 := d1.(parties := d1.parties[p := d1.parties[p].(state := Transfer)]);
        var d3 := d2.(parties := d2.parties[q := d2.parties[q].(state := Transfer)]);
        Withdraw(Withdraw(d3, d3.parties[p].item), d3.parties[q].item)
  }

  /** After the items have changed hands, or failed to, both sides are reset. */
  function Finish(d: Desk, p: PlayerId): Desk
    requires p in d.parties
  {
    var me := d.parties[p];
    if me.state != Transfer || me.partner.None? || me.partner.value !in d.parties then d
    else d.(parties := d.parties[p := IDLE][me.partner.value := IDLE])
  }

  function Cleanup(d: Desk): Desk { d.(held := d.held - multiset(d.toRelease), toRelease := []) }

  // ---------------------------------------------------------------------------
  // What every run keeps
  // ---------------------------------------------------------------------------

  predicate Paired(d: Desk, p: PlayerId, q: PlayerId) {
    p in d.parties && q in d.parties && d.parties[p].partner == Some(q)
  }

  /** Partner links are symmetric, and a player without a partner is not trading. */
  ghost predicate LinksSound(d: Desk) {
    && (forall p :: p in d.parties && d.parties[p].partner.Some? ==>
          var q := d.parties[p].partner.value;
          q != p && Paired(d, q, p))
    && (forall p :: p in d.parties ==> (d.parties[p].state == NoTrade <==> d.parties[p].partner.None?))
  }

  /** What a state says about the item on offer, for each player alone. */
  ghost predicate OffersFollowStates(d: Desk) {
    && (forall p :: p in d.parties && d.parties[p].state in {NoTrade, Acknowledged} ==> d.parties[p].item.None?)
    && (forall p :: p in d.parties && d.parties[p].state == Initiated ==> d.parties[p].item.Some?)
  }

  /** A state fixes whether there is an item on offer, and a transfer involves both sides. */
  ghost predicate StatesSound(d: Desk) {
    && OffersFollowStates(d)
    && (forall p, q :: Paired(d, p, q) ==>
          && (d.parties[p].state == Transfer <==> d.parties[q].state == Transfer)
          && (d.parties[p].item.Some? || d.parties[q].item.Some?))
  }

  /** Two sides that have both accepted do not stay so: the second acceptance settles the trade. */
  ghost predicate NeverBothAccepted(d: Desk, except: set<PlayerId>) {
    forall p, q :: Paired(d, p, q) && p !in except && q !in except ==>
      !(d.parties[p].state == Accepted && d.parties[q].state == Accepted)
  }

  predicate Offers(d: Desk, p: PlayerId, i: ItemId) {
    p in d.parties && d.parties[p].item == Some(i) && d.parties[p].state != Transfer
  }

  /** The table lists exactly the items on offer by players not in transfer, each under its owner. */
  ghost predicate TableSound(d: Desk) {
    && (forall i :: i in d.tradeItems ==> Offers(d, d.tradeItems[i], i))
    && (forall p, i :: Offers(d, p, i) ==> i in d.tradeItems && d.tradeItems[i] == p)
  }

  /** One reference is held for every item on the table, and one for every pending release. */
  ghost predicate ReferencesSound(d: Desk) {
    d.held == multiset(d.tradeItems.Keys) + multiset(d.toRelease)
  }

  ghost predicate Sound(d: Desk) {
    LinksSound(d) && StatesSound(d) && TableSound(d) && ReferencesSound(d) && NeverBothAccepted(d, {})
  }

  lemma WithdrawReferences(d: Desk, item: Option<ItemId>)
    requires ReferencesSound(d)
    ensures ReferencesSound(Withdraw(d, item))
  {
    if item.Some? && item.value in d.tradeItems {
      var keys := d.tradeItems.Keys;
      assert Withdraw(d, item).tradeItems.Keys == keys - {item.value};
      assert multiset(keys) == multiset(keys - {item.value}) + multiset{item.value};
    }
  }

  lemma StartLinks(d: Desk, p: PlayerId, q: PlayerId, item: ItemId)
    requires Sound(d) && p in d.parties && q in d.parties && p != q && MayStart(d, p, q)
    ensures LinksSound(Start(d, p, q, item))
  {
    assert Paired(d, p, q) || d.parties[p].partner.None?;
    assert Paired(d, q, p) || d.parties[q].partner.None?;
  }

  lemma StartStates(d: Desk, p: PlayerId, q: PlayerId, item: ItemId)
    requires Sound(d) && p in d.parties && q in d.parties && p != q && MayStart(d, p, q)
    ensures StatesSound(Start(d, p, q, item)) && NeverBothAccepted(Start(d, p, q, item), {})
  {
    var e := Start(d, p, q, item);
    assert Paired(d, p, q) || d.parties[p].partner.None?;
    assert Paired(d, q, p) || d.parties[q].partner.None?;
    forall r, s | Paired(e, r, s)
      ensures Paired(d, r, s) || (r == p && s == q) || (r == q && s == p)
      ensures Paired(e, s, r)
    {
      StartLinks(d, p, q, item);
    }
  }

  lemma StartReferences(d: Desk, p: PlayerId, q: PlayerId, item: ItemId)
    requires ReferencesSound(d) && p in d.parties && q in d.parties && MayStart(d, p, q) && item !in d.tradeItems
    ensures ReferencesSound(Start(d, p, q, item))
  {
    var e := Start(d, p, q, item);
    var keys := d.tradeItems.Keys;
    assert e.tradeItems.Keys == keys + {item};
    assert multiset(keys + {item}) == multiset(keys) + multiset{item};
  }

  lemma StartTable(d: Desk, p: PlayerId, q: PlayerId, item: ItemId)
    requires TableSound(d) && ReferencesSound(d) && p in d.parties && q in d.parties && p != q && MayStart(d, p, q)
    requires forall r :: r in d.parties && d.parties[r].state in {NoTrade, Acknowledged} ==> d.parties[r].item.None?
    requires item !in d.tradeItems
    ensures TableSound(Start(d, p, q, item)) && ReferencesSound(Start(d, p, q, item))
  {
    var e := Start(d, p, q, item);
    StartReferences(d, p, q, item);
    hide ReferencesSound;
    forall r, i | Offers(e, r, i)
      ensures i in e.tradeItems && e.tradeItems[i] == r
    {
      assert r == p || Offers(d, r, i);
    }
    forall i | i in e.tradeItems
      ensures Offers(e, e.tradeItems[i], i)
    {
      assert i == item || Offers(d, d.tradeItems[i], i);
    }
  }

  lemma StartKeepsSound(d: Desk, p: PlayerId, q: PlayerId, item: ItemId)
    requires Sound(d) && p in d.parties && q in d.parties && p != q && item !in d.tradeItems
    ensures Sound(Start(d, p, q, item))
  {
    if MayStart(d, p, q) {
      StartLinks(d, p, q, item);
      StartStates(d, p, q, item);
      StartTable(d, p, q, item);
    }
  }

  /** The two sides of a trade change together: both go idle, or both go into transfer. */
  ghost predicate Settled(d: Desk, e: Desk, p: PlayerId, q: PlayerId) {
    && Paired(d, p, q)
    && e.parties.Keys == d.parties.Keys
    && (forall r :: r in d.parties && r != p && r != q ==> e.parties[r] == d.parties[r])
    && ((e.parties[p] == IDLE && e.parties[q] == IDLE)
        || (e.parties[p] == d.parties[p].(state := Transfer) && e.parties[q] == d.parties[q].(state := Transfer)))
  }

  lemma SettledLinks(d: Desk, e: Desk, p: PlayerId, q: PlayerId)
    requires LinksSound(d) && Settled(d, e, p, q)
    ensures LinksSound(e)
    ensures forall r, s :: Paired(e, r, s) ==> Paired(d, r, s) && Paired(d, s, r)
  {
    assert Paired(d, q, p);
    forall r | r in e.parties && e.parties[r].partner.Some?
      ensures var s := e.parties[r].partner.value; s != r && Paired(e, s, r) && Paired(d, r, s) && Paired(d, s, r)
    {
      var s := e.parties[r].partner.value;
      assert Paired(d, r, s) && Paired(d, s, r);
    }
  }

  lemma SettledStates(d: Desk, e: Desk, p: PlayerId, q: PlayerId)
    requires LinksSound(d) && StatesSound(d) && NeverBothAccepted(d, {p}) && Settled(d, e, p, q)
    ensures LinksSound(e) && StatesSound(e) && NeverBothAccepted(e, {})
  {
    hide LinksSound, StatesSound, NeverBothAccepted;
    SettledLinks(d, e, p, q);
    SettledOffers(d, e, p, q);
    forall r, s | Paired(e, r, s)
      ensures e.parties[r].state == Transfer <==> e.parties[s].state == Transfer
      ensures !(e.parties[r].state == Accepted && e.parties[s].state == Accepted)
      ensures e.parties[r].item.Some? || e.parties[s].item.Some?
    {
      SettledPair(d, e, p, q, r, s);
    }
    PairsDecide(e);
  }

  lemma SettledPair(d: Desk, e: Desk, p: PlayerId, q: PlayerId, r: PlayerId, s: PlayerId)
    requires StatesSound(d) && NeverBothAccepted(d, {p}) && Settled(d, e, p, q) && Paired(d, q, p)
    requires Paired(e, r, s) && Paired(d, r, s) && Paired(d, s, r)
    ensures e.parties[r].state == Transfer <==> e.parties[s].state == Transfer
    ensures !(e.parties[r].state == Accepted && e.parties[s].state == Accepted)
    ensures e.parties[r].item.Some? || e.parties[s].item.Some?
  {
  }

  lemma SettledOffers(d: Desk, e: Desk, p: PlayerId, q: PlayerId)
    requires LinksSound(d) && StatesSound(d) && Settled(d, e, p, q)
    ensures OffersFollowStates(e) && Paired(d, q, p)
  {
  }

  lemma PairsDecide(e: Desk)
    requires OffersFollowStates(e)
    requires forall r, s :: Paired(e, r, s) ==>
      && (e.parties[r].state == Transfer <==> e.parties[s].state == Transfer)
      && (e.parties[r].item.Some? || e.parties[s].item.Some?)
    requires forall r, s :: Paired(e, r, s) ==> !(e.parties[r].state == Accepted && e.parties[s].state == Accepted)
    ensures StatesSound(e) && NeverBothAccepted(e, {})
  {
  }

  /** Retiring one player leaves exactly the others' items on the table. */
  lemma RetireTable(d: Desk, p: PlayerId, now: Party)
    requires TableSound(d) && p in d.parties && d.parties[p].state != Transfer
    requires now.state == Transfer || now.item.None?
    ensures TableSound(Retire(d, p, now))
  {
    var e := Retire(d, p, now);
    forall r, i | Offers(e, r, i)
      ensures i in e.tradeItems && e.tradeItems[i] == r
    {
      assert Offers(d, r, i);
      if d.parties[p].item == Some(i) {
        assert Offers(d, p, i);
      }
    }
    forall i | i in e.tradeItems
      ensures Offers(e, e.tradeItems[i], i)
    {
      assert Offers(d, d.tradeItems[i], i);
    }
  }

  lemma RetireKeepsTables(d: Desk, p: PlayerId, now: Party)
    requires TableSound(d) && ReferencesSound(d) && p in d.parties && d.parties[p].state != Transfer
    requires now.state == Transfer || now.item.None?
    ensures TableSound(Retire(d, p, now)) && ReferencesSound(Retire(d, p, now))
  {
    RetireTable(d, p, now);
    WithdrawReferences(d, d.parties[p].item);
  }

  lemma CloseKeepsSound(d: Desk, p: PlayerId)
    requires LinksSound(d) && StatesSound(d) && TableSound(d) && ReferencesSound(d) && p in d.parties
    requires NeverBothAccepted(d, {p})
    ensures Close(d, p) == d || (Sound(Close(d, p)) && Close(d, p).parties[p] == IDLE)
  {
    var me := d.parties[p];
    var e := Close(d, p);
    if e != d {
      CloseTables(d, p);
      hide StatesSound, TableSound, ReferencesSound, NeverBothAccepted, Withdraw;
      if me.partner.Some? {
        var q := me.partner.value;
        assert Paired(d, p, q) && Paired(d, q, p);
        assert p != q;
        ClosedParties(d, p, q);
        SettledStates(d, e, p, q);
      } else {
        ClosedAlone(d, p);
        LoneClose(d, e, p);
      }
    }
  }

  lemma ClosedParties(d: Desk, p: PlayerId, q: PlayerId)
    requires Paired(d, p, q) && q in d.parties && p != q && Close(d, p) != d
    ensures Settled(d, Close(d, p), p, q) && Close(d, p).parties[p] == IDLE
  {
  }

  lemma ClosedAlone(d: Desk, p: PlayerId)
    requires p in d.parties && d.parties[p].partner.None? && Close(d, p) != d
    ensures Close(d, p).parties == d.parties[p := IDLE]
  {
  }

  lemma CloseTables(d: Desk, p: PlayerId)
    requires LinksSound(d) && StatesSound(d) && TableSound(d) && ReferencesSound(d) && p in d.parties && Close(d, p) != d
    ensures TableSound(Close(d, p)) && ReferencesSound(Close(d, p))
  {
    var partner := d.parties[p].partner;
    hide StatesSound, TableSound, ReferencesSound, Withdraw;
    RetireKeepsTables(d, p, IDLE);
    if partner.Some? {
      assert Paired(d, partner.value, p);
      RetireKeepsTables(Retire(d, p, IDLE), partner.value, IDLE);
    }
  }

  lemma LoneClose(d: Desk, e: Desk, p: PlayerId)
    requires LinksSound(d) && StatesSound(d) && NeverBothAccepted(d, {p}) && p in d.parties && d.parties[p].partner.None?
    requires e.parties == d.parties[p := IDLE]
    ensures LinksSound(e) && StatesSound(e) && NeverBothAccepted(e, {})
  {
    assert e.parties[p].partner.None?;
    forall r, s | Paired(e, r, s)
      ensures Paired(d, r, s) && r != p && s != p
    {
      assert Paired(d, r, s);
      assert Paired(d, s, r);
    }
  }

  lemma AcceptKeepsSound(d: Desk, p: PlayerId, reachable: bool, allowed: bool)
    requires Sound(d) && p in d.parties
    ensures Sound(Accept(d, p, reachable, allowed))
  {
    var me := d.parties[p];
    if me.state in {Acknowledged, Initiated} && reachable {
      var q := me.partner.value;
      assert Paired(d, p, q) && Paired(d, q, p);
      var d1 := d.(parties := d.parties[p := me.(state := Accepted)]);
      AcceptedOnce(d, p, q);
      if d1.parties[q].state == Accepted {
        if !allowed {
          CloseKeepsSound(d1, p);
        } else {
          TransferKeepsSound(d1, p, q);
        }
      }
    }
  }

  lemma AcceptedOnce(d: Desk, p: PlayerId, q: PlayerId)
    requires Sound(d) && Paired(d, p, q) && d.parties[p].state in {Acknowledged, Initiated}
    ensures var d1 := d.(parties := d.parties[p := d.parties[p].(state := Accepted)]);
            && LinksSound(d1) && StatesSound(d1) && TableSound(d1) && ReferencesSound(d1) && NeverBothAccepted(d1, {p})
            && (d1.parties[q].state != Accepted ==> NeverBothAccepted(d1, {}))
  {
    hide TableSound, ReferencesSound;
    var d1 := d.(parties := d.parties[p := d.parties[p].(state := Accepted)]);
    AcceptedTable(d, p);
    forall r, s | Paired(d1, r, s)
      ensures Paired(d, r, s) && Paired(d, s, r)
    {
      assert Paired(d, r, s);
    }
  }

  lemma AcceptedTable(d: Desk, p: PlayerId)
    requires TableSound(d) && ReferencesSound(d) && p in d.parties && d.parties[p].state in {Acknowledged, Initiated}
    ensures var d1 := d.(parties := d.parties[p := d.parties[p].(state := Accepted)]);
            TableSound(d1) && ReferencesSound(d1)
  {
    var d1 := d.(parties := d.parties[p := d.parties[p].(state := Accepted)]);
    assert forall r, i :: Offers(d1, r, i) <==> Offers(d, r, i);
  }

  lemma PartnersDiffer(d: Desk, p: PlayerId, q: PlayerId)
    requires LinksSound(d) && Paired(d, p, q)
    ensures p != q && Paired(d, q, p)
  {
  }

  lemma TransferKeepsSound(d1: Desk, p: PlayerId, q: PlayerId)
    requires LinksSound(d1) && StatesSound(d1) && TableSound(d1) && ReferencesSound(d1) && NeverBothAccepted(d1, {p})
    requires Paired(d1, p, q) && d1.parties[p].state == Accepted && d1.parties[q].state == Accepted
    ensures var d3 := d1.(parties := d1.parties[p := d1.parties[p].(state := Transfer)][q := d1.parties[q].(state := Transfer)]);
            Sound(Withdraw(Withdraw(d3, d3.parties[p].item), d3.parties[q].item))
  {
    hide LinksSound, StatesSound, TableSound, ReferencesSound, NeverBothAccepted;
    PartnersDiffer(d1, p, q);
    var e1 := Retire(d1, p, d1.parties[p].(state := Transfer));
    RetireKeepsTables(d1, p, d1.parties[p].(state := Transfer));
    var e := Retire(e1, q, e1.parties[q].(state := Transfer));
    RetireKeepsTables(e1, q, e1.parties[q].(state := Transfer));
    assert Settled(d1, e, p, q);
    SettledStates(d1, e, p, q);
  }

  lemma FinishKeepsSound(d: Desk, p: PlayerId)
    requires Sound(d) && p in d.parties
    ensures Sound(Finish(d, p))
  {
    hide LinksSound, StatesSound, TableSound, ReferencesSound, NeverBothAccepted;
    if Finish(d, p) != d {
      var q := d.parties[p].partner.value;
      PartnersDiffer(d, p, q);
      FinishedParties(d, p, q);
      FinishedTables(d, p, q);
      AllowOne(d, p);
      SettledStates(d, Finish(d, p), p, q);
    }
  }

  lemma AllowOne(d: Desk, p: PlayerId)
    requires NeverBothAccepted(d, {})
    ensures NeverBothAccepted(d, {p})
  {
  }

  lemma FinishedParties(d: Desk, p: PlayerId, q: PlayerId)
    requires Paired(d, p, q) && p != q && Finish(d, p) != d
    ensures Settled(d, Finish(d, p), p, q)
  {
  }

  lemma FinishedTables(d: Desk, p: PlayerId, q: PlayerId)
    requires StatesSound(d) && TableSound(d) && ReferencesSound(d) && Paired(d, p, q) && d.parties[p].state == Transfer
    ensures TableSound(Finish(d, p)) && ReferencesSound(Finish(d, p))
  {
    var e := Finish(d, p);
    assert d.parties[q].state == Transfer;
    hide StatesSound;
    assert forall r, i :: Offers(e, r, i) <==> Offers(d, r, i);
  }

  // ---------------------------------------------------------------------------
  // Whole runs
  // ---------------------------------------------------------------------------

  /** What players and the game loop can do, in any order. */
  datatype Action =
    | RequestTrade(p: PlayerId, q: PlayerId, item: ItemId, holds: (ItemId, ItemId) -> bool)
    | AcceptTrade(p: PlayerId, reachable: bool, allowed: bool)
    | FinishTransfer(p: PlayerId)
    | CloseTrade(p: PlayerId)
    | CleanUp

  function Apply(d: Desk, a: Action): Desk {
    match a
    case RequestTrade(p, q, item, holds) => Request(d, holds, p, q, item)
    case AcceptTrade(p, reachable, allowed) => if p in d.parties then Accept(d, p, reachable, allowed) else d
    case FinishTransfer(p) => if p in d.parties then Finish(d, p) else d
    case CloseTrade(p) => if p in d.parties then Close(d, p) else d
    case CleanUp => Cleanup(d)
  }

  function Run(d: Desk, actions: seq<Action>): Desk {
    if actions == [] then d else Apply(Run(d, actions[..|actions| - 1]), actions[|actions| - 1])
  }

  lemma ActionKeepsSound(d: Desk, a: Action)
    requires Sound(d)
    ensures Sound(Apply(d, a))
  {
    hide Start, Close, Accept, Finish;
    match a
    case RequestTrade(p, q, item, holds) =>
      if Apply(d, a) != d { StartKeepsSound(d, p, q, item); }
    case AcceptTrade(p, reachable, allowed) =>
      if p in d.parties { AcceptKeepsSound(d, p, reachable, allowed); }
    case FinishTransfer(p) =>
      if p in d.parties { FinishKeepsSound(d, p); }
    case CloseTrade(p) =>
      if p in d.parties { CloseKeepsSound(d, p); }
    case CleanUp => CleanupKeepsSound(d);
  }

  lemma CleanupKeepsSound(d: Desk)
    requires Sound(d)
    ensures Sound(Cleanup(d))
  {
    var e := Cleanup(d);
    assert forall p, q :: Paired(e, p, q) <==> Paired(d, p, q);
    assert forall p, i :: Offers(e, p, i) <==> Offers(d, p, i);
  }

  /** A desk at which nobody is trading. */
  function OpenDesk(players: set<PlayerId>): Desk {
    Desk(map p | p in players :: IDLE, map[], multiset{}, [])
  }

  /** Trade safety: every run keeps links, states, table and references sound. */
  lemma {:induction false} RunKeepsSound(players: set<PlayerId>, actions: seq<Action>)
    ensures Sound(Run(OpenDesk(players), actions))
  {
    if actions != [] {
      RunKeepsSound(players, actions[..|actions| - 1]);
      ActionKeepsSound(Run(OpenDesk(players), actions[..|actions| - 1]), actions[|actions| - 1]);
    }
  }

  // ---------------------------------------------------------------------------
  // What each action does to the players' fields
  // ---------------------------------------------------------------------------

  function Offered(d: Desk, p: PlayerId): set<ItemId> {
    if p in d.parties && d.parties[p].item.Some? then {d.parties[p].item.value} else {}
  }

  /** Both offers are off the table, and a reference is to be given back for each that was on it. */
  ghost predicate OffersWithdrawn(d: Desk, e: Desk, p: PlayerId, q: PlayerId) {
    var items := (Offered(d, p) + Offered(d, q)) * d.tradeItems.Keys;
    e.tradeItems == d.tradeItems - items && e.held == d.held && multiset(e.toRelease) == multiset(d.toRelease) + multiset(items)
  }

  /** The two players' fields are as given, and nobody else's have changed. */
  predicate OnlyThese(d: Desk, e: Desk, p: PlayerId, me: Party, q: PlayerId, other: Party) {
    p in d.parties && q in d.parties && e.parties == d.parties[p := me][q := other]
  }

  lemma WithdrawBoth(d: Desk, a: Option<ItemId>, b: Option<ItemId>, items: set<ItemId>)
    requires forall i :: i in items <==> Some(i) == a || Some(i) == b
    requires items <= d.tradeItems.Keys && (a.Some? ==> a != b)
    ensures var w := Withdraw(Withdraw(d, a), b);
            && w.tradeItems == d.tradeItems - items && w.held == d.held && w.parties == d.parties
            && multiset(w.toRelease) == multiset(d.toRelease) + multiset(items)
  {
    assert a.Some? ==> a.value in items;
    assert b.Some? ==> b.value in items;
    assert items == (if a.Some? then {a.value} else {}) + (if b.Some? then {b.value} else {});
  }

  lemma WithdrawnTwice(d: Desk, e: Desk, p: PlayerId, q: PlayerId)
    requires TableSound(d) && Paired(d, p, q) && q in d.parties && p != q
    requires d.parties[p].state != Transfer && d.parties[q].state != Transfer
    requires var w := Withdraw(Withdraw(d, d.parties[p].item), d.parties[q].item);
             e.tradeItems == w.tradeItems && e.held == w.held && e.toRelease == w.toRelease
    ensures OffersWithdrawn(d, e, p, q)
  {
    hide Withdraw;
    var items := Offered(d, p) + Offered(d, q);
    assert forall i :: i in Offered(d, p) ==> Offers(d, p, i);
    assert forall i :: i in Offered(d, q) ==> Offers(d, q, i);
    assert items * d.tradeItems.Keys == items;
    assert d.parties[p].item.Some? ==> Offers(d, p, d.parties[p].item.value);
    WithdrawBoth(d, d.parties[p].item, d.parties[q].item, items);
  }

  lemma PartnerKnown(d: Desk, p: PlayerId)
    requires LinksSound(d) && p in d.parties && d.parties[p].state != NoTrade
    ensures d.parties[p].partner.Some? && Paired(d, p, d.parties[p].partner.value) && Paired(d, d.parties[p].partner.value, p)
    ensures d.parties[p].partner.value != p
  {
    assert Paired(d, d.parties[p].partner.value, p);
  }

  /** A player may accept while trading, unless it has accepted already. */
  predicate Deciding(d: Desk, p: PlayerId) { p in d.parties && d.parties[p].state in {Initiated, Acknowledged} }

  /** Accepting without a trade, twice, or out of reach does nothing. */
  lemma AcceptanceRefused(d: Desk, p: PlayerId, reachable: bool, allowed: bool)
    requires !Deciding(d, p) || !reachable
    ensures Apply(d, AcceptTrade(p, reachable, allowed)) == d
  {
  }

  /** The first acceptance makes that one player accepted and changes nothing else. */
  lemma FirstAcceptanceWaits(d: Desk, p: PlayerId, q: PlayerId, allowed: bool)
    requires Sound(d) && Deciding(d, p) && d.parties[p].partner == Some(q) && q in d.parties && d.parties[q].state != Accepted
    ensures Apply(d, AcceptTrade(p, true, allowed)) == d.(parties := d.parties[p := d.parties[p].(state := Accepted)])
  {
    PartnerKnown(d, p);
  }

  /** The second one settles the trade: an allowed one puts both in transfer, a forbidden one ends it. */
  lemma SecondAcceptanceSettles(d: Desk, p: PlayerId, q: PlayerId, allowed: bool)
    requires Sound(d) && Deciding(d, p) && d.parties[p].partner == Some(q) && q in d.parties && d.parties[q].state == Accepted
    ensures var e := Apply(d, AcceptTrade(p, true, allowed));
            && OffersWithdrawn(d, e, p, q)
            && (allowed ==> OnlyThese(d, e, p, d.parties[p].(state := Transfer), q, d.parties[q].(state := Transfer)))
            && (!allowed ==> OnlyThese(d, e, p, IDLE, q, IDLE))
  {
    hide LinksSound, StatesSound, TableSound, ReferencesSound, NeverBothAccepted, OffersWithdrawn, Apply, Withdraw;
    PartnerKnown(d, p);
    SettlesParties(d, p, q, allowed);
    WithdrawnTwice(d, Apply(d, AcceptTrade(p, true, allowed)), p, q);
  }

  lemma SettlesParties(d: Desk, p: PlayerId, q: PlayerId, allowed: bool)
    requires Deciding(d, p) && Paired(d, p, q) && Paired(d, q, p) && p != q && d.parties[q].state == Accepted
    ensures var e := Apply(d, AcceptTrade(p, true, allowed));
            var w := Withdraw(Withdraw(d, d.parties[p].item), d.parties[q].item);
            && e.tradeItems == w.tradeItems && e.held == w.held && e.toRelease == w.toRelease
            && (allowed ==> OnlyThese(d, e, p, d.parties[p].(state := Transfer), q, d.parties[q].(state := Transfer)))
            && (!allowed ==> OnlyThese(d, e, p, IDLE, q, IDLE))
  {
  }

  /** A request starts a trade exactly if both are free for it and the item is clear of everything on offer. */
  lemma RequestDecides(d: Desk, p: PlayerId, q: PlayerId, item: ItemId, holds: (ItemId, ItemId) -> bool)
    requires Sound(d) && p in d.parties && q in d.parties
    ensures var e := Apply(d, RequestTrade(p, q, item, holds));
            var me, other := d.parties[p], d.parties[q];
            && (e != d <==>
                  && p != q && (forall i :: i in d.tradeItems ==> i != item && !holds(item, i) && !holds(i, item))
                  && (me.state == NoTrade || (me.state == Acknowledged && me.partner == Some(q)))
                  && (other.state == NoTrade || other.partner == Some(p)))
            && (e != d ==>
                  && OnlyThese(d, e, p, Party(Initiated, Some(q), Some(item)), q,
                               if other.state == NoTrade then Party(Acknowledged, Some(p), None) else other)
                  && e.tradeItems == d.tradeItems[item := p] && e.held == d.held + multiset{item} && e.toRelease == d.toRelease)
  {
    hide TableSound, ReferencesSound, NeverBothAccepted;
    var e := Apply(d, RequestTrade(p, q, item, holds));
    if p != q && !Conflicts(d.tradeItems, holds, item) && MayStart(d, p, q) {
      assert e.held[item] == d.held[item] + 1;
    }
  }

  /** Closing a trade that is not in transfer sets both sides free. */
  lemma CloseFreesBoth(d: Desk, p: PlayerId, q: PlayerId)
    requires Sound(d) && p in d.parties && d.parties[p].partner == Some(q) && d.parties[p].state != Transfer
    ensures var e := Apply(d, CloseTrade(p)); OffersWithdrawn(d, e, p, q) && OnlyThese(d, e, p, IDLE, q, IDLE)
  {
    hide LinksSound, TableSound, ReferencesSound, NeverBothAccepted, OffersWithdrawn, Apply, Withdraw;
    assert d.parties[p].state != NoTrade by {
      TradingIff(d, p);
    }
    PartnerKnown(d, p);
    assert Paired(d, p, q) && d.parties[q].state != Transfer;
    hide StatesSound;
    ClosesParties(d, p, q);
    WithdrawnTwice(d, Apply(d, CloseTrade(p)), p, q);
  }

  lemma TradingIff(d: Desk, p: PlayerId)
    requires LinksSound(d) && p in d.parties
    ensures d.parties[p].state == NoTrade <==> d.parties[p].partner.None?
  {
  }

  lemma ClosesParties(d: Desk, p: PlayerId, q: PlayerId)
    requires Paired(d, p, q) && q in d.parties && p != q && d.parties[p].state != Transfer && d.parties[q].state != Transfer
    ensures var e := Apply(d, CloseTrade(p));
            var w := Withdraw(Withdraw(d, d.parties[p].item), d.parties[q].item);
            && e.tradeItems == w.tradeItems && e.held == w.held && e.toRelease == w.toRelease
            && OnlyThese(d, e, p, IDLE, q, IDLE)
  {
  }

  /** Without a trade, or during a transfer, closing changes nothing. */
  lemma CloseRefused(d: Desk, p: PlayerId)
    requires Sound(d) && p in d.parties && d.parties[p].state in {NoTrade, Transfer}
    ensures Apply(d, CloseTrade(p)) == d
  {
    assert d.parties[p].state == NoTrade ==> d.parties[p := IDLE] == d.parties;
  }

  /** Only a transfer can be finished; then both sides are free and nothing else changes. */
  lemma FinishFreesBoth(d: Desk, p: PlayerId)
    requires Sound(d) && p in d.parties
    ensures var e := Apply(d, FinishTransfer(p));
            && (d.parties[p].state != Transfer ==> e == d)
            && (d.parties[p].state == Transfer ==>
                  && d.parties[p].partner.Some? && OnlyThese(d, e, p, IDLE, d.parties[p].partner.value, IDLE)
                  && e.tradeItems == d.tradeItems && e.held == d.held && e.toRelease == d.toRelease)
  {
    if d.parties[p].state == Transfer {
      PartnerKnown(d, p);
    }
  }

  // ---------------------------------------------------------------------------
  // A transfer needs both acceptances
  // ---------------------------------------------------------------------------

  predicate Accepts(a: Action, p: PlayerId) { a.AcceptTrade? && a.p == p && a.reachable }

  /** What an acceptance can make of any player. */
  lemma AcceptMoves(d: Desk, a: Action, r: PlayerId)
    requires Sound(d) && a.AcceptTrade? && r in d.parties
    ensures r in Apply(d, a).parties
    ensures
      var was, now := d.parties[r], Apply(d, a).parties[r];
      || now == was || now == IDLE
      || (now == was.(state := Accepted) && Accepts(a, r) && Deciding(d, r))
      || (now == was.(state := Transfer) && Accepts(a, r) && a.allowed && Deciding(d, r)
          && was.partner.Some? && Paired(d, was.partner.value, r) && d.parties[was.partner.value].state == Accepted)
      || (now == was.(state := Transfer) && was.state == Accepted && a.allowed
          && was.partner.Some? && Accepts(a, was.partner.value) && Deciding(d, was.partner.value))
  {
    hide LinksSound, StatesSound, TableSound, ReferencesSound, NeverBothAccepted, Apply, OffersWithdrawn;
    if Deciding(d, a.p) && a.reachable {
      PartnerKnown(d, a.p);
      var q := d.parties[a.p].partner.value;
      if d.parties[q].state == Accepted {
        SecondAcceptanceSettles(d, a.p, q, a.allowed);
      } else {
        FirstAcceptanceWaits(d, a.p, q, a.allowed);
      }
    } else {
      AcceptanceRefused(d, a.p, a.reachable, a.allowed);
    }
  }

  /** No other action makes a player accepted or puts it in transfer. */
  lemma OthersNeverAccept(d: Desk, a: Action, p: PlayerId)
    requires p in d.parties && !a.AcceptTrade?
    ensures p in Apply(d, a).parties
    ensures Apply(d, a).parties[p].state in {Accepted, Transfer} ==> Apply(d, a).parties[p] == d.parties[p]
  {
    hide Conflicts;
  }

  /** Nobody else can accept for a player. */
  lemma AcceptedByOneself(d: Desk, a: Action, p: PlayerId)
    requires Sound(d) && p in d.parties
    ensures p in Apply(d, a).parties
    ensures Apply(d, a).parties[p].state == Accepted ==>
              Apply(d, a).parties[p] == d.parties[p]
              || (Accepts(a, p) && Deciding(d, p) && Apply(d, a).parties[p] == d.parties[p].(state := Accepted))
  {
    hide Sound, Apply, Paired;
    if a.AcceptTrade? {
      AcceptMoves(d, a, p);
    } else {
      OthersNeverAccept(d, a, p);
    }
  }

  /** A player gets into transfer only by an allowed acceptance of one side when the other has accepted already. */
  lemma TransferNeedsBoth(d: Desk, a: Action, p: PlayerId)
    requires Sound(d) && p in d.parties && d.parties[p].state != Transfer
    ensures p in Apply(d, a).parties
    ensures var e := Apply(d, a);
            e.parties[p].state == Transfer ==>
              && d.parties[p].partner.Some? && a.AcceptTrade? && a.reachable && a.allowed
              && e.parties[p] == d.parties[p].(state := Transfer)
              && var q := d.parties[p].partner.value;
                 && Paired(d, q, p)
                 && (|| (a.p == p && Deciding(d, p) && d.parties[q].state == Accepted)
                     || (a.p == q && Deciding(d, q) && d.parties[p].state == Accepted))
  {
    hide LinksSound, StatesSound, TableSound, ReferencesSound, NeverBothAccepted, Apply, Paired;
    if a.AcceptTrade? {
      AcceptMoves(d, a, p);
    } else {
      OthersNeverAccept(d, a, p);
    }
    if d.parties[p].state != NoTrade {
      PartnerKnown(d, p);
    }
  }

  /** From after action i up to after action j, the player's fields are these. */
  ghost predicate Stays(players: set<PlayerId>, actions: seq<Action>, i: nat, j: nat, p: PlayerId, now: Party)
    requires j <= |actions|
  {
    forall k :: i < k <= j ==> At(players, actions, k, p) == Some(now)
  }

  /** A player's fields after the first k actions. */
  function At(players: set<PlayerId>, actions: seq<Action>, k: nat, p: PlayerId): Option<Party>
    requires k <= |actions|
  {
    var d := Run(OpenDesk(players), actions[..k]);
    if p in d.parties then Some(d.parties[p]) else None
  }

  /** A player who has accepted did so itself, and has kept its fields since. */
  ghost predicate AcceptedAt(players: set<PlayerId>, actions: seq<Action>, i: nat, n: nat, p: PlayerId, now: Party)
    requires n <= |actions|
  {
    i < n && Accepts(actions[i], p) && Stays(players, actions, i, n, p, now)
  }

  lemma {:induction false} AcceptedSince(players: set<PlayerId>, actions: seq<Action>, n: nat, p: PlayerId) returns (i: nat)
    requires n <= |actions| && At(players, actions, n, p).Some? && At(players, actions, n, p).value.state == Accepted
    ensures AcceptedAt(players, actions, i, n, p, At(players, actions, n, p).value)
  {
    hide Apply, Run, Sound;
    var d0 := OpenDesk(players);
    i := 0;
    RunNothing(d0, actions);
    if n > 0 {
      RunKeepsSound(players, actions[..n - 1]);
      RunOneMore(d0, actions, n - 1);
      KeysStay(players, actions, n - 1, p);
      AcceptedByOneself(Run(d0, actions[..n - 1]), actions[n - 1], p);
      if At(players, actions, n - 1, p) == At(players, actions, n, p) {
        i := AcceptedSince(players, actions, n - 1, p);
      } else {
        i := n - 1;
      }
    }
  }

  lemma RunNothing(d: Desk, actions: seq<Action>)
    ensures Run(d, actions[..0]) == d
  {
  }

  lemma RunOneMore(d: Desk, actions: seq<Action>, k: nat)
    requires k < |actions|
    ensures Run(d, actions[..k + 1]) == Apply(Run(d, actions[..k]), actions[k])
  {
    assert actions[..k + 1][..k] == actions[..k];
  }

  lemma ApplyKeepsKeys(d: Desk, a: Action)
    ensures Apply(d, a).parties.Keys == d.parties.Keys
  {
    hide Conflicts, Accept, Close, Retire;
    if a.AcceptTrade? && a.p in d.parties {
      AcceptKeepsKeys(d, a.p, a.reachable, a.allowed);
    }
    if a.CloseTrade? && a.p in d.parties {
      CloseKeepsKeys(d, a.p);
    }
  }

  lemma AcceptKeepsKeys(d: Desk, p: PlayerId, reachable: bool, allowed: bool)
    requires p in d.parties
    ensures Accept(d, p, reachable, allowed).parties.Keys == d.parties.Keys
  {
    hide Close;
    CloseKeepsKeys(d.(parties := d.parties[p := d.parties[p].(state := Accepted)]), p);
  }

  lemma CloseKeepsKeys(d: Desk, p: PlayerId)
    requires p in d.parties
    ensures Close(d, p).parties.Keys == d.parties.Keys
  {
  }

  lemma KeysStay(players: set<PlayerId>, actions: seq<Action>, k: nat, p: PlayerId)
    requires k < |actions|
    ensures At(players, actions, k, p).Some? <==> At(players, actions, k + 1, p).Some?
  {
    hide Apply, Run;
    RunOneMore(OpenDesk(players), actions, k);
    ApplyKeepsKeys(Run(OpenDesk(players), actions[..k]), actions[k]);
  }

  /** The acceptances, one of each side, that led to a transfer. */
  ghost predicate SettledBy(players: set<PlayerId>, actions: seq<Action>, i: nat, j: nat, n: nat, first: PlayerId, second: PlayerId)
    requires n <= |actions|
  {
    && i < j < n && Accepts(actions[i], first) && Accepts(actions[j], second) && actions[j].allowed
    && At(players, actions, j, first).Some? && Stays(players, actions, i, j, first, At(players, actions, j, first).value)
    && At(players, actions, j, first).value.state == Accepted && At(players, actions, j, first).value.partner == Some(second)
  }

  /**
    No transfer without both acceptances: whenever a player is in transfer, it and its partner have both
    accepted by actions of their own, the first acceptance stood until the second, which was an allowed one.
   */
  lemma {:induction false} TransferSince(players: set<PlayerId>, actions: seq<Action>, n: nat, p: PlayerId, q: PlayerId)
    requires n <= |actions| && At(players, actions, n, p).Some?
    requires At(players, actions, n, p).value.state == Transfer && At(players, actions, n, p).value.partner == Some(q)
    ensures exists i, j :: SettledBy(players, actions, i, j, n, p, q) || SettledBy(players, actions, i, j, n, q, p)
  {
    hide Apply, Run, Sound, Stays;
    var d0 := OpenDesk(players);
    if n == 0 {
      RunNothing(d0, actions);
    } else {
      RunKeepsSound(players, actions[..n - 1]);
      RunOneMore(d0, actions, n - 1);
      KeysStay(players, actions, n - 1, p);
      var d := Run(d0, actions[..n - 1]);
      if d.parties[p].state == Transfer {
        StillInTransfer(d, actions[n - 1], p);
        TransferSince(players, actions, n - 1, p, q);
        var i, j :| SettledBy(players, actions, i, j, n - 1, p, q) || SettledBy(players, actions, i, j, n - 1, q, p);
        assert SettledBy(players, actions, i, j, n, p, q) || SettledBy(players, actions, i, j, n, q, p);
      } else {
        TransferNeedsBoth(d, actions[n - 1], p);
        var first, second := if actions[n - 1].p == p then q else p, actions[n - 1].p;
        assert d.parties[first].state == Accepted && d.parties[first].partner == Some(second);
        var i := AcceptedSince(players, actions, n - 1, first);
        assert SettledBy(players, actions, i, n - 1, n, first, second);
      }
    }
  }

  lemma StillInTransfer(d: Desk, a: Action, p: PlayerId)
    requires Sound(d) && p in d.parties && d.parties[p].state == Transfer
    ensures p in Apply(d, a).parties
    ensures Apply(d, a).parties[p].state == Transfer ==> Apply(d, a).parties[p] == d.parties[p]
  {
    if !a.FinishTransfer? {
      TransferIsShielded(d, a, p);
    }
    hide TableSound, ReferencesSound, NeverBothAccepted, StatesSound, Conflicts, Withdraw, Accept, Close;
  }

  /** Until the transfer is finished nothing that happens meanwhile touches either side. */
  lemma TransferIsShielded(d: Desk, a: Action, p: PlayerId)
    requires Sound(d) && p in d.parties && d.parties[p].state == Transfer
    requires a.FinishTransfer? ==> a.p != p && Some(a.p) != d.parties[p].partner
    ensures p in Apply(d, a).parties && Apply(d, a).parties[p] == d.parties[p]
    ensures a == CloseTrade(p) ==> Apply(d, a) == d
  {
    hide TableSound, ReferencesSound, NeverBothAccepted, Accept, Close, Conflicts;
    var q := d.parties[p].partner.value;
    assert Paired(d, p, q) && Paired(d, q, p);
    match a
    case RequestTrade(r, s, item, holds) =>
    case AcceptTrade(r, reachable, allowed) =>
      if r in d.parties { AcceptShields(d, r, reachable, allowed, p); }
    case FinishTransfer(r) =>
      if r in d.parties && d.parties[r].partner.Some? {
        assert Paired(d, r, d.parties[r].partner.value);
      }
    case CloseTrade(r) =>
      if r in d.parties { CloseShields(d, r, p); }
    case CleanUp =>
  }

  lemma CloseShields(d: Desk, r: PlayerId, p: PlayerId)
    requires LinksSound(d) && p in d.parties && r in d.parties && d.parties[p].state == Transfer
    requires forall q :: Paired(d, p, q) ==> d.parties[q].state == Transfer
    ensures p in Close(d, r).parties && Close(d, r).parties[p] == d.parties[p]
    ensures r == p ==> Close(d, r) == d
  {
    if d.parties[r].partner.Some? {
      assert Paired(d, r, d.parties[r].partner.value);
    }
  }

  lemma AcceptShields(d: Desk, r: PlayerId, reachable: bool, allowed: bool, p: PlayerId)
    requires Sound(d) && p in d.parties && r in d.parties && d.parties[p].state == Transfer
    ensures p in Accept(d, r, reachable, allowed).parties && Accept(d, r, reachable, allowed).parties[p] == d.parties[p]
  {
    var me := d.parties[r];
    if me.partner.Some? {
      assert Paired(d, r, me.partner.value) && Paired(d, me.partner.value, r);
    }
    if me.state in {Acknowledged, Initiated} {
      AcceptTouchesTwo(d, r, reachable, allowed, p);
    }
  }

  lemma AcceptTouchesTwo(d: Desk, r: PlayerId, reachable: bool, allowed: bool, p: PlayerId)
    requires p in d.parties && r in d.parties && p != r && d.parties[r].partner != Some(p)
    ensures p in Accept(d, r, reachable, allowed).parties && Accept(d, r, reachable, allowed).parties[p] == d.parties[p]
  {
  }

  /** An item on the table is offered by somebody who is trading. */
  lemma TableNeedsTraders(d: Desk)
    requires Sound(d) && d.tradeItems != map[]
    ensures exists p :: p in d.parties && d.parties[p].state != NoTrade
  {
    var i :| i in d.tradeItems;
    assert Offers(d, d.tradeItems[i], i);
  }

  lemma EmptyTableHoldsNothing(d: Desk)
    requires Sound(d) && d.tradeItems == map[]
    ensures Cleanup(d).held == multiset{}
  {
  }

  /** Every reference taken is given back: a desk at rest holds none after a cleanup. */
  lemma DeskAtRestHoldsNothing(d: Desk)
    requires Sound(d) && forall p :: p in d.parties ==> d.parties[p].state == NoTrade
    ensures d.tradeItems == map[] && Cleanup(d).held == multiset{}
  {
    hide *;
    if d.tradeItems != map[] {
      TableNeedsTraders(d);
    }
    EmptyTableHoldsNothing(d);
  }

  // ---------------------------------------------------------------------------
  // Offers stay apart
  // ---------------------------------------------------------------------------

  /** Nothing on offer is inside anything else on offer. */
  ghost predicate Apart(d: Desk, holds: (ItemId, ItemId) -> bool) {
    forall i, j :: i in d.tradeItems && j in d.tradeItems ==> !holds(i, j)
  }

  lemma RequestKeepsOffersApart(d: Desk, holds: (ItemId, ItemId) -> bool, p: PlayerId, q: PlayerId, item: ItemId)
    requires !holds(item, item) && Apart(d, holds)
    ensures Apart(Request(d, holds, p, q, item), holds)
  {
  }

  /** Only a request puts anything on the table. */
  lemma OthersOnlyWithdraw(d: Desk, a: Action)
    requires !a.RequestTrade?
    ensures Apply(d, a).tradeItems.Keys <= d.tradeItems.Keys
  {
  }

  lemma ActionKeepsApart(d: Desk, a: Action, holds: (ItemId, ItemId) -> bool)
    requires Apart(d, holds) && (forall i :: !holds(i, i)) && (a.RequestTrade? ==> a.holds == holds)
    ensures Apart(Apply(d, a), holds)
  {
    hide Request, Accept, Close, Finish;
    match a
    case RequestTrade(p, q, item, _) => RequestKeepsOffersApart(d, holds, p, q, item);
    case AcceptTrade(_, _, _) => OthersOnlyWithdraw(d, a);
    case FinishTransfer(_) => OthersOnlyWithdraw(d, a);
    case CloseTrade(_) => OthersOnlyWithdraw(d, a);
    case CleanUp => OthersOnlyWithdraw(d, a);
  }

  /** What is inside what may change between actions; requests see the relation of their moment. */
  ghost predicate Timeline(actions: seq<Action>, holds: seq<(ItemId, ItemId) -> bool>) {
    && |holds| == |actions| + 1
    && (forall k, i {:trigger holds[k](i, i)} :: 0 <= k < |holds| ==> !holds[k](i, i))
    && (forall k :: 0 <= k < |actions| && actions[k].RequestTrade? ==> actions[k].holds == holds[k])
  }

  /** Of two items on offer after the k-th action, neither gets into the other before the next. */
  ghost predicate StayOut(players: set<PlayerId>, actions: seq<Action>, holds: seq<(ItemId, ItemId) -> bool>, k: nat)
    requires k < |actions| && |holds| == |actions| + 1
  {
    var t := Run(OpenDesk(players), actions[..k + 1]).tradeItems;
    forall i, j :: i in t && j in t && holds[k + 1](i, j) ==> holds[k](i, j)
  }

  ghost predicate ApartAt(players: set<PlayerId>, actions: seq<Action>, holds: seq<(ItemId, ItemId) -> bool>, k: nat)
    requires k <= |actions| && |holds| == |actions| + 1
  {
    Apart(Run(OpenDesk(players), actions[..k]), holds[k])
  }

  lemma {:induction false} ApartUpTo(players: set<PlayerId>, actions: seq<Action>, holds: seq<(ItemId, ItemId) -> bool>, n: nat)
    requires Timeline(actions, holds) && n <= |actions|
    requires forall k :: 0 <= k < n ==> StayOut(players, actions, holds, k)
    ensures ApartAt(players, actions, holds, n)
  {
    hide Apply, Run;
    if n == 0 {
      StartsApart(players, actions, holds);
    } else {
      ApartUpTo(players, actions, holds, n - 1);
      var d := Run(OpenDesk(players), actions[..n - 1]);
      RunOneMore(OpenDesk(players), actions, n - 1);
      ActionKeepsApart(d, actions[n - 1], holds[n - 1]);
      assert StayOut(players, actions, holds, n - 1);
    }
  }

  lemma StartsApart(players: set<PlayerId>, actions: seq<Action>, holds: seq<(ItemId, ItemId) -> bool>)
    requires Timeline(actions, holds)
    ensures ApartAt(players, actions, holds, 0)
  {
  }

  /**
    Over a whole run no item on offer is ever inside another one on offer if and only if nobody
    puts one into the other while both are on offer: requests never bring it about.
   */
  lemma OffersStayApartIff(players: set<PlayerId>, actions: seq<Action>, holds: seq<(ItemId, ItemId) -> bool>)
    requires Timeline(actions, holds)
    ensures (forall k :: 0 <= k <= |actions| ==> ApartAt(players, actions, holds, k))
       <==> (forall k :: 0 <= k < |actions| ==> StayOut(players, actions, holds, k))
  {
    if forall k :: 0 <= k < |actions| ==> StayOut(players, actions, holds, k) {
      forall k | 0 <= k <= |actions|
        ensures ApartAt(players, actions, holds, k)
      {
        ApartUpTo(players, actions, holds, k);
      }
    }
    if forall k :: 0 <= k <= |actions| ==> ApartAt(players, actions, holds, k) {
      forall k | 0 <= k < |actions|
        ensures StayOut(players, actions, holds, k)
      {
        assert ApartAt(players, actions, holds, k + 1);
      }
    }
  }

  // ---------------------------------------------------------------------------
  // The fields in place
  // ---------------------------------------------------------------------------

  lemma TakeOneMore(all: multiset<ItemId>, s: seq<ItemId>, k: nat)
    requires k < |s|
    ensures all - multiset(s[..k]) - multiset{s[k]} == all - multiset(s[..k + 1])
  {
    assert s[..k + 1] == s[..k] + [s[k]];
  }

  class Player {
    const id: PlayerId
    var tradeState: TradeState
    var tradePartner: Player?
    var tradeItem: Option<ItemId>

    constructor (id: PlayerId)
      ensures this.id == id && tradeState == NoTrade && tradePartner == null && tradeItem == None
    {
      this.id, tradeState, tradePartner, tradeItem := id, NoTrade, null, None;
    }

    function Fields(): Party
      reads this
    {
      Party(tradeState, if tradePartner == null then None else Some(tradePartner.id), tradeItem)
    }
  }

  class Game {
    const players: map<PlayerId, Player>
    var tradeItems: map<ItemId, PlayerId>
    var references: multiset<ItemId>
    var toReleaseItems: seq<ItemId>

    ghost predicate Valid()
      reads this, players.Values
    {
      forall p :: p in players ==>
        && players[p].id == p
        && (players[p].tradePartner != null ==> Known(players[p].tradePartner))
    }

    predicate Known(player: Player) { player.id in players && players[player.id] == player }

    ghost function Parties(): map<PlayerId, Party>
      reads players.Values
    {
      map p | p in players :: players[p].Fields()
    }

    ghost function View(): Desk
      reads this, players.Values
    {
      Desk(Parties(), tradeItems, references, toReleaseItems)
    }

    lemma Shows(player: Player)
      requires Valid() && Known(player)
      ensures player.id in View().parties && View().parties[player.id] == player.Fields()
      ensures player.tradePartner != null ==> Known(player.tradePartner)
      ensures forall p :: p in View().parties <==> p in players
    {
    }

    constructor (players: map<PlayerId, Player>)
      requires forall p :: p in players ==> players[p].id == p && players[p].Fields() == IDLE
      ensures Valid() && View() == OpenDesk(players.Keys) && this.players == players
    {
      this.players, tradeItems, references, toReleaseItems := players, map[], multiset{}, [];
      new;
      assert View().parties == OpenDesk(players.Keys).parties;
    }

    method ReleaseItem(item: ItemId)
      modifies this`toReleaseItems
      ensures toReleaseItems == old(toReleaseItems) + [item]
    {
      toReleaseItems := toReleaseItems + [item];
    }

    /** Looks up an offered item in the table and takes it off. */
    method WithdrawItem(item: Option<ItemId>)
      requires Valid()
      modifies this`toReleaseItems, this`tradeItems
      ensures Valid() && View() == Withdraw(old(View()), item)
    {
      if item.Some? && item.value in tradeItems {
        ReleaseItem(item.value);
        tradeItems := tradeItems - {item.value};
      }
    }

    method SetFields(player: Player, state: TradeState, partner: Player?, item: Option<ItemId>)
      requires Valid() && Known(player) && (partner != null ==> Known(partner))
      modifies player
      ensures Valid()
      ensures View() == old(View()).(parties := old(View()).parties[player.id :=
                          Party(state, if partner == null then None else Some(partner.id), item)])
      ensures player.tradeState == state && player.tradePartner == partner && player.tradeItem == item
    {
      player.tradeState := state;
      player.tradePartner := partner;
      player.tradeItem := item;
      assert forall p :: p in players && p != player.id ==> players[p] != player;
      assert Parties() == old(Parties())[player.id := player.Fields()];
    }

    /** The player initiates: partner, item and a reference to it. */
    method PutOnTable(player: Player, partner: Player, item: ItemId)
      requires Valid() && Known(player) && Known(partner)
      modifies this, player
      ensures Valid()
      ensures var d := old(View());
              View() == d.(parties := d.parties[player.id := Party(Initiated, Some(partner.id), Some(item))],
                           tradeItems := d.tradeItems[item := player.id], held := d.held + multiset{item})
    {
      SetFields(player, Initiated, partner, Some(item));
      references := references + multiset{item};
      tradeItems := tradeItems[item := player.id];
    }

    method InternalStartTrade(player: Player, partner: Player, item: ItemId) returns (ok: bool)
      requires Valid() && Known(player) && Known(partner) && player != partner
      modifies this, player, partner
      ensures Valid() && View() == Start(old(View()), player.id, partner.id, item)
      ensures ok == MayStart(old(View()), player.id, partner.id)
    {
      if player.tradeState != NoTrade && !(player.tradeState == Acknowledged && player.tradePartner == partner) {
        return false;
      } else if partner.tradeState != NoTrade && partner.tradePartner != player {
        return false;
      }
      PutOnTable(player, partner, item);
      if partner.tradeState == NoTrade {
        SetFields(partner, Acknowledged, player, partner.tradeItem);
      }
      ok := true;
    }

    /** The guards in front of a trade: known players and an item clear of everything on offer. */
    method PlayerRequestTrade(p: PlayerId, q: PlayerId, item: ItemId, holds: (ItemId, ItemId) -> bool)
      requires Valid()
      modifies this, players.Values
      ensures Valid() && View() == Request(old(View()), holds, p, q, item)
    {
      if p !in players || q !in players || p == q {
        return;
      }
      var rest := tradeItems.Keys;
      while rest != {}
        invariant rest <= tradeItems.Keys
        invariant forall i :: i in tradeItems && i !in rest ==> i != item && !holds(item, i) && !holds(i, item)
        decreases rest
      {
        var i :| i in rest;
        if item == i || holds(item, i) || holds(i, item) {
          return;
        }
        rest := rest - {i};
      }
      var ok := InternalStartTrade(players[p], players[q], item);
    }

    method InternalCloseTrade(player: Player)
      requires Valid() && Known(player)
      modifies this`toReleaseItems, this`tradeItems, player, player.tradePartner
      ensures Valid() && View() == Close(old(View()), player.id)
    {
      hide Withdraw, Parties;
      Shows(player);
      var partner := player.tradePartner;
      if partner != null {
        Shows(partner);
      }
      if (partner != null && partner.tradeState == Transfer) || player.tradeState == Transfer {
        return;
      }
      WithdrawItem(player.tradeItem);
      SetFields(player, NoTrade, null, None);
      if partner != null {
        Shows(partner);
        WithdrawItem(partner.tradeItem);
        SetFields(partner, NoTrade, null, None);
      }
    }

    /** `transfer` tells the caller to move the items and then to finish. */
    method PlayerAcceptTrade(p: PlayerId, reachable: bool, allowed: bool) returns (transfer: bool)
      requires Valid()
      modifies this, players.Values
      ensures Valid()
      ensures View() == if p in old(View()).parties then Accept(old(View()), p, reachable, allowed) else old(View())
      ensures transfer ==> p in players && players[p].tradeState == Transfer
      ensures p in players && old(players[p].tradePartner) != null && old(players[p].tradePartner) != players[p] ==>
                (transfer <==> reachable && allowed && old(players[p].tradePartner.tradeState) == Accepted
                               && old(players[p].tradeState) in {Initiated, Acknowledged})
      ensures transfer ==> players[p].tradePartner != null && players[p].tradePartner.tradeState == Transfer
    {
      if p !in players {
        return false;
      }
      var player := players[p];
      if player.tradeState != Acknowledged && player.tradeState != Initiated {
        return false;
      }
      var partner := player.tradePartner;
      if partner == null || !reachable {
        return false;
      }
      SetFields(player, Accepted, partner, player.tradeItem);
      if partner.tradeState != Accepted {
        return false;
      }
      if !allowed {
        InternalCloseTrade(player);
        return false;
      }
      BeginTransfer(player, partner);
      transfer := true;
    }

    method BeginTransfer(player: Player, partner: Player)
      requires Valid() && Known(player) && Known(partner)
      modifies this`toReleaseItems, this`tradeItems, player, partner
      ensures Valid() && player.tradeState == Transfer
      ensures var d := old(View());
              var d3 := d.(parties := d.parties[player.id := d.parties[player.id].(state := Transfer)]
                                               [partner.id := d.parties[partner.id].(state := Transfer)]);
              View() == Withdraw(Withdraw(d3, d3.parties[player.id].item), d3.parties[partner.id].item)
    {
      SetFields(player, Transfer, player.tradePartner, player.tradeItem);
      SetFields(partner, Transfer, partner.tradePartner, partner.tradeItem);
      WithdrawItem(player.tradeItem);
      WithdrawItem(partner.tradeItem);
    }

    method FinishTrade(player: Player, partner: Player)
      requires Valid() && Known(player) && Known(partner)
      requires player.tradeState == Transfer && player.tradePartner == partner
      modifies player, partner
      ensures Valid() && View() == Finish(old(View()), player.id)
    {
      SetFields(player, NoTrade, null, None);
      SetFields(partner, NoTrade, null, None);
    }

    method CleanUpReleases()
      requires Valid()
      modifies this`toReleaseItems, this`references
      ensures Valid() && View() == Cleanup(old(View()))
    {
      hide Parties;
      GiveBack();
      toReleaseItems := [];
    }

    method GiveBack()
      modifies this`references
      ensures references == old(references) - multiset(toReleaseItems)
    {
      hide *;
      for k := 0 to |toReleaseItems|
        invariant references == old(references) - multiset(toReleaseItems[..k])
      {
        TakeOneMore(old(references), toReleaseItems, k);
        references := references - multiset{toReleaseItems[k]};
      }
      assert toReleaseItems[..|toReleaseItems|] == toReleaseItems;
    }
  }
}
