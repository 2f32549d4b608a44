/** The run over all settlement requests at the end of a block, asset by asset. */
module ClearSettlements {
  import opened Wrappers
  import opened MarketState
  import opened MarketFill
  import opened Sound
  import opened Ranking
  import opened Constants
  import opened Arithmetic
  import opened Services
  import opened ForceSettlement

  // ----- the order of requests -----------------------------------------------------------------

  /** Requests whose asset is a or a later one. */
  function From(m: Market, a: Asset): set<Id> {
    set k | k in m.settles && m.settles[k].asset >= a
  }

  /** The first request by asset, then date, then id. */
  predicate IsNext(m: Market, ks: set<Id>, k: Id) {
    && k in ks && k in m.settles
    && forall j :: j in ks && j in m.settles ==> Precedes(m.settles[k], k, m.settles[j], j)
  }

  predicate Precedes(s: Settlement, k: Id, t: Settlement, j: Id) {
    s.asset < t.asset || (s.asset == t.asset && (s.date < t.date || (s.date == t.date && k <= j)))
  }

  lemma NextExists(m: Market, ks: set<Id>) returns (k: Id)
    requires ks != {} && ks <= m.settles.Keys
    ensures IsNext(m, ks, k)
  {
    var k0 :| k0 in ks;
    var assets := set j | j in ks :: m.settles[j].asset;
    assert m.settles[k0].asset in assets;
    var a := Least(assets);
    var k1 :| k1 in ks && m.settles[k1].asset == a;
    var dates := set j | j in ks && m.settles[j].asset == a :: m.settles[j].date;
    assert m.settles[k1].date in dates;
    var d := Least(dates);
    var k2 :| k2 in ks && m.settles[k2].asset == a && m.settles[k2].date == d;
    var ids := set j | j in ks && m.settles[j].asset == a && m.settles[j].date == d;
    assert k2 in ids;
    k := Least(ids);
    forall j | j in ks ensures Precedes(m.settles[k], k, m.settles[j], j) {
      assert m.settles[j].asset in assets;
      if m.settles[j].asset == a {
        assert m.settles[j].date in dates;
        if m.settles[j].date == d { assert j in ids; }
      }
    }
  }

  lemma HasNext(m: Market, ks: set<Id>)
    requires ks != {} && ks <= m.settles.Keys
    ensures exists k :: IsNext(m, ks, k)
  {
    var k := NextExists(m, ks);
  }

  ghost function NextRequest(m: Market, ks: set<Id>): (k: Id)
    requires ks != {} && ks <= m.settles.Keys
    ensures IsNext(m, ks, k)
  {
    HasNext(m, ks);
    var k :| IsNext(m, ks, k);
    k
  }

  lemma NextUnique(m: Market, ks: set<Id>, k: Id, j: Id)
    requires IsNext(m, ks, k) && IsNext(m, ks, j)
    ensures k == j
  {}

  /** What the next request comes to. */
  datatype Action = Cancel | Skip | Settle

  function Consider(m: Market, k: Id, now: nat): Action
    requires k in m.settles && Bit(m, m.settles[k].asset).Some?
  {
    var s := m.settles[k];
    var b := Bit(m, s.asset).value;
    if b.settlement.Some? then Cancel
    else if s.date > now then Skip
    else if b.feed.None? then Cancel
    else if Full(m, s.asset) then Skip
    else Settle
  }


  // ----- the run --------------------------------------------------------------------------------

  /** Requests that are due, or whose asset has been globally settled, are dealt with. */
  predicate DueBy(m: Market, now: nat, k: Id)
    requires k in m.settles
  {
    m.settles[k].date <= now || !Unsettled(m, m.settles[k].asset)
  }

  /** What is left waits for its date, or for its asset's volume to be renewed. */
  predicate Waits(m: Market, now: nat, k: Id)
    requires k in m.settles
  {
    var a := m.settles[k].asset;
    Unsettled(m, a) && (m.settles[k].date <= now ==> Bit(m, a).value.feed.Some? && Full(m, a))
  }

  /** Assets up to their volumes, which stay within the limits, and requests up to their balances. */
  ghost predicate SameScene(m: Market, m': Market) {
    && Sound.Sound(m') && m'.orders == m.orders && NoFainter(m, m') && SameLedger(m, m') && m'.assets.Keys == m.assets.Keys
    && (forall k :: k in m'.settles ==> k in m.settles && SameRequest(m.settles[k], m'.settles[k]))
    && (forall x :: x in m.assets && Bit(m, x).None? ==> Bit(m', x).None?)
    && (forall x :: x in m.assets && Bit(m, x).Some? ==> VolumeGrown(m, m', x))
  }

  ghost predicate Untouched(m: Market, m': Market, k: Id)
    requires k in m.settles
  {
    k in m'.settles && m'.settles[k] == m.settles[k]
  }

  /** From asset a on everything due has been dealt with; nothing else has been touched. */
  ghost predicate Cleared(m: Market, m': Market, now: nat, a: Asset) {
    && SameScene(m, m')
    && (forall k :: k in m.settles && (m.settles[k].asset < a || !DueBy(m, now, k)) ==> Untouched(m, m', k))
    && (forall k :: k in m'.settles && m'.settles[k].asset >= a ==> Waits(m', now, k))
  }

  /** Something is due and wanted, and there is volume left for it. */
  predicate Pressing(m: Market, now: nat, k: Id) {
    && k in m.settles && m.settles[k].date <= now && m.settles[k].balance > 0
    && Unsettled(m, m.settles[k].asset) && !Full(m, m.settles[k].asset)
  }

  /** Its price is not in the backing asset. */
  predicate Stuck(m: Market, now: nat, k: Id) {
    Pressing(m, now, k) && Askew(m, m.settles[k].asset)
  }

  /** The positions that should serve it may not be found. */
  ghost predicate Exposed(m: Market, now: nat, k: Id) {
    Pressing(m, now, k) && Faint(m, m.settles[k].asset)
  }

  /** The run fails if a pressing request meets a feed that is askew, and otherwise only if one needs positions
      too faint to be found. */
  ghost predicate GoodClearing(m: Market, r: Option<Market>, now: nat, a: Asset) {
    match r
    case None => exists k :: k in From(m, a) && (Stuck(m, now, k) || Exposed(m, now, k))
    case Some(m') => Cleared(m, m', now, a) && RunBy(m, m', now, a) && forall k :: k in From(m, a) ==> !Stuck(m, now, k)
  }

  // ----- what the run does, turn by turn -------------------------------------------------------------

  /** As much has been settled as may be: one unit more would be over the permitted percentage. */
  predicate Spent(m: Market, a: Asset)
    requires Bit(m, a).Some?
  {
    var b := Bit(m, a).value;
    (m.assets[a].supply + b.forceSettled) * b.maxVolume < (b.forceSettled + 1) * HUNDRED_PERCENT
  }

  lemma FullIff(m: Market, a: Asset)
    requires Backed(m, a) && Unsettled(m, a)
    ensures Full(m, a) <==> Spent(m, a)
  {
    SupplyNonNegative(m, a);
    var b := Bit(m, a).value;
    LimitIs(b, m.assets[a].supply);
    var limit, settled := Limit(m, a), b.forceSettled;
    if limit <= settled { MulLess(limit + 1, settled + 1, HUNDRED_PERCENT); }
    else { MulLess(settled + 1, limit, HUNDRED_PERCENT); }
  }

  /** The first request from asset cur on is given back when its asset has been settled globally, or when it is due and
      the asset has no feed. It is dealt with when it is due, and passed over with the rest of its asset before that or
      when nothing more may be settled. */
  ghost predicate TurnOf(m: Market, m': Market, now: nat, cur: Asset, k: Id, next: Asset) {
    && IsNext(m, From(m, cur), k) && Bit(m, m.settles[k].asset).Some?
    && var s, b := m.settles[k], Bit(m, m.settles[k].asset).value;
       if b.settlement.Some? then GivenBack(m, m', k) && next == s.asset
       else if s.date > now then m' == m && next == s.asset + 1
       else if b.feed.None? then GivenBack(m, m', k) && next == s.asset
       else if Spent(m, s.asset) then m' == m && next == s.asset + 1
       else Dealing(m, m', k) && next == s.asset
  }

  ghost predicate SomeTurn(m: Market, m': Market, now: nat, cur: Asset, next: Asset) {
    exists k :: TurnOf(m, m', now, cur, k, next)
  }

  /** One turn after the other, until no request is left to look at. */
  ghost predicate RunOf(ms: seq<Market>, curs: seq<Asset>, now: nat, m: Market, cur: Asset, m': Market) {
    && |ms| == |curs| && |ms| > 0 && ms[0] == m && curs[0] == cur
    && ms[|ms| - 1] == m' && From(m', curs[|ms| - 1]) == {}
    && forall n, n' :: 0 <= n < n' < |ms| && n' == n + 1 ==> SomeTurn(ms[n], ms[n'], now, curs[n], curs[n'])
  }

  ghost predicate RunBy(m: Market, m': Market, now: nat, cur: Asset) {
    exists ms, curs :: RunOf(ms, curs, now, m, cur, m')
  }

  lemma NoTurn(m: Market, now: nat, cur: Asset)
    requires From(m, cur) == {}
    ensures RunBy(m, m, now, cur)
  {
    assert RunOf([m], [cur], now, m, cur, m);
  }

  lemma OneMoreTurn(m: Market, m1: Market, m': Market, now: nat, cur: Asset, next: Asset)
    requires SomeTurn(m, m1, now, cur, next) && RunBy(m1, m', now, next)
    ensures RunBy(m, m', now, cur)
  {
    var ms, curs :| RunOf(ms, curs, now, m1, next, m');
    var all, places := [m] + ms, [cur] + curs;
    forall n, n' | 0 <= n < n' < |all| && n' == n + 1 ensures SomeTurn(all[n], all[n'], now, places[n], places[n']) {
      if n > 0 { assert SomeTurn(ms[n - 1], ms[n' - 1], now, curs[n - 1], curs[n' - 1]); }
    }
    assert RunOf(all, places, now, m, cur, m');
  }

  lemma CancelIsTurn(m: Market, now: nat, cur: Asset, k: Id)
    requires IsNext(m, From(m, cur), k) && Bit(m, m.settles[k].asset).Some? && Consider(m, k, now).Cancel?
    ensures TurnOf(m, CancelSettle(m, k), now, cur, k, m.settles[k].asset)
  {
    CancelGivesBack(m, k);
  }

  lemma SkipIsTurn(m: Market, now: nat, cur: Asset, k: Id)
    requires Sound.Sound(m) && IsNext(m, From(m, cur), k) && Bit(m, m.settles[k].asset).Some? && Consider(m, k, now).Skip?
    ensures TurnOf(m, m, now, cur, k, m.settles[k].asset + 1)
  {
    assert Books(m, m.settles[k].asset);
    if Unsettled(m, m.settles[k].asset) { FullIff(m, m.settles[k].asset); }
  }

  lemma SettleIsTurn(m: Market, m': Market, now: nat, cur: Asset, k: Id)
    requires Sound.Sound(m) && IsNext(m, From(m, cur), k) && Bit(m, m.settles[k].asset).Some? && Consider(m, k, now).Settle?
    requires Dealing(m, m', k)
    ensures TurnOf(m, m', now, cur, k, m.settles[k].asset)
  {
    assert Books(m, m.settles[k].asset);
    FullIff(m, m.settles[k].asset);
  }

  // ----- its results ----------------------------------------------------------------------------------

  lemma DealtScene(m: Market, m': Market, k: Id)
    requires Dealt(m, m', k)
    ensures SameScene(m, m')
  {}

  lemma GrownTwice(m: Market, m1: Market, m2: Market, x: Asset)
    requires VolumeGrown(m, m1, x) && VolumeGrown(m1, m2, x)
    ensures VolumeGrown(m, m2, x)
  {}

  lemma SceneTwice(m: Market, m1: Market, m2: Market)
    requires SameScene(m, m1) && SameScene(m1, m2)
    ensures SameScene(m, m2)
  {
    forall x | x in m.assets && Bit(m, x).Some? ensures VolumeGrown(m, m2, x) { GrownTwice(m, m1, m2, x); }
  }

  /** Time and global settlement decide what is due, and neither has moved. */
  lemma DueStays(m: Market, m': Market, now: nat, k: Id)
    requires SameScene(m, m') && k in m.settles && k in m'.settles && m.settles[k].asset in m.assets
    ensures DueBy(m', now, k) <==> DueBy(m, now, k)
  {
    var a := m.settles[k].asset;
    assert SameRequest(m.settles[k], m'.settles[k]);
    if Bit(m, a).Some? { assert VolumeGrown(m, m', a); }
  }

  /** One request dealt with, and everything from its asset on after that. */
  lemma ClearedLater(m: Market, m1: Market, m': Market, now: nat, cur: Asset, k: Id)
    requires WellFormed(m) && IsNext(m, From(m, cur), k) && DueBy(m, now, k)
    requires Dealt(m, m1, k) && Cleared(m1, m', now, m.settles[k].asset)
    ensures Cleared(m, m', now, cur)
  {
    DealtScene(m, m1, k);
    SceneTwice(m, m1, m');
    var a := m.settles[k].asset;
    forall j | j in m.settles && (m.settles[j].asset < cur || !DueBy(m, now, j)) ensures Untouched(m, m', j) {
      assert j != k;
      assert SettleOk(m, m.settles[j]);
      DueStays(m, m1, now, j);
      assert Untouched(m1, m', j);
    }
    forall j | j in m'.settles && m'.settles[j].asset >= cur ensures Waits(m', now, j) {
      assert j in m.settles && SameRequest(m.settles[j], m'.settles[j]);
      assert j in From(m, cur);
      assert Precedes(m.settles[k], k, m.settles[j], j);
    }
  }

  /** Dealing with one request makes no other one pressing. */
  lemma PressingBefore(m: Market, m1: Market, now: nat, k: Id, j: Id)
    requires WellFormed(m) && Dealt(m, m1, k) && Pressing(m1, now, j)
    ensures Pressing(m, now, j) && m.settles[j].asset == m1.settles[j].asset
    ensures Askew(m1, m1.settles[j].asset) ==> Askew(m, m.settles[j].asset)
  {
    DealtScene(m, m1, k);
    assert SameRequest(m.settles[j], m1.settles[j]) && SettleOk(m, m.settles[j]);
    assert VolumeGrown(m, m1, m.settles[j].asset);
  }

  lemma FailedLater(m: Market, m1: Market, now: nat, cur: Asset, k: Id)
    requires WellFormed(m) && k in From(m, cur) && Dealt(m, m1, k) && GoodClearing(m1, None, now, m.settles[k].asset)
    ensures GoodClearing(m, None, now, cur)
  {
    var j :| j in From(m1, m.settles[k].asset) && (Stuck(m1, now, j) || Exposed(m1, now, j));
    PressingBefore(m, m1, now, k, j);
    assert j in From(m, cur);
    if Exposed(m1, now, j) { FaintBefore(m, m1, m1.settles[j].asset); }
  }

  /** And a request that is stuck stays so while others are dealt with. */
  lemma StaysStuck(m: Market, m1: Market, now: nat, k: Id, j: Id, a: Asset)
    requires WellFormed(m) && Dealt(m, m1, k) && Stuck(m, now, j) && j != k && m.settles[j].asset >= a
    ensures Stuck(m1, now, j) && j in From(m1, a)
  {
    var x := m.settles[j].asset;
    assert m1.settles[j] == m.settles[j] && SettleOk(m, m.settles[j]);
    assert Bit(m1, x) == Bit(m, x) && VolumeGrown(m, m1, x);
  }

  lemma NoneStuck(m: Market, m1: Market, now: nat, cur: Asset, k: Id)
    requires WellFormed(m) && IsNext(m, From(m, cur), k) && Dealt(m, m1, k) && !Stuck(m, now, k)
    requires forall j :: j in From(m1, m.settles[k].asset) ==> !Stuck(m1, now, j)
    ensures forall j :: j in From(m, cur) ==> !Stuck(m, now, j)
  {
    forall j | j in From(m, cur) ensures !Stuck(m, now, j) {
      if Stuck(m, now, j) {
        assert Precedes(m.settles[k], k, m.settles[j], j);
        StaysStuck(m, m1, now, k, j, m.settles[k].asset);
      }
    }
  }

  /** Nothing is stuck in an asset whose first request is passed over. */
  lemma NoneStuckBehind(m: Market, now: nat, cur: Asset, k: Id)
    requires IsNext(m, From(m, cur), k) && Bit(m, m.settles[k].asset).Some? && Consider(m, k, now).Skip?
    requires forall j :: j in From(m, m.settles[k].asset + 1) ==> !Stuck(m, now, j)
    ensures forall j :: j in From(m, cur) ==> !Stuck(m, now, j)
  {
    forall j | j in From(m, cur) ensures !Stuck(m, now, j) {
      assert Precedes(m.settles[k], k, m.settles[j], j);
      assert m.settles[j].asset > m.settles[k].asset ==> j in From(m, m.settles[k].asset + 1);
    }
  }

  /** The rest of an asset's requests waits when its first one does. */
  lemma SkippedWaits(m: Market, m': Market, now: nat, cur: Asset, k: Id)
    requires WellFormed(m) && IsNext(m, From(m, cur), k) && Bit(m, m.settles[k].asset).Some? && Consider(m, k, now).Skip?
    requires Cleared(m, m', now, m.settles[k].asset + 1)
    ensures Cleared(m, m', now, cur)
  {
    var a := m.settles[k].asset;
    assert VolumeGrown(m, m', a);
    forall j | j in m'.settles && m'.settles[j].asset >= cur ensures Waits(m', now, j) {
      assert j in m.settles && SameRequest(m.settles[j], m'.settles[j]);
      assert j in From(m, cur);
      assert Precedes(m.settles[k], k, m.settles[j], j);
      if m.settles[j].asset == a { WaitsBehind(m, m', now, k, j); }
    }
  }

  lemma WaitsBehind(m: Market, m': Market, now: nat, k: Id, j: Id)
    requires k in m.settles && j in m.settles && j in m'.settles && SameRequest(m.settles[j], m'.settles[j])
    requires m.settles[j].asset == m.settles[k].asset && Precedes(m.settles[k], k, m.settles[j], j)
    requires VolumeGrown(m, m', m.settles[k].asset) && Consider(m, k, now).Skip?
    ensures Waits(m', now, j)
  {}

  lemma NothingToClear(m: Market, now: nat, cur: Asset)
    requires Sound.Sound(m) && From(m, cur) == {}
    ensures Cleared(m, m, now, cur) && RunBy(m, m, now, cur)
  {
    NoTurn(m, now, cur);
    forall k | k in m.settles ensures m.settles[k].asset < cur { assert k !in From(m, cur); }
    forall x | x in m.assets && Bit(m, x).Some? ensures VolumeGrown(m, m, x) {}
  }

  lemma CancelDeals(m: Market, k: Id)
    requires Sound.Sound(m) && k in m.settles
    ensures Dealt(m, CancelSettle(m, k), k) && k !in CancelSettle(m, k).settles
  {
    CancelSettleSound(m, k);
    CancelSettleKeeps(m, k);
  }

  lemma SkippedClearing(m: Market, now: nat, cur: Asset, k: Id, r: Option<Market>)
    requires WellFormed(m) && IsNext(m, From(m, cur), k) && Bit(m, m.settles[k].asset).Some? && Consider(m, k, now).Skip?
    requires GoodClearing(m, r, now, m.settles[k].asset + 1) && TurnOf(m, m, now, cur, k, m.settles[k].asset + 1)
    ensures GoodClearing(m, r, now, cur)
  {
    if r.Some? {
      OneMoreTurn(m, m, r.value, now, cur, m.settles[k].asset + 1);
      SkippedWaits(m, r.value, now, cur, k);
      NoneStuckBehind(m, now, cur, k);
    } else {
      var j :| j in From(m, m.settles[k].asset + 1) && (Stuck(m, now, j) || Exposed(m, now, j));
      assert j in From(m, cur);
    }
  }

  // ----- why it ends --------------------------------------------------------------------------------

  /** Whether the run would still serve the first request. */
  ghost predicate Open(m: Market, a: Asset) {
    From(m, a) != {} &&
    var x := m.settles[NextRequest(m, From(m, a))].asset;
    Bit(m, x).Some? && !Full(m, x)
  }

  lemma FewerLeft(m: Market, m': Market, cur: Asset, a: Asset, k: Id)
    requires m'.settles.Keys <= m.settles.Keys && k in From(m, cur) && a >= cur
    requires forall j :: j in m'.settles ==> m'.settles[j].asset == m.settles[j].asset
    requires k !in From(m', a)
    ensures From(m', a) < From(m, cur)
  {}

  /** A request that is still there after it was served is skipped the next time. */
  lemma SkippedNext(m: Market, m': Market, cur: Asset, k: Id)
    requires IsNext(m, From(m, cur), k) && Dealt(m, m', k) && k in m'.settles
    requires Bit(m', m.settles[k].asset).Some? && Full(m', m.settles[k].asset)
    ensures From(m', m.settles[k].asset) == From(m, cur) && !Open(m', m.settles[k].asset)
  {
    var a := m.settles[k].asset;
    forall j ensures j in From(m', a) <==> j in From(m, cur) {
      if j in From(m, cur) {
        assert Precedes(m.settles[k], k, m.settles[j], j);
        if j != k { assert m'.settles[j] == m.settles[j]; }
      }
    }
    var n := NextRequest(m', From(m', a));
    assert k in From(m', a);
    assert Precedes(m'.settles[n], n, m'.settles[k], k);
  }

  /** Serving a request either removes it or closes its asset. */
  lemma ServedNext(m: Market, m': Market, cur: Asset, k: Id)
    requires IsNext(m, From(m, cur), k) && Dealt(m, m', k) && Open(m, cur)
    requires k in m'.settles ==> Bit(m', m.settles[k].asset).Some? && Full(m', m.settles[k].asset)
    ensures From(m', m.settles[k].asset) <= From(m, cur)
    ensures From(m', m.settles[k].asset) == From(m, cur) ==> !Open(m', m.settles[k].asset)
  {
    if k in m'.settles {
      SkippedNext(m, m', cur, k);
    } else {
      FewerLeft(m, m', cur, m.settles[k].asset, k);
    }
  }

  lemma GoodLater(m: Market, m1: Market, now: nat, cur: Asset, k: Id, r: Option<Market>)
    requires WellFormed(m) && IsNext(m, From(m, cur), k) && DueBy(m, now, k) && Dealt(m, m1, k) && !Stuck(m, now, k)
    requires GoodClearing(m1, r, now, m.settles[k].asset) && TurnOf(m, m1, now, cur, k, m.settles[k].asset)
    ensures GoodClearing(m, r, now, cur)
  {
    if r.Some? {
      OneMoreTurn(m, m1, r.value, now, cur, m.settles[k].asset);
      ClearedLater(m, m1, r.value, now, cur, k);
      NoneStuck(m, m1, now, cur, k);
    } else {
      FailedLater(m, m1, now, cur, k);
    }
  }

  /** However the run goes on from here, it has been a good one from there. */
  ghost predicate TurnLeads(m: Market, m': Market, now: nat, cur: Asset, next: Asset) {
    forall r :: GoodClearing(m', r, now, next) ==> GoodClearing(m, r, now, cur)
  }

  lemma LeadsTwice(m: Market, m1: Market, m2: Market, now: nat, a: Asset, b: Asset, c: Asset)
    requires TurnLeads(m, m1, now, a, b) && TurnLeads(m1, m2, now, b, c)
    ensures TurnLeads(m, m2, now, a, c)
  {
    forall r | GoodClearing(m2, r, now, c) ensures GoodClearing(m, r, now, a) {
      assert GoodClearing(m1, r, now, b);
    }
  }

  lemma DealtLeads(m: Market, m': Market, now: nat, cur: Asset, k: Id)
    requires WellFormed(m) && IsNext(m, From(m, cur), k) && DueBy(m, now, k) && Dealt(m, m', k) && !Stuck(m, now, k)
    requires TurnOf(m, m', now, cur, k, m.settles[k].asset)
    ensures TurnLeads(m, m', now, cur, m.settles[k].asset)
  {
    forall r | GoodClearing(m', r, now, m.settles[k].asset) ensures GoodClearing(m, r, now, cur) {
      GoodLater(m, m', now, cur, k, r);
    }
  }

  lemma SkipLeads(m: Market, now: nat, cur: Asset, k: Id)
    requires WellFormed(m) && IsNext(m, From(m, cur), k) && Bit(m, m.settles[k].asset).Some? && Consider(m, k, now).Skip?
    requires TurnOf(m, m, now, cur, k, m.settles[k].asset + 1)
    ensures TurnLeads(m, m, now, cur, m.settles[k].asset + 1)
    ensures From(m, m.settles[k].asset + 1) < From(m, cur)
  {
    forall r | GoodClearing(m, r, now, m.settles[k].asset + 1) ensures GoodClearing(m, r, now, cur) {
      SkippedClearing(m, now, cur, k, r);
    }
    FewerLeft(m, m, cur, m.settles[k].asset + 1, k);
  }

  /** Whether the run would serve the request it comes to. */
  lemma FirstOpen(m: Market, cur: Asset, k: Id)
    requires IsNext(m, From(m, cur), k) && Bit(m, m.settles[k].asset).Some?
    ensures Open(m, cur) <==> !Full(m, m.settles[k].asset)
  {
    NextUnique(m, From(m, cur), k, NextRequest(m, From(m, cur)));
  }

  /** A turn of the run: it goes on from here as from there, and there is less to do. */
  ghost predicate GoodTurn(m: Market, m': Market, now: nat, cur: Asset, next: Asset) {
    && Sound.Sound(m') && TurnLeads(m, m', now, cur, next)
    && From(m', next) <= From(m, cur) && (From(m', next) == From(m, cur) ==> Open(m, cur) && !Open(m', next))
  }

  lemma CancelTurn(m: Market, now: nat, cur: Asset, k: Id)
    requires Sound.Sound(m) && IsNext(m, From(m, cur), k) && Bit(m, m.settles[k].asset).Some? && Consider(m, k, now).Cancel?
    ensures GoodTurn(m, CancelSettle(m, k), now, cur, m.settles[k].asset)
  {
    CancelDeals(m, k);
    CancelIsTurn(m, now, cur, k);
    FewerLeft(m, CancelSettle(m, k), cur, m.settles[k].asset, k);
    DealtLeads(m, CancelSettle(m, k), now, cur, k);
  }

  lemma SkipTurn(m: Market, now: nat, cur: Asset, k: Id, next: Asset)
    requires Sound.Sound(m) && IsNext(m, From(m, cur), k) && Bit(m, m.settles[k].asset).Some? && Consider(m, k, now).Skip?
    requires next == m.settles[k].asset + 1
    ensures GoodTurn(m, m, now, cur, next)
  {
    SkipIsTurn(m, now, cur, k);
    SkipLeads(m, now, cur, k);
  }

  /** A request has been served, and is gone or fills its asset's volume. */
  lemma SettleTurn(m: Market, m': Market, now: nat, cur: Asset, k: Id)
    requires Sound.Sound(m) && IsNext(m, From(m, cur), k) && Bit(m, m.settles[k].asset).Some? && Consider(m, k, now).Settle?
    requires Dealt(m, m', k) && Dealing(m, m', k) && !Stuck(m, now, k)
    requires k in m'.settles ==> Bit(m', m.settles[k].asset).Some? && Full(m', m.settles[k].asset)
    ensures GoodTurn(m, m', now, cur, m.settles[k].asset)
  {
    FirstOpen(m, cur, k);
    ServedNext(m, m', cur, k);
    SettleIsTurn(m, m', now, cur, k);
    DealtLeads(m, m', now, cur, k);
  }

  /** It blocks the run. */
  lemma BlockTurn(m: Market, now: nat, cur: Asset, k: Id)
    requires Sound.Sound(m) && IsNext(m, From(m, cur), k) && Bit(m, m.settles[k].asset).Some? && Consider(m, k, now).Settle?
    requires m.settles[k].balance > 0 && (Askew(m, m.settles[k].asset) || Faint(m, m.settles[k].asset))
    ensures GoodClearing(m, None, now, cur)
  {
    assert k in From(m, cur) && (Stuck(m, now, k) || Exposed(m, now, k));
  }

  /** The first request is cancelled, passed over with the rest of its asset, or served, unless it blocks the run.
      Moving on to the next asset is going on from the number after this one. */
  ghost function ClearTurn(m: Market, now: nat, cur: Asset): (r: Option<(Market, Asset)>)
    requires Sound.Sound(m) && From(m, cur) != {}
    ensures match r
      case None => GoodClearing(m, None, now, cur)
      case Some((m', next)) => GoodTurn(m, m', now, cur, next)
  {
    var k := NextRequest(m, From(m, cur));
    assert SettleOk(m, m.settles[k]);
    match Consider(m, k, now)
    case Cancel => CancelNext(m, now, cur, k)
    case Skip => SkipNext(m, now, cur, k)
    case Settle => SettleNext(m, now, cur, k)
  }

  ghost function CancelNext(m: Market, now: nat, cur: Asset, k: Id): (r: Option<(Market, Asset)>)
    requires Sound.Sound(m) && IsNext(m, From(m, cur), k) && Bit(m, m.settles[k].asset).Some? && Consider(m, k, now).Cancel?
    ensures r.Some? && GoodTurn(m, r.value.0, now, cur, r.value.1)
  {
    CancelTurn(m, now, cur, k);
    Some((CancelSettle(m, k), m.settles[k].asset))
  }

  ghost function SkipNext(m: Market, now: nat, cur: Asset, k: Id): (r: Option<(Market, Asset)>)
    requires Sound.Sound(m) && IsNext(m, From(m, cur), k) && Bit(m, m.settles[k].asset).Some? && Consider(m, k, now).Skip?
    ensures r.Some? && GoodTurn(m, r.value.0, now, cur, r.value.1)
  {
    var next := m.settles[k].asset + 1;
    SkipTurn(m, now, cur, k, next);
    Some((m, next))
  }

  ghost function SettleNext(m: Market, now: nat, cur: Asset, k: Id): (r: Option<(Market, Asset)>)
    requires Sound.Sound(m) && IsNext(m, From(m, cur), k) && Bit(m, m.settles[k].asset).Some? && Consider(m, k, now).Settle?
    ensures match r
      case None => GoodClearing(m, None, now, cur)
      case Some((m', next)) => GoodTurn(m, m', now, cur, next)
  {
    SettleOneDeals(m, k);
    match SettleOne(m, k)
    case None =>
      BlockTurn(m, now, cur, k);
      None
    case Some(m') =>
      SettleTurn(m, m', now, cur, k);
      Some((m', m.settles[k].asset))
  }

  ghost function ClearFrom(m: Market, now: nat, cur: Asset): (r: Option<Market>)
    requires Sound.Sound(m)
    ensures GoodClearing(m, r, now, cur)
    decreases From(m, cur), Open(m, cur)
  {
    if From(m, cur) == {} then
      NothingToClear(m, now, cur);
      Some(m)
    else
      match ClearTurn(m, now, cur)
      case None => None
      case Some((m', next)) => ClearFrom(m', now, next)
  }
}
