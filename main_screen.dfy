/** `MainScreenViewModel`: the snapshot of all coins, the merge of streamed price
    updates into it, and the small state machine that loads the snapshot, opens
    the update stream, notices its end and reconnects when the network returns.
    Each coroutine body (or the part of it up to a suspension point) is one
    atomic event-handler method. */
module MainScreen {
  import opened Wrappers
  import opened Coins
  import opened LineGraph

  datatype UpdatesState = Connected | Disconnected

  datatype CoinsState = Loading | LoadingFailed | Downloaded(coins: seq<Coin>)

  datatype MainScreenState = MainScreenState(
    coinsState: CoinsState,
    updatesState: UpdatesState,
    lineGraphData: Option<LineGraphData>)

  /** A launched coroutine job: running until cancelled. */
  datatype JobState = Running | Cancelled

  /** The one coin whose prices feed the chart. */
  const Bitcoin: string := "bitcoin"

  /** The names of `coins`, in order. */
  function Names(coins: seq<Coin>): (ns: seq<string>)
    ensures |ns| == |coins|
    ensures forall i :: 0 <= i < |coins| ==> ns[i] == coins[i].name
  {
    seq(|coins|, i requires 0 <= i < |coins| => coins[i].name)
  }

  /** Some coin of `coins` is named `name`. */
  ghost predicate HasName(coins: seq<Coin>, name: string)
  {
    exists i :: 0 <= i < |coins| && coins[i].name == name
  }

  /** Kotlin's `indexOfFirst { it.name == name }`: the first position holding
      `name`, or -1 when there is none. */
  function IndexOfFirst(coins: seq<Coin>, name: string): (r: int)
    ensures -1 <= r < |coins|
    ensures r == -1 <==> !HasName(coins, name)
    ensures r >= 0 ==> coins[r].name == name && forall i :: 0 <= i < r ==> coins[i].name != name
    decreases |coins|
  {
    if coins == [] then -1
    else if coins[0].name == name then 0
    else
      var k := IndexOfFirst(coins[1..], name);
      if k == -1 then -1 else k + 1
  }

  /** The first position only depends on the names. */
  lemma IndexOfFirstByNames(a: seq<Coin>, b: seq<Coin>, name: string)
    requires Names(a) == Names(b)
    ensures IndexOfFirst(a, name) == IndexOfFirst(b, name)
  {
    var i, j := IndexOfFirst(a, name), IndexOfFirst(b, name);
    assert |a| == |b|;
    if i >= 0 && j >= 0 {
      assert a[j].name == Names(b)[j];
      assert b[i].name == Names(a)[i];
    }
  }

  /** One iteration of the update loop: `allCoins[indexOfFirst(..)] = coin`. */
  function MergeOne(coins: seq<Coin>, coin: Coin): (r: seq<Coin>)
    requires HasName(coins, coin.name)
    ensures Names(r) == Names(coins)
  {
    coins[IndexOfFirst(coins, coin.name) := coin]
  }

  /** All names of `updates` are already present in `coins`. */
  ghost predicate AllKnown(coins: seq<Coin>, updates: seq<Coin>)
  {
    forall j :: 0 <= j < |updates| ==> HasName(coins, updates[j].name)
  }

  /** Dropping the last update keeps the rest known. */
  lemma AllKnownInit(coins: seq<Coin>, updates: seq<Coin>)
    requires updates != [] && AllKnown(coins, updates)
    ensures AllKnown(coins, updates[..|updates| - 1])
  {
    var init := updates[..|updates| - 1];
    forall j | 0 <= j < |init| ensures HasName(coins, init[j].name) { assert init[j] == updates[j]; }
  }

  /** The snapshot after the updates are applied one by one, in list order. */
  function Merged(coins: seq<Coin>, updates: seq<Coin>): (r: seq<Coin>)
    requires AllKnown(coins, updates)
    ensures Names(r) == Names(coins)
    decreases |updates|
  {
    if updates == [] then coins
    else
      var init := updates[..|updates| - 1];
      AllKnownInit(coins, updates);
      var prev, u := Merged(coins, init), updates[|updates| - 1];
      IndexOfFirstByNames(prev, coins, u.name);
      MergeOne(prev, u)
  }

  /** How many leading updates name a coin already present: the loop gets this far
      before `indexOfFirst` returns -1 and the write at -1 throws. */
  function KnownPrefix(coins: seq<Coin>, updates: seq<Coin>): (k: nat)
    ensures k <= |updates|
    ensures AllKnown(coins, updates[..k])
    ensures k < |updates| ==> !HasName(coins, updates[k].name)
    decreases |updates|
  {
    if updates == [] || IndexOfFirst(coins, updates[0].name) == -1 then 0
    else
      var k := KnownPrefix(coins, updates[1..]);
      var pre := updates[..k + 1];
      assert AllKnown(coins, pre) by {
        forall j | 0 <= j < |pre| ensures HasName(coins, pre[j].name) {
          if j > 0 { assert pre[j] == updates[1..][..k][j - 1]; }
        }
      }
      k + 1
  }

  /** Below KnownPrefix every update is known; at it, the update is unknown. */
  lemma KnownPrefixAt(coins: seq<Coin>, updates: seq<Coin>, i: nat)
    requires i <= KnownPrefix(coins, updates) && i < |updates|
    ensures HasName(coins, updates[i].name) <==> i < KnownPrefix(coins, updates)
  {
    var k := KnownPrefix(coins, updates);
    if i < k {
      assert updates[..k][i] == updates[i];
    }
  }

  /** The last update carrying `name`, if any. */
  function LastFor(updates: seq<Coin>, name: string): Option<Coin>
    decreases |updates|
  {
    if updates == [] then None
    else if updates[|updates| - 1].name == name then Some(updates[|updates| - 1])
    else LastFor(updates[..|updates| - 1], name)
  }

  /** What one update sends to `savePrice`: its price when it is a bitcoin update. */
  function Sent(u: Coin): seq<real>
  {
    if u.name == Bitcoin then [u.price] else []
  }

  /** The prices of the bitcoin updates, in order: what reaches `savePrice`. */
  function BitcoinPrices(updates: seq<Coin>): seq<real>
    decreases |updates|
  {
    if updates == [] then []
    else
      var u := updates[|updates| - 1];
      BitcoinPrices(updates[..|updates| - 1]) + Sent(u)
  }

  /** One more known update keeps the prefix known. */
  lemma AllKnownStep(coins: seq<Coin>, updates: seq<Coin>, i: nat)
    requires i < |updates| && AllKnown(coins, updates[..i]) && HasName(coins, updates[i].name)
    ensures AllKnown(coins, updates[..i + 1])
  {
    var pre := updates[..i + 1];
    forall j | 0 <= j < |pre| ensures HasName(coins, pre[j].name) {
      if j < i { assert pre[j] == updates[..i][j]; }
    }
  }

  /** One more update applied, as the loop in `updatePrices` does it. */
  lemma MergeStep(coins: seq<Coin>, updates: seq<Coin>, i: nat)
    requires i < |updates| && AllKnown(coins, updates[..i + 1])
    ensures AllKnown(coins, updates[..i])
    ensures Merged(coins, updates[..i + 1]) == MergeOne(Merged(coins, updates[..i]), updates[i])
  {
    assert updates[..i + 1][..i] == updates[..i];
  }

  /** One more update reaches `savePrice` exactly when it is a bitcoin update. */
  lemma BitcoinStep(updates: seq<Coin>, i: nat)
    requires i < |updates|
    ensures BitcoinPrices(updates[..i + 1]) == BitcoinPrices(updates[..i]) + Sent(updates[i])
  {
    assert updates[..i + 1][..i] == updates[..i];
  }

  /** One iteration of `updatePrices` on the merge so far, when `indexOfFirst`
      finds the name: the update is within the known prefix, and writing it at
      that index gives the merge of one more update. */
  lemma UpdateStep(coins: seq<Coin>, updates: seq<Coin>, i: nat, current: seq<Coin>)
    requires i < |updates| && i <= KnownPrefix(coins, updates) && AllKnown(coins, updates[..i])
    requires current == Merged(coins, updates[..i]) && IndexOfFirst(current, updates[i].name) != -1
    ensures i < KnownPrefix(coins, updates)
    ensures AllKnown(coins, updates[..i + 1])
    ensures Merged(coins, updates[..i + 1]) == current[IndexOfFirst(current, updates[i].name) := updates[i]]
  {
    KnownPrefixAt(coins, updates, i);
    AllKnownStep(coins, updates, i);
    MergeStep(coins, updates, i);
  }

  /** The iteration where `indexOfFirst` returns -1: the known prefix ends here,
      and not every update is known. */
  lemma UpdateStops(coins: seq<Coin>, updates: seq<Coin>, i: nat, current: seq<Coin>)
    requires i < |updates| && i <= KnownPrefix(coins, updates) && AllKnown(coins, updates[..i])
    requires current == Merged(coins, updates[..i]) && IndexOfFirst(current, updates[i].name) == -1
    ensures i == KnownPrefix(coins, updates)
    ensures !AllKnown(coins, updates)
  {
    KnownPrefixAt(coins, updates, i);
  }

  /** One iteration of `updatePrices` on the chart history: a history holding the
      prices sent by the first i updates, plus what update i sends, holds the
      prices sent by the first i + 1. */
  lemma HistoryStep(h: seq<real>, saved: seq<real>, updates: seq<Coin>, i: nat)
    requires i < |updates| && h == saved + BitcoinPrices(updates[..i])
    ensures h + Sent(updates[i]) == saved + BitcoinPrices(updates[..i + 1])
  {
    BitcoinStep(updates, i);
    AppendAssoc(saved, BitcoinPrices(updates[..i]), Sent(updates[i]));
  }

  /** The merge, entry by entry: the length and the names never change; the first
      entry of each name takes the LAST update for that name (later repeats win),
      and every other entry, including names the update does not mention, keeps
      its old value. */
  lemma {:induction false} MergedAt(coins: seq<Coin>, updates: seq<Coin>, i: int)
    requires AllKnown(coins, updates) && 0 <= i < |coins|
    ensures |Merged(coins, updates)| == |coins|
    ensures Merged(coins, updates)[i] ==
      if i == IndexOfFirst(coins, coins[i].name) && LastFor(updates, coins[i].name).Some?
      then LastFor(updates, coins[i].name).value
      else coins[i]
    decreases |updates|
  {
    if updates != [] {
      var init, u := updates[..|updates| - 1], updates[|updates| - 1];
      AllKnownInit(coins, updates);
      var prev := Merged(coins, init);
      MergedAt(coins, init, i);
      IndexOfFirstByNames(prev, coins, u.name);
      IndexOfFirstByNames(prev, coins, coins[i].name);
      assert Names(prev)[i] == Names(coins)[i];
    }
  }

  /** `updatePrices` never grows or reorders the snapshot: the names stay as they are. */
  lemma MergedKeepsNames(coins: seq<Coin>, updates: seq<Coin>)
    requires AllKnown(coins, updates)
    ensures |Merged(coins, updates)| == |coins|
    ensures forall i :: 0 <= i < |coins| ==> Merged(coins, updates)[i].name == coins[i].name
  {
    var r := Merged(coins, updates);
    assert Names(r) == Names(coins);
    forall i | 0 <= i < |coins| ensures r[i].name == coins[i].name {
      assert Names(r)[i] == Names(coins)[i];
    }
  }

  /** Only bitcoin updates reach the chart, all of them, in order. */
  lemma {:induction false} BitcoinPricesAppend(a: seq<Coin>, b: seq<Coin>)
    ensures BitcoinPrices(a + b) == BitcoinPrices(a) + BitcoinPrices(b)
    decreases |b|
  {
    if b == [] {
      assert a + b == a;
    } else {
      var init, last := b[..|b| - 1], b[|b| - 1];
      BitcoinPricesAppend(a, init);
      SplitLast(b);
      AppendAssoc(a, init, [last]);
      BitcoinPricesSnoc(a + init, last);
      AppendAssoc(BitcoinPrices(a), BitcoinPrices(init), Sent(last));
    }
  }

  /** Sequence identity stated once, so callers prove it cheaply. */
  lemma SplitLast<T>(s: seq<T>)
    requires s != []
    ensures s == s[..|s| - 1] + [s[|s| - 1]]
  {
  }

  /** Sequence identity stated once, so callers prove it cheaply. */
  lemma AppendAssoc<T>(x: seq<T>, y: seq<T>, z: seq<T>)
    ensures x + (y + z) == x + y + z
  {
  }

  /** One update more at the end sends what that update sends. */
  lemma BitcoinPricesSnoc(s: seq<Coin>, c: Coin)
    ensures BitcoinPrices(s + [c]) == BitcoinPrices(s) + Sent(c)
  {
    assert (s + [c])[..|s|] == s;
  }

  lemma BitcoinPricesOne(c: Coin)
    ensures BitcoinPrices([c]) == Sent(c)
  {
    assert [c][..0] == [];
  }

  /** The view model; `networkReconnectionCallback` and `graphLineCalculationJob`
      keep only what is observable of them: whether the callback exists, and
      whether the current chart job runs. */
  class MainScreenViewModel {
    var coinsState: CoinsState
    var updatesState: UpdatesState
    var lineGraphData: Option<LineGraphData>
    var allCoins: seq<Coin>
    const lineGraphManager: LineGraphManager
    /** `networkReconnectionCallback != null`. */
    var networkReconnectionCallback: bool
    /** `graphLineCalculationJob`: none yet, or the last job launched. */
    var graphLineCalculationJob: Option<JobState>
    /** Update streams whose collection has started and not yet ended. */
    var openStreams: nat
    /** Set once `onCleared` ran: the view model's scope is gone. */
    var cleared: bool
    /** Whether `onCleared` unregistered a callback; nothing else ever does. */
    ghost var callbackUnregistered: bool
    /** How many chart jobs are running, and how many times a network callback was
        registered with the platform, over the view model's life. */
    ghost var runningGraphJobs: nat
    ghost var callbackRegistrations: nat

    ghost function State(): MainScreenState
      reads this
    {
      MainScreenState(coinsState, updatesState, lineGraphData)
    }

    ghost predicate GraphJobRunning()
      reads this`graphLineCalculationJob
    {
      graphLineCalculationJob == Some(Running)
    }

    /** The chart window matches its history and the view model's own fields agree. */
    ghost predicate Valid()
      reads this, lineGraphManager
    {
      lineGraphManager.Valid() && Coherent()
    }

    /** At most one chart job runs, and it is the current one; it runs exactly
        while the state says Connected, which needs an open stream; the network
        callback is registered at most once and stays. */
    ghost predicate Coherent()
      reads this`runningGraphJobs, this`graphLineCalculationJob, this`updatesState, this`openStreams,
            this`callbackRegistrations, this`networkReconnectionCallback
    {
      && runningGraphJobs == (if GraphJobRunning() then 1 else 0)
      && (updatesState == Connected <==> GraphJobRunning())
      && (updatesState == Connected ==> openStreams > 0)
      && callbackRegistrations == (if networkReconnectionCallback then 1 else 0)
    }

    /** `createDefaultState` and the field initialisers. `init` then calls
        `loadAllCoins`, whose coroutine runs as the events below. */
    constructor ()
      ensures Valid() && !cleared
      ensures State() == MainScreenState(Loading, Disconnected, None)
      ensures allCoins == [] && !networkReconnectionCallback && graphLineCalculationJob == None
      ensures !callbackUnregistered
      ensures openStreams == 0 && callbackRegistrations == 0
      ensures fresh(lineGraphManager) && lineGraphManager.history == []
    {
      coinsState := Loading;
      updatesState := Disconnected;
      lineGraphData := None;
      allCoins := [];
      lineGraphManager := new LineGraphManager();
      networkReconnectionCallback := false;
      graphLineCalculationJob := None;
      openStreams := 0;
      cleared := false;
      callbackUnregistered := false;
      runningGraphJobs := 0;
      callbackRegistrations := 0;
    }

    /** `loadAllCoins` (from `init` or `retryFirstLoading`), up to the fetch. */
    method LoadAllCoins()
      requires Valid() && !cleared
      modifies this`coinsState
      ensures Valid()
      ensures coinsState == Loading
    {
      coinsState := Loading;
    }

    /** The rest of `loadAllCoins`, once the fetch returns: a null result means
        LoadingFailed and nothing else changes; otherwise the coins are APPENDED to
        `allCoins`, the state shows them and the update stream is opened. */
    method AllCoinsFetched(coins: Option<seq<Coin>>)
      requires Valid() && !cleared
      modifies this, lineGraphManager
      ensures Valid() && !cleared
      ensures lineGraphManager.history == old(lineGraphManager.history)
      ensures networkReconnectionCallback == old(networkReconnectionCallback)
      ensures lineGraphData == old(lineGraphData)
      ensures coins.None? ==>
        && coinsState == LoadingFailed
        && allCoins == old(allCoins)
        && updatesState == old(updatesState)
        && graphLineCalculationJob == old(graphLineCalculationJob)
        && openStreams == old(openStreams)
      ensures coins.Some? ==>
        && allCoins == old(allCoins) + coins.value
        && coinsState == Downloaded(allCoins)
        && updatesState == Connected && GraphJobRunning()
        && openStreams == old(openStreams) + 1
    {
      if coins.None? {
        coinsState := LoadingFailed;
        return;
      }
      allCoins := allCoins + coins.value;
      coinsState := Downloaded(allCoins);
      CreateUpdatesConnection();
    }

    /** `startLineGraphCalculations`: cancel the current chart job, if any, and
        launch a new one. */
    method StartLineGraphCalculations()
      requires Valid()
      modifies this`graphLineCalculationJob, this`runningGraphJobs
      ensures graphLineCalculationJob == Some(Running) && runningGraphJobs == 1
    {
      if graphLineCalculationJob == Some(Running) {
        graphLineCalculationJob := Some(Cancelled);
        runningGraphJobs := runningGraphJobs - 1;
      }
      graphLineCalculationJob := Some(Running);
      runningGraphJobs := runningGraphJobs + 1;
    }

    /** `createUpdatesConnection` (also `recreateUpdatesConnection`): restart the
        chart job, then the launched coroutine marks the state Connected and starts
        collecting the stream. */
    method CreateUpdatesConnection()
      requires Valid()
      modifies this`graphLineCalculationJob, this`runningGraphJobs, this`updatesState, this`openStreams
      ensures Valid()
      ensures updatesState == Connected && GraphJobRunning() && runningGraphJobs == 1
      ensures openStreams == old(openStreams) + 1
    {
      StartLineGraphCalculations();
      updatesState := Connected;
      openStreams := openStreams + 1;
    }

    /** `updatePrices`: each update, in list order, overwrites the first entry with
        its name, and bitcoin updates go to `savePrice`. An update whose name is
        missing makes `indexOfFirst` return -1 and the write throw: the updates
        before it are applied, the rest are not, and `ok` is false. */
    method UpdatePrices(newCoinPrices: seq<Coin>) returns (ok: bool)
      requires lineGraphManager.Valid()
      modifies this`allCoins, lineGraphManager
      ensures lineGraphManager.Valid()
      ensures ok <==> AllKnown(old(allCoins), newCoinPrices)
      ensures var applied := newCoinPrices[..KnownPrefix(old(allCoins), newCoinPrices)];
        && allCoins == Merged(old(allCoins), applied)
        && lineGraphManager.history == old(lineGraphManager.history) + BitcoinPrices(applied)
    {
      var i := 0;
      ghost var known := KnownPrefix(old(allCoins), newCoinPrices);
      ghost var saved := lineGraphManager.history;
      while i < |newCoinPrices|
        invariant 0 <= i <= known
        invariant AllKnown(old(allCoins), newCoinPrices[..i])
        invariant allCoins == Merged(old(allCoins), newCoinPrices[..i])
        invariant lineGraphManager.Valid()
        invariant lineGraphManager.history == saved + BitcoinPrices(newCoinPrices[..i])
      {
        var coin := newCoinPrices[i];
        var index := IndexOfFirst(allCoins, coin.name);
        if index == -1 {
          UpdateStops(old(allCoins), newCoinPrices, i, allCoins);
          assert i == known;
          return false;
        }
        UpdateStep(old(allCoins), newCoinPrices, i, allCoins);
        HistoryStep(lineGraphManager.history, saved, newCoinPrices, i);
        WriteUpdate(index, coin);
        i := i + 1;
      }
      assert i == known == |newCoinPrices|;
      assert newCoinPrices[..i] == newCoinPrices;
      return true;
    }

    /** The body of the loop in `updatePrices` once the index is found: the write,
        and for bitcoin the save into the chart window. */
    method WriteUpdate(index: int, coin: Coin)
      requires lineGraphManager.Valid() && 0 <= index < |allCoins|
      modifies this`allCoins, lineGraphManager
      ensures lineGraphManager.Valid()
      ensures allCoins == old(allCoins)[index := coin]
      ensures lineGraphManager.history == old(lineGraphManager.history) + Sent(coin)
    {
      allCoins := allCoins[index := coin];
      if coin.name == Bitcoin {
        lineGraphManager.SavePrice(coin.price);
      }
    }

    /** One message collected from the stream: merge it, then publish the snapshot.
        When the merge throws, the snapshot is not republished and `ok` is false. */
    method PricesReceived(newPrices: seq<Coin>) returns (ok: bool)
      requires Valid() && !cleared && openStreams > 0
      modifies this`allCoins, this`coinsState, lineGraphManager
      ensures Valid()
      ensures ok <==> AllKnown(old(allCoins), newPrices)
      ensures var applied := newPrices[..KnownPrefix(old(allCoins), newPrices)];
        && allCoins == Merged(old(allCoins), applied)
        && lineGraphManager.history == old(lineGraphManager.history) + BitcoinPrices(applied)
      ensures coinsState == if ok then Downloaded(allCoins) else old(coinsState)
    {
      ok := UpdatePrices(newPrices);
      if ok {
        coinsState := Downloaded(allCoins);
      }
    }

    /** One tick of the running chart job: publish the window's chart data. */
    method GraphTick()
      requires Valid() && !cleared && GraphJobRunning()
      modifies this`lineGraphData
      ensures Valid()
      ensures lineGraphData == Some(GraphData(lineGraphManager.State()))
    {
      var data := lineGraphManager.CalculateGraphData();
      lineGraphData := Some(data);
    }

    /** The stream ended (server close, error, decode failure, an unknown name in
        `updatePrices`, or the scope's cancellation, which the repository's
        catch-all turns into a normal end): cancel the current chart job, mark the
        state Disconnected and make sure a network callback is registered. This
        can run after `onCleared`. */
    method UpdatesStreamEnded()
      requires Valid() && openStreams > 0
      modifies this`graphLineCalculationJob, this`runningGraphJobs, this`updatesState, this`openStreams,
               this`networkReconnectionCallback, this`callbackRegistrations
      ensures Valid()
      ensures updatesState == Disconnected && !GraphJobRunning() && runningGraphJobs == 0
      ensures openStreams == old(openStreams) - 1
      ensures networkReconnectionCallback
      ensures callbackRegistrations == 1
    {
      if graphLineCalculationJob == Some(Running) {
        graphLineCalculationJob := Some(Cancelled);
        runningGraphJobs := runningGraphJobs - 1;
      }
      updatesState := Disconnected;
      openStreams := openStreams - 1;
      ReconnectWhenInternetReturn();
    }

    /** `reconnectWhenInternetReturn`: registers the callback only if none exists;
        the field is never reset, so this registers at most once. */
    method ReconnectWhenInternetReturn()
      requires callbackRegistrations == (if networkReconnectionCallback then 1 else 0)
      modifies this`networkReconnectionCallback, this`callbackRegistrations
      ensures networkReconnectionCallback && callbackRegistrations == 1
      ensures old(networkReconnectionCallback) ==> callbackRegistrations == old(callbackRegistrations)
    {
      if networkReconnectionCallback {
        return;
      }
      networkReconnectionCallback := true;
      callbackRegistrations := callbackRegistrations + 1;
    }

    /** The registered callback's `onAvailable`: reconnect. */
    method NetworkAvailable()
      requires Valid() && !cleared && networkReconnectionCallback
      modifies this`graphLineCalculationJob, this`runningGraphJobs, this`updatesState, this`openStreams
      ensures Valid()
      ensures updatesState == Connected && GraphJobRunning() && runningGraphJobs == 1
      ensures openStreams == old(openStreams) + 1
    {
      CreateUpdatesConnection();
    }

    /** `onCleared`: unregisters the callback exactly when one was created. */
    method OnCleared() returns (unregistered: bool)
      requires Valid() && !cleared
      modifies this`cleared, this`callbackUnregistered
      ensures Valid() && cleared
      ensures unregistered == networkReconnectionCallback
      ensures callbackUnregistered == networkReconnectionCallback
    {
      cleared := true;
      unregistered := networkReconnectionCallback;
      callbackUnregistered := unregistered;
    }
  }

  /** One bitcoin update on a two-coin snapshot: it is known, it replaces the
      bitcoin entry only, and its price reaches the chart. */
  lemma OneBitcoinUpdate(current: Coin, other: Coin, price: real)
    requires current.name == Bitcoin && other.name != Bitcoin
    ensures var update := [Coin(Bitcoin, price)];
      && KnownPrefix([current, other], update) == 1
      && AllKnown([current, other], update)
      && Merged([current, other], update[..1]) == [Coin(Bitcoin, price), other]
      && BitcoinPrices(update[..1]) == [price]
  {
    var coins, update := [current, other], [Coin(Bitcoin, price)];
    assert Names(coins)[0] == Bitcoin;
    assert update[..1] == update && update[1..] == [];
    assert IndexOfFirst(coins, Bitcoin) == 0;
    assert update[..0] == [];
    BitcoinPricesOne(update[0]);
  }

  /** A client of the events: the snapshot is seeded once, and a streamed price
      replaces only its own coin and reaches the chart. */
  method SeedThenUpdate() returns (vm: MainScreenViewModel)
    ensures fresh(vm) && vm.Valid() && !vm.cleared
    ensures vm.updatesState == Connected && vm.openStreams == 1
    ensures vm.allCoins == [Coin(Bitcoin, 110.0), Coin("ethereum", 50.0)]
    ensures vm.lineGraphManager.history == [110.0]
  {
    vm := new MainScreenViewModel();
    vm.LoadAllCoins();
    var bitcoin, ethereum := Coin(Bitcoin, 100.0), Coin("ethereum", 50.0);
    vm.AllCoinsFetched(Some([bitcoin, ethereum]));
    assert vm.allCoins == [bitcoin, ethereum];
    OneBitcoinUpdate(bitcoin, ethereum, 110.0);
    var ok := vm.PricesReceived([Coin(Bitcoin, 110.0)]);
  }

  /** After the stream drops, the network callback reconnects without seeding
      again: the snapshot and the chart history are kept. */
  method DropThenReconnect(vm: MainScreenViewModel)
    requires vm.Valid() && !vm.cleared && vm.openStreams > 0
    modifies vm
    ensures vm.Valid() && vm.updatesState == Connected && vm.GraphJobRunning()
    ensures vm.allCoins == old(vm.allCoins) && vm.coinsState == old(vm.coinsState)
    ensures vm.lineGraphManager.history == old(vm.lineGraphManager.history)
  {
    vm.UpdatesStreamEnded();
    vm.NetworkAvailable();
  }

  /** Teardown while a stream is open and no callback exists yet: clearing the
      scope ends the stream, whose end code then registers a callback after
      `onCleared` ran. `onCleared` runs once and nothing else unregisters, so that
      callback stays registered with the platform for good. */
  method ClearedThenStreamEnds(vm: MainScreenViewModel)
    requires vm.Valid() && !vm.cleared && !vm.networkReconnectionCallback && vm.openStreams > 0
    modifies vm
    ensures vm.Valid() && vm.cleared
    ensures vm.networkReconnectionCallback && vm.callbackRegistrations == 1
    ensures !vm.callbackUnregistered
  {
    var unregistered := vm.OnCleared();
    vm.UpdatesStreamEnded();
  }
}
