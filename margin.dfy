/** The margin-trading clients `BrokerFXAPI` and `broker_mt_api`. Their
    `get_margin_trading` and `get_assets` are the same code over the same
    enumerations (assets `BTC` and `JPY`, the one pair `FX_BTC_JPY`), so they
    are modelled once. `get_assets` folds the collateral and the open
    positions into a dictionary from currency name to `AssetInfo`. */
module Margin {
  import opened Json
  import opened Text
  import opened Broker

  /** `Asset` / `enum_asset`. */
  datatype Asset = Btc | Jpy

  function AssetValue(a: Asset): string {
    match a
    case Btc => "BTC"
    case Jpy => "JPY"
  }

  /** The asset names in declaration order. */
  const AssetNames: seq<string> := [AssetValue(Btc), AssetValue(Jpy)]

  /** The values of `TradePair` / `enum_pair`, in declaration order. */
  const MarginPairs: seq<string> := ["FX_BTC_JPY"]

  /** The fields of a `getcollateral` response. */
  datatype Collateral = Collateral(collateral: real, requireCollateral: real, keepRate: real, openPositionPnl: real)

  /** The fields of one `getpositions` entry. */
  datatype Position = Position(productCode: string, side: string, size: real)

  /** `MarginTradingInfo` / `margin_trading_info`. */
  datatype MarginTradingInfo = MarginTradingInfo(
    customerMargin: real, maintenanceMargin: real, marginRate: real, profitLoss: real)

  /** `get_margin_trading`. `response` is the collateral, or `None` when the
      request raised. */
  function GetMarginTrading(response: Option<Collateral>): (r: (bool, Option<MarginTradingInfo>))
    ensures r.0 <==> response.Some?
    ensures r.0 <==> r.1.Some?
    ensures r.0 ==> r.1.value.customerMargin == response.value.collateral &&
                    r.1.value.maintenanceMargin == response.value.requireCollateral &&
                    r.1.value.marginRate == response.value.keepRate &&
                    r.1.value.profitLoss == response.value.openPositionPnl
  {
    match response
    case None => (false, None)
    case Some(c) =>
      (true, Some(MarginTradingInfo(c.collateral, c.requireCollateral, c.keepRate, c.openPositionPnl)))
  }

  // ---------------------------------------------------------------------------
  // The fold, as functions
  // ---------------------------------------------------------------------------

  type Assets = map<string, AssetInfo>

  /** Every entry is stored under its own name and has both amounts. */
  predicate WellFormed(m: Assets) {
    forall k :: k in m ==> m[k].name == k && m[k].onhand.Some? && m[k].free.Some?
  }

  /** `product_code.split('_')[1]`, or `None` where Python raises
      `IndexError` (no `_` in the code). */
  function NameOf(code: string): (r: Option<string>)
    ensures r.None? <==> '_' !in code
  {
    var fields := Split(code, '_');
    assert '_' in code ==> |fields| >= 2 by {
      if '_' in code { SplitWithSep(code, '_'); }
    }
    assert '_' !in code ==> fields == [code] by {
      if '_' !in code { SplitNoSep(code, '_'); }
    }
    if |fields| >= 2 then Some(fields[1]) else None
  }

  /** The name is the field between the first and second `_`. */
  lemma NameOfFields(a: string, b: string, c: string)
    requires '_' !in a && '_' !in b
    ensures NameOf(a + "_" + b + "_" + c) == Some(b)
  {
    SplitFirst(a, b + "_" + c, '_');
    SplitFirst(b, c, '_');
    assert a + "_" + b + "_" + c == a + ['_'] + (b + ['_'] + c);
    assert b + "_" + c == b + ['_'] + c;
  }

  /** The margin pair's positions are counted as `BTC`. */
  lemma NameOfMarginPair()
    ensures NameOf(MarginPairs[0]) == Some(AssetValue(Btc))
  {
    NameOfFields("FX", "BTC", "JPY");
    assert "FX" + "_" + "BTC" + "_" + "JPY" == MarginPairs[0];
  }

  /** The amount a position contributes: minus its size when short. */
  function Signed(p: Position): (r: real)
    ensures p.side == "SELL" ==> r == -p.size
    ensures p.side != "SELL" ==> r == p.size
  {
    if p.side == "SELL" then p.size * -1.0 else p.size
  }

  /** The JPY entry: the collateral is held; what is required is locked. */
  function JpyAsset(c: Collateral): (a: AssetInfo)
    ensures a.name == AssetValue(Jpy)
    ensures a.onhand == Some(c.collateral)
    ensures LockedAmount(a) == Some(c.requireCollateral)
  {
    AssetInfo(AssetValue(Jpy), Some(c.collateral), Some(c.collateral - c.requireCollateral))
  }

  /** The dictionary before the positions are read. */
  function StartAssets(c: Collateral): (m: Assets)
    ensures WellFormed(m)
  {
    map[AssetValue(Jpy) := JpyAsset(c)]
  }

  /** One position's amount: a new name starts with it as both amounts; a
      known name has it added to both. */
  function AddAmount(m: Assets, name: string, amount: real): (r: Assets)
    requires WellFormed(m)
    ensures WellFormed(r) && r.Keys == m.Keys + {name}
    ensures forall k :: k in m && k != name ==> r[k] == m[k]
  {
    if name !in m then m[name := AssetInfo(name, Some(amount), Some(amount))]
    else m[name := AssetInfo(name, Some(m[name].onhand.value + amount), Some(m[name].free.value + amount))]
  }

  /** The inner loop over positions, from the front; `None` when a product
      code has no `_`. */
  function Accumulate(m: Assets, ps: seq<Position>): (r: Option<Assets>)
    requires WellFormed(m)
    ensures r.Some? ==> WellFormed(r.value) && m.Keys <= r.value.Keys
    decreases |ps|
  {
    if ps == [] then Some(m)
    else
      match NameOf(ps[0].productCode)
      case None => None
      case Some(name) => Accumulate(AddAmount(m, name, Signed(ps[0])), ps[1..])
  }

  /** The positions of every pair, in order; `None` when a request raised. */
  function Gather(pairs: seq<string>, fetch: string -> Option<seq<Position>>): Option<seq<Position>>
  {
    if pairs == [] then Some([])
    else
      match fetch(pairs[0])
      case None => None
      case Some(ps) =>
        match Gather(pairs[1..], fetch)
        case None => None
        case Some(rest) => Some(ps + rest)
  }

  /** The pair loop from a given dictionary. */
  function Continue(m: Assets, pairs: seq<string>, fetch: string -> Option<seq<Position>>): (r: Option<Assets>)
    requires WellFormed(m)
  {
    match Gather(pairs, fetch)
    case None => None
    case Some(ps) => Accumulate(m, ps)
  }

  /** The fill-in loop: a zero entry for every name not yet present. */
  function FillMissing(m: Assets, names: seq<string>): (r: Assets)
    requires WellFormed(m)
    ensures WellFormed(r)
    ensures forall k :: k in r <==> k in m || k in names
    ensures forall k :: k in m ==> r[k] == m[k]
    ensures forall k :: k in r && k !in m ==> r[k] == AssetInfo(k, Some(0.0), Some(0.0))
    decreases |names|
  {
    if names == [] then m
    else
      var next := if names[0] in m then m else m[names[0] := AssetInfo(names[0], Some(0.0), Some(0.0))];
      assert forall k :: k in names <==> k == names[0] || k in names[1..];
      FillMissing(next, names[1..])
  }

  /** What `get_assets` returns as its dictionary: `None` for `(False, None)`. */
  function AssetsOf(collateral: Option<Collateral>, fetch: string -> Option<seq<Position>>): Option<Assets> {
    match collateral
    case None => None
    case Some(c) =>
      match Continue(StartAssets(c), MarginPairs, fetch)
      case None => None
      case Some(m) => Some(FillMissing(m, AssetNames))
  }

  // ---------------------------------------------------------------------------
  // Properties of the fold
  // ---------------------------------------------------------------------------

  /** The sum of the signed amounts of the positions named `n`. */
  function Total(ps: seq<Position>, n: string): real
    decreases |ps|
  {
    if ps == [] then 0.0
    else (if NameOf(ps[0].productCode) == Some(n) then Signed(ps[0]) else 0.0) + Total(ps[1..], n)
  }

  /** A name's held amount before the positions: its entry's, or none. */
  function Base(m: Assets, n: string): real
    requires WellFormed(m)
  {
    if n in m then m[n].onhand.value else 0.0
  }

  /** The fold succeeds exactly when every product code has a `_`. */
  lemma {:induction false} AccumulateSucceeds(m: Assets, ps: seq<Position>)
    requires WellFormed(m)
    ensures Accumulate(m, ps).Some? <==> forall i :: 0 <= i < |ps| ==> '_' in ps[i].productCode
    decreases |ps|
  {
    if ps != [] {
      if '_' in ps[0].productCode {
        var name := NameOf(ps[0].productCode).value;
        AccumulateSucceeds(AddAmount(m, name, Signed(ps[0])), ps[1..]);
        assert forall i :: 1 <= i < |ps| ==> ps[i] == ps[1..][i - 1];
      }
    }
  }

  /** A name has an entry after the fold exactly when it had one before or
      some position is named after it. */
  lemma {:induction false} AccumulateKeys(m: Assets, ps: seq<Position>, n: string)
    requires WellFormed(m) && Accumulate(m, ps).Some?
    ensures n in Accumulate(m, ps).value <==>
              n in m || exists i :: 0 <= i < |ps| && NameOf(ps[i].productCode) == Some(n)
    decreases |ps|
  {
    if ps != [] {
      var name := NameOf(ps[0].productCode).value;
      var m' := AddAmount(m, name, Signed(ps[0]));
      AccumulateKeys(m', ps[1..], n);
      if (exists i :: 0 <= i < |ps| && NameOf(ps[i].productCode) == Some(n)) && n !in m && name != n {
        var i :| 0 <= i < |ps| && NameOf(ps[i].productCode) == Some(n);
        assert ps[1..][i - 1] == ps[i];
      }
      if exists i :: 0 <= i < |ps[1..]| && NameOf(ps[1..][i].productCode) == Some(n) {
        var i :| 0 <= i < |ps[1..]| && NameOf(ps[1..][i].productCode) == Some(n);
        assert ps[i + 1] == ps[1..][i];
      }
    }
  }

  /** An entry's held amount grows by the signed sizes of its positions, and
      its locked amount is what it was before (zero for a new name). */
  lemma {:induction false} AccumulateAmounts(m: Assets, ps: seq<Position>, n: string)
    requires WellFormed(m) && Accumulate(m, ps).Some? && n in Accumulate(m, ps).value
    ensures Accumulate(m, ps).value[n].onhand.value == Base(m, n) + Total(ps, n)
    ensures LockedAmount(Accumulate(m, ps).value[n]) == if n in m then LockedAmount(m[n]) else Some(0.0)
    decreases |ps|
  {
    if ps != [] {
      var name := NameOf(ps[0].productCode).value;
      var m' := AddAmount(m, name, Signed(ps[0]));
      AccumulateAmounts(m', ps[1..], n);
    }
  }

  /** Positions with the same name accumulate: a name ends with its start
      amount plus the signed sizes of its positions, held and free alike, so
      positions never lock anything. */
  lemma AccumulateTotals(m: Assets, ps: seq<Position>, n: string)
    requires WellFormed(m) && Accumulate(m, ps).Some?
    ensures var r := Accumulate(m, ps).value;
            (n in r <==> n in m || exists i :: 0 <= i < |ps| && NameOf(ps[i].productCode) == Some(n)) &&
            (n in r ==> r[n].onhand.value == Base(m, n) + Total(ps, n)) &&
            (n in r ==> LockedAmount(r[n]) == if n in m then LockedAmount(m[n]) else Some(0.0))
  {
    AccumulateKeys(m, ps, n);
    if n in Accumulate(m, ps).value {
      AccumulateAmounts(m, ps, n);
    }
  }

  /** Appending positions continues the fold from where it stopped. */
  lemma {:induction false} AccumulateAppend(m: Assets, a: seq<Position>, b: seq<Position>)
    requires WellFormed(m)
    ensures Accumulate(m, a + b) == match Accumulate(m, a)
                                    case None => None
                                    case Some(m') => Accumulate(m', b)
    decreases |a|
  {
    if a == [] {
      assert a + b == b;
    } else {
      assert (a + b)[0] == a[0] && (a + b)[1..] == a[1..] + b;
      match NameOf(a[0].productCode) {
        case None =>
        case Some(name) => AccumulateAppend(AddAmount(m, name, Signed(a[0])), a[1..], b);
      }
    }
  }

  /** One step of the pair loop. */
  lemma ContinueStep(m: Assets, pairs: seq<string>, fetch: string -> Option<seq<Position>>)
    requires WellFormed(m) && pairs != []
    ensures Continue(m, pairs, fetch) ==
              match fetch(pairs[0])
              case None => None
              case Some(ps) =>
                match Accumulate(m, ps)
                case None => None
                case Some(m') => Continue(m', pairs[1..], fetch)
  {
    match fetch(pairs[0]) {
      case None =>
      case Some(ps) =>
        match Gather(pairs[1..], fetch) {
          case None =>
            match Accumulate(m, ps) {
              case None =>
              case Some(m') =>
            }
          case Some(rest) => AccumulateAppend(m, ps, rest);
        }
    }
  }

  /** A successful `get_assets` is the fill-in of the fold of every pair's
      positions over the JPY entry. */
  lemma AssetsOfUnfold(c: Collateral, fetch: string -> Option<seq<Position>>)
    requires AssetsOf(Some(c), fetch).Some?
    ensures Gather(MarginPairs, fetch).Some?
    ensures Accumulate(StartAssets(c), Gather(MarginPairs, fetch).value).Some?
    ensures AssetsOf(Some(c), fetch).value ==
              FillMissing(Accumulate(StartAssets(c), Gather(MarginPairs, fetch).value).value, AssetNames)
  {
  }

  /** What `get_assets` promises: both assets are always present; the JPY
      entry holds the collateral (plus any positions named JPY) and locks
      exactly the required collateral; every other entry holds the net
      position and locks nothing. */
  lemma GetAssetsSpec(c: Collateral, fetch: string -> Option<seq<Position>>)
    requires AssetsOf(Some(c), fetch).Some?
    ensures var r := AssetsOf(Some(c), fetch).value;
            var ps := Gather(MarginPairs, fetch).value;
            Gather(MarginPairs, fetch).Some? &&
            AssetValue(Btc) in r && AssetValue(Jpy) in r && WellFormed(r) &&
            r[AssetValue(Jpy)].onhand == Some(c.collateral + Total(ps, AssetValue(Jpy))) &&
            LockedAmount(r[AssetValue(Jpy)]) == Some(c.requireCollateral) &&
            (forall k :: k in r && k != AssetValue(Jpy) ==> LockedAmount(r[k]) == Some(0.0)) &&
            (forall k :: k in r && k != AssetValue(Jpy) ==> r[k].onhand == Some(Total(ps, k)))
  {
    AssetsOfUnfold(c, fetch);
    FilledSpec(c, Gather(MarginPairs, fetch).value, AssetsOf(Some(c), fetch).value);
  }

  /** The dictionary `get_assets` returns for the positions `ps`. */
  lemma FilledSpec(c: Collateral, ps: seq<Position>, r: Assets)
    requires Accumulate(StartAssets(c), ps).Some?
    requires r == FillMissing(Accumulate(StartAssets(c), ps).value, AssetNames)
    ensures AssetValue(Btc) in r && AssetValue(Jpy) in r && WellFormed(r)
    ensures r[AssetValue(Jpy)].onhand == Some(c.collateral + Total(ps, AssetValue(Jpy)))
    ensures LockedAmount(r[AssetValue(Jpy)]) == Some(c.requireCollateral)
    ensures forall k :: k in r && k != AssetValue(Jpy) ==> LockedAmount(r[k]) == Some(0.0)
    ensures forall k :: k in r && k != AssetValue(Jpy) ==> r[k].onhand == Some(Total(ps, k))
  {
    var m0 := StartAssets(c);
    var m := Accumulate(m0, ps).value;
    FilledAssets(m);
    JpyAssetEntry(c, ps);
    forall k | k in r && k != AssetValue(Jpy)
      ensures LockedAmount(r[k]) == Some(0.0) && r[k].onhand == Some(Total(ps, k))
    {
      OtherAssetEntry(m0, ps, k);
    }
  }

  /** The fill-in makes both assets keys and keeps every existing entry. */
  lemma FilledAssets(m: Assets)
    requires WellFormed(m)
    ensures var r := FillMissing(m, AssetNames);
            AssetValue(Btc) in r && AssetValue(Jpy) in r && WellFormed(r) &&
            forall k :: k in m ==> r[k] == m[k]
  {
    var r := FillMissing(m, AssetNames);
    assert AssetNames[0] == AssetValue(Btc) && AssetNames[1] == AssetValue(Jpy);
  }

  /** After the positions, the JPY entry holds the collateral plus any JPY
      positions and still locks the required collateral. */
  lemma JpyAssetEntry(c: Collateral, ps: seq<Position>)
    requires Accumulate(StartAssets(c), ps).Some?
    ensures var m := Accumulate(StartAssets(c), ps).value;
            AssetValue(Jpy) in m &&
            m[AssetValue(Jpy)].onhand == Some(c.collateral + Total(ps, AssetValue(Jpy))) &&
            LockedAmount(m[AssetValue(Jpy)]) == Some(c.requireCollateral)
  {
    var m0 := StartAssets(c);
    var jpy := AssetValue(Jpy);
    assert m0[jpy] == JpyAsset(c);
    assert Base(m0, jpy) == c.collateral;
    AccumulateTotals(m0, ps, jpy);
  }

  /** An entry other than JPY, after the fill-in: its net position, nothing
      locked. */
  lemma OtherAssetEntry(m0: Assets, ps: seq<Position>, k: string)
    requires WellFormed(m0) && Accumulate(m0, ps).Some?
    requires k !in m0 && k in FillMissing(Accumulate(m0, ps).value, AssetNames)
    ensures var r := FillMissing(Accumulate(m0, ps).value, AssetNames);
            LockedAmount(r[k]) == Some(0.0) && r[k].onhand == Some(Total(ps, k))
  {
    var m := Accumulate(m0, ps).value;
    if k in m {
      AccumulateTotals(m0, ps, k);
    } else {
      AccumulateTotalsAbsent(m0, ps, k);
    }
  }

  /** A name no position carries has no positions to total. */
  lemma {:induction false} AccumulateTotalsAbsent(m: Assets, ps: seq<Position>, n: string)
    requires WellFormed(m) && Accumulate(m, ps).Some? && n !in Accumulate(m, ps).value
    ensures Total(ps, n) == 0.0
    decreases |ps|
  {
    AccumulateTotals(m, ps, n);
    if ps != [] {
      var name := NameOf(ps[0].productCode).value;
      var m' := AddAmount(m, name, Signed(ps[0]));
      assert NameOf(ps[0].productCode) != Some(n);
      assert Accumulate(m, ps) == Accumulate(m', ps[1..]);
      AccumulateTotalsAbsent(m', ps[1..], n);
    }
  }

  /** The two margin calls agree: the JPY entry holds the customer margin
      and locks the maintenance margin, when no position is named JPY. */
  lemma MarginAgreesWithAssets(c: Collateral, fetch: string -> Option<seq<Position>>)
    requires AssetsOf(Some(c), fetch).Some?
    requires Total(Gather(MarginPairs, fetch).value, AssetValue(Jpy)) == 0.0
    ensures var info := GetMarginTrading(Some(c)).1.value;
            var jpy := AssetsOf(Some(c), fetch).value[AssetValue(Jpy)];
            jpy.onhand == Some(info.customerMargin) && LockedAmount(jpy) == Some(info.maintenanceMargin)
  {
    GetAssetsSpec(c, fetch);
  }

  // ---------------------------------------------------------------------------
  // The method
  // ---------------------------------------------------------------------------

  /** Storing one position's amount: a fresh `AssetInfo` for a new name,
      `+=` on both amounts of a known one. */
  method StoreAmount(assets: Assets, name: string, amount: real) returns (r: Assets)
    requires WellFormed(assets)
    ensures r == AddAmount(assets, name, amount)
  {
    if name !in assets {
      var assetVc := AssetInfo(name, Some(amount), Some(amount));
      r := assets[assetVc.name := assetVc];
    } else {
      var assetVc := assets[name];
      assetVc := assetVc.(name := name);
      assetVc := assetVc.(onhand := Some(assetVc.onhand.value + amount));
      assetVc := assetVc.(free := Some(assetVc.free.value + amount));
      r := assets[assetVc.name := assetVc];
    }
  }

  /** The body of `get_assets`' position loop, over one pair's positions:
      the dictionary is updated in place, entry by entry. */
  method AddPositions(start: Assets, ps: seq<Position>) returns (assets: Option<Assets>)
    requires WellFormed(start)
    ensures assets == Accumulate(start, ps)
  {
    var rtnAssets := start;
    var j := 0;
    while j < |ps|
      invariant 0 <= j <= |ps|
      invariant WellFormed(rtnAssets)
      invariant Accumulate(start, ps) == Accumulate(rtnAssets, ps[j..])
    {
      var fields := Split(ps[j].productCode, '_');
      if |fields| < 2 {
        return None;
      }
      var name := fields[1];
      var amount := ps[j].size;
      if ps[j].side == "SELL" {
        amount := amount * -1.0;
      }
      assert amount == Signed(ps[j]) && NameOf(ps[j].productCode) == Some(name);
      rtnAssets := StoreAmount(rtnAssets, name, amount);
      assert ps[j..][1..] == ps[j + 1..];
      j := j + 1;
    }
    return Some(rtnAssets);
  }

  /** `get_assets`' fill-in loop. */
  method FillIn(start: Assets) returns (assets: Assets)
    requires WellFormed(start)
    ensures assets == FillMissing(start, AssetNames)
  {
    assets := start;
    var k := 0;
    while k < |AssetNames|
      invariant 0 <= k <= |AssetNames|
      invariant WellFormed(assets)
      invariant FillMissing(start, AssetNames) == FillMissing(assets, AssetNames[k..])
    {
      var name := AssetNames[k];
      if name !in assets {
        var assetVc := AssetInfo(name, Some(0.0), Some(0.0));
        assets := assets[assetVc.name := assetVc];
      }
      assert AssetNames[k..][1..] == AssetNames[k + 1..];
      k := k + 1;
    }
  }

  /** `get_assets`: the JPY entry, then the loop over pairs, each fetching
      that pair's positions, then the fill-in loop. */
  method GetAssets(collateral: Option<Collateral>, fetch: string -> Option<seq<Position>>)
    returns (ok: bool, assets: Option<Assets>)
    ensures ok <==> assets.Some?
    ensures assets == AssetsOf(collateral, fetch)
  {
    if collateral.None? {
      return false, None;
    }
    var c := collateral.value;
    var rtnAssets: Assets := map[];
    var assetJpy := AssetInfo(AssetValue(Jpy), Some(c.collateral), None);
    assetJpy := assetJpy.(free := Some(assetJpy.onhand.value - c.requireCollateral));
    rtnAssets := rtnAssets[assetJpy.name := assetJpy];
    assert rtnAssets == StartAssets(c);

    var i := 0;
    while i < |MarginPairs|
      invariant 0 <= i <= |MarginPairs|
      invariant WellFormed(rtnAssets)
      invariant Continue(StartAssets(c), MarginPairs, fetch) == Continue(rtnAssets, MarginPairs[i..], fetch)
    {
      ContinueStep(rtnAssets, MarginPairs[i..], fetch);
      assert MarginPairs[i..][1..] == MarginPairs[i + 1..];
      var positions := fetch(MarginPairs[i]);
      if positions.None? {
        return false, None;
      }
      var next := AddPositions(rtnAssets, positions.value);
      if next.None? {
        return false, None;
      }
      rtnAssets := next.value;
      i := i + 1;
    }
    var filled := FillIn(rtnAssets);
    return true, Some(filled);
  }
}
