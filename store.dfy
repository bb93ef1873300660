/** The in-memory store behind the HTTP endpoints: the assets, the single cash record, the
    strategies by id and the activation history, with the operations that change them. */
module Store {
  import opened Domain
  import opened Valuation
  import opened Targets

  /** Every strategy name is used once. */
  predicate NamesUnique(ss: map<nat, Strategy>)
  {
    forall i, j :: i in ss && j in ss && i != j ==> ss[i].name != ss[j].name
  }

  /** No two strategies are active. */
  predicate AtMostOneActive(ss: map<nat, Strategy>)
  {
    forall i, j :: i in ss && j in ss && ss[i].isActive && ss[j].isActive ==> i == j
  }

  predicate NameUsed(ss: map<nat, Strategy>, name: string)
  {
    exists i :: i in ss && ss[i].name == name
  }

  /** The strategies after activating `sid`: that one is active and no other; nothing else changes. */
  function Activated(ss: map<nat, Strategy>, sid: nat): (r: map<nat, Strategy>)
    requires sid in ss
    ensures r.Keys == ss.Keys
    ensures forall i :: i in r ==> (r[i].isActive <==> i == sid)
    ensures forall i :: i in r ==> r[i] == ss[i].(isActive := r[i].isActive)
    ensures AtMostOneActive(r)
    ensures NamesUnique(ss) ==> NamesUnique(r)
  {
    var r := map i | i in ss :: ss[i].(isActive := i == sid);
    assert forall i :: i in r ==> r[i].name == ss[i].name;
    r
  }

  /** Replacing one strategy by an edit that keeps its active flag, under a name no other
      strategy uses, keeps the names unique and at most one strategy active. */
  lemma ReplaceKeepsInvariants(ss: map<nat, Strategy>, sid: nat, s: Strategy)
    requires sid in ss && s.isActive == ss[sid].isActive
    requires s.name == ss[sid].name || !NameUsed(ss - {sid}, s.name)
    ensures NamesUnique(ss) ==> NamesUnique(ss[sid := s])
    ensures AtMostOneActive(ss) ==> AtMostOneActive(ss[sid := s])
  {
    var r := ss[sid := s];
    if NamesUnique(ss) {
      forall i, j | i in r && j in r && i != j
        ensures r[i].name != r[j].name
      {
        if i == sid || j == sid {
          var o := if i == sid then j else i;
          assert o in ss - {sid};
        }
      }
    }
  }

  /** The strategies after `update_targets`: each active one takes the new map as its own. */
  function Synced(ss: map<nat, Strategy>, t: map<string, real>): (r: map<nat, Strategy>)
    ensures r.Keys == ss.Keys
    ensures forall i :: i in r ==> r[i] == (if ss[i].isActive then ss[i].(targets := t) else ss[i])
    ensures AtMostOneActive(ss) ==> AtMostOneActive(r)
    ensures NamesUnique(ss) ==> NamesUnique(r)
  {
    map i | i in ss :: if ss[i].isActive then ss[i].(targets := t) else ss[i]
  }

  /** One strategy with the key `id` dropped from its map, the other keys kept as they are. */
  function Purged(s: Strategy, id: string): Strategy
  {
    s.(targets := s.targets - {id})
  }

  /** Every strategy with the key `id` dropped from its map, as deleting an asset leaves them. */
  function PurgedAll(ss: map<nat, Strategy>, id: string): (r: map<nat, Strategy>)
    ensures r.Keys == ss.Keys
    ensures forall i :: i in r ==> r[i] == Purged(ss[i], id)
    ensures AtMostOneActive(ss) ==> AtMostOneActive(r)
    ensures NamesUnique(ss) ==> NamesUnique(r)
  {
    map i | i in ss :: Purged(ss[i], id)
  }

  /** The assets in order, without those carrying `id`. */
  function WithoutId(assets: seq<Asset>, id: string): (r: seq<Asset>)
    ensures |r| <= |assets|
    ensures forall j :: 0 <= j < |r| ==> r[j].id != id
  {
    if |assets| == 0 then []
    else (if assets[0].id == id then [] else [assets[0]]) + WithoutId(assets[1..], id)
  }

  /** With unique ids, dropping the asset at index `k` is the same as dropping its id. */
  lemma {:induction false} WithoutIdAt(assets: seq<Asset>, k: nat)
    requires UniqueIds(assets) && k < |assets|
    ensures WithoutId(assets, assets[k].id) == assets[..k] + assets[k + 1..]
  {
    var id := assets[k].id;
    if k == 0 {
      WithoutAbsent(assets[1..], id);
    } else {
      WithoutIdAt(assets[1..], k - 1);
      assert assets[0].id != id;
      assert assets[1..][..k - 1] + assets[1..][k..] == (assets[..k] + assets[k + 1..])[1..];
    }
  }

  /** Dropping an id that no asset carries changes nothing. */
  lemma {:induction false} WithoutAbsent(assets: seq<Asset>, id: string)
    requires forall j :: 0 <= j < |assets| ==> assets[j].id != id
    ensures WithoutId(assets, id) == assets
  {
    if |assets| > 0 {
      WithoutAbsent(assets[1..], id);
    }
  }

  /** Removing one asset keeps the remaining ids unique and removes exactly that id. */
  lemma RemovalKeepsUnique(assets: seq<Asset>, k: nat)
    requires UniqueIds(assets) && k < |assets|
    ensures UniqueIds(assets[..k] + assets[k + 1..])
    ensures Ids(assets[..k] + assets[k + 1..]) == Ids(assets) - {assets[k].id}
  {
    var r := assets[..k] + assets[k + 1..];
    assert forall j :: 0 <= j < |r| ==> r[j] == assets[if j < k then j else j + 1];
    forall x | x in Ids(assets) - {assets[k].id} ensures x in Ids(r) {
      var i :| 0 <= i < |assets| && assets[i].id == x;
      assert r[if i < k then i else i - 1].id == x;
    }
  }

  /** Drops the key `id` from the map of every strategy, one strategy at a time. */
  method PurgeStrategies(ss: map<nat, Strategy>, id: string) returns (r: map<nat, Strategy>)
    ensures r == PurgedAll(ss, id)
  {
    r := ss;
    var todo := ss.Keys;
    while todo != {}
      invariant todo <= ss.Keys && r.Keys == ss.Keys
      invariant forall i :: i in r ==> r[i] == if i in todo then ss[i] else Purged(ss[i], id)
      decreases |todo|
    {
      var sid :| sid in todo;
      r := r[sid := Purged(r[sid], id)];
      todo := todo - {sid};
    }
  }

  class Portfolio {
    var assets: seq<Asset>
    var cash: Cash
    var strategies: map<nat, Strategy>
    /** The id the next created strategy receives (ids are never reused). */
    var nextId: nat
    /** Names of the activated strategies, oldest first. */
    var history: seq<string>

    ghost predicate Valid()
      reads this
    {
      && UniqueIds(assets)
      && |assets| >= 1
      && AtMostOneActive(strategies)
      && NamesUnique(strategies)
      && (forall i :: i in strategies ==> i < nextId)
    }

    /** A store holding the given assets, an empty cash record and no strategies yet. */
    constructor (seed: seq<Asset>)
      requires UniqueIds(seed) && |seed| >= 1
      ensures Valid()
      ensures assets == seed && cash == Cash(0.0, 0.0)
      ensures strategies == map[] && history == []
    {
      assets := seed;
      cash := Cash(0.0, 0.0);
      strategies := map[];
      nextId := 1;
      history := [];
    }

    /** Adds a holding; refuses a type outside AssetTypes, then an id already in use. */
    method CreateAsset(a: Asset) returns (r: Result<AssetOut>)
      requires Valid()
      modifies this
      ensures Valid()
      ensures r.Ok? <==> a.kind in AssetTypes && !HasId(old(assets), a.id)
      ensures a.kind !in AssetTypes ==> r == Err(InvalidType(a.kind))
      ensures a.kind in AssetTypes && HasId(old(assets), a.id) ==> r == Err(DuplicateAssetId(a.id))
      ensures r.Ok? ==> assets == old(assets) + [a] && r.value == BuildAssetOut(a, TotalValue(assets, cash))
      ensures r.Err? ==> assets == old(assets)
      ensures cash == old(cash) && strategies == old(strategies) && history == old(history)
      ensures nextId == old(nextId)
    {
      if a.kind !in AssetTypes {
        return Err(InvalidType(a.kind));
      }
      var found := FindAsset(assets, a.id);
      if found.Some? {
        return Err(DuplicateAssetId(a.id));
      }
      assets := assets + [a];
      assert forall j :: 0 <= j < |old(assets)| ==> assets[j] == old(assets)[j];
      return Ok(BuildAssetOut(a, TotalValue(assets, cash)));
    }

    /** Removes a holding and purges its id from every strategy map; refuses an unknown id, then
        the last remaining asset. */
    method DeleteAsset(id: string) returns (r: Outcome)
      requires Valid()
      modifies this
      ensures Valid()
      ensures !HasId(old(assets), id) ==> r == Fail(AssetNotFound(id))
      ensures HasId(old(assets), id) && |old(assets)| <= 1 ==> r == Fail(LastAsset)
      ensures r.Pass? <==> HasId(old(assets), id) && |old(assets)| > 1
      ensures r.Pass? ==> assets == WithoutId(old(assets), id) && |assets| == |old(assets)| - 1
      ensures r.Pass? ==> Ids(assets) == Ids(old(assets)) - {id}
      ensures r.Pass? ==> strategies == PurgedAll(old(strategies), id)
      ensures r.Fail? ==> assets == old(assets) && strategies == old(strategies)
      ensures cash == old(cash) && history == old(history) && nextId == old(nextId)
    {
      var found := FindAsset(assets, id);
      if found.None? {
        return Fail(AssetNotFound(id));
      }
      if |assets| <= 1 {
        return Fail(LastAsset);
      }
      var k := found.value;
      strategies := PurgeStrategies(strategies, id);
      WithoutIdAt(assets, k);
      RemovalKeepsUnique(assets, k);
      assets := assets[..k] + assets[k + 1..];
      return Pass;
    }

    /** Replaces the live targets with a map summing to 100 within 0.01 and makes it the active
        strategy's map; a map outside the tolerance is refused and nothing changes. */
    method UpdateTargets(t: map<string, real>) returns (r: Outcome)
      requires Valid()
      modifies this
      ensures Valid()
      ensures r.Pass? <==> WithinTolerance(MapSum(t))
      ensures r.Fail? ==> r == Fail(TargetSum(MapSum(t)))
      ensures r.Pass? ==> assets == RetargetAssets(old(assets), t) && cash == RetargetCash(old(cash), t)
      ensures r.Pass? ==> strategies == Synced(old(strategies), t)
      ensures r.Fail? ==> assets == old(assets) && cash == old(cash) && strategies == old(strategies)
      ensures history == old(history) && nextId == old(nextId)
    {
      var total := TargetTotal(t);
      if !WithinTolerance(total) {
        return Fail(TargetSum(total));
      }
      RetargetKeepsIds(assets, t);
      assets, cash := ApplyTargets(assets, cash, t);
      strategies := Synced(strategies, t);
      return Pass;
    }

    /** Creates an inactive strategy; refuses a map outside the tolerance, then a name in use. */
    method CreateStrategy(name: string, description: string, t: map<string, real>) returns (r: Result<nat>)
      requires Valid()
      modifies this
      ensures Valid()
      ensures !WithinTolerance(MapSum(t)) ==> r == Err(TargetSum(MapSum(t)))
      ensures WithinTolerance(MapSum(t)) && NameUsed(old(strategies), name) ==> r == Err(DuplicateStrategyName(name))
      ensures r.Ok? <==> WithinTolerance(MapSum(t)) && !NameUsed(old(strategies), name)
      ensures r.Ok? ==> (r.value !in old(strategies)
                         && strategies == old(strategies)[r.value := Strategy(name, description, t, false)])
      ensures r.Ok? ==> r.value == old(nextId) && nextId == old(nextId) + 1
      ensures r.Err? ==> strategies == old(strategies) && nextId == old(nextId)
      ensures assets == old(assets) && cash == old(cash) && history == old(history)
    {
      var total := TargetTotal(t);
      if !WithinTolerance(total) {
        return Err(TargetSum(total));
      }
      if NameUsed(strategies, name) {
        return Err(DuplicateStrategyName(name));
      }
      var sid := nextId;
      strategies := strategies[sid := Strategy(name, description, t, false)];
      nextId := nextId + 1;
      return Ok(sid);
    }

    /** Edits the name, description or map of a strategy; refuses an unknown id, then a name used
        by another strategy, then a map outside the tolerance, each time changing nothing. The
        map of the active strategy is also applied to the live records. */
    method UpdateStrategy(sid: nat, name: Option<string>, description: Option<string>,
                          t: Option<map<string, real>>) returns (r: Result<Strategy>)
      requires Valid()
      modifies this
      ensures Valid()
      ensures sid !in old(strategies) ==> r == Err(StrategyNotFound(sid))
      ensures sid in old(strategies) && name.Some? && NameUsed(old(strategies) - {sid}, name.value) ==>
                r == Err(DuplicateStrategyName(name.value))
      ensures (sid in old(strategies) && (name.Some? ==> !NameUsed(old(strategies) - {sid}, name.value))
               && t.Some? && !WithinTolerance(MapSum(t.value))) ==>
                r == Err(TargetSum(MapSum(t.value)))
      ensures r.Ok? <==> (sid in old(strategies)
                          && (name.Some? ==> !NameUsed(old(strategies) - {sid}, name.value))
                          && (t.Some? ==> WithinTolerance(MapSum(t.value))))
      ensures r.Ok? ==>
                var s := old(strategies)[sid];
                && r.value == Strategy(if name.Some? then name.value else s.name,
                                       if description.Some? then description.value else s.description,
                                       if t.Some? then t.value else s.targets,
                                       s.isActive)
                && strategies == old(strategies)[sid := r.value]
      ensures r.Ok? && t.Some? && old(strategies)[sid].isActive ==>
                assets == RetargetAssets(old(assets), t.value) && cash == RetargetCash(old(cash), t.value)
      ensures !(r.Ok? && t.Some? && old(strategies)[sid].isActive) ==> assets == old(assets) && cash == old(cash)
      ensures r.Err? ==> strategies == old(strategies)
      ensures history == old(history) && nextId == old(nextId)
    {
      if sid !in strategies {
        return Err(StrategyNotFound(sid));
      }
      var s := strategies[sid];
      if name.Some? && NameUsed(strategies - {sid}, name.value) {
        return Err(DuplicateStrategyName(name.value));
      }
      if t.Some? {
        var total := TargetTotal(t.value);
        if !WithinTolerance(total) {
          return Err(TargetSum(total));
        }
      }
      var s' := Strategy(if name.Some? then name.value else s.name,
                         if description.Some? then description.value else s.description,
                         if t.Some? then t.value else s.targets,
                         s.isActive);
      ReplaceKeepsInvariants(strategies, sid, s');
      strategies := strategies[sid := s'];
      if t.Some? && s.isActive {
        RetargetKeepsIds(assets, t.value);
        assets, cash := ApplyTargets(assets, cash, t.value);
      }
      return Ok(s');
    }

    /** Deletes a strategy; refuses an unknown id, then the active strategy. */
    method DeleteStrategy(sid: nat) returns (r: Outcome)
      requires Valid()
      modifies this
      ensures Valid()
      ensures sid !in old(strategies) ==> r == Fail(StrategyNotFound(sid))
      ensures sid in old(strategies) && old(strategies)[sid].isActive ==> r == Fail(ActiveStrategy(sid))
      ensures r.Pass? <==> sid in old(strategies) && !old(strategies)[sid].isActive
      ensures r.Pass? ==> strategies == old(strategies) - {sid}
      ensures r.Fail? ==> strategies == old(strategies)
      ensures assets == old(assets) && cash == old(cash) && history == old(history) && nextId == old(nextId)
    {
      if sid !in strategies {
        return Fail(StrategyNotFound(sid));
      }
      if strategies[sid].isActive {
        return Fail(ActiveStrategy(sid));
      }
      strategies := strategies - {sid};
      return Pass;
    }

    /** Makes `sid` the only active strategy, copies its map onto the live records and appends
        its name to the history; an unknown id is refused and nothing changes. */
    method ActivateStrategy(sid: nat) returns (r: Result<Strategy>)
      requires Valid()
      modifies this
      ensures Valid()
      ensures r.Err? <==> sid !in old(strategies)
      ensures r.Err? ==> r == Err(StrategyNotFound(sid))
      ensures r.Ok? ==> strategies == Activated(old(strategies), sid) && r.value == strategies[sid]
      ensures r.Ok? ==> forall i :: i in strategies ==> (strategies[i].isActive <==> i == sid)
      ensures r.Ok? ==> (assets == RetargetAssets(old(assets), old(strategies)[sid].targets)
                         && cash == RetargetCash(old(cash), old(strategies)[sid].targets))
      ensures r.Ok? ==> history == old(history) + [old(strategies)[sid].name]
      ensures r.Err? ==> (strategies == old(strategies) && assets == old(assets)
                          && cash == old(cash) && history == old(history))
      ensures nextId == old(nextId)
    {
      if sid !in strategies {
        return Err(StrategyNotFound(sid));
      }
      strategies := Activated(strategies, sid);
      var s := strategies[sid];
      RetargetKeepsIds(assets, s.targets);
      assets, cash := ApplyTargets(assets, cash, s.targets);
      history := history + [s.name];
      return Ok(s);
    }
  }
}
