/** Target maps: their 100% validation and how they are applied to the live assets and cash. */
module Targets {
  import opened Domain

  /** Sum of the values of a target map (Python's `sum(targets.values())`), peeling off keys
      in an arbitrary order; MapSumRemove shows that the order does not matter. */
  ghost function MapSum(m: map<string, real>): (total: real)
    ensures |m| == 0 ==> total == 0.0
    ensures (forall k :: k in m ==> m[k] >= 0.0) ==> total >= 0.0
    decreases |m|
  {
    if |m| == 0 then 0.0
    else
      var k := Pick(m);
      m[k] + MapSum(m - {k})
  }

  /** Some key of a non-empty map. */
  ghost function Pick(m: map<string, real>): (k: string)
    requires |m| > 0
    ensures k in m
  {
    assert m.Keys != {};
    var k :| k in m.Keys;
    k
  }

  /** Any key can be peeled off first. */
  lemma {:induction false} MapSumRemove(m: map<string, real>, k: string)
    requires k in m
    ensures MapSum(m) == m[k] + MapSum(m - {k})
    decreases |m|
  {
    var j := Pick(m);
    if j != k {
      var mj, mk := m - {j}, m - {k};
      assert mj.Keys == m.Keys - {j} && mk.Keys == m.Keys - {k};
      assert |mj| < |m| && |mk| < |m|;
      MapSumRemove(mj, k);
      MapSumRemove(mk, j);
      assert mj - {k} == mk - {j};
    }
  }

  /** The endpoints reject a map whose total is more than 0.01 away from 100. */
  function WithinTolerance(total: real): (ok: bool)
    ensures ok <==> 99.99 <= total <= 100.01
  {
    var diff := if total - 100.0 < 0.0 then 100.0 - total else total - 100.0;
    !(diff > 0.01)
  }

  /** The sum of a target map, computed by a loop over its entries. */
  method TargetTotal(t: map<string, real>) returns (total: real)
    ensures total == MapSum(t)
  {
    total := 0.0;
    var rest := t;
    while |rest| > 0
      invariant total + MapSum(rest) == MapSum(t)
      decreases |rest|
    {
      var k :| k in rest;
      MapSumRemove(rest, k);
      total := total + rest[k];
      rest := rest - {k};
    }
  }

  /** A map's effect on one asset: its own id (unless it is "cash") sets its target. */
  function RetargetAsset(a: Asset, t: map<string, real>): (b: Asset)
    ensures b == a.(targetPct := b.targetPct)
    ensures a.id != CashKey && a.id in t ==> b.targetPct == t[a.id]
    ensures a.id == CashKey || a.id !in t ==> b == a
  {
    if a.id != CashKey && a.id in t then a.(targetPct := t[a.id]) else a
  }

  /** A map's effect on the asset list: one RetargetAsset per asset, in order. */
  function RetargetAssets(assets: seq<Asset>, t: map<string, real>): (r: seq<Asset>)
    ensures |r| == |assets|
    ensures forall i :: 0 <= i < |assets| ==> r[i] == assets[i].(targetPct := r[i].targetPct)
    ensures forall i :: 0 <= i < |assets| && assets[i].id != CashKey && assets[i].id in t ==>
              r[i].targetPct == t[assets[i].id]
  {
    seq(|assets|, i requires 0 <= i < |assets| => RetargetAsset(assets[i], t))
  }

  /** A map's effect on the cash record: the "cash" key sets its target. */
  function RetargetCash(c: Cash, t: map<string, real>): (d: Cash)
    ensures d.amount == c.amount
    ensures d.targetPct == if CashKey in t then t[CashKey] else c.targetPct
  {
    if CashKey in t then c.(targetPct := t[CashKey]) else c
  }

  function TargetPcts(assets: seq<Asset>): (ps: seq<real>)
    ensures |ps| == |assets|
  {
    seq(|assets|, i requires 0 <= i < |assets| => assets[i].targetPct)
  }

  /** Applying a map changes no id, so ids stay unique. */
  lemma RetargetKeepsIds(assets: seq<Asset>, t: map<string, real>)
    ensures forall i :: 0 <= i < |assets| ==> RetargetAssets(assets, t)[i].id == assets[i].id
    ensures UniqueIds(assets) ==> UniqueIds(RetargetAssets(assets, t))
    ensures Ids(RetargetAssets(assets, t)) == Ids(assets)
  {
    var r := RetargetAssets(assets, t);
    assert forall i :: 0 <= i < |assets| ==> r[i].id == assets[i].id;
    forall x | x in Ids(assets) ensures x in Ids(r) {
      var i :| 0 <= i < |assets| && assets[i].id == x;
      assert r[i].id == x;
    }
  }

  /** When a map names exactly the assets and "cash", the live targets it leaves behind add up
      to the map's own total: a validated map yields live targets summing to 100 within 0.01. */
  lemma {:induction false} LiveTargetsSum(assets: seq<Asset>, c: Cash, t: map<string, real>)
    requires UniqueIds(assets) && CashKey !in Ids(assets)
    requires t.Keys == Ids(assets) + {CashKey}
    ensures Sum(TargetPcts(RetargetAssets(assets, t))) + RetargetCash(c, t).targetPct == MapSum(t)
  {
    if |assets| == 0 {
      assert t.Keys == {CashKey};
      MapSumRemove(t, CashKey);
      assert t - {CashKey} == map[];
    } else {
      var n := |assets| - 1;
      var pre, a := assets[..n], assets[n];
      var t' := t - {a.id};
      IdsOfLast(assets);
      assert t'.Keys == Ids(pre) + {CashKey};
      LiveTargetsSum(pre, c, t');
      MapSumRemove(t, a.id);
      var ps := TargetPcts(RetargetAssets(assets, t));
      var qs := TargetPcts(RetargetAssets(pre, t'));
      assert ps[..n] == qs by {
        RetargetIgnoresOtherKey(pre, t, a.id);
        TargetsOfPrefix(assets, t, n);
      }
      assert Sum(ps) == Sum(qs) + ps[n];
      assert ps[n] == t[a.id] by {
        assert a.id != CashKey && a.id in t;
        assert ps[n] == RetargetAsset(a, t).targetPct;
      }
      assert RetargetCash(c, t').targetPct == RetargetCash(c, t).targetPct by {
        assert CashKey != a.id;
      }
    }
  }

  /** The ids of a non-empty list are those of its prefix plus the last one, which is new. */
  lemma IdsOfLast(assets: seq<Asset>)
    requires UniqueIds(assets) && |assets| > 0
    ensures var n := |assets| - 1;
            && Ids(assets) == Ids(assets[..n]) + {assets[n].id}
            && assets[n].id !in Ids(assets[..n])
            && UniqueIds(assets[..n])
  {
    var n := |assets| - 1;
    var pre, a := assets[..n], assets[n];
    forall x | x in Ids(assets) ensures x in Ids(pre) + {a.id} {
      var i :| 0 <= i < |assets| && assets[i].id == x;
      if i < n { assert pre[i].id == x; }
    }
    forall x | x in Ids(pre) ensures x in Ids(assets) {
      var i :| 0 <= i < |pre| && pre[i].id == x;
      assert assets[i].id == x;
    }
  }

  /** Applying a map commutes with taking a prefix of the assets. */
  lemma TargetsOfPrefix(assets: seq<Asset>, t: map<string, real>, n: nat)
    requires n <= |assets|
    ensures TargetPcts(RetargetAssets(assets, t))[..n] == TargetPcts(RetargetAssets(assets[..n], t))
  {
    var lhs, rhs := TargetPcts(RetargetAssets(assets, t))[..n], TargetPcts(RetargetAssets(assets[..n], t));
    forall i | 0 <= i < n
      ensures lhs[i] == rhs[i]
    {
      assert lhs[i] == RetargetAsset(assets[i], t).targetPct;
      assert rhs[i] == RetargetAsset(assets[..n][i], t).targetPct;
    }
  }

  /** A key that names none of the assets has no effect on them. */
  lemma RetargetIgnoresOtherKey(assets: seq<Asset>, t: map<string, real>, x: string)
    requires x !in Ids(assets)
    ensures RetargetAssets(assets, t - {x}) == RetargetAssets(assets, t)
  {
    forall i | 0 <= i < |assets|
      ensures RetargetAssets(assets, t - {x})[i] == RetargetAssets(assets, t)[i]
    {
      assert assets[i].id in Ids(assets);
    }
  }

  /** Adding a key that names one asset (and is not "cash") retargets exactly that asset. */
  lemma RetargetNewKey(assets: seq<Asset>, m: map<string, real>, k: string, v: real, i: nat)
    requires UniqueIds(assets) && i < |assets| && assets[i].id == k && k != CashKey
    ensures var r := RetargetAssets(assets, m);
            RetargetAssets(assets, m[k := v]) == r[i := r[i].(targetPct := v)]
  {
    var r, r' := RetargetAssets(assets, m), RetargetAssets(assets, m[k := v]);
    forall j | 0 <= j < |assets|
      ensures r'[j] == r[i := r[i].(targetPct := v)][j]
    {
      if j != i {
        assert assets[j].id != k;
      }
    }
  }

  /** Adding "cash" or a key that names no asset leaves every asset as it was. */
  lemma RetargetUnknownKey(assets: seq<Asset>, m: map<string, real>, k: string, v: real)
    requires k == CashKey || !HasId(assets, k)
    ensures RetargetAssets(assets, m[k := v]) == RetargetAssets(assets, m)
  {
    var r, r' := RetargetAssets(assets, m), RetargetAssets(assets, m[k := v]);
    forall j | 0 <= j < |assets|
      ensures r'[j] == r[j]
    {
      assert assets[j].id == k ==> HasId(assets, k);
    }
  }

  /** Deleting a key from a map lowers its total by exactly that key's value: nothing is
      renormalised. */
  lemma PurgeLowersTotal(t: map<string, real>, id: string)
    ensures id in t ==> MapSum(t - {id}) == MapSum(t) - t[id]
    ensures id !in t ==> t - {id} == t
    ensures forall k :: k in t && k != id ==> k in t - {id} && (t - {id})[k] == t[k]
  {
    if id in t {
      MapSumRemove(t, id);
    }
  }

  /** Copies a target map onto the live records, one key at a time: "cash" sets the cash
      target, the id of an asset sets that asset's target, any other key is ignored. The result
      does not depend on the order in which the keys are visited. */
  method ApplyTargets(assets0: seq<Asset>, cash0: Cash, t: map<string, real>) returns (assets: seq<Asset>, cash: Cash)
    requires UniqueIds(assets0)
    ensures assets == RetargetAssets(assets0, t)
    ensures cash == RetargetCash(cash0, t)
  {
    assets, cash := assets0, cash0;
    var todo := t.Keys;
    while todo != {}
      invariant todo <= t.Keys
      invariant assets == RetargetAssets(assets0, t - todo)
      invariant cash == RetargetCash(cash0, t - todo)
      decreases |todo|
    {
      var k :| k in todo;
      var done := t - todo;
      assert t - (todo - {k}) == done[k := t[k]];
      RetargetKeepsIds(assets0, done);
      if k == CashKey {
        RetargetUnknownKey(assets0, done, k, t[k]);
        cash := cash.(targetPct := t[k]);
      } else {
        var found := FindAsset(assets, k);
        if found.Some? {
          var i := found.value;
          RetargetNewKey(assets0, done, k, t[k], i);
          assets := assets[i := assets[i].(targetPct := t[k])];
        } else {
          RetargetUnknownKey(assets0, done, k, t[k]);
        }
      }
      todo := todo - {k};
    }
    assert t - {} == t;
  }
}
