/** Threshold CRUD (services/ThresholdService.java) over the "thresholds" collection. The
    create path refuses a second threshold for a metric type, so the collection keeps at
    most one per type; `UniqueTypes` is that invariant. */
module Thresholds {
  import opened Domain
  import opened Repositories

  /** Position of the threshold stored for `metricType`, the first one if several were. */
  function IndexOfType(ts: seq<Threshold>, metricType: string): (r: Option<nat>)
    ensures r.None? <==> forall i :: 0 <= i < |ts| ==> ts[i].metricType != metricType
    ensures r.Some? ==> r.value < |ts| && ts[r.value].metricType == metricType
    ensures r.Some? ==> forall i :: 0 <= i < r.value ==> ts[i].metricType != metricType
  {
    FirstIndex(ts, (t: Threshold) => t.metricType == metricType)
  }

  /** `ThresholdRepository.findByMetricType`. */
  function FindByMetricType(ts: seq<Threshold>, metricType: string): Option<Threshold>
  {
    match IndexOfType(ts, metricType)
    case None => None
    case Some(i) => Some(ts[i])
  }

  /** At most one threshold per metric type. */
  predicate UniqueTypes(ts: seq<Threshold>)
  {
    forall i, j :: 0 <= i < j < |ts| ==> ts[i].metricType != ts[j].metricType
  }

  /** In a store with one threshold per type, the lookup finds that threshold. */
  lemma FindUnique(ts: seq<Threshold>, i: nat)
    requires UniqueTypes(ts) && i < |ts|
    ensures FindByMetricType(ts, ts[i].metricType) == Some(ts[i])
  {
    assert forall j :: 0 <= j < |ts| && j != i ==> ts[j].metricType != ts[i].metricType;
  }

  /** Storing a threshold for a type not yet present keeps one threshold per type, makes the
      new one the lookup's answer for its type, and leaves every other type's answer alone. */
  lemma {:induction false} AppendNewType(ts: seq<Threshold>, t: Threshold, mt: string)
    requires UniqueTypes(ts) && FindByMetricType(ts, t.metricType).None?
    ensures UniqueTypes(ts + [t])
    ensures FindByMetricType(ts + [t], mt) ==
            if mt == t.metricType then Some(t) else FindByMetricType(ts, mt)
  {
    var ts' := ts + [t];
    assert forall i :: 0 <= i < |ts| ==> ts'[i] == ts[i];
    if mt == t.metricType {
      FindUnique(ts', |ts|);
    } else {
      var r, r' := IndexOfType(ts, mt), IndexOfType(ts', mt);
      if r.Some? {
        assert r'.Some? && r'.value <= r.value;
      } else {
        assert ts'[|ts|].metricType != mt;
      }
    }
  }

  /** Overwriting the value of the threshold at `k` changes no lookup except that of its own
      type, which now yields the new value with the same id and type. */
  lemma {:induction false} SetValueLookup(ts: seq<Threshold>, k: nat, v: real, mt: string)
    requires k < |ts|
    ensures var ts' := ts[k := ts[k].(thresholdValue := v)];
      && IndexOfType(ts', mt) == IndexOfType(ts, mt)
      && FindByMetricType(ts', mt) ==
           if IndexOfType(ts, mt) == Some(k) then Some(ts[k].(thresholdValue := v))
           else FindByMetricType(ts, mt)
  {
    var ts' := ts[k := ts[k].(thresholdValue := v)];
    assert forall i :: 0 <= i < |ts| ==> ts'[i].metricType == ts[i].metricType;
    var r, r' := IndexOfType(ts, mt), IndexOfType(ts', mt);
    if r.Some? {
      assert ts'[r.value].metricType == mt;
      assert ts[r'.value].metricType == mt;
    } else {
      assert r'.None?;
    }
  }

  /** Removing the threshold at `k` from a store with one threshold per type keeps that
      invariant, removes its type, and changes no other type's lookup. */
  lemma {:induction false} RemoveLookup(ts: seq<Threshold>, k: nat, mt: string)
    requires UniqueTypes(ts) && k < |ts|
    ensures var ts' := ts[..k] + ts[k + 1..];
      && UniqueTypes(ts')
      && FindByMetricType(ts', mt) == if mt == ts[k].metricType then None else FindByMetricType(ts, mt)
  {
    var ts' := ts[..k] + ts[k + 1..];
    assert forall i :: 0 <= i < k ==> ts'[i] == ts[i];
    assert forall i :: k <= i < |ts'| ==> ts'[i] == ts[i + 1];
    assert UniqueTypes(ts') by {
      forall i, j | 0 <= i < j < |ts'| ensures ts'[i].metricType != ts'[j].metricType {
        var oi := if i < k then i else i + 1;
        var oj := if j < k then j else j + 1;
        assert ts'[i] == ts[oi] && ts'[j] == ts[oj] && oi < oj;
      }
    }
    if mt == ts[k].metricType {
      forall i | 0 <= i < |ts'| ensures ts'[i].metricType != mt {
        var oi := if i < k then i else i + 1;
        assert ts'[i] == ts[oi] && oi != k;
      }
    } else {
      var r := IndexOfType(ts, mt);
      if r.Some? {
        var j := if r.value < k then r.value else r.value - 1;
        assert ts'[j] == ts[r.value];
        FindUnique(ts, r.value);
        FindUnique(ts', j);
      } else {
        forall i | 0 <= i < |ts'| ensures ts'[i].metricType != mt {
          var oi := if i < k then i else i + 1;
          assert ts'[i] == ts[oi];
        }
      }
    }
  }

  class ThresholdService {
    const repo: ThresholdRepository

    constructor(repo: ThresholdRepository)
      ensures this.repo == repo
    {
      this.repo := repo;
    }

    /** `getAllThresholds`: the stored thresholds in `findAll` order. */
    method GetAllThresholds() returns (all: seq<Threshold>)
      ensures all == repo.thresholds
    {
      all := repo.thresholds;
    }

    /** `getThresholdByMetricType`: the threshold stored for the type, if any. */
    method GetThresholdByMetricType(metricType: string) returns (t: Option<Threshold>)
      requires UniqueTypes(repo.thresholds)
      ensures t.None? <==> forall i :: 0 <= i < |repo.thresholds| ==> repo.thresholds[i].metricType != metricType
      ensures t.Some? ==> t.value in repo.thresholds && t.value.metricType == metricType
    {
      t := FindByMetricType(repo.thresholds, metricType);
    }

    /** `createThreshold`: refused (None) when the type already has a threshold, otherwise
        stored and returned. */
    method CreateThreshold(threshold: Threshold) returns (created: Option<Threshold>)
      requires UniqueTypes(repo.thresholds)
      modifies repo
      ensures UniqueTypes(repo.thresholds)
      ensures old(FindByMetricType(repo.thresholds, threshold.metricType)).Some? ==>
                created.None? && repo.thresholds == old(repo.thresholds)
      ensures old(FindByMetricType(repo.thresholds, threshold.metricType)).None? ==>
                created == Some(threshold) && repo.thresholds == old(repo.thresholds) + [threshold]
                && FindByMetricType(repo.thresholds, threshold.metricType) == Some(threshold)
      ensures forall mt :: mt != threshold.metricType ==>
                FindByMetricType(repo.thresholds, mt) == old(FindByMetricType(repo.thresholds, mt))
    {
      var existing := FindByMetricType(repo.thresholds, threshold.metricType);
      if existing.Some? {
        return None;
      }
      forall mt ensures FindByMetricType(repo.thresholds + [threshold], mt) ==
                          if mt == threshold.metricType then Some(threshold) else FindByMetricType(repo.thresholds, mt) {
        AppendNewType(repo.thresholds, threshold, mt);
      }
      AppendNewType(repo.thresholds, threshold, threshold.metricType);
      repo.thresholds := repo.thresholds + [threshold];
      created := Some(threshold);
    }

    /** `updateThreshold`: None and no change when the type has no threshold; otherwise only
        the stored threshold's value is replaced (same id, same type, same position). */
    method UpdateThreshold(metricType: string, thresholdUpdate: Threshold) returns (updated: Option<Threshold>)
      requires UniqueTypes(repo.thresholds)
      modifies repo
      ensures UniqueTypes(repo.thresholds)
      ensures old(IndexOfType(repo.thresholds, metricType)).None? ==>
                updated.None? && repo.thresholds == old(repo.thresholds)
      ensures old(IndexOfType(repo.thresholds, metricType)).Some? ==>
                var k := old(IndexOfType(repo.thresholds, metricType)).value;
                && updated == Some(old(repo.thresholds)[k].(thresholdValue := thresholdUpdate.thresholdValue))
                && repo.thresholds == old(repo.thresholds)[k := updated.value]
                && FindByMetricType(repo.thresholds, metricType) == updated
      ensures forall mt :: mt != metricType ==>
                FindByMetricType(repo.thresholds, mt) == old(FindByMetricType(repo.thresholds, mt))
    {
      var k := IndexOfType(repo.thresholds, metricType);
      if k.None? {
        return None;
      }
      var existing := repo.thresholds[k.value];
      var changed := existing.(thresholdValue := thresholdUpdate.thresholdValue);
      forall mt ensures FindByMetricType(repo.thresholds[k.value := changed], mt) ==
                          if IndexOfType(repo.thresholds, mt) == Some(k.value) then Some(changed)
                          else FindByMetricType(repo.thresholds, mt) {
        SetValueLookup(repo.thresholds, k.value, thresholdUpdate.thresholdValue, mt);
      }
      repo.thresholds := repo.thresholds[k.value := changed];
      updated := Some(changed);
    }

    /** `deleteThreshold`: false and no change when the type has no threshold; otherwise the
        threshold is removed, true is returned and the type is no longer present. */
    method DeleteThreshold(metricType: string) returns (deleted: bool)
      requires UniqueTypes(repo.thresholds)
      modifies repo
      ensures UniqueTypes(repo.thresholds)
      ensures deleted <==> old(FindByMetricType(repo.thresholds, metricType)).Some?
      ensures !deleted ==> repo.thresholds == old(repo.thresholds)
      ensures deleted ==>
                var k := old(IndexOfType(repo.thresholds, metricType)).value;
                repo.thresholds == old(repo.thresholds[..k] + repo.thresholds[k + 1..])
      ensures FindByMetricType(repo.thresholds, metricType).None?
      ensures forall mt :: mt != metricType ==>
                FindByMetricType(repo.thresholds, mt) == old(FindByMetricType(repo.thresholds, mt))
    {
      var k := IndexOfType(repo.thresholds, metricType);
      if k.None? {
        return false;
      }
      var ts := repo.thresholds;
      forall mt ensures FindByMetricType(ts[..k.value] + ts[k.value + 1..], mt) ==
                          if mt == ts[k.value].metricType then None else FindByMetricType(ts, mt) {
        RemoveLookup(ts, k.value, mt);
      }
      RemoveLookup(ts, k.value, metricType);
      repo.thresholds := ts[..k.value] + ts[k.value + 1..];
      deleted := true;
    }
  }
}
