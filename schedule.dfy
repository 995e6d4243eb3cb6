/**
 * The iteration shape both stages share: models in list order, a model that
 * fails the preload gate skipped, and for every kept model one row per item,
 * items in list order.
 */
module Schedule {

  /** The models the gate lets through, in list order. */
  function Kept(models: seq<string>, pass: string -> bool): seq<string>
  {
    if |models| == 0 then []
    else Kept(models[..|models| - 1], pass) + (if pass(models[|models| - 1]) then [models[|models| - 1]] else [])
  }

  /** The rows of one model: one per item, items in order. */
  function PerModel<T, R>(model: string, items: seq<T>, cell: (string, T) -> R): seq<R>
  {
    if |items| == 0 then []
    else PerModel(model, items[..|items| - 1], cell) + [cell(model, items[|items| - 1])]
  }

  /** The rows of all models, model-major. */
  function ModelMajor<T, R>(models: seq<string>, items: seq<T>, cell: (string, T) -> R): seq<R>
  {
    if |models| == 0 then []
    else ModelMajor(models[..|models| - 1], items, cell) + PerModel(models[|models| - 1], items, cell)
  }

  /** One more model: kept or not according to the gate. */
  lemma KeptStep(models: seq<string>, i: nat, pass: string -> bool)
    requires i < |models|
    ensures Kept(models[..i + 1], pass) == Kept(models[..i], pass) + (if pass(models[i]) then [models[i]] else [])
  {
    assert models[..i + 1][..i] == models[..i];
  }

  /** One more item: its row comes last. */
  lemma PerModelStep<T, R>(model: string, items: seq<T>, j: nat, cell: (string, T) -> R)
    requires j < |items|
    ensures PerModel(model, items[..j + 1], cell) == PerModel(model, items[..j], cell) + [cell(model, items[j])]
  {
    assert items[..j + 1][..j] == items[..j];
  }

  /** One more kept model: its rows come last. */
  lemma ModelMajorSnoc<T, R>(models: seq<string>, model: string, items: seq<T>, cell: (string, T) -> R)
    ensures ModelMajor(models + [model], items, cell) == ModelMajor(models, items, cell) + PerModel(model, items, cell)
  {
    assert (models + [model])[..|models|] == models;
  }

  /** A model is kept exactly when it is listed and passes the gate, and no more models are kept than listed. */
  lemma {:induction false} KeptMembers(models: seq<string>, pass: string -> bool)
    ensures |Kept(models, pass)| <= |models|
    ensures forall m :: m in Kept(models, pass) <==> m in models && pass(m)
  {
    if |models| > 0 {
      var pre := models[..|models| - 1];
      KeptMembers(pre, pass);
      assert models == pre + [models[|models| - 1]];
    }
  }

  /** With a gate that passes every listed model, no model is skipped. */
  lemma {:induction false} KeptAll(models: seq<string>, pass: string -> bool)
    requires forall k :: 0 <= k < |models| ==> pass(models[k])
    ensures Kept(models, pass) == models
  {
    if |models| > 0 {
      var pre := models[..|models| - 1];
      KeptAll(pre, pass);
      assert models == pre + [models[|models| - 1]];
    }
  }

  /** One model's rows: as many as items, the `j`-th built from the `j`-th item. */
  lemma {:induction false} PerModelAt<T, R>(model: string, items: seq<T>, cell: (string, T) -> R)
    ensures |PerModel(model, items, cell)| == |items|
    ensures forall j :: 0 <= j < |items| ==> PerModel(model, items, cell)[j] == cell(model, items[j])
  {
    if |items| > 0 {
      PerModelAt(model, items[..|items| - 1], cell);
    }
  }

  /** The number of rows is the number of models times the number of items. */
  lemma {:induction false} ModelMajorLength<T, R>(models: seq<string>, items: seq<T>, cell: (string, T) -> R)
    ensures |ModelMajor(models, items, cell)| == |models| * |items|
  {
    if |models| > 0 {
      ModelMajorLength(models[..|models| - 1], items, cell);
      PerModelAt(models[|models| - 1], items, cell);
      assert (|models| - 1) * |items| + |items| == |models| * |items|;
    }
  }

  /** An index of the first `i` blocks of `len` rows lies before the `n`-th block when `i < n`. */
  lemma BlockIndexBound(i: nat, n: nat, len: nat, j: nat)
    requires i < n && j < len
    ensures i * len + j < n * len
  {
    assert (i + 1) * len <= n * len;
  }

  /** Row `i * |items| + j` belongs to the `i`-th model and the `j`-th item: the order is model-major. */
  lemma {:induction false} ModelMajorAt<T, R>(models: seq<string>, items: seq<T>, cell: (string, T) -> R, i: nat, j: nat)
    requires i < |models| && j < |items|
    ensures i * |items| + j < |ModelMajor(models, items, cell)|
    ensures ModelMajor(models, items, cell)[i * |items| + j] == cell(models[i], items[j])
  {
    var n := |models| - 1;
    var len := |items|;
    var pre := models[..n];
    var head := ModelMajor(pre, items, cell);
    var last := PerModel(models[n], items, cell);
    assert ModelMajor(models, items, cell) == head + last;
    ModelMajorLength(pre, items, cell);
    PerModelAt(models[n], items, cell);
    assert |head| == n * len;
    if i < n {
      ModelMajorAt(pre, items, cell, i, j);
      BlockIndexBound(i, n, len, j);
      assert pre[i] == models[i];
    } else {
      assert i * len + j == |head| + j;
    }
  }
}
