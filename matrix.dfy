/** The model × app task matrix and the order every loop over it uses:
    model-major, apps in their given order within each model. */
module Matrix {
  /** A (model, app) cell. */
  type Cell = (string, string)

  /** The cells of one model, in app order. */
  function Row(model: string, apps: seq<string>): (r: seq<Cell>)
    ensures |r| == |apps|
    ensures forall j :: 0 <= j < |apps| ==> r[j] == (model, apps[j])
  {
    seq(|apps|, j requires 0 <= j < |apps| => (model, apps[j]))
  }

  /** All cells, model-major: `for model in models: for app in apps`. */
  function CellOrder(models: seq<string>, apps: seq<string>): (r: seq<Cell>)
    ensures |r| == |models| * |apps|
    decreases |models|
  {
    if models == [] then []
    else CellOrder(models[..|models| - 1], apps) + Row(models[|models| - 1], apps)
  }

  /** The cells visited before model `i`, then the first `j` apps of model
      `i`, extended by one more app. */
  lemma VisitNext(models: seq<string>, apps: seq<string>, i: nat, j: nat)
    requires i < |models| && j < |apps|
    ensures CellOrder(models[..i], apps) + Row(models[i], apps)[..j + 1]
         == (CellOrder(models[..i], apps) + Row(models[i], apps)[..j]) + [(models[i], apps[j])]
  {
    var row := Row(models[i], apps);
    assert row[..j + 1] == row[..j] + [row[j]];
  }

  /** Finishing model `i`'s row finishes the first `i + 1` models. */
  lemma VisitRow(models: seq<string>, apps: seq<string>, i: nat)
    requires i < |models|
    ensures CellOrder(models[..i], apps) + Row(models[i], apps)[..|apps|] == CellOrder(models[..i + 1], apps)
    ensures CellOrder(models[..i], apps) + Row(models[i], apps)[..0] == CellOrder(models[..i], apps)
  {
    assert models[..i + 1][..i] == models[..i];
    assert Row(models[i], apps)[..|apps|] == Row(models[i], apps);
  }

  /** Model `i` and app `j` sit at position `i * |apps| + j`. */
  lemma {:induction false} CellOrderIndex(models: seq<string>, apps: seq<string>, i: nat, j: nat)
    requires i < |models| && j < |apps|
    ensures i * |apps| + j < |CellOrder(models, apps)|
    ensures CellOrder(models, apps)[i * |apps| + j] == (models[i], apps[j])
    decreases |models|
  {
    var n := |models| - 1;
    var front := models[..n];
    assert |CellOrder(front, apps)| == n * |apps|;
    if i < n {
      CellOrderIndex(front, apps, i, j);
      assert i * |apps| + j < n * |apps| by {
        assert (i + 1) * |apps| <= n * |apps| by { MulMonotone(i + 1, n, |apps|); }
      }
    } else {
      assert i * |apps| + j == n * |apps| + j;
    }
  }

  lemma MulMonotone(a: nat, b: nat, c: nat)
    requires a <= b
    ensures a * c <= b * c
  {
  }

  /** A cell is in the order exactly when its model and its app are listed. */
  lemma {:induction false} CellOrderMembership(models: seq<string>, apps: seq<string>, c: Cell)
    ensures c in CellOrder(models, apps) <==> c.0 in models && c.1 in apps
    decreases |models|
  {
    if models != [] {
      var n := |models| - 1;
      var front := models[..n];
      CellOrderMembership(front, apps, c);
      assert models == front + [models[n]];
      var row := Row(models[n], apps);
      if c in row {
        var j :| 0 <= j < |row| && row[j] == c;
        assert c.1 == apps[j];
      }
      if c.0 == models[n] && c.1 in apps {
        var j :| 0 <= j < |apps| && apps[j] == c.1;
        assert row[j] == c;
      }
    }
  }
}
