/** Result extraction after an optimal solve: the nested loops that read
    each variable's value and keep those above the noise floor. */
module Extraction {
  import opened Seqs
  import opened Records
  import opened Formulation

  /** Values at or below this are dropped, as is a variable without a value. */
  const NOISE_FLOOR: real := 0.000001

  /** One element of `shipments`, `inventory`, `shortages` or `waste`: the key
      fields and the quantity. */
  datatype Entry<K> = Entry(key: K, quantity: real)

  predicate Keeps<K(==)>(values: map<K, real>, k: K) {
    k in values && values[k] > NOISE_FLOOR
  }

  /** The entry of one key: present and above the noise floor, or nothing. */
  function KeptOne<K(==)>(k: K, values: map<K, real>): seq<Entry<K>> {
    if Keeps(values, k) then [Entry(k, values[k])] else []
  }

  /** The entries of the keys in `keys`, in that order, whose value exists and
      exceeds the noise floor. */
  function Kept<K(==)>(keys: seq<K>, values: map<K, real>): seq<Entry<K>> {
    if keys == [] then [] else KeptOne(keys[0], values) + Kept(keys[1..], values)
  }

  /** Every entry is a listed key with a value above the noise floor, carrying
      that value; every such key has its entry. */
  lemma {:induction false} KeptIsExactlyTheKeptKeys<K>(keys: seq<K>, values: map<K, real>)
    ensures forall n :: 0 <= n < |Kept(keys, values)| ==>
              var e := Kept(keys, values)[n];
              e.key in keys && Keeps(values, e.key) && e.quantity == values[e.key]
    ensures forall k :: k in keys && Keeps(values, k) ==> Entry(k, values[k]) in Kept(keys, values)
  {
    if keys != [] {
      KeptIsExactlyTheKeptKeys(keys[1..], values);
      assert forall k :: k in keys ==> k == keys[0] || k in keys[1..];
    }
  }

  lemma {:induction false} KeptConcat<K>(s: seq<K>, t: seq<K>, values: map<K, real>)
    ensures Kept(s + t, values) == Kept(s, values) + Kept(t, values)
  {
    if s == [] {
      assert s + t == t;
    } else {
      assert (s + t)[0] == s[0] && (s + t)[1..] == s[1..] + t;
      KeptConcat(s[1..], t, values);
    }
  }

  /** One step of a loop whose accumulator `out` holds `acc` and then the
      entries of `done`. */
  lemma KeptStep<K>(acc: seq<Entry<K>>, out: seq<Entry<K>>, done: seq<K>, next: seq<K>, values: map<K, real>)
    requires out == acc + Kept(done, values)
    ensures out + Kept(next, values) == acc + Kept(done + next, values)
  {
    KeptConcat(done, next, values);
  }

  /** The entries keep the order of the key listing. */
  lemma {:induction false} KeptFollowsListing<K>(keys: seq<K>, values: map<K, real>)
    requires NoDups(keys)
    ensures forall a, b :: 0 <= a < b < |Kept(keys, values)| ==> InOrder(keys, Kept(keys, values)[a], Kept(keys, values)[b])
  {
    if keys != [] {
      var k, rest := keys[0], keys[1..];
      var one, r0, r := KeptOne(k, values), Kept(rest, values), Kept(keys, values);
      NoDupsTail(keys);
      KeptFollowsListing(rest, values);
      KeptIsExactlyTheKeptKeys(rest, values);
      assert r == one + r0;
      forall a, b | 0 <= a < b < |r| ensures InOrder(keys, r[a], r[b]) {
        var y := r0[b - |one|];
        assert r[b] == y && y.key in rest;
        IndexOfTail(keys, y.key);
        if a < |one| {
          assert r[a].key == k;
        } else {
          var x := r0[a - |one|];
          assert r[a] == x && x.key in rest;
          assert InOrder(rest, x, y);
          IndexOfTail(keys, x.key);
        }
      }
    }
  }

  /** Entry `e` comes before entry `f` in the listing `keys`. */
  predicate InOrder<K(==)>(keys: seq<K>, e: Entry<K>, f: Entry<K>) {
    e.key in keys && f.key in keys && IndexOf(keys, e.key) < IndexOf(keys, f.key)
  }

  lemma NoDupsTail<T>(s: seq<T>)
    requires s != [] && NoDups(s)
    ensures NoDups(s[1..])
  {
    forall a, b | 0 <= a < b < |s| - 1 ensures s[1..][a] != s[1..][b] {
      assert s[1..][a] == s[a + 1] && s[1..][b] == s[b + 1];
    }
  }

  lemma IndexOfTail<T>(s: seq<T>, x: T)
    requires s != [] && NoDups(s) && x in s[1..]
    ensures x in s && IndexOf(s, x) == 1 + IndexOf(s[1..], x)
  {
    var m :| 0 <= m < |s| - 1 && s[1..][m] == x;
    assert s[m + 1] == x;
  }

  // ---------------------------------------------------------------------------
  // Key listings in the order of the nested loops of `solve_optimization`

  /** `for t in weeks` inside the plant, center and drug loops. */
  function WeekShipKeys(i: Plant, j: Center, k: Drug, ws: seq<Week>): seq<ShipKey>
  {
    if ws == [] then []
    else
      assert ws == ws[..|ws| - 1] + [ws[|ws| - 1]];
      WeekShipKeys(i, j, k, ws[..|ws| - 1]) + [(i, j, k, ws[|ws| - 1])]
  }

  function DrugShipKeys(i: Plant, j: Center, ds: seq<Drug>, ws: seq<Week>): seq<ShipKey>
  {
    if ds == [] then []
    else
      assert ds == ds[..|ds| - 1] + [ds[|ds| - 1]];
      DrugShipKeys(i, j, ds[..|ds| - 1], ws) + WeekShipKeys(i, j, ds[|ds| - 1], ws)
  }

  function CenterShipKeys(i: Plant, cs: seq<Center>, ds: seq<Drug>, ws: seq<Week>): seq<ShipKey>
  {
    if cs == [] then []
    else
      assert cs == cs[..|cs| - 1] + [cs[|cs| - 1]];
      CenterShipKeys(i, cs[..|cs| - 1], ds, ws) + DrugShipKeys(i, cs[|cs| - 1], ds, ws)
  }

  /** `for i in plants for j in centers for k in drugs for t in weeks` */
  function ShipKeys(ps: seq<Plant>, cs: seq<Center>, ds: seq<Drug>, ws: seq<Week>): seq<ShipKey>
  {
    if ps == [] then []
    else
      assert ps == ps[..|ps| - 1] + [ps[|ps| - 1]];
      ShipKeys(ps[..|ps| - 1], cs, ds, ws) + CenterShipKeys(ps[|ps| - 1], cs, ds, ws)
  }

  /** `for t in weeks` inside the center and drug loops. */
  function WeekCellKeys(j: Center, k: Drug, ws: seq<Week>): seq<CellKey>
  {
    if ws == [] then []
    else
      assert ws == ws[..|ws| - 1] + [ws[|ws| - 1]];
      WeekCellKeys(j, k, ws[..|ws| - 1]) + [(j, k, ws[|ws| - 1])]
  }

  function DrugCellKeys(j: Center, ds: seq<Drug>, ws: seq<Week>): seq<CellKey>
  {
    if ds == [] then []
    else
      assert ds == ds[..|ds| - 1] + [ds[|ds| - 1]];
      DrugCellKeys(j, ds[..|ds| - 1], ws) + WeekCellKeys(j, ds[|ds| - 1], ws)
  }

  /** `for j in centers for k in drugs for t in weeks` */
  function CellKeys(cs: seq<Center>, ds: seq<Drug>, ws: seq<Week>): seq<CellKey>
  {
    if cs == [] then []
    else
      assert cs == cs[..|cs| - 1] + [cs[|cs| - 1]];
      CellKeys(cs[..|cs| - 1], ds, ws) + DrugCellKeys(cs[|cs| - 1], ds, ws)
  }

  // ---------------------------------------------------------------------------
  // What the listings hold: every grid point once

  lemma {:induction false} WeekShipKeysMembers(i: Plant, j: Center, k: Drug, ws: seq<Week>)
    ensures forall key :: key in WeekShipKeys(i, j, k, ws) <==> key.0 == i && key.1 == j && key.2 == k && key.3 in ws
  {
    if ws != [] {
      var init := ws[..|ws| - 1];
      assert ws == init + [ws[|ws| - 1]];
      WeekShipKeysMembers(i, j, k, init);
    }
  }

  lemma {:induction false} DrugShipKeysMembers(i: Plant, j: Center, ds: seq<Drug>, ws: seq<Week>)
    ensures forall key :: key in DrugShipKeys(i, j, ds, ws) <==> key.0 == i && key.1 == j && key.2 in ds && key.3 in ws
  {
    if ds != [] {
      var init := ds[..|ds| - 1];
      assert ds == init + [ds[|ds| - 1]];
      DrugShipKeysMembers(i, j, init, ws);
      WeekShipKeysMembers(i, j, ds[|ds| - 1], ws);
    }
  }

  lemma {:induction false} CenterShipKeysMembers(i: Plant, cs: seq<Center>, ds: seq<Drug>, ws: seq<Week>)
    ensures forall key :: key in CenterShipKeys(i, cs, ds, ws) <==> key.0 == i && key.1 in cs && key.2 in ds && key.3 in ws
  {
    if cs != [] {
      var init := cs[..|cs| - 1];
      assert cs == init + [cs[|cs| - 1]];
      CenterShipKeysMembers(i, init, ds, ws);
      DrugShipKeysMembers(i, cs[|cs| - 1], ds, ws);
    }
  }

  /** The shipment listing visits exactly the points of the plant, center,
      drug and week grid. */
  lemma {:induction false} ShipKeysMembers(ps: seq<Plant>, cs: seq<Center>, ds: seq<Drug>, ws: seq<Week>)
    ensures forall key :: key in ShipKeys(ps, cs, ds, ws) <==> key.0 in ps && key.1 in cs && key.2 in ds && key.3 in ws
  {
    if ps != [] {
      var init := ps[..|ps| - 1];
      assert ps == init + [ps[|ps| - 1]];
      ShipKeysMembers(init, cs, ds, ws);
      CenterShipKeysMembers(ps[|ps| - 1], cs, ds, ws);
    }
  }

  lemma {:induction false} WeekCellKeysMembers(j: Center, k: Drug, ws: seq<Week>)
    ensures forall cell :: cell in WeekCellKeys(j, k, ws) <==> cell.0 == j && cell.1 == k && cell.2 in ws
  {
    if ws != [] {
      var init := ws[..|ws| - 1];
      assert ws == init + [ws[|ws| - 1]];
      WeekCellKeysMembers(j, k, init);
    }
  }

  lemma {:induction false} DrugCellKeysMembers(j: Center, ds: seq<Drug>, ws: seq<Week>)
    ensures forall cell :: cell in DrugCellKeys(j, ds, ws) <==> cell.0 == j && cell.1 in ds && cell.2 in ws
  {
    if ds != [] {
      var init := ds[..|ds| - 1];
      assert ds == init + [ds[|ds| - 1]];
      DrugCellKeysMembers(j, init, ws);
      WeekCellKeysMembers(j, ds[|ds| - 1], ws);
    }
  }

  /** The cell listing visits exactly the points of the center, drug and week
      grid. */
  lemma {:induction false} CellKeysMembers(cs: seq<Center>, ds: seq<Drug>, ws: seq<Week>)
    ensures forall cell :: cell in CellKeys(cs, ds, ws) <==> cell.0 in cs && cell.1 in ds && cell.2 in ws
  {
    if cs != [] {
      var init := cs[..|cs| - 1];
      assert cs == init + [cs[|cs| - 1]];
      CellKeysMembers(init, ds, ws);
      DrugCellKeysMembers(cs[|cs| - 1], ds, ws);
    }
  }

  lemma {:induction false} WeekShipKeysNoDups(i: Plant, j: Center, k: Drug, ws: seq<Week>)
    requires NoDups(ws)
    ensures NoDups(WeekShipKeys(i, j, k, ws))
  {
    if ws != [] {
      var init, t := ws[..|ws| - 1], ws[|ws| - 1];
      assert ws == init + [t];
      NoDupsPrefix(ws);
      WeekShipKeysNoDups(i, j, k, init);
      WeekShipKeysMembers(i, j, k, init);
      NoDupsConcat(WeekShipKeys(i, j, k, init), [(i, j, k, t)]);
    }
  }

  lemma {:induction false} DrugShipKeysNoDups(i: Plant, j: Center, ds: seq<Drug>, ws: seq<Week>)
    requires NoDups(ds) && NoDups(ws)
    ensures NoDups(DrugShipKeys(i, j, ds, ws))
  {
    if ds != [] {
      var init, k := ds[..|ds| - 1], ds[|ds| - 1];
      assert ds == init + [k];
      NoDupsPrefix(ds);
      DrugShipKeysNoDups(i, j, init, ws);
      WeekShipKeysNoDups(i, j, k, ws);
      DrugShipKeysMembers(i, j, init, ws);
      WeekShipKeysMembers(i, j, k, ws);
      NoDupsConcat(DrugShipKeys(i, j, init, ws), WeekShipKeys(i, j, k, ws));
    }
  }

  lemma {:induction false} CenterShipKeysNoDups(i: Plant, cs: seq<Center>, ds: seq<Drug>, ws: seq<Week>)
    requires NoDups(cs) && NoDups(ds) && NoDups(ws)
    ensures NoDups(CenterShipKeys(i, cs, ds, ws))
  {
    if cs != [] {
      var init, j := cs[..|cs| - 1], cs[|cs| - 1];
      assert cs == init + [j];
      NoDupsPrefix(cs);
      CenterShipKeysNoDups(i, init, ds, ws);
      DrugShipKeysNoDups(i, j, ds, ws);
      CenterShipKeysMembers(i, init, ds, ws);
      DrugShipKeysMembers(i, j, ds, ws);
      NoDupsConcat(CenterShipKeys(i, init, ds, ws), DrugShipKeys(i, j, ds, ws));
    }
  }

  /** With repeat-free index lists, no shipment variable is listed twice, so
      by `KeptFollowsListing` the shipments come in loop order. */
  lemma {:induction false} ShipKeysNoDups(ps: seq<Plant>, cs: seq<Center>, ds: seq<Drug>, ws: seq<Week>)
    requires NoDups(ps) && NoDups(cs) && NoDups(ds) && NoDups(ws)
    ensures NoDups(ShipKeys(ps, cs, ds, ws))
  {
    if ps != [] {
      var init, i := ps[..|ps| - 1], ps[|ps| - 1];
      assert ps == init + [i];
      NoDupsPrefix(ps);
      ShipKeysNoDups(init, cs, ds, ws);
      CenterShipKeysNoDups(i, cs, ds, ws);
      ShipKeysMembers(init, cs, ds, ws);
      CenterShipKeysMembers(i, cs, ds, ws);
      NoDupsConcat(ShipKeys(init, cs, ds, ws), CenterShipKeys(i, cs, ds, ws));
    }
  }

  lemma {:induction false} WeekCellKeysNoDups(j: Center, k: Drug, ws: seq<Week>)
    requires NoDups(ws)
    ensures NoDups(WeekCellKeys(j, k, ws))
  {
    if ws != [] {
      var init, t := ws[..|ws| - 1], ws[|ws| - 1];
      assert ws == init + [t];
      NoDupsPrefix(ws);
      WeekCellKeysNoDups(j, k, init);
      WeekCellKeysMembers(j, k, init);
      NoDupsConcat(WeekCellKeys(j, k, init), [(j, k, t)]);
    }
  }

  lemma {:induction false} DrugCellKeysNoDups(j: Center, ds: seq<Drug>, ws: seq<Week>)
    requires NoDups(ds) && NoDups(ws)
    ensures NoDups(DrugCellKeys(j, ds, ws))
  {
    if ds != [] {
      var init, k := ds[..|ds| - 1], ds[|ds| - 1];
      assert ds == init + [k];
      NoDupsPrefix(ds);
      DrugCellKeysNoDups(j, init, ws);
      WeekCellKeysNoDups(j, k, ws);
      DrugCellKeysMembers(j, init, ws);
      WeekCellKeysMembers(j, k, ws);
      NoDupsConcat(DrugCellKeys(j, init, ws), WeekCellKeys(j, k, ws));
    }
  }

  /** With repeat-free index lists, no cell is listed twice. */
  lemma {:induction false} CellKeysNoDups(cs: seq<Center>, ds: seq<Drug>, ws: seq<Week>)
    requires NoDups(cs) && NoDups(ds) && NoDups(ws)
    ensures NoDups(CellKeys(cs, ds, ws))
  {
    if cs != [] {
      var init, j := cs[..|cs| - 1], cs[|cs| - 1];
      assert cs == init + [j];
      NoDupsPrefix(cs);
      CellKeysNoDups(init, ds, ws);
      DrugCellKeysNoDups(j, ds, ws);
      CellKeysMembers(init, ds, ws);
      DrugCellKeysMembers(j, ds, ws);
      NoDupsConcat(CellKeys(init, ds, ws), DrugCellKeys(j, ds, ws));
    }
  }

  lemma NoDupsPrefix<T>(s: seq<T>)
    requires s != [] && NoDups(s)
    ensures NoDups(s[..|s| - 1]) && s[|s| - 1] !in s[..|s| - 1]
  {
  }

  /** The point `key` of the plant, center, drug and week grid. */
  predicate OnShipGrid(p: Params, key: ShipKey) {
    key.0 in p.plants && key.1 in p.centers && key.2 in p.drugs && key.3 in p.weeks
  }

  /** The point `cell` of the center, drug and week grid. */
  predicate OnCellGrid(p: Params, cell: CellKey) {
    cell.0 in p.centers && cell.1 in p.drugs && cell.2 in p.weeks
  }

  /** What a report of `values` over `keys` says: each entry is a listed
      variable with a value above the noise floor, every such variable has
      its entry, and no variable is reported twice. */
  predicate Reports<K(==)>(r: seq<Entry<K>>, keys: seq<K>, values: map<K, real>) {
    (forall n :: 0 <= n < |r| ==> r[n].key in keys && Keeps(values, r[n].key) && r[n].quantity == values[r[n].key])
    && (forall k :: k in keys && Keeps(values, k) ==> Entry(k, values[k]) in r)
    && (forall m, n :: 0 <= m < n < |r| ==> r[m].key != r[n].key)
  }

  lemma KeptReports<K>(keys: seq<K>, values: map<K, real>)
    requires NoDups(keys)
    ensures Reports(Kept(keys, values), keys, values)
  {
    var r := Kept(keys, values);
    KeptIsExactlyTheKeptKeys(keys, values);
    KeptFollowsListing(keys, values);
    forall m, n | 0 <= m < n < |r| ensures r[m].key != r[n].key {
      assert InOrder(keys, r[m], r[n]);
    }
  }

  /** The shipment report lists every shipment variable of the grid whose
      value is present and above the noise floor, each once, with its value. */
  lemma ShipmentsAboveNoiseFloorReportedOnce(p: Params, a: Assignment)
    requires NoDups(p.plants) && NoDups(p.centers) && NoDups(p.drugs) && StrictlyIncreasing(p.weeks)
    ensures var keys := ShipKeys(p.plants, p.centers, p.drugs, p.weeks);
            Reports(Kept(keys, a.ship), keys, a.ship) &&
            forall key :: key in keys <==> OnShipGrid(p, key)
  {
    IncreasingHasNoDups(p.weeks);
    ShipKeysNoDups(p.plants, p.centers, p.drugs, p.weeks);
    ShipKeysMembers(p.plants, p.centers, p.drugs, p.weeks);
    KeptReports(ShipKeys(p.plants, p.centers, p.drugs, p.weeks), a.ship);
  }

  /** The inventory, shortage and waste reports list every variable of the
      cell grid whose value is present and above the noise floor, each once,
      with its value. */
  lemma CellsAboveNoiseFloorReportedOnce(p: Params, values: map<CellKey, real>)
    requires NoDups(p.centers) && NoDups(p.drugs) && StrictlyIncreasing(p.weeks)
    ensures var keys := CellKeys(p.centers, p.drugs, p.weeks);
            Reports(Kept(keys, values), keys, values) &&
            forall cell :: cell in keys <==> OnCellGrid(p, cell)
  {
    IncreasingHasNoDups(p.weeks);
    CellKeysNoDups(p.centers, p.drugs, p.weeks);
    CellKeysMembers(p.centers, p.drugs, p.weeks);
    KeptReports(CellKeys(p.centers, p.drugs, p.weeks), values);
  }

  // ---------------------------------------------------------------------------
  // The extraction loops

  /** `val = var.value()` then `if val is not None and val > 1e-6: append`. */
  method AppendIfKept<K>(acc: seq<Entry<K>>, k: K, values: map<K, real>) returns (out: seq<Entry<K>>)
    ensures out == acc + Kept([k], values)
  {
    KeptSingle(k, values);
    out := acc;
    if k in values && values[k] > NOISE_FLOOR {
      out := out + [Entry(k, values[k])];
    }
  }

  lemma KeptSingle<K>(k: K, values: map<K, real>)
    ensures Kept([k], values) == KeptOne(k, values)
  {
    assert [k][1..] == [];
  }

  /** Fills `shipments` in plant, center, drug, week order. */
  method ExtractShipments(p: Params, a: Assignment) returns (shipments: seq<Entry<ShipKey>>)
    ensures shipments == Kept(ShipKeys(p.plants, p.centers, p.drugs, p.weeks), a.ship)
  {
    var ps := p.plants;
    shipments := [];
    var x := 0;
    while x < |ps|
      invariant x <= |ps|
      invariant shipments == Kept(ShipKeys(ps[..x], p.centers, p.drugs, p.weeks), a.ship)
    {
      KeptConcat(ShipKeys(ps[..x], p.centers, p.drugs, p.weeks), CenterShipKeys(ps[x], p.centers, p.drugs, p.weeks), a.ship);
      assert ps[..x + 1][..x] == ps[..x];
      shipments := AppendPlantShipments(shipments, a, ps[x], p.centers, p.drugs, p.weeks);
      x := x + 1;
    }
    assert ps[..x] == ps;
  }

  /** The center loop inside the plant loop. */
  method AppendPlantShipments(acc: seq<Entry<ShipKey>>, a: Assignment, i: Plant, cs: seq<Center>, ds: seq<Drug>, ws: seq<Week>)
    returns (out: seq<Entry<ShipKey>>)
    ensures out == acc + Kept(CenterShipKeys(i, cs, ds, ws), a.ship)
  {
    out := acc;
    var y := 0;
    while y < |cs|
      invariant y <= |cs|
      invariant out == acc + Kept(CenterShipKeys(i, cs[..y], ds, ws), a.ship)
    {
      KeptStep(acc, out, CenterShipKeys(i, cs[..y], ds, ws), DrugShipKeys(i, cs[y], ds, ws), a.ship);
      assert cs[..y + 1][..y] == cs[..y];
      out := AppendCenterShipments(out, a, i, cs[y], ds, ws);
      y := y + 1;
    }
    assert cs[..y] == cs;
  }

  /** The drug loop inside the center loop. */
  method AppendCenterShipments(acc: seq<Entry<ShipKey>>, a: Assignment, i: Plant, j: Center, ds: seq<Drug>, ws: seq<Week>)
    returns (out: seq<Entry<ShipKey>>)
    ensures out == acc + Kept(DrugShipKeys(i, j, ds, ws), a.ship)
  {
    out := acc;
    var z := 0;
    while z < |ds|
      invariant z <= |ds|
      invariant out == acc + Kept(DrugShipKeys(i, j, ds[..z], ws), a.ship)
    {
      KeptStep(acc, out, DrugShipKeys(i, j, ds[..z], ws), WeekShipKeys(i, j, ds[z], ws), a.ship);
      assert ds[..z + 1][..z] == ds[..z];
      out := AppendDrugShipments(out, a, i, j, ds[z], ws);
      z := z + 1;
    }
    assert ds[..z] == ds;
  }

  /** The week loop: reads `x[i][j][k][t]` and appends its value when it is
      present and above the noise floor. */
  method AppendDrugShipments(acc: seq<Entry<ShipKey>>, a: Assignment, i: Plant, j: Center, k: Drug, ws: seq<Week>)
    returns (out: seq<Entry<ShipKey>>)
    ensures out == acc + Kept(WeekShipKeys(i, j, k, ws), a.ship)
  {
    out := acc;
    var w := 0;
    while w < |ws|
      invariant w <= |ws|
      invariant out == acc + Kept(WeekShipKeys(i, j, k, ws[..w]), a.ship)
    {
      var key: ShipKey := (i, j, k, ws[w]);
      KeptStep(acc, out, WeekShipKeys(i, j, k, ws[..w]), [key], a.ship);
      assert ws[..w + 1][..w] == ws[..w];
      out := AppendIfKept(out, key, a.ship);
      w := w + 1;
    }
    assert ws[..w] == ws;
  }

  /** Fills `inventory`, `shortages` and `waste` in one center, drug, week
      loop nest. */
  method ExtractCells(p: Params, a: Assignment)
    returns (inventory: seq<Entry<CellKey>>, shortages: seq<Entry<CellKey>>, waste: seq<Entry<CellKey>>)
    ensures inventory == Kept(CellKeys(p.centers, p.drugs, p.weeks), a.inv)
    ensures shortages == Kept(CellKeys(p.centers, p.drugs, p.weeks), a.short)
    ensures waste == Kept(CellKeys(p.centers, p.drugs, p.weeks), a.expire)
  {
    var cs := p.centers;
    inventory, shortages, waste := [], [], [];
    var y := 0;
    while y < |cs|
      invariant y <= |cs|
      invariant inventory == Kept(CellKeys(cs[..y], p.drugs, p.weeks), a.inv)
      invariant shortages == Kept(CellKeys(cs[..y], p.drugs, p.weeks), a.short)
      invariant waste == Kept(CellKeys(cs[..y], p.drugs, p.weeks), a.expire)
    {
      var done, next := CellKeys(cs[..y], p.drugs, p.weeks), DrugCellKeys(cs[y], p.drugs, p.weeks);
      KeptConcat(done, next, a.inv);
      KeptConcat(done, next, a.short);
      KeptConcat(done, next, a.expire);
      assert cs[..y + 1][..y] == cs[..y];
      assert CellKeys(cs[..y + 1], p.drugs, p.weeks) == done + next;
      inventory, shortages, waste := AppendCenterCells(inventory, shortages, waste, a, cs[y], p.drugs, p.weeks);
      y := y + 1;
    }
    assert cs[..y] == cs;
  }

  /** The drug loop inside the center loop. */
  method AppendCenterCells(inv0: seq<Entry<CellKey>>, short0: seq<Entry<CellKey>>, waste0: seq<Entry<CellKey>>,
                           a: Assignment, j: Center, ds: seq<Drug>, ws: seq<Week>)
    returns (inventory: seq<Entry<CellKey>>, shortages: seq<Entry<CellKey>>, waste: seq<Entry<CellKey>>)
    ensures inventory == inv0 + Kept(DrugCellKeys(j, ds, ws), a.inv)
    ensures shortages == short0 + Kept(DrugCellKeys(j, ds, ws), a.short)
    ensures waste == waste0 + Kept(DrugCellKeys(j, ds, ws), a.expire)
  {
    inventory, shortages, waste := inv0, short0, waste0;
    var z := 0;
    while z < |ds|
      invariant z <= |ds|
      invariant inventory == inv0 + Kept(DrugCellKeys(j, ds[..z], ws), a.inv)
      invariant shortages == short0 + Kept(DrugCellKeys(j, ds[..z], ws), a.short)
      invariant waste == waste0 + Kept(DrugCellKeys(j, ds[..z], ws), a.expire)
    {
      var done, next := DrugCellKeys(j, ds[..z], ws), WeekCellKeys(j, ds[z], ws);
      KeptStep(inv0, inventory, done, next, a.inv);
      KeptStep(short0, shortages, done, next, a.short);
      KeptStep(waste0, waste, done, next, a.expire);
      assert ds[..z + 1][..z] == ds[..z];
      assert DrugCellKeys(j, ds[..z + 1], ws) == done + next;
      inventory, shortages, waste := AppendDrugCells(inventory, shortages, waste, a, j, ds[z], ws);
      z := z + 1;
    }
    assert ds[..z] == ds;
  }

  /** The week loop: reads the inventory, shortage and expiry variables of
      one cell and appends each value that is present and above the noise
      floor. */
  method AppendDrugCells(inv0: seq<Entry<CellKey>>, short0: seq<Entry<CellKey>>, waste0: seq<Entry<CellKey>>,
                         a: Assignment, j: Center, k: Drug, ws: seq<Week>)
    returns (inventory: seq<Entry<CellKey>>, shortages: seq<Entry<CellKey>>, waste: seq<Entry<CellKey>>)
    ensures inventory == inv0 + Kept(WeekCellKeys(j, k, ws), a.inv)
    ensures shortages == short0 + Kept(WeekCellKeys(j, k, ws), a.short)
    ensures waste == waste0 + Kept(WeekCellKeys(j, k, ws), a.expire)
  {
    inventory, shortages, waste := inv0, short0, waste0;
    var w := 0;
    while w < |ws|
      invariant w <= |ws|
      invariant inventory == inv0 + Kept(WeekCellKeys(j, k, ws[..w]), a.inv)
      invariant shortages == short0 + Kept(WeekCellKeys(j, k, ws[..w]), a.short)
      invariant waste == waste0 + Kept(WeekCellKeys(j, k, ws[..w]), a.expire)
    {
      var cell: CellKey := (j, k, ws[w]);
      var done := WeekCellKeys(j, k, ws[..w]);
      KeptStep(inv0, inventory, done, [cell], a.inv);
      KeptStep(short0, shortages, done, [cell], a.short);
      KeptStep(waste0, waste, done, [cell], a.expire);
      assert ws[..w + 1][..w] == ws[..w];
      assert WeekCellKeys(j, k, ws[..w + 1]) == done + [cell];
      inventory := AppendIfKept(inventory, cell, a.inv);
      shortages := AppendIfKept(shortages, cell, a.short);
      waste := AppendIfKept(waste, cell, a.expire);
      w := w + 1;
    }
    assert ws[..w] == ws;
  }
}
