/** Service recipes: which material a service uses, and how a sale draws on it. */
module Materials {
  import opened Common
  import opened Tables
  import opened Stock

  /** The live recipe rows of a service, oldest first. */
  function ListMaterials(rows: seq<MaterialRow>, service: nat): seq<MaterialRow> {
    if |rows| == 0 then []
    else
      var r := rows[|rows| - 1];
      ListMaterials(rows[..|rows| - 1], service)
      + if r.service == service && !r.deleted then [r] else []
  }

  // ---------- what a sale line draws ----------

  /** Units of the row's material that `qty` units of the service use. */
  function Need(row: MaterialRow, qty: real): real {
    row.quantity * qty
  }

  function MaterialDraws(products: map<nat, Product>, recipe: seq<MaterialRow>, qty: real): seq<Draw> {
    if |recipe| == 0 then []
    else
      var r := recipe[|recipe| - 1];
      MaterialDraws(products, recipe[..|recipe| - 1], qty)
      + TrackedDraw(products, r.material, Need(r, qty))
  }

  lemma MaterialStep(products: map<nat, Product>, recipe: seq<MaterialRow>, i: nat, qty: real)
    requires i < |recipe|
    ensures MaterialDraws(products, recipe[..i + 1], qty) ==
            MaterialDraws(products, recipe[..i], qty) + TrackedDraw(products, recipe[i].material, Need(recipe[i], qty))
  {
    var r := recipe[..i + 1];
    assert r[..|r| - 1] == recipe[..i] && r[|r| - 1] == recipe[i];
  }

  lemma WholeRecipe(recipe: seq<MaterialRow>)
    ensures recipe[..|recipe|] == recipe
  {
  }

  lemma NeedNatural(row: MaterialRow, qty: real)
    requires row.quantity > 0.0 && qty >= 0.0
    ensures Need(row, qty) >= 0.0
  {
  }

  /** A service draws its materials, a tracked product itself, a missing product nothing. */
  function LineDraws(products: map<nat, Product>, rows: seq<MaterialRow>, p: nat, qty: real): seq<Draw> {
    if p !in products then []
    else if products[p].itemType == SERVICE then MaterialDraws(products, ListMaterials(rows, p), qty)
    else TrackedDraw(products, p, qty)
  }

  function Draws(products: map<nat, Product>, rows: seq<MaterialRow>, lines: seq<Line>): seq<Draw> {
    if |lines| == 0 then []
    else
      var x := lines[|lines| - 1];
      Draws(products, rows, lines[..|lines| - 1]) + LineDraws(products, rows, x.product, x.quantity)
  }

  /** The draws of the part of one line that is not yet refunded. */
  function LineOutstanding(products: map<nat, Product>, rows: seq<MaterialRow>, x: Line): seq<Draw> {
    if x.quantity - x.refunded <= 0.0 then [] else LineDraws(products, rows, x.product, x.quantity - x.refunded)
  }

  function OutstandingDraws(products: map<nat, Product>, rows: seq<MaterialRow>, lines: seq<Line>): seq<Draw> {
    if |lines| == 0 then []
    else
      var x := lines[|lines| - 1];
      OutstandingDraws(products, rows, lines[..|lines| - 1]) + LineOutstanding(products, rows, x)
  }

  // ---------- what a line draws, row by row ----------

  /** A product line draws its quantity from the product itself, if it is tracked. */
  lemma ProductDemand(products: map<nat, Product>, rows: seq<MaterialRow>, p: nat, qty: real, m: nat)
    requires p in products ==> products[p].itemType == PRODUCT
    ensures Demand(LineDraws(products, rows, p, qty), m) ==
            if p in products && products[p].trackStock && m == p then qty else 0.0
  {
    assert [Draw(p, qty)][..0] == [];
  }

  /** A service line draws the row's quantity per unit from the material, if it is tracked. */
  lemma ServiceDemand(products: map<nat, Product>, rows: seq<MaterialRow>, p: nat, qty: real, k: nat, m: nat)
    requires p in products && products[p].itemType == SERVICE && OneLiveRow(rows)
    requires k < |rows| && rows[k].service == p && !rows[k].deleted
    ensures Demand(LineDraws(products, rows, p, qty), m) ==
            if rows[k].material in products && products[rows[k].material].trackStock && m == rows[k].material
            then rows[k].quantity * qty else 0.0
  {
    forall i | 0 <= i < |rows| && i != k && rows[i].service == p ensures rows[i].deleted {
    }
    ListOnly(rows, p, k);
    var recipe, need := [rows[k]], Need(rows[k], qty);
    assert recipe[..0] == [];
    assert MaterialDraws(products, recipe, qty) == TrackedDraw(products, rows[k].material, need);
    assert [Draw(rows[k].material, need)][..0] == [];
  }

  /** A service without a recipe draws nothing. */
  lemma LaborDemand(products: map<nat, Product>, rows: seq<MaterialRow>, p: nat, qty: real, m: nat)
    requires p in products && products[p].itemType == SERVICE
    requires forall i :: 0 <= i < |rows| && rows[i].service == p ==> rows[i].deleted
    ensures Demand(LineDraws(products, rows, p, qty), m) == 0.0
  {
    ListNone(rows, p);
  }

  /** The demands of the lines of a sale add up. */
  lemma LinesDemand(products: map<nat, Product>, rows: seq<MaterialRow>, lines: seq<Line>, x: Line, m: nat)
    ensures Demand(Draws(products, rows, lines + [x]), m) ==
            Demand(Draws(products, rows, lines), m) + Demand(LineDraws(products, rows, x.product, x.quantity), m)
    ensures Demand(Draws(products, rows, []), m) == 0.0
  {
    assert (lines + [x])[..|lines|] == lines;
    DemandAppend(Draws(products, rows, lines), LineDraws(products, rows, x.product, x.quantity), m);
  }

  /** What a partly refunded product line still has out is the rest of its quantity. */
  lemma RestDemand(products: map<nat, Product>, rows: seq<MaterialRow>, x: Line, m: nat)
    requires x.product in products && products[x.product].itemType == PRODUCT && 0.0 <= x.refunded <= x.quantity
    ensures Demand(LineOutstanding(products, rows, x), m) ==
            if products[x.product].trackStock && m == x.product then x.quantity - x.refunded else 0.0
  {
    ProductDemand(products, rows, x.product, x.quantity - x.refunded, m);
  }

  /** The list of a service has its live rows and no others. */
  lemma {:induction false} ListedIff(rows: seq<MaterialRow>, service: nat, r: MaterialRow)
    ensures r in ListMaterials(rows, service) <==> r in rows && r.service == service && !r.deleted
  {
    if |rows| != 0 {
      var n := |rows| - 1;
      ListedIff(rows[..n], service, r);
      assert rows == rows[..n] + [rows[n]];
    }
  }

  ghost predicate PositiveQuantities(rows: seq<MaterialRow>) {
    forall i :: 0 <= i < |rows| ==> rows[i].quantity > 0.0
  }

  /** Lines as finalise finds them: positive quantities, nothing refunded. */
  ghost predicate FreshLines(lines: seq<Line>) {
    forall i :: 0 <= i < |lines| ==> lines[i].quantity > 0.0 && lines[i].refunded == 0.0
  }

  lemma {:induction false} ListedArePositive(rows: seq<MaterialRow>, service: nat)
    requires PositiveQuantities(rows)
    ensures PositiveQuantities(ListMaterials(rows, service))
  {
    if |rows| != 0 {
      ListedArePositive(rows[..|rows| - 1], service);
    }
  }

  lemma {:induction false} MaterialDrawsNatural(products: map<nat, Product>, recipe: seq<MaterialRow>, qty: real)
    requires PositiveQuantities(recipe) && qty >= 0.0
    ensures Natural(MaterialDraws(products, recipe, qty))
  {
    if |recipe| != 0 {
      MaterialDrawsNatural(products, recipe[..|recipe| - 1], qty);
      assert Need(recipe[|recipe| - 1], qty) >= 0.0;
    }
  }

  lemma LineDrawsNatural(products: map<nat, Product>, rows: seq<MaterialRow>, p: nat, qty: real)
    requires PositiveQuantities(rows) && qty >= 0.0
    ensures Natural(LineDraws(products, rows, p, qty))
  {
    ListedArePositive(rows, p);
    MaterialDrawsNatural(products, ListMaterials(rows, p), qty);
  }

  lemma {:induction false} DrawsNatural(products: map<nat, Product>, rows: seq<MaterialRow>, lines: seq<Line>)
    requires PositiveQuantities(rows) && forall i :: 0 <= i < |lines| ==> lines[i].quantity > 0.0
    ensures Natural(Draws(products, rows, lines)) && Natural(OutstandingDraws(products, rows, lines))
  {
    hide LineDraws;
    if |lines| != 0 {
      var x := lines[|lines| - 1];
      DrawsNatural(products, rows, lines[..|lines| - 1]);
      LineDrawsNatural(products, rows, x.product, x.quantity);
      if x.quantity - x.refunded > 0.0 {
        LineDrawsNatural(products, rows, x.product, x.quantity - x.refunded);
      }
    }
  }

  /** Before any refund, everything drawn is outstanding. */
  lemma {:induction false} FreshIsOutstanding(products: map<nat, Product>, rows: seq<MaterialRow>, lines: seq<Line>)
    requires FreshLines(lines)
    ensures OutstandingDraws(products, rows, lines) == Draws(products, rows, lines)
  {
    hide LineDraws;
    if |lines| != 0 {
      FreshIsOutstanding(products, rows, lines[..|lines| - 1]);
    }
  }

  lemma {:induction false} DrawsAppend(products: map<nat, Product>, rows: seq<MaterialRow>, a: seq<Line>, b: seq<Line>)
    ensures Draws(products, rows, a + b) == Draws(products, rows, a) + Draws(products, rows, b)
  {
    if b == [] {
      assert a + b == a;
    } else {
      assert (a + b)[..|a + b| - 1] == a + b[..|b| - 1];
      DrawsAppend(products, rows, a, b[..|b| - 1]);
    }
  }

  /** The order of the sale lines does not change what any product is asked for. */
  lemma {:induction false} LineOrderIsIrrelevant(
    products: map<nat, Product>, rows: seq<MaterialRow>, a: seq<Line>, b: seq<Line>, p: nat)
    requires multiset(a) == multiset(b)
    ensures Demand(Draws(products, rows, a), p) == Demand(Draws(products, rows, b), p)
  {
    if |a| == 0 {
      assert |multiset(b)| == 0;
    } else {
      var x, left, right := TakeOut(a, b);
      LineOrderIsIrrelevant(products, rows, a[..|a| - 1], left + right, p);
      DemandOfLines(products, rows, a[..|a| - 1], [x], p);
      DemandOfLines(products, rows, left, right, p);
      DemandOfLines(products, rows, left, [x], p);
      DemandOfLines(products, rows, left + [x], right, p);
    }
  }

  /** The last element of `a` found in `b`, with what surrounds it there. */
  lemma TakeOut<T>(a: seq<T>, b: seq<T>) returns (x: T, left: seq<T>, right: seq<T>)
    requires |a| > 0 && multiset(a) == multiset(b)
    ensures a == a[..|a| - 1] + [x] && b == left + [x] + right
    ensures multiset(a[..|a| - 1]) == multiset(left + right)
  {
    x := a[|a| - 1];
    assert a == a[..|a| - 1] + [x];
    assert multiset(a) == multiset(a[..|a| - 1]) + multiset([x]);
    assert x in multiset(a);
    assert x in b;
    var k :| 0 <= k < |b| && b[k] == x;
    left, right := b[..k], b[k + 1..];
    assert b == left + [x] + right;
    assert multiset(b) == multiset(left) + multiset([x]) + multiset(right);
    assert multiset(left + right) == multiset(left) + multiset(right);
    Cancel(multiset(a[..|a| - 1]), multiset(left + right), multiset([x]));
  }

  lemma Cancel<T>(a: multiset<T>, b: multiset<T>, c: multiset<T>)
    requires a + c == b + c
    ensures a == b
  {
    assert a == (a + c) - c && b == (b + c) - c;
  }

  lemma DemandOfLines(products: map<nat, Product>, rows: seq<MaterialRow>, a: seq<Line>, b: seq<Line>, p: nat)
    ensures Demand(Draws(products, rows, a + b), p) ==
            Demand(Draws(products, rows, a), p) + Demand(Draws(products, rows, b), p)
  {
    DrawsAppend(products, rows, a, b);
    DemandAppend(Draws(products, rows, a), Draws(products, rows, b), p);
  }

  // ---------- material steps of a sale ----------

  /** Whether some draw, taken on its own, finds its product short. */
  predicate Short(l: Ledger, draws: seq<Draw>) {
    exists i :: 0 <= i < |draws| && LevelOf(l, draws[i].product) < draws[i].qty
  }

  lemma ShortAppend(l: Ledger, a: seq<Draw>, b: seq<Draw>)
    ensures Short(l, a + b) <==> Short(l, a) || Short(l, b)
  {
    if Short(l, a) {
      var i :| 0 <= i < |a| && LevelOf(l, a[i].product) < a[i].qty;
      assert (a + b)[i] == a[i];
    }
    if Short(l, b) {
      var i :| 0 <= i < |b| && LevelOf(l, b[i].product) < b[i].qty;
      assert (a + b)[|a| + i] == b[i];
    }
  }

  /** Refuse a service line when some tracked material is short for it. */
  method CheckMaterialStock(db: Database, service: nat, qty: real) returns (ok: bool)
    ensures ok <==> !Short(db.Shelf(), MaterialDraws(db.products, ListMaterials(db.materials, service), qty))
  {
    var recipe := ListMaterials(db.materials, service);
    ghost var l := db.Shelf();
    for i := 0 to |recipe|
      invariant !Short(l, MaterialDraws(db.products, recipe[..i], qty))
    {
      var row := recipe[i];
      var need := Need(row, qty);
      MaterialStep(db.products, recipe, i, qty);
      ghost var draw := TrackedDraw(db.products, row.material, need);
      ShortAppend(l, MaterialDraws(db.products, recipe[..i], qty), draw);
      if row.material in db.products && db.products[row.material].trackStock {
        var available := if row.material in db.level then db.level[row.material] else 0.0;
        if available < need {
          assert LevelOf(l, draw[0].product) < draw[0].qty;
          ShortPersists(db.products, recipe, i + 1, qty, l);
          return false;
        }
      }
    }
    WholeRecipe(recipe);
    return true;
  }

  lemma {:induction false} ShortPersists(
    products: map<nat, Product>, recipe: seq<MaterialRow>, k: nat, qty: real, l: Ledger)
    requires k <= |recipe| && Short(l, MaterialDraws(products, recipe[..k], qty))
    ensures Short(l, MaterialDraws(products, recipe, qty))
    decreases |recipe| - k
  {
    if k < |recipe| {
      MaterialStep(products, recipe, k, qty);
      ShortAppend(l, MaterialDraws(products, recipe[..k], qty),
                  TrackedDraw(products, recipe[k].material, Need(recipe[k], qty)));
      ShortPersists(products, recipe, k + 1, qty, l);
    } else {
      WholeRecipe(recipe);
    }
  }

  /** Deduct the materials of `qty` units of a service. */
  method DeductMaterialsForSale(db: Database, service: nat, qty: real, sale: nat) returns (ok: bool)
    requires PositiveQuantities(db.materials) && qty >= 0.0
    modifies db`level, db`log
    ensures var draws := MaterialDraws(db.products, ListMaterials(db.materials, service), qty);
            var after := Deduct(old(db.Shelf()), draws, sale);
            && ok == after.Some?
            && (ok ==> db.Shelf() == after.value)
  {
    var recipe := ListMaterials(db.materials, service);
    ListedArePositive(db.materials, service);
    ghost var l := db.Shelf();
    for i := 0 to |recipe|
      invariant Deduct(l, MaterialDraws(db.products, recipe[..i], qty), sale) == Some(db.Shelf())
    {
      var row := recipe[i];
      var need := Need(row, qty);
      NeedNatural(row, qty);
      ghost var draw := TrackedDraw(db.products, row.material, need);
      MaterialStep(db.products, recipe, i, qty);
      DeductAppend(l, MaterialDraws(db.products, recipe[..i], qty), draw, sale);
      if row.material in db.products {
        var taken := ApplySaleItemDeduction(db, row.material, need, sale);
        if !taken {
          FailurePersists(db.products, recipe, i + 1, qty, l, sale);
          return false;
        }
      }
    }
    WholeRecipe(recipe);
    return true;
  }

  lemma {:induction false} FailurePersists(
    products: map<nat, Product>, recipe: seq<MaterialRow>, k: nat, qty: real, l: Ledger, sale: nat)
    requires k <= |recipe| && Deduct(l, MaterialDraws(products, recipe[..k], qty), sale).None?
    ensures Deduct(l, MaterialDraws(products, recipe, qty), sale).None?
    decreases |recipe| - k
  {
    if k < |recipe| {
      MaterialStep(products, recipe, k, qty);
      DeductAppend(l, MaterialDraws(products, recipe[..k], qty),
                   TrackedDraw(products, recipe[k].material, Need(recipe[k], qty)), sale);
      FailurePersists(products, recipe, k + 1, qty, l, sale);
    } else {
      WholeRecipe(recipe);
    }
  }

  /** Give back one material of `qty` voided units of a service. */
  method RestoreMaterial(db: Database, row: MaterialRow, qty: real, sale: nat)
    requires NonNegative(db.Shelf()) && row.quantity > 0.0 && qty >= 0.0
    modifies db`level, db`log
    ensures db.Shelf() == Restore(old(db.Shelf()), TrackedDraw(db.products, row.material, Need(row, qty)), sale)
    ensures NonNegative(db.Shelf())
  {
    var need := Need(row, qty);
    NeedNatural(row, qty);
    RestoreFacts(map[], db.Shelf(), TrackedDraw(db.products, row.material, need), sale);
    if row.material in db.products && db.products[row.material].trackStock {
      var _ := ApplySaleItemRestore(db, row.material, need, sale);
    }
  }

  /** Give back the materials of `qty` voided units of a service. */
  method RestoreMaterialsForSale(db: Database, service: nat, qty: real, sale: nat)
    requires NonNegative(db.Shelf()) && PositiveQuantities(db.materials) && qty >= 0.0
    modifies db`level, db`log
    ensures var draws := MaterialDraws(db.products, ListMaterials(db.materials, service), qty);
            db.Shelf() == Restore(old(db.Shelf()), draws, sale)
    ensures NonNegative(db.Shelf())
  {
    hide NonNegative, Need, TrackedDraw;
    var recipe := ListMaterials(db.materials, service);
    ListedArePositive(db.materials, service);
    ghost var l := db.Shelf();
    for i := 0 to |recipe|
      invariant db.Shelf() == Restore(l, MaterialDraws(db.products, recipe[..i], qty), sale)
      invariant NonNegative(db.Shelf())
    {
      MaterialStep(db.products, recipe, i, qty);
      RestoreAppend(l, MaterialDraws(db.products, recipe[..i], qty),
                    TrackedDraw(db.products, recipe[i].material, Need(recipe[i], qty)), sale);
      RestoreMaterial(db, recipe[i], qty, sale);
    }
    WholeRecipe(recipe);
  }

  // ---------- replacing a recipe ----------

  /** One entry of a recipe payload; entries without a material id are skipped. */
  datatype RawMaterial = RawMaterial(material: Option<nat>, quantity: real)

  predicate Unrestricted(category: string) {
    category in {"", "general", "other", "other / miscellaneous", "services", "services & labor"}
  }

  /** Same category, unless the service's own category is general. */
  predicate CategoriesCompatible(serviceCategory: string, materialCategory: string) {
    Unrestricted(serviceCategory) || serviceCategory == (if materialCategory == "" then "general" else materialCategory)
  }

  /** Why `m` may not be bound to `service`, if anything. */
  function BindingError(products: map<nat, Product>, service: nat, m: nat): Option<Error>
    requires service in products
  {
    if m == service then Some(Unprocessable)
    else if m !in products || products[m].deleted then Some(NotFound)
    else if products[m].business != products[service].business then Some(Unprocessable)
    else if products[m].itemType == SERVICE then Some(Unprocessable)
    else if !CategoriesCompatible(products[service].category, products[m].category) then Some(Unprocessable)
    else None
  }

  /** The payload's usable bindings, or the quantity error. */
  function Normalized(payload: seq<RawMaterial>): Result<seq<(nat, real)>> {
    if |payload| == 0 then Ok([])
    else
      var raw := payload[|payload| - 1];
      match Normalized(payload[..|payload| - 1])
      case Err(e) => Err(e)
      case Ok(bindings) =>
        if raw.material.None? then Ok(bindings)
        else if raw.quantity <= 0.0 then Err(Unprocessable)
        else Ok(bindings + [(raw.material.value, raw.quantity)])
  }

  /** Soft-delete every live row of `service`, except those of the material to keep. */
  function Retired(rows: seq<MaterialRow>, service: nat, keep: Option<nat>): (r: seq<MaterialRow>)
    ensures |r| == |rows|
  {
    seq(|rows|, i requires 0 <= i < |rows| =>
      if rows[i].service == service && Some(rows[i].material) != keep then rows[i].(deleted := true) else rows[i])
  }

  predicate IsRow(row: MaterialRow, service: nat, m: nat) {
    row.service == service && row.material == m
  }

  /** Position of the first row for the pair, or the table's length. */
  function FirstRow(rows: seq<MaterialRow>, service: nat, m: nat): (k: nat)
    ensures k <= |rows|
    ensures k < |rows| ==> IsRow(rows[k], service, m)
    ensures forall i :: 0 <= i < k ==> !IsRow(rows[i], service, m)
  {
    if |rows| == 0 then 0
    else
      var k := FirstRow(rows[..|rows| - 1], service, m);
      if k < |rows| - 1 then k
      else if IsRow(rows[|rows| - 1], service, m) then |rows| - 1
      else |rows|
  }

  /** Revive the pair's row, or insert one when the pair was never bound. */
  function Bound(rows: seq<MaterialRow>, service: nat, m: nat, quantity: real): seq<MaterialRow> {
    var k := FirstRow(rows, service, m);
    if k < |rows| then rows[k := MaterialRow(service, m, quantity, false)]
    else rows + [MaterialRow(service, m, quantity, false)]
  }

  function Replaced(products: map<nat, Product>, rows: seq<MaterialRow>, service: nat, payload: seq<RawMaterial>)
    : Result<seq<MaterialRow>>
    requires service in products
  {
    if products[service].itemType != SERVICE then Err(Unprocessable)
    else match Normalized(payload)
      case Err(e) => Err(e)
      case Ok(bindings) =>
        if |bindings| > 1 then Err(Unprocessable)
        else if |bindings| == 0 then Ok(Retired(rows, service, None))
        else
          var (m, quantity) := bindings[0];
          match BindingError(products, service, m)
          case Some(e) => Err(e)
          case None => Ok(Bound(Retired(rows, service, Some(m)), service, m, quantity))
  }

  /** Replace the whole recipe of a service; on any failure the table is left as it was. */
  method ReplaceMaterials(db: Database, service: nat, payload: seq<RawMaterial>) returns (error: Option<Error>)
    requires service in db.products
    modifies db`materials
    ensures match Replaced(db.products, old(db.materials), service, payload)
            case Ok(rows) => error == None && db.materials == rows
            case Err(e) => error == Some(e) && db.materials == old(db.materials)
  {
    if db.products[service].itemType != SERVICE {
      return Some(Unprocessable);
    }
    var normalized: seq<(nat, real)> := [];
    for i := 0 to |payload|
      invariant Normalized(payload[..i]) == Ok(normalized)
    {
      assert payload[..i + 1][..i] == payload[..i];
      var raw := payload[i];
      if raw.material.Some? {
        if raw.quantity <= 0.0 {
          NormalizedErrorPersists(payload, i + 1);
          return Some(Unprocessable);
        }
        normalized := normalized + [(raw.material.value, raw.quantity)];
      }
    }
    assert payload[..|payload|] == payload;
    if |normalized| > 1 {
      return Some(Unprocessable);
    }
    var target := if |normalized| == 0 then None else Some(normalized[0].0);
    var before := db.materials;
    ghost var goal := Retired(before, service, target);
    for i := 0 to |before|
      invariant |db.materials| == |before|
      invariant forall j :: 0 <= j < i ==> db.materials[j] == goal[j]
      invariant forall j :: i <= j < |before| ==> db.materials[j] == before[j]
    {
      var row := db.materials[i];
      if row.service == service && !(target.Some? && row.material == target.value) {
        if !row.deleted {
          db.materials := db.materials[i := row.(deleted := true)];
        }
      }
    }
    assert db.materials == goal;
    if |normalized| == 1 {
      var (m, quantity) := normalized[0];
      var refused := BindingError(db.products, service, m);
      if refused.Some? {
        db.materials := before;
        return refused;
      }
      var prior := FirstRow(db.materials, service, m);
      if prior < |db.materials| {
        db.materials := db.materials[prior := db.materials[prior].(deleted := false, quantity := quantity)];
      } else {
        db.materials := db.materials + [MaterialRow(service, m, quantity, false)];
      }
    }
    return None;
  }

  lemma {:induction false} NormalizedErrorPersists(payload: seq<RawMaterial>, k: nat)
    requires k <= |payload| && Normalized(payload[..k]).Err?
    ensures Normalized(payload) == Err(Unprocessable)
    decreases |payload|
  {
    if k < |payload| {
      assert payload[..|payload| - 1][..k] == payload[..k];
      NormalizedErrorPersists(payload[..|payload| - 1], k);
    } else {
      assert payload[..k] == payload;
      NormalizedErrors(payload);
    }
  }

  lemma {:induction false} NormalizedErrors(payload: seq<RawMaterial>)
    requires Normalized(payload).Err?
    ensures Normalized(payload) == Err(Unprocessable)
  {
    if |payload| != 0 && Normalized(payload[..|payload| - 1]).Err? {
      NormalizedErrors(payload[..|payload| - 1]);
    }
  }

  // ---------- what replacement keeps ----------

  ghost predicate UniquePairs(rows: seq<MaterialRow>) {
    forall i, j :: 0 <= i < j < |rows| ==> !(rows[i].service == rows[j].service && rows[i].material == rows[j].material)
  }

  ghost predicate OneLiveRow(rows: seq<MaterialRow>) {
    forall i, j :: 0 <= i < j < |rows| && rows[i].service == rows[j].service ==> rows[i].deleted || rows[j].deleted
  }

  /** One row per (service, material) pair, at most one live row per service, positive quantities. */
  ghost predicate RecipesOk(rows: seq<MaterialRow>) {
    UniquePairs(rows) && OneLiveRow(rows) && PositiveQuantities(rows)
  }

  lemma {:induction false} NormalizedFacts(payload: seq<RawMaterial>)
    requires Normalized(payload).Ok?
    ensures forall i :: 0 <= i < |Normalized(payload).value| ==> Normalized(payload).value[i].1 > 0.0
  {
    if |payload| != 0 {
      NormalizedFacts(payload[..|payload| - 1]);
    }
  }

  /** A successful replacement keeps the table's invariant, whatever the payload. */
  lemma ReplacementKeepsRecipes(
    products: map<nat, Product>, rows: seq<MaterialRow>, service: nat, payload: seq<RawMaterial>)
    requires service in products && RecipesOk(rows)
    ensures Replaced(products, rows, service, payload).Ok? ==>
              RecipesOk(Replaced(products, rows, service, payload).value)
  {
    if Normalized(payload).Ok? {
      NormalizedFacts(payload);
    }
  }

  ghost predicate WasBound(rows: seq<MaterialRow>, service: nat, m: nat) {
    exists i :: 0 <= i < |rows| && IsRow(rows[i], service, m)
  }

  lemma {:induction false} ListOnly(rows: seq<MaterialRow>, service: nat, k: nat)
    requires k < |rows| && rows[k].service == service && !rows[k].deleted
    requires forall i :: 0 <= i < |rows| && i != k && rows[i].service == service ==> rows[i].deleted
    ensures ListMaterials(rows, service) == [rows[k]]
  {
    var n := |rows| - 1;
    if k < n {
      ListOnly(rows[..n], service, k);
    } else {
      ListNone(rows[..n], service);
    }
  }

  lemma {:induction false} ListNone(rows: seq<MaterialRow>, service: nat)
    requires forall i :: 0 <= i < |rows| && rows[i].service == service ==> rows[i].deleted
    ensures ListMaterials(rows, service) == []
  {
    if |rows| != 0 {
      ListNone(rows[..|rows| - 1], service);
    }
  }

  /** Rows of other services do not matter to a service's list, nor do rows appended for others. */
  lemma {:induction false} ListSame(a: seq<MaterialRow>, b: seq<MaterialRow>, service: nat)
    requires |a| <= |b|
    requires forall i :: 0 <= i < |a| ==> a[i] == b[i] || (a[i].service != service && b[i].service != service)
    requires forall i :: |a| <= i < |b| ==> b[i].service != service
    ensures ListMaterials(a, service) == ListMaterials(b, service)
    decreases |b|
  {
    if |a| < |b| {
      ListSame(a, b[..|b| - 1], service);
    } else if |b| != 0 {
      ListSame(a[..|a| - 1], b[..|b| - 1], service);
    }
  }

  lemma ReplacementLeavesOthers(
    products: map<nat, Product>, rows: seq<MaterialRow>, service: nat, payload: seq<RawMaterial>)
    requires service in products && Replaced(products, rows, service, payload).Ok?
    ensures var after := Replaced(products, rows, service, payload).value;
            forall other :: other != service ==> ListMaterials(after, other) == ListMaterials(rows, other)
  {
    hide BindingError, Normalized;
    var after := Replaced(products, rows, service, payload).value;
    forall other | other != service ensures ListMaterials(after, other) == ListMaterials(rows, other) {
      ListSame(rows, after, other);
    }
  }

  /**
   * After a successful replacement the listed recipe is exactly the payload, the recipes of
   * all other services are as before, and the table grows only when the pair was never bound:
   * a row retired earlier is revived.
   */
  lemma ReplacementListsPayload(
    products: map<nat, Product>, rows: seq<MaterialRow>, service: nat, payload: seq<RawMaterial>)
    requires service in products && RecipesOk(rows)
    requires Replaced(products, rows, service, payload).Ok?
    ensures var after := Replaced(products, rows, service, payload).value;
            var bindings := Normalized(payload).value;
            && |bindings| <= 1
            && ListMaterials(after, service) ==
               (if bindings == [] then [] else [MaterialRow(service, bindings[0].0, bindings[0].1, false)])
            && (forall other :: other != service ==> ListMaterials(after, other) == ListMaterials(rows, other))
            && |after| == |rows| + if bindings == [] || WasBound(rows, service, bindings[0].0) then 0 else 1
  {
    var after := Replaced(products, rows, service, payload).value;
    var bindings := Normalized(payload).value;
    ReplacementLeavesOthers(products, rows, service, payload);
    if bindings == [] {
      ListNone(after, service);
    } else {
      var m := bindings[0].0;
      var retired := Retired(rows, service, Some(m));
      var k := FirstRow(retired, service, m);
      ListOnly(after, service, k);
      if k < |rows| {
        assert IsRow(rows[k], service, m);
      } else {
        forall i | 0 <= i < |rows| ensures !IsRow(rows[i], service, m) {
          assert !IsRow(retired[i], service, m);
        }
      }
    }
  }

  // ---------- when a replacement is accepted ----------

  function NamedCount(payload: seq<RawMaterial>): nat {
    if |payload| == 0 then 0
    else NamedCount(payload[..|payload| - 1]) + if payload[|payload| - 1].material.Some? then 1 else 0
  }

  predicate Named(raw: RawMaterial) {
    raw.material.Some?
  }

  /** None, one or several entries name a material. */
  lemma {:induction false} NamedCountIs(payload: seq<RawMaterial>, k: nat)
    ensures NamedCount(payload) == 0 <==> forall i :: 0 <= i < |payload| ==> !Named(payload[i])
    ensures k < |payload| && Named(payload[k]) ==>
              (NamedCount(payload) == 1 <==> forall i :: 0 <= i < |payload| && i != k ==> !Named(payload[i]))
  {
    if |payload| != 0 {
      var n := |payload| - 1;
      NamedCountIs(payload[..n], k);
      if k < n {
        assert payload[..n][k] == payload[k];
      }
    }
  }

  /** The usable bindings: refused for a named entry without a positive quantity, else the named entries. */
  lemma {:induction false} NormalizedIs(payload: seq<RawMaterial>, k: nat)
    ensures Normalized(payload).Ok? <==>
            forall i :: 0 <= i < |payload| && Named(payload[i]) ==> payload[i].quantity > 0.0
    ensures Normalized(payload).Err? ==> Normalized(payload) == Err(Unprocessable)
    ensures Normalized(payload).Ok? ==> |Normalized(payload).value| == NamedCount(payload)
    ensures Normalized(payload).Ok? && k < |payload| && Named(payload[k]) && NamedCount(payload) == 1 ==>
              Normalized(payload).value == [(payload[k].material.value, payload[k].quantity)]
  {
    if |payload| != 0 {
      var n := |payload| - 1;
      NormalizedIs(payload[..n], k);
      NamedCountIs(payload, k);
      NamedCountIs(payload[..n], k);
      if k < n {
        assert payload[..n][k] == payload[k];
      }
    }
  }

  /** The product can be bound to the service: another live product of its business in a fitting category. */
  predicate Bindable(products: map<nat, Product>, service: nat, m: nat)
    requires service in products
  {
    && m != service && m in products && !products[m].deleted
    && products[m].business == products[service].business && products[m].itemType == PRODUCT
    && (products[service].category in {"", "general", "other", "other / miscellaneous", "services", "services & labor"}
        || products[service].category == products[m].category)
  }

  lemma BindableIff(products: map<nat, Product>, service: nat, m: nat)
    requires service in products
    ensures BindingError(products, service, m) == None <==> Bindable(products, service, m)
    ensures m == service ==> BindingError(products, service, m) == Some(Unprocessable)
    ensures m != service && (m !in products || products[m].deleted) ==>
              BindingError(products, service, m) == Some(NotFound)
    ensures m in products && !products[m].deleted && !Bindable(products, service, m) ==>
              BindingError(products, service, m) == Some(Unprocessable)
  {
  }

  /**
   * A payload that names no material is accepted exactly for a service, and empties its recipe;
   * one that names a single material, at position `k`, exactly when moreover its quantity is
   * positive and the material can be bound, and makes it the recipe; one that names more is
   * refused.
   */
  lemma ReplacementAcceptedIff(
    products: map<nat, Product>, rows: seq<MaterialRow>, service: nat, payload: seq<RawMaterial>, k: nat)
    requires service in products && RecipesOk(rows)
    ensures var r := Replaced(products, rows, service, payload);
            && (products[service].itemType != SERVICE ==> r == Err(Unprocessable))
            && ((forall i :: 0 <= i < |payload| ==> !Named(payload[i])) && products[service].itemType == SERVICE ==>
                  r.Ok? && ListMaterials(r.value, service) == [])
            && (k < |payload| && Named(payload[k]) && products[service].itemType == SERVICE ==>
                  var alone := forall i :: 0 <= i < |payload| && i != k ==> !Named(payload[i]);
                  var m, q := payload[k].material.value, payload[k].quantity;
                  && (r.Ok? <==> alone && q > 0.0 && Bindable(products, service, m))
                  && (r.Ok? ==> ListMaterials(r.value, service) == [MaterialRow(service, m, q, false)])
                  && (!alone || q <= 0.0 ==> r == Err(Unprocessable))
                  && (alone && q > 0.0 && r.Err? ==> r == Err(BindingError(products, service, m).value)))
  {
    NormalizedIs(payload, k);
    NamedCountIs(payload, k);
    hide Retired, Bound, ListMaterials, RecipesOk, Normalized;
    if k < |payload| && Named(payload[k]) {
      BindableIff(products, service, payload[k].material.value);
    }
    if Replaced(products, rows, service, payload).Ok? {
      ReplacementListsPayload(products, rows, service, payload);
    }
  }
}
