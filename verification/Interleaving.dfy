/**
 * Finalises of different sales running at the same time. Each transaction goes through its
 * lines in order, in a session of its own. A row is loaded into the session the first time the
 * session selects it, and keeps that value from then on, apart from the session's own changes:
 * a later SELECT ... FOR UPDATE locks the row but does not load it again. Locks are held to
 * commit or rollback. The schedule, and which transaction is killed, are arbitrary.
 */
module Interleaving {
  import opened Common
  import opened Tables
  import opened Stock
  import opened Materials

  // ---------- the rows one finalise selects ----------

  /** A select of a product row: without a lock, or with one, to take a quantity from it. */
  datatype Access = Load(product: nat) | Take(product: nat, qty: real)

  /** What a locked row gives up: its quantity when tracked, nothing otherwise. */
  function RowTake(products: map<nat, Product>, p: nat, qty: real): seq<Access> {
    if p !in products then []
    else [Take(p, if products[p].trackStock then qty else 0.0)]
  }

  /** Listing a recipe loads the rows of its materials without a lock. */
  function Loads(products: map<nat, Product>, recipe: seq<MaterialRow>): seq<Access> {
    if |recipe| == 0 then []
    else
      var m := recipe[|recipe| - 1].material;
      Loads(products, recipe[..|recipe| - 1]) + if m in products then [Load(m)] else []
  }

  function MaterialTakes(products: map<nat, Product>, recipe: seq<MaterialRow>, qty: real): seq<Access> {
    if |recipe| == 0 then []
    else
      var r := recipe[|recipe| - 1];
      MaterialTakes(products, recipe[..|recipe| - 1], qty) + RowTake(products, r.material, Need(r, qty))
  }

  /** A service locks its own row, loads its whole recipe, then locks one material after another. */
  function LineAccesses(products: map<nat, Product>, rows: seq<MaterialRow>, x: Line): seq<Access> {
    if x.product !in products then []
    else if products[x.product].itemType == SERVICE then
      var recipe := ListMaterials(rows, x.product);
      [Take(x.product, 0.0)] + Loads(products, recipe) + MaterialTakes(products, recipe, x.quantity)
    else RowTake(products, x.product, x.quantity)
  }

  function Script(products: map<nat, Product>, rows: seq<MaterialRow>, lines: seq<Line>): seq<Access> {
    if |lines| == 0 then []
    else Script(products, rows, lines[..|lines| - 1]) + LineAccesses(products, rows, lines[|lines| - 1])
  }

  function TakenBy(x: Access, p: nat): real {
    if x.Take? && x.product == p then x.qty else 0.0
  }

  /** All that a script takes from `p`. */
  function Asks(script: seq<Access>, p: nat): real {
    if |script| == 0 then 0.0 else Asks(script[..|script| - 1], p) + TakenBy(script[|script| - 1], p)
  }

  /** The draws of a script. */
  function Drawn(script: seq<Access>): seq<Draw> {
    if |script| == 0 then []
    else
      var x := script[|script| - 1];
      Drawn(script[..|script| - 1]) + if x.Take? then [Draw(x.product, x.qty)] else []
  }

  ghost predicate Proper(script: seq<Access>) {
    forall i :: 0 <= i < |script| && script[i].Take? ==> script[i].qty >= 0.0
  }

  /** One of the first `n` accesses selects `p`. */
  ghost predicate Met(script: seq<Access>, n: nat, p: nat) {
    exists k :: 0 <= k < n && k < |script| && script[k].product == p
  }

  /** One of the first `n` accesses locks `p`. */
  ghost predicate Took(script: seq<Access>, n: nat, p: nat) {
    exists k :: 0 <= k < n && k < |script| && script[k].Take? && script[k].product == p
  }

  /** The script meets `p` for the first time under its lock. */
  ghost predicate TakenFirst(script: seq<Access>, p: nat) {
    exists k :: 0 <= k < |script| && script[k].Take? && script[k].product == p && !Met(script, k, p)
  }

  /** The script meets `p` for the first time as a recipe row. */
  ghost predicate LoadedFirst(script: seq<Access>, p: nat) {
    exists k :: 0 <= k < |script| && script[k] == Load(p) && !Met(script, k, p)
  }

  lemma MetStep(script: seq<Access>, n: nat, p: nat)
    requires n < |script|
    ensures Met(script, n + 1, p) <==> Met(script, n, p) || script[n].product == p
    ensures Took(script, n + 1, p) <==> Took(script, n, p) || (script[n].Take? && script[n].product == p)
    ensures Asks(script[..n + 1], p) == Asks(script[..n], p) + TakenBy(script[n], p)
  {
    assert script[..n + 1][..n] == script[..n];
    if script[n].product == p {
      assert Met(script, n + 1, p);
    }
  }

  /** The first meeting is a lock or a load. */
  lemma {:induction false} FirstMeeting(script: seq<Access>, n: nat, p: nat)
    requires n <= |script| && Met(script, n, p)
    ensures (TakenFirst(script, p) && Took(script, n, p)) || LoadedFirst(script, p)
    decreases n
  {
    if Met(script, n - 1, p) {
      FirstMeeting(script, n - 1, p);
    } else {
      assert script[n - 1].product == p;
      if script[n - 1].Load? {
        assert script[n - 1] == Load(p);
      }
    }
  }

  lemma MetAt(script: seq<Access>, j: nat, n: nat, p: nat)
    requires j < n && j < |script| && script[j].product == p
    ensures Met(script, n, p)
  {
  }

  /** A script that first meets `p` under its lock has locked it whenever it has met it. */
  lemma TakenFirstIsTook(script: seq<Access>, n: nat, p: nat)
    requires TakenFirst(script, p) && Met(script, n, p)
    ensures Took(script, n, p)
  {
    var k: nat :| k < |script| && script[k].Take? && script[k].product == p && !Met(script, k, p);
    var j: nat :| j < n && j < |script| && script[j].product == p;
    if j < k {
      MetAt(script, j, k, p);
      assert false;
    }
  }

  /** Taking a quantity needs a lock. */
  lemma {:induction false} AsksNeedsLock(script: seq<Access>, n: nat, p: nat)
    requires n <= |script| && Asks(script[..n], p) != 0.0
    ensures Took(script, n, p) && Met(script, n, p)
    decreases n
  {
    if n > 0 {
      MetStep(script, n - 1, p);
      if Asks(script[..n - 1], p) != 0.0 {
        AsksNeedsLock(script, n - 1, p);
      }
    }
  }

  lemma {:induction false} AsksPrefix(script: seq<Access>, n: nat, p: nat)
    requires n <= |script| && Proper(script)
    ensures 0.0 <= Asks(script[..n], p) <= Asks(script, p)
    decreases |script|
  {
    if n < |script| {
      assert script[..|script| - 1][..n] == script[..n];
      AsksPrefix(script[..|script| - 1], n, p);
    } else {
      assert script[..n] == script;
      if n > 0 {
        AsksPrefix(script[..n - 1], n - 1, p);
        assert script[..n - 1][..n - 1] == script[..n - 1];
      }
    }
  }

  lemma {:induction false} AsksIsDemand(script: seq<Access>, p: nat)
    ensures Asks(script, p) == Demand(Drawn(script), p)
  {
    if |script| != 0 {
      var n := |script| - 1;
      var x := script[n];
      var last := if x.Take? then [Draw(x.product, x.qty)] else [];
      AsksIsDemand(script[..n], p);
      DemandAppend(Drawn(script[..n]), last, p);
      LastDraw(x, p);
      assert Drawn(script) == Drawn(script[..n]) + last;
    }
  }

  lemma LastDraw(x: Access, p: nat)
    ensures Demand(if x.Take? then [Draw(x.product, x.qty)] else [], p) == TakenBy(x, p)
  {
    if x.Take? {
      assert [Draw(x.product, x.qty)][..0] == [];
    }
  }

  lemma {:induction false} DrawnNatural(script: seq<Access>)
    requires Proper(script)
    ensures Natural(Drawn(script))
  {
    if |script| != 0 {
      DrawnNatural(script[..|script| - 1]);
    }
  }

  lemma {:induction false} AsksAppend(a: seq<Access>, b: seq<Access>, p: nat)
    ensures Asks(a + b, p) == Asks(a, p) + Asks(b, p)
  {
    if b == [] {
      assert a + b == a;
    } else {
      assert (a + b)[..|a + b| - 1] == a + b[..|b| - 1];
      AsksAppend(a, b[..|b| - 1], p);
    }
  }

  lemma AsksOne(x: Access, p: nat)
    ensures Asks([x], p) == TakenBy(x, p)
  {
    assert [x][..0] == [];
  }

  lemma RowTakeAsks(products: map<nat, Product>, m: nat, qty: real, p: nat)
    ensures Asks(RowTake(products, m, qty), p) == Demand(TrackedDraw(products, m, qty), p)
  {
    AsksOne(Take(m, qty), p);
    AsksOne(Take(m, 0.0), p);
    assert [Draw(m, qty)][..0] == [];
  }

  lemma {:induction false} LoadsAskNothing(products: map<nat, Product>, recipe: seq<MaterialRow>, p: nat)
    ensures Asks(Loads(products, recipe), p) == 0.0
  {
    if |recipe| != 0 {
      var n := |recipe| - 1;
      LoadsAskNothing(products, recipe[..n], p);
      var last := if recipe[n].material in products then [Load(recipe[n].material)] else [];
      AsksAppend(Loads(products, recipe[..n]), last, p);
      AsksOne(Load(recipe[n].material), p);
    }
  }

  lemma {:induction false} MaterialTakesAsk(products: map<nat, Product>, recipe: seq<MaterialRow>, qty: real, p: nat)
    ensures Asks(MaterialTakes(products, recipe, qty), p) == Demand(MaterialDraws(products, recipe, qty), p)
  {
    if |recipe| != 0 {
      var n := |recipe| - 1;
      var m, need := recipe[n].material, Need(recipe[n], qty);
      MaterialTakesAsk(products, recipe[..n], qty, p);
      RowTakeAsks(products, m, need, p);
      AsksAppend(MaterialTakes(products, recipe[..n], qty), RowTake(products, m, need), p);
      DemandAppend(MaterialDraws(products, recipe[..n], qty), TrackedDraw(products, m, need), p);
    }
  }

  lemma LineAsks(products: map<nat, Product>, rows: seq<MaterialRow>, x: Line, p: nat)
    ensures Asks(LineAccesses(products, rows, x), p) == Demand(LineDraws(products, rows, x.product, x.quantity), p)
  {
    var recipe := ListMaterials(rows, x.product);
    var own, loads := [Take(x.product, 0.0)], Loads(products, recipe);
    MaterialTakesAsk(products, recipe, x.quantity, p);
    RowTakeAsks(products, x.product, x.quantity, p);
    LoadsAskNothing(products, recipe, p);
    AsksOne(Take(x.product, 0.0), p);
    AsksAppend(own, loads, p);
    AsksAppend(own + loads, MaterialTakes(products, recipe, x.quantity), p);
  }

  /** Loads and the extra locks take nothing: the script asks of each product what the lines draw. */
  lemma {:induction false} ScriptDemand(products: map<nat, Product>, rows: seq<MaterialRow>, lines: seq<Line>, p: nat)
    ensures Asks(Script(products, rows, lines), p) == Demand(Draws(products, rows, lines), p)
  {
    hide LineAccesses, LineDraws;
    if |lines| != 0 {
      var n := |lines| - 1;
      var x := lines[n];
      ScriptDemand(products, rows, lines[..n], p);
      LineAsks(products, rows, x, p);
      AsksAppend(Script(products, rows, lines[..n]), LineAccesses(products, rows, x), p);
      DemandAppend(Draws(products, rows, lines[..n]), LineDraws(products, rows, x.product, x.quantity), p);
    }
  }

  lemma {:induction false} MaterialTakesProper(products: map<nat, Product>, recipe: seq<MaterialRow>, qty: real)
    requires PositiveQuantities(recipe) && qty >= 0.0
    ensures Proper(MaterialTakes(products, recipe, qty)) && Proper(Loads(products, recipe))
  {
    if |recipe| != 0 {
      MaterialTakesProper(products, recipe[..|recipe| - 1], qty);
      NeedNatural(recipe[|recipe| - 1], qty);
    }
  }

  lemma {:induction false} ScriptProper(products: map<nat, Product>, rows: seq<MaterialRow>, lines: seq<Line>)
    requires PositiveQuantities(rows) && forall i :: 0 <= i < |lines| ==> lines[i].quantity > 0.0
    ensures Proper(Script(products, rows, lines))
  {
    hide MaterialTakes, Loads, ListMaterials, Need;
    if |lines| != 0 {
      var x := lines[|lines| - 1];
      ScriptProper(products, rows, lines[..|lines| - 1]);
      ListedArePositive(rows, x.product);
      MaterialTakesProper(products, ListMaterials(rows, x.product), x.quantity);
    }
  }

  /** The line, or a live recipe row of its service, is for product `p`. */
  ghost predicate Concerns(products: map<nat, Product>, rows: seq<MaterialRow>, x: Line, p: nat) {
    && x.product in products && p in products
    && (x.product == p
        || (products[x.product].itemType == SERVICE
            && exists k :: 0 <= k < |rows| && rows[k].service == x.product && !rows[k].deleted
                           && rows[k].material == p))
  }

  ghost predicate Takes(script: seq<Access>, p: nat) {
    Took(script, |script|, p)
  }

  lemma TakesAppend(a: seq<Access>, b: seq<Access>, p: nat)
    ensures Takes(a + b, p) <==> Takes(a, p) || Takes(b, p)
  {
    if k :| 0 <= k < |a + b| && (a + b)[k].Take? && (a + b)[k].product == p {
      if k >= |a| {
        assert b[k - |a|] == (a + b)[k];
      }
    }
    if k :| 0 <= k < |a| && a[k].Take? && a[k].product == p {
      assert (a + b)[k] == a[k];
    }
    if k :| 0 <= k < |b| && b[k].Take? && b[k].product == p {
      assert (a + b)[|a| + k] == b[k];
    }
  }

  lemma TakesRow(products: map<nat, Product>, m: nat, qty: real, p: nat)
    ensures Takes(RowTake(products, m, qty), p) <==> m in products && m == p
  {
    if m in products {
      assert RowTake(products, m, qty)[0].product == m;
    }
  }

  lemma {:induction false} LoadsTakeNothing(products: map<nat, Product>, recipe: seq<MaterialRow>, p: nat)
    ensures !Takes(Loads(products, recipe), p)
  {
    if |recipe| != 0 {
      LoadsTakeNothing(products, recipe[..|recipe| - 1], p);
    }
  }

  ghost predicate InRecipe(recipe: seq<MaterialRow>, p: nat) {
    exists k :: 0 <= k < |recipe| && recipe[k].material == p
  }

  lemma InRecipeStep(recipe: seq<MaterialRow>, p: nat)
    requires |recipe| != 0
    ensures InRecipe(recipe, p) <==> InRecipe(recipe[..|recipe| - 1], p) || recipe[|recipe| - 1].material == p
  {
    if InRecipe(recipe[..|recipe| - 1], p) {
      var k :| 0 <= k < |recipe| - 1 && recipe[..|recipe| - 1][k].material == p;
      assert recipe[k].material == p;
    }
    if k :| 0 <= k < |recipe| && recipe[k].material == p {
      assert k < |recipe| - 1 ==> recipe[..|recipe| - 1][k].material == p;
    }
  }

  lemma {:induction false} MaterialsTaken(products: map<nat, Product>, recipe: seq<MaterialRow>, qty: real, p: nat)
    ensures Takes(MaterialTakes(products, recipe, qty), p) <==> p in products && InRecipe(recipe, p)
  {
    hide Takes, InRecipe, RowTake;
    if |recipe| != 0 {
      var n := |recipe| - 1;
      var last := RowTake(products, recipe[n].material, Need(recipe[n], qty));
      MaterialsTaken(products, recipe[..n], qty, p);
      TakesRow(products, recipe[n].material, Need(recipe[n], qty), p);
      TakesAppend(MaterialTakes(products, recipe[..n], qty), last, p);
      InRecipeStep(recipe, p);
    } else {
      NothingTaken(p);
    }
  }

  lemma NothingTaken(p: nat)
    ensures !Takes([], p) && !InRecipe([], p)
  {
  }

  lemma InRecipeIff(rows: seq<MaterialRow>, service: nat, p: nat)
    ensures InRecipe(ListMaterials(rows, service), p) <==>
            exists k :: 0 <= k < |rows| && rows[k].service == service && !rows[k].deleted && rows[k].material == p
  {
    var recipe := ListMaterials(rows, service);
    if k :| 0 <= k < |recipe| && recipe[k].material == p {
      ListedIff(rows, service, recipe[k]);
    }
    if k :| 0 <= k < |rows| && rows[k].service == service && !rows[k].deleted && rows[k].material == p {
      ListedIff(rows, service, rows[k]);
      var j :| 0 <= j < |recipe| && recipe[j] == rows[k];
    }
  }

  lemma LineTakesIff(products: map<nat, Product>, rows: seq<MaterialRow>, x: Line, p: nat)
    ensures Takes(LineAccesses(products, rows, x), p) <==> Concerns(products, rows, x, p)
  {
    var recipe := ListMaterials(rows, x.product);
    var own, loads := [Take(x.product, 0.0)], Loads(products, recipe);
    InRecipeIff(rows, x.product, p);
    MaterialsTaken(products, recipe, x.quantity, p);
    LoadsTakeNothing(products, recipe, p);
    TakesRow(products, x.product, x.quantity, p);
    assert Takes(own, p) <==> x.product == p by {
      assert own[0].product == x.product;
    }
    TakesAppend(own, loads, p);
    TakesAppend(own + loads, MaterialTakes(products, recipe, x.quantity), p);
  }

  /**
   * A finalise locks exactly the catalogue rows its lines are for, services and untracked
   * products included, and those of the materials of its services.
   */
  lemma {:induction false} ScriptLocksIff(products: map<nat, Product>, rows: seq<MaterialRow>, lines: seq<Line>, p: nat)
    ensures Takes(Script(products, rows, lines), p) <==>
            exists i :: 0 <= i < |lines| && Concerns(products, rows, lines[i], p)
  {
    hide Takes, Concerns, LineAccesses;
    if |lines| != 0 {
      var n := |lines| - 1;
      ScriptLocksIff(products, rows, lines[..n], p);
      LineTakesIff(products, rows, lines[n], p);
      TakesAppend(Script(products, rows, lines[..n]), LineAccesses(products, rows, lines[n]), p);
      if i :| 0 <= i < n && Concerns(products, rows, lines[..n][i], p) {
        assert lines[i] == lines[..n][i];
      }
      if i :| 0 <= i < |lines| && Concerns(products, rows, lines[i], p) {
        assert i < n ==> lines[..n][i] == lines[i];
      }
    } else {
      NothingTaken(p);
    }
  }

  // ---------- the concurrent system ----------

  datatype Phase = RUNNING | COMMITTED | ABORTED

  /** `seen` holds the stock of the rows in the transaction's session, its own changes included. */
  datatype Txn = Txn(script: seq<Access>, next: nat, seen: map<nat, real>, phase: Phase)

  /** Committed stock, row lock owners, transactions, and the order of the commits. */
  datatype System = System(stock: map<nat, real>, owner: map<nat, nat>, txns: seq<Txn>, order: seq<nat>)

  function At(stock: map<nat, real>, p: nat): real {
    if p in stock then stock[p] else 0.0
  }

  predicate IsRunning(y: System, t: nat) {
    t < |y.txns| && y.txns[t].phase == RUNNING
  }

  predicate WantsRow(y: System, t: nat) {
    IsRunning(y, t) && y.txns[t].next < |y.txns[t].script|
  }

  /** The transaction is about to lock a row that is locked by another one; loads do not wait. */
  predicate IsBlocked(y: System, t: nat) {
    WantsRow(y, t) &&
    (var x := y.txns[t].script[y.txns[t].next];
     x.Take? && x.product in y.owner && y.owner[x.product] != t)
  }

  function Released(owner: map<nat, nat>, t: nat): map<nat, nat> {
    map p | p in owner && owner[p] != t :: owner[p]
  }

  function Rolledback(y: System, t: nat): System
    requires t < |y.txns|
  {
    y.(owner := Released(y.owner, t), txns := y.txns[t := y.txns[t].(phase := ABORTED, seen := map[])])
  }

  /** What a select gives: the value already in the session, else the committed one. */
  function Read(y: System, t: nat, p: nat): real
    requires t < |y.txns|
  {
    if p in y.txns[t].seen then y.txns[t].seen[p] else At(y.stock, p)
  }

  /** The rows the transaction has changed; untracked rows and empty quantities leave no change. */
  function Changed(x: Txn): map<nat, real> {
    map p | p in x.seen && Asks(x.script, p) > 0.0 :: x.seen[p]
  }

  /** One step of a transaction: wait, load, lock and deduct, abort on shortage, or commit. */
  function Advanced(y: System, t: nat): System {
    if !IsRunning(y, t) || IsBlocked(y, t) then y
    else if WantsRow(y, t) then
      var x := y.txns[t];
      match x.script[x.next]
      case Load(p) =>
        y.(txns := y.txns[t := x.(next := x.next + 1, seen := x.seen[p := Read(y, t, p)])])
      case Take(p, qty) =>
        var stock := Read(y, t, p);
        if qty > 0.0 && stock < qty then Rolledback(y, t)
        else y.(owner := y.owner[p := t],
                txns := y.txns[t := x.(next := x.next + 1, seen := x.seen[p := stock - qty])])
    else
      y.(stock := y.stock + Changed(y.txns[t]),
         owner := Released(y.owner, t),
         txns := y.txns[t := y.txns[t].(phase := COMMITTED)],
         order := y.order + [t])
  }

  /** A schedule: advance a transaction, or roll one back from outside (deadlock victim, crash). */
  datatype Turn = Advance(txn: nat) | Kill(txn: nat)

  function Turned(y: System, turn: Turn): System {
    match turn
    case Advance(t) => Advanced(y, t)
    case Kill(t) => if IsRunning(y, t) then Rolledback(y, t) else y
  }

  function Scheduled(y: System, turns: seq<Turn>): System
    decreases |turns|
  {
    if |turns| == 0 then y else Scheduled(Turned(y, turns[0]), turns[1..])
  }

  /** A killed transaction is aborted: its locks are free again, and nothing of it is committed. */
  lemma KillAnswers(y: System, t: nat)
    requires IsRunning(y, t)
    ensures var z := Turned(y, Kill(t));
            && z.stock == y.stock && z.order == y.order && |z.txns| == |y.txns|
            && z.txns[t].phase == ABORTED && z.txns[t].script == y.txns[t].script
            && (forall u :: 0 <= u < |y.txns| && u != t ==> z.txns[u] == y.txns[u])
            && (forall p :: p in z.owner <==> p in y.owner && y.owner[p] != t)
            && (forall p :: p in z.owner ==> z.owner[p] == y.owner[p])
  {
  }

  /**
   * A load never waits and takes no lock. A lock waits while another transaction has it. Either
   * gives the session's own value of the row if it has met it before, else the committed one; a
   * locked row loses the quantity, and a shortage aborts the transaction.
   */
  lemma AccessAnswers(y: System, t: nat)
    requires IsRunning(y, t) && y.txns[t].next < |y.txns[t].script|
    ensures var x := y.txns[t];
            var z := Turned(y, Advance(t));
            var a := x.script[x.next];
            var value := if a.product in x.seen then x.seen[a.product]
                         else if a.product in y.stock then y.stock[a.product] else 0.0;
            && z.stock == y.stock && z.order == y.order
            && (a.Load? ==> z.owner == y.owner
                            && z.txns == y.txns[t := x.(next := x.next + 1, seen := x.seen[a.product := value])])
            && (a.Take? && a.product in y.owner && y.owner[a.product] != t ==> z == y)
            && (a.Take? && !(a.product in y.owner && y.owner[a.product] != t) ==>
                  if a.qty > 0.0 && value < a.qty then z == Turned(y, Kill(t))
                  else && z.owner == y.owner[a.product := t]
                       && z.txns == y.txns[t := x.(next := x.next + 1, seen := x.seen[a.product := value - a.qty])])
  {
  }

  function Started(stock: map<nat, real>, scripts: seq<seq<Access>>): System {
    System(stock, map[], seq(|scripts|, t requires 0 <= t < |scripts| => Txn(scripts[t], 0, map[], RUNNING)), [])
  }

  // ---------- what every interleaving keeps ----------

  /** The value of `p` when the session loaded it: what it has now and what it has taken since. */
  function Loaded(x: Txn, p: nat): real
    requires p in x.seen && x.next <= |x.script|
  {
    x.seen[p] + Asks(x.script[..x.next], p)
  }

  ghost predicate OnlyOne(y: System, t: nat, p: nat) {
    forall u :: 0 <= u < |y.txns| && u != t ==> Asks(y.txns[u].script, p) == 0.0
  }

  /** The session's value of `p` cannot have been overtaken by a commit. */
  ghost predicate Trusted(y: System, t: nat, p: nat)
    requires t < |y.txns|
  {
    y.order == [] || TakenFirst(y.txns[t].script, p) || OnlyOne(y, t, p)
  }

  /**
   * What holds of one row in the session of a running transaction: it is there once met, locked
   * once taken, never negative, and if trusted it was loaded at the value still committed.
   */
  ghost predicate RowOk(y: System, t: nat, p: nat)
    requires t < |y.txns| && y.txns[t].next <= |y.txns[t].script|
  {
    var x := y.txns[t];
    && (p in x.seen <==> Met(x.script, x.next, p))
    && (Took(x.script, x.next, p) ==> p in y.owner && y.owner[p] == t)
    && (p in x.seen ==> x.seen[p] >= 0.0)
    && (p in x.seen && Trusted(y, t, p) ==> Loaded(x, p) == At(y.stock, p))
  }

  ghost predicate TxnOk(y: System, t: nat)
    requires t < |y.txns|
  {
    var x := y.txns[t];
    Proper(x.script) && (x.phase == RUNNING ==> x.next <= |x.script| && forall p :: RowOk(y, t, p))
  }

  ghost predicate LocksOk(y: System) {
    forall p :: p in y.owner ==>
      IsRunning(y, y.owner[p]) && Took(y.txns[y.owner[p]].script, y.txns[y.owner[p]].next, p)
  }

  ghost predicate StockOk(initial: map<nat, real>, y: System) {
    forall p :: At(y.stock, p) >= 0.0 && (y.order == [] ==> At(y.stock, p) == At(initial, p))
  }

  ghost predicate SystemOk(initial: map<nat, real>, y: System) {
    (forall t :: 0 <= t < |y.txns| ==> TxnOk(y, t)) && LocksOk(y) && StockOk(initial, y)
  }

  lemma StartIsOk(stock: map<nat, real>, scripts: seq<seq<Access>>)
    requires forall p :: p in stock ==> stock[p] >= 0.0
    requires forall t :: 0 <= t < |scripts| ==> Proper(scripts[t])
    ensures SystemOk(stock, Started(stock, scripts))
  {
  }

  /** A transaction whose own record, rows and scripts are as before keeps its facts. */
  lemma BystanderKeeps(y: System, z: System, u: nat)
    requires u < |y.txns| && |z.txns| == |y.txns| && z.txns[u] == y.txns[u] && TxnOk(y, u)
    requires SameScripts(y, z) && (z.order == [] ==> y.order == [])
    requires forall p :: p in y.owner && y.owner[p] == u ==> p in z.owner && z.owner[p] == u
    requires IsRunning(y, u) ==>
               forall p :: p in y.txns[u].seen && Trusted(z, u, p) ==> At(z.stock, p) == At(y.stock, p)
    ensures TxnOk(z, u)
  {
    hide Loaded, Met, Took, TakenFirst, At, Proper;
    if IsRunning(y, u) {
      forall p: nat ensures RowOk(z, u, p) {
        assert RowOk(y, u, p);
      }
    }
  }

  ghost predicate SameScripts(y: System, z: System) {
    |y.txns| == |z.txns| && forall t :: 0 <= t < |y.txns| ==> z.txns[t].script == y.txns[t].script
  }

  lemma RollbackKeeps(initial: map<nat, real>, y: System, t: nat)
    requires SystemOk(initial, y) && IsRunning(y, t)
    ensures SystemOk(initial, Rolledback(y, t))
  {
    var z := Rolledback(y, t);
    hide RowOk, Took, At;
    forall u | 0 <= u < |z.txns| ensures TxnOk(z, u) {
      assert TxnOk(y, u);
      if u != t {
        BystanderKeeps(y, z, u);
      }
    }
    forall p | p in z.owner
      ensures IsRunning(z, z.owner[p]) && Took(z.txns[z.owner[p]].script, z.txns[z.owner[p]].next, p) {
      assert p in y.owner;
    }
  }

  lemma StepKeepsRow(y: System, t: nat, p: nat)
    requires WantsRow(y, t) && !IsBlocked(y, t) && Proper(y.txns[t].script) && RowOk(y, t, p)
    requires At(y.stock, p) >= 0.0 && Advanced(y, t).txns[t].phase == RUNNING
    ensures RowOk(Advanced(y, t), t, p)
  {
    hide Asks, Met, Took, TakenFirst, At;
    var z := Advanced(y, t);
    var x, x' := y.txns[t], z.txns[t];
    MetStep(x.script, x.next, p);
    if Asks(x.script[..x.next], p) != 0.0 {
      AsksNeedsLock(x.script, x.next, p);
    }
    assert x'.script == x.script && x'.next == x.next + 1;
    assert x.script[x.next].Take? ==> x.script[x.next].qty >= 0.0;
    TurnKeepsScripts(y, Advance(t));
    if Trusted(z, t, p) {
      SameTrust(y, z, t, p);
    }
  }

  lemma SameTrust(y: System, z: System, t: nat, p: nat)
    requires t < |y.txns| && SameScripts(y, z) && z.order == y.order && Trusted(z, t, p)
    ensures Trusted(y, t, p)
  {
    hide TakenFirst, Asks;
    if OnlyOne(z, t, p) {
      forall u | 0 <= u < |y.txns| && u != t ensures Asks(y.txns[u].script, p) == 0.0 {
        assert Asks(z.txns[u].script, p) == 0.0;
      }
    }
  }

  /** The transaction's own facts after it has loaded or locked a row. */
  lemma StepKeepsTxn(y: System, t: nat)
    requires WantsRow(y, t) && !IsBlocked(y, t) && TxnOk(y, t)
    requires forall p :: At(y.stock, p) >= 0.0
    requires Advanced(y, t).txns[t].phase == RUNNING
    ensures TxnOk(Advanced(y, t), t)
  {
    hide RowOk;
    forall p: nat ensures RowOk(Advanced(y, t), t, p) {
      StepKeepsRow(y, t, p);
    }
  }

  lemma StepKeeps(initial: map<nat, real>, y: System, t: nat)
    requires SystemOk(initial, y) && WantsRow(y, t) && !IsBlocked(y, t)
    requires Advanced(y, t).txns[t].phase == RUNNING
    ensures SystemOk(initial, Advanced(y, t))
  {
    var z := Advanced(y, t);
    assert TxnOk(y, t);
    StepKeepsTxn(y, t);
    StepKeepsLocks(y, t);
    hide RowOk, Took, Met, At, Read, LocksOk, Trusted;
    forall u | 0 <= u < |z.txns| && u != t ensures TxnOk(z, u) {
      assert TxnOk(y, u);
      BystanderKeeps(y, z, u);
    }
  }

  lemma StepKeepsLocks(y: System, t: nat)
    requires LocksOk(y) && WantsRow(y, t) && !IsBlocked(y, t) && Advanced(y, t).txns[t].phase == RUNNING
    ensures LocksOk(Advanced(y, t))
  {
    hide Met, Took, Read;
    var z := Advanced(y, t);
    forall p | p in z.owner
      ensures IsRunning(z, z.owner[p]) && Took(z.txns[z.owner[p]].script, z.txns[z.owner[p]].next, p) {
      MetStep(y.txns[t].script, y.txns[t].next, p);
      assert p in y.owner || z.owner[p] == t;
    }
  }

  lemma CommitKeeps(initial: map<nat, real>, y: System, t: nat)
    requires SystemOk(initial, y) && IsRunning(y, t) && !WantsRow(y, t)
    ensures SystemOk(initial, Advanced(y, t))
  {
    var z := Advanced(y, t);
    assert TxnOk(y, t);
    forall u | 0 <= u < |z.txns| ensures TxnOk(z, u) {
      assert TxnOk(y, u);
      if u != t {
        forall p | IsRunning(y, u) && p in y.txns[u].seen && Trusted(z, u, p)
          ensures At(z.stock, p) == At(y.stock, p) {
          CommitSpares(y, t, u, p);
        }
        BystanderKeeps(y, z, u);
      }
    }
    forall p | p in z.owner
      ensures IsRunning(z, z.owner[p]) && Took(z.txns[z.owner[p]].script, z.txns[z.owner[p]].next, p) {
      assert p in y.owner;
    }
    forall p: nat ensures At(z.stock, p) >= 0.0 {
      CommitInstalls(y, t, p);
    }
  }

  /** A commit does not change a row that another running session trusts. */
  lemma CommitSpares(y: System, t: nat, u: nat, p: nat)
    requires IsRunning(y, t) && !WantsRow(y, t) && TxnOk(y, t)
    requires u != t && IsRunning(y, u) && TxnOk(y, u)
    requires p in y.txns[u].seen && Trusted(Advanced(y, t), u, p)
    ensures At(Advanced(y, t).stock, p) == At(y.stock, p)
  {
    var x, o := y.txns[t], y.txns[u];
    assert RowOk(y, u, p) && RowOk(y, t, p);
    assert Advanced(y, t).txns[t].script == x.script == x.script[..x.next];
    if TakenFirst(o.script, p) {
      TakenFirstIsTook(o.script, o.next, p);
    }
    if Asks(x.script, p) > 0.0 {
      AsksNeedsLock(x.script, x.next, p);
    }
  }

  lemma TurnKeeps(initial: map<nat, real>, y: System, turn: Turn)
    requires SystemOk(initial, y)
    ensures SystemOk(initial, Turned(y, turn))
  {
    var t := turn.txn;
    hide SystemOk;
    if IsRunning(y, t) {
      if turn.Kill? {
        RollbackKeeps(initial, y, t);
      } else if !IsBlocked(y, t) {
        if !WantsRow(y, t) {
          CommitKeeps(initial, y, t);
        } else if Advanced(y, t).txns[t].phase == RUNNING {
          StepKeeps(initial, y, t);
        } else {
          RollbackKeeps(initial, y, t);
        }
      }
    }
  }

  /** Every schedule, of any scripts, keeps what is known of the sessions, the locks and the stock. */
  lemma {:induction false} ScheduleKeeps(initial: map<nat, real>, y: System, turns: seq<Turn>)
    requires SystemOk(initial, y)
    ensures SystemOk(initial, Scheduled(y, turns))
    decreases |turns|
  {
    hide SystemOk;
    if |turns| != 0 {
      TurnKeeps(initial, y, turns[0]);
      ScheduleKeeps(initial, Turned(y, turns[0]), turns[1..]);
    }
  }

  /** The commit order lists every committed transaction exactly once, and no other. */
  ghost predicate OrderOk(y: System) {
    && (forall i :: 0 <= i < |y.order| ==> y.order[i] < |y.txns| && y.txns[y.order[i]].phase == COMMITTED)
    && (forall i, j :: 0 <= i < j < |y.order| ==> y.order[i] != y.order[j])
    && (forall t :: 0 <= t < |y.txns| && y.txns[t].phase == COMMITTED ==> t in y.order)
  }

  lemma SameOrder(y: System, z: System)
    requires OrderOk(y) && z.order == y.order && |z.txns| == |y.txns|
    requires forall t :: 0 <= t < |y.txns| ==> (z.txns[t].phase == COMMITTED <==> y.txns[t].phase == COMMITTED)
    ensures OrderOk(z)
  {
  }

  lemma CommitOrder(y: System, z: System, t: nat)
    requires OrderOk(y) && IsRunning(y, t) && z.order == y.order + [t] && |z.txns| == |y.txns|
    requires z.txns[t].phase == COMMITTED && forall u :: 0 <= u < |y.txns| && u != t ==> z.txns[u] == y.txns[u]
    ensures OrderOk(z)
  {
    forall u | 0 <= u < |z.txns| && z.txns[u].phase == COMMITTED ensures u in z.order {
      if u == t {
        assert z.order[|y.order|] == t;
      } else {
        assert u in y.order;
      }
    }
  }

  lemma TurnKeepsOrder(y: System, turn: Turn)
    requires OrderOk(y)
    ensures OrderOk(Turned(y, turn))
  {
    hide Released, Read, IsBlocked, Changed, OrderOk;
    var z := Turned(y, turn);
    var t := turn.txn;
    if turn.Advance? && IsRunning(y, t) && !IsBlocked(y, t) && !WantsRow(y, t) {
      CommitOrder(y, z, t);
    } else {
      SameOrder(y, z);
    }
  }

  lemma TurnKeepsScripts(y: System, turn: Turn)
    ensures SameScripts(y, Turned(y, turn))
  {
    hide Released, Read, IsBlocked, WantsRow, Changed;
  }

  lemma {:induction false} ScheduleKeepsOrder(y: System, turns: seq<Turn>)
    requires OrderOk(y)
    ensures OrderOk(Scheduled(y, turns)) && SameScripts(y, Scheduled(y, turns))
    decreases |turns|
  {
    hide OrderOk, Turned;
    if |turns| != 0 {
      TurnKeepsOrder(y, turns[0]);
      TurnKeepsScripts(y, turns[0]);
      ScheduleKeepsOrder(Turned(y, turns[0]), turns[1..]);
    }
  }

  lemma StartedOrder(stock: map<nat, real>, scripts: seq<seq<Access>>)
    ensures OrderOk(Started(stock, scripts))
  {
  }

  // ---------- when the interleaving is serial ----------

  /** No script takes from a row that another one first meets as a recipe row. */
  ghost predicate NothingShared(scripts: seq<seq<Access>>) {
    forall t, u, p :: 0 <= t < |scripts| && 0 <= u < |scripts| && u != t && LoadedFirst(scripts[t], p) ==>
                        Asks(scripts[u], p) == 0.0
  }

  ghost predicate RunsScripts(y: System, scripts: seq<seq<Access>>) {
    |y.txns| == |scripts| && forall t :: 0 <= t < |scripts| ==> y.txns[t].script == scripts[t]
  }

  /** The serial execution of the committed transactions, in commit order. */
  function Serial(stock: map<nat, real>, scripts: seq<seq<Access>>, order: seq<nat>): Option<Ledger> {
    if |order| == 0 then Some(Ledger(stock, []))
    else
      var t := order[|order| - 1];
      match Serial(stock, scripts, order[..|order| - 1])
      case None => None
      case Some(l) => if t < |scripts| then Deduct(l, Drawn(scripts[t]), t) else None
  }

  /** Committed stock is what the serial execution gives. */
  ghost predicate SerialOk(initial: map<nat, real>, scripts: seq<seq<Access>>, y: System) {
    && Serial(initial, scripts, y.order).Some?
    && (forall p :: LevelOf(Serial(initial, scripts, y.order).value, p) == At(y.stock, p))
    && NonNegative(Serial(initial, scripts, y.order).value)
  }

  /** Where nothing is shared every row of every running session can be trusted. */
  lemma MetIsTrusted(scripts: seq<seq<Access>>, y: System, t: nat, p: nat)
    requires NothingShared(scripts) && RunsScripts(y, scripts) && IsRunning(y, t) && TxnOk(y, t)
    requires p in y.txns[t].seen
    ensures Trusted(y, t, p)
  {
    assert RowOk(y, t, p);
    FirstMeeting(y.txns[t].script, y.txns[t].next, p);
  }

  /** What a commit does to a row: the session's value is installed when the transaction took from it. */
  lemma CommitInstalls(y: System, t: nat, p: nat)
    requires IsRunning(y, t) && !WantsRow(y, t) && TxnOk(y, t)
    ensures At(Advanced(y, t).stock, p) ==
            if p in y.txns[t].seen && Asks(y.txns[t].script, p) > 0.0
            then Loaded(y.txns[t], p) - Asks(y.txns[t].script, p) else At(y.stock, p)
    ensures Asks(y.txns[t].script, p) >= 0.0
    ensures Asks(y.txns[t].script, p) > 0.0 ==> p in y.txns[t].seen
    ensures p in y.txns[t].seen ==> Asks(y.txns[t].script, p) <= Loaded(y.txns[t], p)
  {
    var x := y.txns[t];
    assert RowOk(y, t, p);
    assert x.script[..x.next] == x.script;
    AsksPrefix(x.script, x.next, p);
    if Asks(x.script, p) > 0.0 {
      AsksNeedsLock(x.script, x.next, p);
    }
  }

  /** A transaction that reached its end with trusted rows takes its demand off the committed stock. */
  lemma CommitTakes(scripts: seq<seq<Access>>, y: System, t: nat, p: nat)
    requires NothingShared(scripts) && RunsScripts(y, scripts)
    requires IsRunning(y, t) && !WantsRow(y, t) && TxnOk(y, t) && At(y.stock, p) >= 0.0
    ensures At(Advanced(y, t).stock, p) == At(y.stock, p) - Asks(scripts[t], p)
    ensures Asks(scripts[t], p) <= At(y.stock, p)
  {
    CommitInstalls(y, t, p);
    if p in y.txns[t].seen {
      MetIsTrusted(scripts, y, t, p);
      assert RowOk(y, t, p);
    }
  }

  /** Installing a fitting script's writes is what deducting it from the serial ledger does. */
  lemma CommitLevels(l: Ledger, draws: seq<Draw>, t: nat, before: map<nat, real>, after: map<nat, real>)
    requires Natural(draws) && NonNegative(l)
    requires forall p :: LevelOf(l, p) == At(before, p) && Demand(draws, p) <= At(before, p)
    requires forall p :: At(after, p) == At(before, p) - Demand(draws, p)
    ensures Deduct(l, draws, t).Some?
    ensures NonNegative(Deduct(l, draws, t).value)
    ensures forall p :: LevelOf(Deduct(l, draws, t).value, p) == At(after, p)
  {
    hide Deduct, Demand, At, Sound, LevelOf;
    assert Fits(l, draws);
    DeductIff(map[], l, draws, t);
  }

  lemma CommitKeepsSerial(initial: map<nat, real>, scripts: seq<seq<Access>>, y: System, t: nat)
    requires SystemOk(initial, y) && SerialOk(initial, scripts, y)
    requires NothingShared(scripts) && RunsScripts(y, scripts)
    requires IsRunning(y, t) && !WantsRow(y, t)
    ensures SerialOk(initial, scripts, Advanced(y, t))
  {
    hide Deduct, Demand, At, LevelOf, LocksOk, Serial, Released, Changed, RowOk, Drawn, Asks, NothingShared;
    var z := Advanced(y, t);
    var l := Serial(initial, scripts, y.order).value;
    assert TxnOk(y, t);
    forall p: nat ensures LevelOf(l, p) == At(y.stock, p) && Demand(Drawn(scripts[t]), p) <= At(y.stock, p)
      && At(z.stock, p) == At(y.stock, p) - Demand(Drawn(scripts[t]), p) {
      CommitTakes(scripts, y, t, p);
      AsksIsDemand(scripts[t], p);
    }
    DrawnNatural(scripts[t]);
    CommitLevels(l, Drawn(scripts[t]), t, y.stock, z.stock);
    SerialAppend(initial, scripts, y.order, t);
  }

  lemma SerialAppend(initial: map<nat, real>, scripts: seq<seq<Access>>, order: seq<nat>, t: nat)
    requires t < |scripts| && Serial(initial, scripts, order).Some?
    ensures Serial(initial, scripts, order + [t]) ==
            Deduct(Serial(initial, scripts, order).value, Drawn(scripts[t]), t)
  {
    assert (order + [t])[..|order|] == order;
  }

  lemma TurnKeepsSerial(initial: map<nat, real>, scripts: seq<seq<Access>>, y: System, turn: Turn)
    requires SystemOk(initial, y) && SerialOk(initial, scripts, y)
    requires NothingShared(scripts) && RunsScripts(y, scripts)
    ensures SerialOk(initial, scripts, Turned(y, turn)) && RunsScripts(Turned(y, turn), scripts)
  {
    hide SystemOk, SerialOk, NothingShared, Read, Released, Changed;
    TurnKeepsScripts(y, turn);
    if turn.Advance? && IsRunning(y, turn.txn) && !WantsRow(y, turn.txn) {
      CommitKeepsSerial(initial, scripts, y, turn.txn);
    } else {
      var z := Turned(y, turn);
      assert z.stock == y.stock && z.order == y.order;
      SameStockSerial(initial, scripts, y, z);
    }
  }

  lemma SameStockSerial(initial: map<nat, real>, scripts: seq<seq<Access>>, y: System, z: System)
    requires SerialOk(initial, scripts, y) && z.stock == y.stock && z.order == y.order
    ensures SerialOk(initial, scripts, z)
  {
  }

  lemma {:induction false} ScheduleKeepsSerial(
    initial: map<nat, real>, scripts: seq<seq<Access>>, y: System, turns: seq<Turn>)
    requires SystemOk(initial, y) && SerialOk(initial, scripts, y)
    requires NothingShared(scripts) && RunsScripts(y, scripts)
    ensures SerialOk(initial, scripts, Scheduled(y, turns))
    decreases |turns|
  {
    hide SystemOk, SerialOk, NothingShared, Turned;
    if |turns| != 0 {
      TurnKeeps(initial, y, turns[0]);
      TurnKeepsSerial(initial, scripts, y, turns[0]);
      ScheduleKeepsSerial(initial, scripts, Turned(y, turns[0]), turns[1..]);
    }
  }

  /** Total demand of a list of transactions. */
  function OrderDemand(scripts: seq<seq<Access>>, order: seq<nat>, p: nat): real {
    if |order| == 0 then 0.0
    else OrderDemand(scripts, order[..|order| - 1], p)
         + if order[|order| - 1] < |scripts| then Asks(scripts[order[|order| - 1]], p) else 0.0
  }

  lemma {:induction false} SerialTakesDemand(
    initial: map<nat, real>, scripts: seq<seq<Access>>, order: seq<nat>, p: nat)
    requires forall q :: q in initial ==> initial[q] >= 0.0
    requires forall t :: 0 <= t < |scripts| ==> Proper(scripts[t])
    requires Serial(initial, scripts, order).Some?
    ensures NonNegative(Serial(initial, scripts, order).value)
    ensures LevelOf(Serial(initial, scripts, order).value, p) == At(initial, p) - OrderDemand(scripts, order, p)
  {
    hide Asks, Drawn;
    if |order| != 0 {
      var earlier, t := order[..|order| - 1], order[|order| - 1];
      SerialTakesDemand(initial, scripts, earlier, p);
      DrawnNatural(scripts[t]);
      AsksIsDemand(scripts[t], p);
      DeductIff(map[], Serial(initial, scripts, earlier).value, Drawn(scripts[t]), t);
    }
  }

  /**
   * Where no script takes from a row that another one first meets as a recipe row, every
   * interleaving ends with the stock of the serial execution of the committed transactions in
   * commit order: the initial stock less their demand, never negative.
   */
  lemma InterleavingIsSerial(stock: map<nat, real>, scripts: seq<seq<Access>>, turns: seq<Turn>, p: nat)
    requires forall q :: q in stock ==> stock[q] >= 0.0
    requires forall t :: 0 <= t < |scripts| ==> Proper(scripts[t])
    requires NothingShared(scripts)
    ensures var y := Scheduled(Started(stock, scripts), turns);
            && At(y.stock, p) >= 0.0
            && At(y.stock, p) == At(stock, p) - OrderDemand(scripts, y.order, p)
            && Serial(stock, scripts, y.order).Some?
            && LevelOf(Serial(stock, scripts, y.order).value, p) == At(y.stock, p)
  {
    StartIsOk(stock, scripts);
    StartIsSerial(stock, scripts);
    ScheduleKeepsSerial(stock, scripts, Started(stock, scripts), turns);
    hide SystemOk, NothingShared, Proper, Serial, Scheduled;
    var y := Scheduled(Started(stock, scripts), turns);
    SerialTakesDemand(stock, scripts, y.order, p);
  }

  lemma StartIsSerial(stock: map<nat, real>, scripts: seq<seq<Access>>)
    requires forall q :: q in stock ==> stock[q] >= 0.0
    ensures SerialOk(stock, scripts, Started(stock, scripts))
  {
  }

  // ---------- the interleaved sales ----------

  function Scripts(products: map<nat, Product>, rows: seq<MaterialRow>, sales: seq<seq<Line>>)
    : (scripts: seq<seq<Access>>)
    ensures |scripts| == |sales|
  {
    seq(|sales|, t requires 0 <= t < |sales| => Script(products, rows, sales[t]))
  }

  /** No sale draws on a product that another sale first meets as a recipe material. */
  ghost predicate NoSharedMaterial(products: map<nat, Product>, rows: seq<MaterialRow>, sales: seq<seq<Line>>) {
    forall t, u, p :: 0 <= t < |sales| && 0 <= u < |sales| && u != t
                      && LoadedFirst(Script(products, rows, sales[t]), p) ==>
                        Demand(Draws(products, rows, sales[u]), p) == 0.0
  }

  /** What the listed sales draw on `p` together. */
  function SalesDemand(
    products: map<nat, Product>, rows: seq<MaterialRow>, sales: seq<seq<Line>>, order: seq<nat>, p: nat): real
  {
    if |order| == 0 then 0.0
    else SalesDemand(products, rows, sales, order[..|order| - 1], p)
         + if order[|order| - 1] < |sales| then Demand(Draws(products, rows, sales[order[|order| - 1]]), p) else 0.0
  }

  lemma {:induction false} OrderDemandIsSalesDemand(
    products: map<nat, Product>, rows: seq<MaterialRow>, sales: seq<seq<Line>>, order: seq<nat>, p: nat)
    ensures OrderDemand(Scripts(products, rows, sales), order, p) == SalesDemand(products, rows, sales, order, p)
  {
    hide Script, Draws, Demand, Asks;
    if |order| != 0 {
      var t := order[|order| - 1];
      OrderDemandIsSalesDemand(products, rows, sales, order[..|order| - 1], p);
      if t < |sales| {
        ScriptDemand(products, rows, sales[t], p);
      }
    }
  }

  lemma ScriptsAreProper(products: map<nat, Product>, rows: seq<MaterialRow>, sales: seq<seq<Line>>)
    requires PositiveQuantities(rows)
    requires forall t, i :: 0 <= t < |sales| && 0 <= i < |sales[t]| ==> sales[t][i].quantity > 0.0
    ensures forall t :: 0 <= t < |sales| ==> Proper(Scripts(products, rows, sales)[t])
  {
    forall t | 0 <= t < |sales| ensures Proper(Scripts(products, rows, sales)[t]) {
      ScriptProper(products, rows, sales[t]);
    }
  }

  /**
   * In every interleaving of the finalises of sales none of which draws on another's recipe
   * material, the committed stock of each product is the initial stock less what the committed
   * sales draw, each counted once, and is never negative.
   */
  lemma InterleavedSalesConserveStock(
    products: map<nat, Product>, rows: seq<MaterialRow>, sales: seq<seq<Line>>, stock: map<nat, real>,
    turns: seq<Turn>, p: nat)
    requires PositiveQuantities(rows) && forall q :: q in stock ==> stock[q] >= 0.0
    requires forall t, i :: 0 <= t < |sales| && 0 <= i < |sales[t]| ==> sales[t][i].quantity > 0.0
    requires NoSharedMaterial(products, rows, sales)
    ensures var y := Scheduled(Started(stock, Scripts(products, rows, sales)), turns);
            && At(y.stock, p) == At(stock, p) - SalesDemand(products, rows, sales, y.order, p)
            && At(y.stock, p) >= 0.0
            && OrderOk(y)
  {
    hide Script, Scheduled, SalesDemand, OrderDemand, Serial, Demand, Asks, Draws, LoadedFirst, OrderOk;
    var scripts := Scripts(products, rows, sales);
    ScriptsAreProper(products, rows, sales);
    forall t, u, q | 0 <= t < |scripts| && 0 <= u < |scripts| && u != t && LoadedFirst(scripts[t], q)
      ensures Asks(scripts[u], q) == 0.0 {
      ScriptDemand(products, rows, sales[u], q);
    }
    InterleavingIsSerial(stock, scripts, turns, p);
    StartedOrder(stock, scripts);
    ScheduleKeepsOrder(Started(stock, scripts), turns);
    var y := Scheduled(Started(stock, scripts), turns);
    OrderDemandIsSalesDemand(products, rows, sales, y.order, p);
  }

  /** Sales of plain products never share a material. */
  lemma PlainSalesShareNothing(products: map<nat, Product>, rows: seq<MaterialRow>, sales: seq<seq<Line>>)
    requires forall t, i :: 0 <= t < |sales| && 0 <= i < |sales[t]| && sales[t][i].product in products ==>
               products[sales[t][i].product].itemType == PRODUCT
    ensures NoSharedMaterial(products, rows, sales)
  {
    forall t, p: nat | 0 <= t < |sales| ensures !LoadedFirst(Script(products, rows, sales[t]), p) {
      PlainScript(products, rows, sales[t]);
    }
  }

  lemma {:induction false} PlainScript(products: map<nat, Product>, rows: seq<MaterialRow>, lines: seq<Line>)
    requires forall i :: 0 <= i < |lines| && lines[i].product in products ==>
               products[lines[i].product].itemType == PRODUCT
    ensures forall k :: 0 <= k < |Script(products, rows, lines)| ==> Script(products, rows, lines)[k].Take?
  {
    if |lines| != 0 {
      PlainScript(products, rows, lines[..|lines| - 1]);
    }
  }

  /** What the session of the transaction can still take of `p`: what it loaded, or would load now. */
  function Cap(y: System, t: nat, p: nat): real
    requires t < |y.txns| && y.txns[t].next <= |y.txns[t].script|
  {
    if p in y.txns[t].seen then Loaded(y.txns[t], p) else At(y.stock, p)
  }

  /**
   * A transaction aborts for shortage only when its whole demand exceeds what its session has
   * loaded; if the session can be trusted for that row, the demand does not fit the stock
   * committed at that moment, and run alone then it would have failed as well.
   */
  lemma ShortageIsReal(initial: map<nat, real>, y: System, t: nat)
    requires SystemOk(initial, y) && WantsRow(y, t) && !IsBlocked(y, t)
    requires Advanced(y, t).txns[t].phase == ABORTED
    ensures var x := y.txns[t];
            var p := x.script[x.next].product;
            && Asks(x.script, p) > Cap(y, t, p)
            && (p !in x.seen || Trusted(y, t, p) ==>
                !Fits(Ledger(y.stock, []), Drawn(x.script)) && Deduct(Ledger(y.stock, []), Drawn(x.script), t).None?)
  {
    assert TxnOk(y, t);
    var x := y.txns[t];
    var p := x.script[x.next].product;
    assert RowOk(y, t, p);
    MetStep(x.script, x.next, p);
    AsksPrefix(x.script, x.next + 1, p);
    if Asks(x.script[..x.next], p) != 0.0 {
      AsksNeedsLock(x.script, x.next, p);
    }
    hide RowOk, Asks, Drawn, Met, Took, Demand;
    if p !in x.seen || Trusted(y, t, p) {
      DrawnNatural(x.script);
      AsksIsDemand(x.script, p);
      assert LevelOf(Ledger(y.stock, []), p) == At(y.stock, p);
      assert !Fits(Ledger(y.stock, []), Drawn(x.script)) by {
        assert Demand(Drawn(x.script), p) > LevelOf(Ledger(y.stock, []), p);
      }
      assert NonNegative(Ledger(y.stock, [])) by {
        forall q: nat ensures LevelOf(Ledger(y.stock, []), q) >= 0.0 {
          assert At(y.stock, q) >= 0.0;
        }
      }
      DeductIff(map[], Ledger(y.stock, []), Drawn(x.script), t);
    }
  }
}
