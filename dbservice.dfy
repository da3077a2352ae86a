/** The in-browser inventory ledger (services/dbService.ts): a product table
    keyed by case-insensitive name and an audit log kept newest first, each
    stored under its own storage key. */
module DbService {
  import opened Wrappers
  import opened Text
  import opened Types
  import opened Totals

  /** `findIndex` / `find` with the case-insensitive name test: the first
      product whose lowered name equals the lowered `name`. */
  function FindIndex(ps: seq<Product>, name: string): (r: Option<nat>)
    ensures r.Some? ==> r.value < |ps| && NameMatches(ps[r.value], name)
    ensures r.Some? ==> forall j :: 0 <= j < r.value ==> !NameMatches(ps[j], name)
    ensures r.None? ==> forall j :: 0 <= j < |ps| ==> !NameMatches(ps[j], name)
  {
    if ps == [] then None
    else if NameMatches(ps[0], name) then Some(0)
    else
      match FindIndex(ps[1..], name)
      case Some(k) => Some(k + 1)
      case None => None
  }

  /** Under the uniqueness invariant the product found is the only match. */
  lemma FindIndexOnlyMatch(ps: seq<Product>, name: string, j: nat)
    requires NamesUnique(ps)
    requires j < |ps| && NameMatches(ps[j], name)
    ensures FindIndex(ps, name) == Some(j)
  {
  }

  /** `SKU-${n}`. */
  function Sku(n: SkuNumber): (s: string)
    ensures |s| > 4 && s[..4] == "SKU-"
    ensures forall i :: 4 <= i < |s| ==> IsDigit(s[i])
    ensures ParseNat(s[4..]) == n
  {
    NatToStringRoundTrip(n);
    assert ("SKU-" + NatToString(n))[4..] == NatToString(n);
    "SKU-" + NatToString(n)
  }

  /** The `category = "General"` default parameter. */
  function CategoryOrDefault(category: Option<string>): (c: string)
    ensures category.None? ==> c == "General"
    ensures category.Some? ==> c == category.value
  {
    category.GetOr("General")
  }

  /** The product list after `addProduct`: a name already present (ignoring
      case) gains `qty` units and nothing else about it changes; an unknown
      name is appended as a new product. */
  function AfterAdd(ps: seq<Product>, name: string, qty: int, location: string,
                    category: string, id: int, sku: string): (r: seq<Product>)
    ensures FindIndex(ps, name).Some? ==>
      var i := FindIndex(ps, name).value;
      && |r| == |ps|
      && r[i] == ps[i].(qty := ps[i].qty + qty)
      && forall j :: 0 <= j < |ps| && j != i ==> r[j] == ps[j]
    ensures FindIndex(ps, name).None? ==>
      && |r| == |ps| + 1
      && r[..|ps|] == ps
      && r[|ps|] == Product(id, name, sku, category, qty, location, None)
  {
    match FindIndex(ps, name)
    case Some(i) => ps[i := ps[i].(qty := ps[i].qty + qty)]
    case None => ps + [Product(id, name, sku, category, qty, location, None)]
  }

  /** The product list after `moveProduct`, or `None` when no product has the
      name: only the found product's location changes. */
  function AfterMove(ps: seq<Product>, name: string, toLocation: string): (r: Option<seq<Product>>)
    ensures r.None? <==> FindIndex(ps, name).None?
    ensures r.Some? ==>
      var i := FindIndex(ps, name).value;
      && |r.value| == |ps|
      && r.value[i] == ps[i].(location := toLocation)
      && forall j :: 0 <= j < |ps| && j != i ==> r.value[j] == ps[j]
  {
    match FindIndex(ps, name)
    case Some(i) => Some(ps[i := ps[i].(location := toLocation)])
    case None => None
  }

  /** The product list after `adjustStock`, or `None` when no product has the
      name: only the found product's quantity changes, to exactly `trueQty`. */
  function AfterAdjust(ps: seq<Product>, name: string, trueQty: int): (r: Option<seq<Product>>)
    ensures r.None? <==> FindIndex(ps, name).None?
    ensures r.Some? ==>
      var i := FindIndex(ps, name).value;
      && |r.value| == |ps|
      && r.value[i] == ps[i].(qty := trueQty)
      && forall j :: 0 <= j < |ps| && j != i ==> r.value[j] == ps[j]
  {
    match FindIndex(ps, name)
    case Some(i) => Some(ps[i := ps[i].(qty := trueQty)])
    case None => None
  }

  /** Replacing a product by one with the same lowered name keeps the set of
      lowered names, hence uniqueness. */
  lemma UpdateKeepsNames(ps: seq<Product>, i: nat, p: Product)
    requires i < |ps| && Lower(p.name) == Lower(ps[i].name)
    ensures NameSet(ps[i := p]) == NameSet(ps)
    ensures NamesUnique(ps) ==> NamesUnique(ps[i := p])
  {
    var qs := ps[i := p];
    forall k | k in NameSet(qs) ensures k in NameSet(ps) {
      var j :| 0 <= j < |qs| && Lower(qs[j].name) == k;
      assert Lower(ps[j].name) == k;
    }
    forall k | k in NameSet(ps) ensures k in NameSet(qs) {
      var j :| 0 <= j < |ps| && Lower(ps[j].name) == k;
      assert Lower(qs[j].name) == k;
    }
  }

  /** `addProduct` keeps the names unique: it appends only when no product
      matches. It adds exactly `qty` units, and one more distinct name
      exactly when the name was new. */
  lemma {:induction false} AddInvariants(ps: seq<Product>, name: string, qty: int, location: string,
                                         category: string, id: int, sku: string)
    ensures NamesUnique(ps) ==> NamesUnique(AfterAdd(ps, name, qty, location, category, id, sku))
    ensures TotalItems(AfterAdd(ps, name, qty, location, category, id, sku)) == TotalItems(ps) + qty
    ensures UniqueProducts(AfterAdd(ps, name, qty, location, category, id, sku))
         == UniqueProducts(ps) + (if FindIndex(ps, name).Some? then 0 else 1)
  {
    var r := AfterAdd(ps, name, qty, location, category, id, sku);
    match FindIndex(ps, name)
    case Some(i) =>
      UpdateKeepsNames(ps, i, ps[i].(qty := ps[i].qty + qty));
      TotalItemsUpdate(ps, i, ps[i].(qty := ps[i].qty + qty));
    case None =>
      var p := Product(id, name, sku, category, qty, location, None);
      assert r == ps + [p];
      TotalItemsConcat(ps, [p]);
      assert TotalItems([p]) == qty by {
        assert [p][..0] == [];
      }
      NameSetSnoc(r);
      assert r[..|r| - 1] == ps;
      assert Lower(name) !in NameSet(ps);
      if NamesUnique(ps) {
        forall i, j | 0 <= i < j < |r| ensures Lower(r[i].name) != Lower(r[j].name) {
          if j < |ps| {
            assert r[i] == ps[i] && r[j] == ps[j];
          } else {
            assert !NameMatches(ps[i], name);
          }
        }
      }
  }

  /** `moveProduct` keeps every name and every unit. */
  lemma MoveInvariants(ps: seq<Product>, name: string, toLocation: string)
    requires AfterMove(ps, name, toLocation).Some?
    ensures NameSet(AfterMove(ps, name, toLocation).value) == NameSet(ps)
    ensures NamesUnique(ps) ==> NamesUnique(AfterMove(ps, name, toLocation).value)
    ensures TotalItems(AfterMove(ps, name, toLocation).value) == TotalItems(ps)
  {
    var i := FindIndex(ps, name).value;
    UpdateKeepsNames(ps, i, ps[i].(location := toLocation));
    TotalItemsUpdate(ps, i, ps[i].(location := toLocation));
  }

  /** `adjustStock` keeps every name and changes the total by the signed
      correction `trueQty - oldQty`. */
  lemma AdjustInvariants(ps: seq<Product>, name: string, trueQty: int)
    requires AfterAdjust(ps, name, trueQty).Some?
    ensures NameSet(AfterAdjust(ps, name, trueQty).value) == NameSet(ps)
    ensures NamesUnique(ps) ==> NamesUnique(AfterAdjust(ps, name, trueQty).value)
    ensures TotalItems(AfterAdjust(ps, name, trueQty).value)
         == TotalItems(ps) - ps[FindIndex(ps, name).value].qty + trueQty
  {
    var i := FindIndex(ps, name).value;
    UpdateKeepsNames(ps, i, ps[i].(qty := trueQty));
    TotalItemsUpdate(ps, i, ps[i].(qty := trueQty));
  }

  // The log texts, as the template literals build them.

  function UpdatedDetails(name: string, qty: int, total: int, location: string): (d: string)
    ensures "Updated " + name + ": +" <= d
  {
    "Updated " + name + ": +" + IntToString(qty) + " (Total: " + IntToString(total) + ") at " + location
  }

  function CreatedDetails(name: string, qty: int, location: string, category: string): (d: string)
    ensures "Created " + name + ": " <= d
    ensures |d| >= |category| + 3 && d[|d| - |category| - 3..] == " (" + category + ")"
  {
    "Created " + name + ": " + IntToString(qty) + " units at " + location + " (" + category + ")"
  }

  /** A zero quantity is reported as "all". */
  function MovedDetails(name: string, qty: int, from: string, to: string): (d: string)
    ensures qty == 0 ==> "Moved all " + name + " from " <= d
    ensures qty != 0 ==> "Moved " + IntToString(qty) + " " + name + " from " <= d
  {
    "Moved " + (if qty != 0 then IntToString(qty) else "all") + " " + name + " from " + from + " to " + to
  }

  function AuditDetails(name: string, oldQty: int, trueQty: int): (d: string)
    ensures "Audit " + name + ": Corrected qty from " <= d
  {
    "Audit " + name + ": Corrected qty from " + IntToString(oldQty) + " to " + IntToString(trueQty)
  }

  function NotFoundMessage(name: string): (m: string)
    ensures "Product \"" + name + "\"" <= m
    ensures m[|m| - 1] == '.'
  {
    "Product \"" + name + "\" not found."
  }

  /** The log text `addProduct` writes for the product list `ps` it found. */
  function AddDetails(ps: seq<Product>, name: string, qty: int, location: string, category: string): (d: string)
    ensures FindIndex(ps, name).Some? ==> "Updated " + name + ": +" <= d
    ensures FindIndex(ps, name).None? ==> "Created " + name + ": " <= d
  {
    match FindIndex(ps, name)
    case Some(i) => UpdatedDetails(name, qty, ps[i].qty + qty, ps[i].location)
    case None => CreatedDetails(name, qty, location, category)
  }

  /** The products `seedData` creates, in order. */
  function SeedProducts(s1: Stamp, s2: Stamp, s3: Stamp): (ps: seq<Product>)
    ensures |ps| == 3 && NamesUnique(ps)
    ensures ps[0].id == s1.productId && ps[1].id == s2.productId && ps[2].id == s3.productId
    ensures forall k :: 0 <= k < |ps| ==> ps[k].qty > 0 && ps[k].minStock.None?
  {
    [ Product(s1.productId, "IPhones", Sku(s1.skuNumber), "Electronics", 50, "Warehouse A", None),
      Product(s2.productId, "Office Chairs", Sku(s2.skuNumber), "Furniture", 120, "Showroom", None),
      Product(s3.productId, "Steel Rods", Sku(s3.skuNumber), "Raw Material", 500, "Zone B", None) ]
  }

  /** The log entries `seedData` prepends, newest first. */
  function SeedLogs(s1: Stamp, s2: Stamp, s3: Stamp): (ls: seq<Log>)
    ensures |ls| == 3
    ensures ls[0].timestamp == s3.timestamp && ls[2].timestamp == s1.timestamp
    ensures forall k :: 0 <= k < |ls| ==> ls[k].action == "ADD_STOCK" && "Created " <= ls[k].details
  {
    [ Log(s3.logId, "ADD_STOCK", CreatedDetails("Steel Rods", 500, "Zone B", "Raw Material"), s3.timestamp),
      Log(s2.logId, "ADD_STOCK", CreatedDetails("Office Chairs", 120, "Showroom", "Furniture"), s2.timestamp),
      Log(s1.logId, "ADD_STOCK", CreatedDetails("IPhones", 50, "Warehouse A", "Electronics"), s1.timestamp) ]
  }

  /** The seed is a valid ledger: three products with unique names and 670 units. */
  lemma SeedIsValid(s1: Stamp, s2: Stamp, s3: Stamp)
    ensures |SeedProducts(s1, s2, s3)| == 3
    ensures NamesUnique(SeedProducts(s1, s2, s3))
    ensures UniqueProducts(SeedProducts(s1, s2, s3)) == 3
    ensures TotalItems(SeedProducts(s1, s2, s3)) == 670
  {
    var ps := SeedProducts(s1, s2, s3);
    assert ps[..2][..1] == ps[..1];
    assert TotalItems(ps[..1]) == 50 by {
      assert ps[..1][..0] == [];
    }
    assert TotalItems(ps[..2]) == 170;
    UniqueProductsBound(ps);
  }

  /** The three seeding calls of `addProduct`, one at a time: each name is
      new, so each call appends its product and logs a "Created" entry. */
  lemma SeedSteps(s1: Stamp, s2: Stamp, s3: Stamp)
    ensures var ps, ls := SeedProducts(s1, s2, s3), SeedLogs(s1, s2, s3);
      && AfterAdd([], "IPhones", 50, "Warehouse A", "Electronics", s1.productId, Sku(s1.skuNumber)) == ps[..1]
      && AddDetails([], "IPhones", 50, "Warehouse A", "Electronics") == ls[2].details
      && AfterAdd(ps[..1], "Office Chairs", 120, "Showroom", "Furniture", s2.productId, Sku(s2.skuNumber)) == ps[..2]
      && AddDetails(ps[..1], "Office Chairs", 120, "Showroom", "Furniture") == ls[1].details
      && AfterAdd(ps[..2], "Steel Rods", 500, "Zone B", "Raw Material", s3.productId, Sku(s3.skuNumber)) == ps
      && AddDetails(ps[..2], "Steel Rods", 500, "Zone B", "Raw Material") == ls[0].details
  {
    var ps := SeedProducts(s1, s2, s3);
    assert !NameMatches(ps[0], "Office Chairs");
    assert FindIndex(ps[..1], "Office Chairs") == None;
    assert !NameMatches(ps[0], "Steel Rods") && !NameMatches(ps[1], "Steel Rods");
    assert FindIndex(ps[..2], "Steel Rods") == None;
  }

  /** The browser storage holding the ledger: one entry per storage key,
      `None` while the key is absent. */
  class Store {
    var products: Option<seq<Product>>
    var logs: Option<seq<Log>>

    /** A browser profile that has never stored anything. */
    constructor ()
      ensures products == None && logs == None
    {
      products := None;
      logs := None;
    }

    /** `getProducts`: an absent key reads as the empty list. */
    function Products(): (r: seq<Product>)
      reads this
      ensures products.None? ==> r == []
      ensures products.Some? ==> r == products.value
    {
      products.GetOr([])
    }

    /** `getLogs`: an absent key reads as the empty log. */
    function Logs(): (r: seq<Log>)
      reads this
      ensures logs.None? ==> r == []
      ensures logs.Some? ==> r == logs.value
    {
      logs.GetOr([])
    }

    /** `initDb`: creates each missing key as an empty list and leaves present
        ones alone, so what readers see does not change. */
    method InitDb()
      modifies this
      ensures products == if old(products).None? then Some([]) else old(products)
      ensures logs == if old(logs).None? then Some([]) else old(logs)
      ensures Products() == old(Products()) && Logs() == old(Logs())
    {
      if products.None? {
        products := Some([]);
      }
      if logs.None? {
        logs := Some([]);
      }
    }

    /** `addLog`: prepends one entry, so the previous log is exactly the tail. */
    method AddLog(action: string, details: string, id: int, timestamp: string)
      modifies this
      ensures products == old(products)
      ensures logs == Some([Log(id, action, details, timestamp)] + old(Logs()))
    {
      var current := Logs();
      logs := Some([Log(id, action, details, timestamp)] + current);
    }

    /** `addProduct`: increments the quantity of the product found by name
        (case-insensitively), or appends a new product; logs one ADD_STOCK
        entry. Keeps the names unique and adds exactly `qty` units. */
    method AddProduct(name: string, qty: int, location: string, category: Option<string>, stamp: Stamp)
      modifies this
      ensures products == Some(AfterAdd(old(Products()), name, qty, location, CategoryOrDefault(category),
                                        stamp.productId, Sku(stamp.skuNumber)))
      ensures logs == Some([Log(stamp.logId, "ADD_STOCK",
                                AddDetails(old(Products()), name, qty, location, CategoryOrDefault(category)),
                                stamp.timestamp)] + old(Logs()))
      ensures old(NamesUnique(Products())) ==> NamesUnique(Products())
      ensures TotalItems(Products()) == old(TotalItems(Products())) + qty
    {
      var ps := Products();
      var cat := CategoryOrDefault(category);
      ghost var before := ps;
      var existingIndex := FindIndex(ps, name);
      var details;
      if existingIndex.Some? {
        var i := existingIndex.value;
        ps := ps[i := ps[i].(qty := ps[i].qty + qty)];
        products := Some(ps);
        details := UpdatedDetails(name, qty, ps[i].qty, ps[i].location);
      } else {
        var newProduct := Product(stamp.productId, name, Sku(stamp.skuNumber), cat, qty, location, None);
        ps := ps + [newProduct];
        products := Some(ps);
        details := CreatedDetails(name, qty, location, cat);
      }
      AddLog("ADD_STOCK", details, stamp.logId, stamp.timestamp);
      AddInvariants(before, name, qty, location, cat, stamp.productId, Sku(stamp.skuNumber));
    }

    /** `moveProduct`: sets the found product's location to `toLocation`
        (its quantity is kept whatever `qty` says; `qty` only shapes the log
        text) and logs one MOVE_STOCK entry; fails with "not found" and
        changes nothing when no product has the name. */
    method MoveProduct(name: string, qty: int, toLocation: string, stamp: Stamp) returns (res: Outcome<string>)
      modifies this
      ensures res.Fail? <==> FindIndex(old(Products()), name).None?
      ensures res.Fail? ==>
        res.error == NotFoundMessage(name) && products == old(products) && logs == old(logs)
      ensures res.Pass? ==>
        var i := FindIndex(old(Products()), name).value;
        && products == Some(AfterMove(old(Products()), name, toLocation).value)
        && logs == Some([Log(stamp.logId, "MOVE_STOCK",
                             MovedDetails(name, qty, old(Products())[i].location, toLocation),
                             stamp.timestamp)] + old(Logs()))
      ensures old(NamesUnique(Products())) ==> NamesUnique(Products())
      ensures TotalItems(Products()) == old(TotalItems(Products()))
    {
      var ps := Products();
      var found := FindIndex(ps, name);
      if found.Some? {
        var i := found.value;
        var oldLocation := ps[i].location;
        MoveInvariants(ps, name, toLocation);
        ps := ps[i := ps[i].(location := toLocation)];
        products := Some(ps);
        AddLog("MOVE_STOCK", MovedDetails(name, qty, oldLocation, toLocation), stamp.logId, stamp.timestamp);
        res := Pass;
      } else {
        res := Fail(NotFoundMessage(name));
      }
    }

    /** `adjustStock`: sets the found product's quantity to exactly `trueQty`
        (negative values included) and logs one ADJUST_STOCK entry; fails
        with "not found" and changes nothing when no product has the name. */
    method AdjustStock(name: string, trueQty: int, stamp: Stamp) returns (res: Outcome<string>)
      modifies this
      ensures res.Fail? <==> FindIndex(old(Products()), name).None?
      ensures res.Fail? ==>
        res.error == NotFoundMessage(name) && products == old(products) && logs == old(logs)
      ensures res.Pass? ==>
        var i := FindIndex(old(Products()), name).value;
        && products == Some(AfterAdjust(old(Products()), name, trueQty).value)
        && logs == Some([Log(stamp.logId, "ADJUST_STOCK",
                             AuditDetails(name, old(Products())[i].qty, trueQty),
                             stamp.timestamp)] + old(Logs()))
        && TotalItems(Products()) == old(TotalItems(Products())) - old(Products())[i].qty + trueQty
      ensures old(NamesUnique(Products())) ==> NamesUnique(Products())
    {
      var ps := Products();
      var found := FindIndex(ps, name);
      if found.Some? {
        var i := found.value;
        var oldQty := ps[i].qty;
        AdjustInvariants(ps, name, trueQty);
        ps := ps[i := ps[i].(qty := trueQty)];
        products := Some(ps);
        AddLog("ADJUST_STOCK", AuditDetails(name, oldQty, trueQty), stamp.logId, stamp.timestamp);
        res := Pass;
      } else {
        res := Fail(NotFoundMessage(name));
      }
    }

    /** `seedData`: on an empty product list adds the three demo products,
        logging each, so the newest entry is the "Steel Rods" one; otherwise
        changes nothing. */
    method SeedData(s1: Stamp, s2: Stamp, s3: Stamp)
      modifies this
      ensures old(Products()) != [] ==> products == old(products) && logs == old(logs)
      ensures old(Products()) == [] ==>
        && products == Some(SeedProducts(s1, s2, s3))
        && logs == Some(SeedLogs(s1, s2, s3) + old(Logs()))
    {
      if Products() == [] {
        SeedSteps(s1, s2, s3);
        ghost var entries, earlier := SeedLogs(s1, s2, s3), Logs();
        AddProduct("IPhones", 50, "Warehouse A", Some("Electronics"), s1);
        AddProduct("Office Chairs", 120, "Showroom", Some("Furniture"), s2);
        assert Logs() == entries[1..] + earlier;
        AddProduct("Steel Rods", 500, "Zone B", Some("Raw Material"), s3);
        assert Logs() == [entries[0]] + (entries[1..] + earlier);
        assert [entries[0]] + (entries[1..] + earlier) == ([entries[0]] + entries[1..]) + earlier;
        assert entries == [entries[0]] + entries[1..];
      }
    }
  }
}
