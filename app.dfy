/** The command center (App.tsx): what happens to an interpreted command —
    the error check, the per-tool parameter checks, the ledger call, and the
    status shown afterwards. */
module App {
  import opened Wrappers
  import opened Text
  import opened Types
  import opened DbService
  import opened Metrics

  /** JavaScript truthiness of an optional string: only `undefined` and the
      empty string are falsy. */
  predicate TruthyText(s: Option<string>)
    ensures TruthyText(s) <==> s != None && s != Some("")
  {
    s.Some? && s.value != ""
  }

  /** JavaScript truthiness of an optional number: only `undefined` and 0 are
      falsy. */
  predicate TruthyNumber(n: Option<int>)
    ensures TruthyNumber(n) <==> n != None && n != Some(0)
  {
    n.Some? && n.value != 0
  }

  /** The ledger operation a command asks for, with its arguments. */
  datatype LedgerCall =
    | AddCall(name: string, qty: int, location: string, category: Option<string>)
    | MoveCall(name: string, qty: int, toLocation: string)
    | AdjustCall(name: string, trueQty: int)
    | NoCall

  /** Either a ledger call to make, or the message of the error thrown instead. */
  datatype Plan = Call(op: LedgerCall) | Reject(message: string)

  const MissingAddParameters := "Missing parameters for Adding Stock."
  const MissingMoveParameters := "Missing parameters for Moving Stock."
  const MissingAdjustParameters := "Missing parameters for Adjustment."
  const UnknownCommand := "Unknown command. Please try again."
  const ReportMessage := "Report requested. See the Live Warehouse State."

  /** The decision table of `handleCommand`: an `error` field is thrown first;
      then ADD_STOCK needs a truthy name, qty and location (so a zero qty is
      refused and a negative one is not), MOVE_STOCK a truthy name and
      destination (an absent qty becomes 0), ADJUST_STOCK a name and a defined
      true quantity (zero included); REPORT calls nothing; DELIVER_STOCK and
      UNKNOWN are unknown commands. */
  function PlanFor(r: AICommandResponse): (p: Plan)
    ensures TruthyText(r.error) ==> p == Reject(r.error.value)
    ensures !TruthyText(r.error) && r.tool == AddStock ==>
      if TruthyText(r.name) && TruthyNumber(r.qty) && TruthyText(r.location)
      then p == Call(AddCall(r.name.value, r.qty.value, r.location.value, r.category))
      else p == Reject(MissingAddParameters)
    ensures !TruthyText(r.error) && r.tool == MoveStock ==>
      if TruthyText(r.name) && TruthyText(r.toLocation)
      then p == Call(MoveCall(r.name.value, r.qty.GetOr(0), r.toLocation.value))
      else p == Reject(MissingMoveParameters)
    ensures !TruthyText(r.error) && r.tool == AdjustStock ==>
      if TruthyText(r.name) && r.trueQty.Some?
      then p == Call(AdjustCall(r.name.value, r.trueQty.value))
      else p == Reject(MissingAdjustParameters)
    ensures !TruthyText(r.error) && r.tool == Report ==> p == Call(NoCall)
    ensures !TruthyText(r.error) && (r.tool == DeliverStock || r.tool == Unknown) ==> p == Reject(UnknownCommand)
  {
    if TruthyText(r.error) then Reject(r.error.value)
    else
      match r.tool
      case AddStock =>
        if !TruthyText(r.name) || !TruthyNumber(r.qty) || !TruthyText(r.location) then Reject(MissingAddParameters)
        else Call(AddCall(r.name.value, r.qty.value, r.location.value, r.category))
      case MoveStock =>
        if !TruthyText(r.name) || !TruthyText(r.toLocation) then Reject(MissingMoveParameters)
        else Call(MoveCall(r.name.value, if TruthyNumber(r.qty) then r.qty.value else 0, r.toLocation.value))
      case AdjustStock =>
        if !TruthyText(r.name) || r.trueQty.None? then Reject(MissingAdjustParameters)
        else Call(AdjustCall(r.name.value, r.trueQty.value))
      case Report => Call(NoCall)
      case _ => Reject(UnknownCommand)
  }

  /** The truthiness edges of the parameter checks: a zero or absent `qty`
      or an empty name refuses ADD_STOCK while a negative `qty` passes; a zero
      `true_qty` is accepted; MOVE_STOCK without `qty` moves with 0; an empty
      `error` string is not an error. */
  lemma PlanTruthinessEdges(r: AICommandResponse)
    ensures r.error == Some("") && r.tool == Report ==> PlanFor(r) == Call(NoCall)
    ensures !TruthyText(r.error) && r.tool == AddStock && (r.qty == Some(0) || r.name == Some("")) ==>
      PlanFor(r) == Reject(MissingAddParameters)
    ensures !TruthyText(r.error) && r.tool == AddStock && TruthyText(r.name) && TruthyText(r.location)
            && r.qty.Some? && r.qty.value < 0 ==>
      PlanFor(r) == Call(AddCall(r.name.value, r.qty.value, r.location.value, r.category))
    ensures !TruthyText(r.error) && r.tool == AdjustStock && TruthyText(r.name) && r.trueQty == Some(0) ==>
      PlanFor(r) == Call(AdjustCall(r.name.value, 0))
    ensures !TruthyText(r.error) && r.tool == MoveStock && TruthyText(r.name) && TruthyText(r.toLocation)
            && r.qty.None? ==>
      PlanFor(r) == Call(MoveCall(r.name.value, 0, r.toLocation.value))
  {
  }

  /** The message shown after a successful call. */
  function SuccessMessage(op: LedgerCall): (m: string)
    ensures |m| > 0 && m[|m| - 1] == '.'
    ensures op.AddCall? ==> "Added " <= m
    ensures op.MoveCall? ==> "Moved " + op.name <= m
    ensures op.AdjustCall? ==> "Adjusted " + op.name <= m
    ensures op.NoCall? ==> m == ReportMessage
  {
    match op
    case AddCall(name, qty, location, _) => "Added " + IntToString(qty) + " " + name + " to " + location + "."
    case MoveCall(name, _, toLocation) => "Moved " + name + " to " + toLocation + "."
    case AdjustCall(name, trueQty) => "Adjusted " + name + " to " + IntToString(trueQty) + "."
    case NoCall => ReportMessage
  }

  /** How a plan ends against the product list `ps`: `Pass`, or `Fail` with
      the message thrown by the checks or by the ledger's "not found". */
  function Attempt(plan: Plan, ps: seq<Product>): (a: Outcome<string>)
    ensures plan.Reject? ==> a == Fail(plan.message)
    ensures plan.Call? && (plan.op.MoveCall? || plan.op.AdjustCall?) ==>
      a == if FindIndex(ps, plan.op.name).None? then Fail(NotFoundMessage(plan.op.name)) else Pass
    ensures plan.Call? && (plan.op.AddCall? || plan.op.NoCall?) ==> a == Pass
  {
    match plan
    case Reject(m) => Fail(m)
    case Call(op) =>
      match op
      case MoveCall(name, _, toLocation) =>
        if AfterMove(ps, name, toLocation).None? then Fail(NotFoundMessage(name)) else Pass
      case AdjustCall(name, trueQty) =>
        if AfterAdjust(ps, name, trueQty).None? then Fail(NotFoundMessage(name)) else Pass
      case _ => Pass
  }

  /** What carrying out `plan` does to the two stored collections: a failed
      plan writes nothing; a successful ledger call writes the product list
      the ledger computes and prepends exactly one log entry; REPORT writes
      nothing. */
  predicate Applied(plan: Plan, stamp: Stamp,
                    products: Option<seq<Product>>, logs: Option<seq<Log>>,
                    products': Option<seq<Product>>, logs': Option<seq<Log>>)
    ensures Applied(plan, stamp, products, logs, products', logs') ==>
      && (products' == products || products'.Some?)
      && (logs' == logs ||
          (logs'.Some? && |logs'.value| == |logs.GetOr([])| + 1 && logs'.value[1..] == logs.GetOr([])))
  {
    var ps, ls := products.GetOr([]), logs.GetOr([]);
    match Attempt(plan, ps)
    case Fail(_) => products' == products && logs' == logs
    case Pass =>
      match plan.op
      case AddCall(name, qty, location, category) =>
        && products' == Some(AfterAdd(ps, name, qty, location, CategoryOrDefault(category),
                                      stamp.productId, Sku(stamp.skuNumber)))
        && logs' == Some([Log(stamp.logId, "ADD_STOCK",
                              AddDetails(ps, name, qty, location, CategoryOrDefault(category)),
                              stamp.timestamp)] + ls)
      case MoveCall(name, qty, toLocation) =>
        && products' == Some(AfterMove(ps, name, toLocation).value)
        && logs' == Some([Log(stamp.logId, "MOVE_STOCK",
                              MovedDetails(name, qty, ps[FindIndex(ps, name).value].location, toLocation),
                              stamp.timestamp)] + ls)
      case AdjustCall(name, trueQty) =>
        && products' == Some(AfterAdjust(ps, name, trueQty).value)
        && logs' == Some([Log(stamp.logId, "ADJUST_STOCK",
                              AuditDetails(name, ps[FindIndex(ps, name).value].qty, trueQty),
                              stamp.timestamp)] + ls)
      case NoCall => products' == products && logs' == logs
  }

  /** Whatever a command does, the products keep unique names, and the log
      either stays as it was or gains exactly one newest entry in front of
      the old log — the latter exactly when a ledger operation succeeded. */
  lemma AppliedInvariants(plan: Plan, stamp: Stamp,
                          products: Option<seq<Product>>, logs: Option<seq<Log>>,
                          products': Option<seq<Product>>, logs': Option<seq<Log>>)
    requires Applied(plan, stamp, products, logs, products', logs')
    ensures NamesUnique(products.GetOr([])) ==> NamesUnique(products'.GetOr([]))
    ensures var ls, ls' := logs.GetOr([]), logs'.GetOr([]);
      if Attempt(plan, products.GetOr([])).Pass? && !plan.op.NoCall?
      then |ls'| == |ls| + 1 && ls'[1..] == ls
      else logs' == logs
  {
    var ps := products.GetOr([]);
    if Attempt(plan, ps).Pass? {
      match plan.op
      case AddCall(name, qty, location, category) =>
        AddInvariants(ps, name, qty, location, CategoryOrDefault(category), stamp.productId, Sku(stamp.skuNumber));
      case MoveCall(name, qty, toLocation) =>
        MoveInvariants(ps, name, toLocation);
      case AdjustCall(name, trueQty) =>
        AdjustInvariants(ps, name, trueQty);
      case NoCall =>
    }
  }

  /** The "Last Activity" card after a command: a successful ledger call
      shows its own action and the time of its stamp, because its entry is
      now the newest; any other command leaves the card as it was. */
  lemma LastActivityAfterCommand(plan: Plan, stamp: Stamp,
                                 products: Option<seq<Product>>, logs: Option<seq<Log>>,
                                 products': Option<seq<Product>>, logs': Option<seq<Log>>)
    requires Applied(plan, stamp, products, logs, products', logs')
    ensures var ls, ls' := logs.GetOr([]), logs'.GetOr([]);
      var ok := Attempt(plan, products.GetOr([])).Pass?;
      && (ok && plan.Call? && plan.op.AddCall? ==> LastAction(ls') == "ADD_STOCK")
      && (ok && plan.Call? && plan.op.MoveCall? ==> LastAction(ls') == "MOVE_STOCK")
      && (ok && plan.Call? && plan.op.AdjustCall? ==> LastAction(ls') == "ADJUST_STOCK")
      && (ok && plan.Call? && !plan.op.NoCall? ==>
            LastActionTime(ls') == SecondField(stamp.timestamp))
      && (!ok || plan.op.NoCall? ==>
            LastAction(ls') == LastAction(ls) && LastActionTime(ls') == LastActionTime(ls))
  {
  }

  /** `err.message || "An error occurred."`. */
  function ErrorText(message: string): (t: string)
    ensures t != ""
    ensures message != "" ==> t == message
    ensures message == "" ==> t == "An error occurred."
  {
    if message != "" then message else "An error occurred."
  }

  /** Every way a command can fail carries a non-empty message, so the
      "An error occurred." fallback is never shown. */
  lemma FailuresHaveMessages(r: AICommandResponse, ps: seq<Product>)
    requires Attempt(PlanFor(r), ps).Fail?
    ensures Attempt(PlanFor(r), ps).error != ""
    ensures ErrorText(Attempt(PlanFor(r), ps).error) == Attempt(PlanFor(r), ps).error
  {
    match PlanFor(r)
    case Reject(m) =>
    case Call(op) =>
      assert NotFoundMessage(op.name)[0] == 'P';
  }

  /** The interpreter reports its own failure as an UNKNOWN command with an
      error; that error is what the user sees. */
  lemma InterpreterFailureSurfaced(r: AICommandResponse, ps: seq<Product>)
    requires r.tool == Unknown && r.error == Some("Failed to process command with AI.")
    ensures Attempt(PlanFor(r), ps) == Fail("Failed to process command with AI.")
  {
  }

  /** The status line above the input. */
  datatype StatusKind = Success | Error | Info
  datatype Status = Status(kind: StatusKind, msg: string)

  /** The component's state: the input text, the status line, the rendered
      copies of the two collections, and the ledger storage. */
  class CommandCenter {
    var input: string
    var status: Option<Status>
    var products: seq<Product>
    var logs: seq<Log>
    const db: Store

    constructor (db: Store)
      ensures this.db == db
      ensures input == "" && status == None && products == [] && logs == []
    {
      this.db := db;
      input := "";
      status := None;
      products := [];
      logs := [];
    }

    /** `refreshData`: re-reads both collections from storage. */
    method RefreshData()
      modifies this
      ensures products == db.Products() && logs == db.Logs()
      ensures input == old(input) && status == old(status)
    {
      products := db.Products();
      logs := db.Logs();
    }

    /** The mount effect: `initDb`, `seedData`, then `refreshData`. */
    method Mount(s1: Stamp, s2: Stamp, s3: Stamp)
      modifies this, db
      ensures db.Products() == if old(db.Products()) == [] then SeedProducts(s1, s2, s3) else old(db.Products())
      ensures db.Logs() == if old(db.Products()) == [] then SeedLogs(s1, s2, s3) + old(db.Logs()) else old(db.Logs())
      ensures products == db.Products() && logs == db.Logs()
      ensures input == old(input) && status == old(status)
    {
      db.InitDb();
      db.SeedData(s1, s2, s3);
      RefreshData();
    }

    /** The `switch` of `handleCommand`: makes the planned ledger call and
        reports the message of the error it throws, if any. */
    method Dispatch(plan: Plan, stamp: Stamp) returns (failure: Option<string>)
      modifies db
      ensures failure.None? <==> Attempt(plan, old(db.Products())).Pass?
      ensures failure.Some? ==> failure.value == Attempt(plan, old(db.Products())).error
      ensures Applied(plan, stamp, old(db.products), old(db.logs), db.products, db.logs)
    {
      failure := None;
      match plan {
        case Reject(message) =>
          failure := Some(message);
        case Call(op) =>
          match op {
            case AddCall(name, qty, location, category) =>
              db.AddProduct(name, qty, location, category, stamp);
            case MoveCall(name, qty, toLocation) =>
              var res := db.MoveProduct(name, qty, toLocation, stamp);
              if res.Fail? {
                failure := Some(res.error);
              }
            case AdjustCall(name, trueQty) =>
              var res := db.AdjustStock(name, trueQty, stamp);
              if res.Fail? {
                failure := Some(res.error);
              }
            case NoCall =>
          }
      }
    }

    /** `handleCommand`, with the interpreter as `interpret`. Blank input does
        nothing. Otherwise the command either succeeds (success status, input
        cleared, collections re-read) or fails (error status carrying the
        thrown message, input kept, rendered collections untouched); the
        ledger changes as `Applied` says. */
    method HandleCommand(interpret: string -> AICommandResponse, stamp: Stamp)
      modifies this, db
      ensures IsBlank(old(input)) ==>
        && input == old(input) && status == old(status)
        && products == old(products) && logs == old(logs)
        && db.products == old(db.products) && db.logs == old(db.logs)
      ensures !IsBlank(old(input)) ==>
        var plan := PlanFor(interpret(old(input)));
        var a := Attempt(plan, old(db.Products()));
        && Applied(plan, stamp, old(db.products), old(db.logs), db.products, db.logs)
        && (a.Pass? ==>
              && status == Some(Status(Success, SuccessMessage(plan.op)))
              && input == ""
              && products == db.Products() && logs == db.Logs())
        && (a.Fail? ==>
              && status == Some(Status(Error, a.error))
              && input == old(input)
              && products == old(products) && logs == old(logs))
    {
      TrimEmptyIffBlank(input);
      if Trim(input) == "" {
        return;
      }
      status := None;
      var result := interpret(input);
      var plan := PlanFor(result);
      var failure := Dispatch(plan, stamp);
      if failure.None? {
        status := Some(Status(Success, SuccessMessage(plan.op)));
        input := "";
        RefreshData();
      } else {
        FailuresHaveMessages(result, old(db.Products()));
        status := Some(Status(Error, ErrorText(failure.value)));
      }
    }
  }
}
