/** The record shapes shared by the ledger, the dashboard and the command
    handler (types.ts). */
module Types {
  import opened Wrappers
  import opened Text

  /** A stocked product. `minStock` is never written by the ledger but may be
      present in stored records. */
  datatype Product = Product(
    id: int,
    name: string,
    sku: string,
    category: string,
    qty: int,
    location: string,
    minStock: Option<int>)

  /** An audit log entry. The declared `type` tag is omitted: the ledger never
      sets it. */
  datatype Log = Log(id: int, action: string, details: string, timestamp: string)

  /** The interpreter's closed set of tools. */
  datatype ToolAction = AddStock | DeliverStock | MoveStock | AdjustStock | Report | Unknown

  /** The interpreter's structured answer; every field but `tool` may be absent. */
  datatype AICommandResponse = AICommandResponse(
    tool: ToolAction,
    name: Option<string>,
    qty: Option<int>,
    location: Option<string>,
    toLocation: Option<string>,
    trueQty: Option<int>,
    category: Option<string>,
    error: Option<string>)

  /** `Math.floor(Math.random() * 10000)`. */
  type SkuNumber = n: nat | n < 10000

  /** The values the ledger draws from the clock and the random generator for
      one operation: a product id, a SKU number, a log id and the local time
      text of `new Date().toLocaleString()`. */
  datatype Stamp = Stamp(productId: int, skuNumber: SkuNumber, logId: int, timestamp: string)

  /** Products are looked up by name, ignoring case. */
  predicate NameMatches(p: Product, name: string) {
    Lower(p.name) == Lower(name)
  }

  /** The ledger's key invariant: no two products share a lower-cased name. */
  predicate NamesUnique(ps: seq<Product>) {
    forall i, j :: 0 <= i < j < |ps| ==> Lower(ps[i].name) != Lower(ps[j].name)
  }
}
