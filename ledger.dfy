/**
 * The movement log (table `movimento`) and the stock arithmetic of a
 * movement: what a record adds to or takes from a product's stock.
 */
module Ledger {
  import opened Wrappers
  import opened Catalog

  type UserId = int

  /** A row of table `movimento`; `kind` is the raw `tipo_movimento` field. */
  datatype Movement = Movement(kind: string, quantity: int, product: ProductId, user: UserId)

  /** Only the exact text "saida" withdraws; every other kind is treated as an entry. */
  predicate IsOutbound(kind: string)
  {
    kind == "saida"
  }

  /** What a movement does to its product's stock. */
  function Signed(m: Movement): int
  {
    if IsOutbound(m.kind) then -m.quantity else m.quantity
  }

  /** Sum of the signed quantities of the movements of product `id`. */
  function NetFlow(log: seq<Movement>, id: ProductId): int
  {
    if log == [] then 0
    else (if log[0].product == id then Signed(log[0]) else 0) + NetFlow(log[1..], id)
  }

  /** Appending a movement changes the net flow of its own product only, by its signed quantity. */
  lemma {:induction false} NetFlowAppend(log: seq<Movement>, m: Movement, id: ProductId)
    ensures NetFlow(log + [m], id) == NetFlow(log, id) + (if m.product == id then Signed(m) else 0)
  {
    if log != [] {
      assert (log + [m])[1..] == log[1..] + [m];
      NetFlowAppend(log[1..], m, id);
    }
  }

  /** A product that no movement names has net flow zero. */
  lemma {:induction false} NetFlowUnreferenced(log: seq<Movement>, id: ProductId)
    requires forall m :: m in log ==> m.product != id
    ensures NetFlow(log, id) == 0
  {
    if log != [] {
      assert log[0] in log;
      NetFlowUnreferenced(log[1..], id);
    }
  }

  /** Why a movement is refused. */
  datatype MoveError =
    | NonPositiveQuantity                              // "A quantidade deve ser positiva."
    | ProductNotFound                                  // "Produto não encontrado."
    | InsufficientStock(name: string, available: int)  // "Estoque insuficiente ... Disponível: ..."
    | OutOfRange                                       // "Erro ao registrar movimentação": a number outside SQLite's INTEGER range

  /** The warning raised after a movement leaves the stock below its minimum. */
  datatype LowStock = LowStock(name: string, stock: int, minimum: int)

  /** What an accepted movement reports: the new stock and the optional warning. */
  datatype Receipt = Receipt(stock: int, warning: Option<LowStock>)

  /** The low-stock test: strictly below the minimum. */
  predicate BelowMinimum(stock: int, minimum: int)
  {
    stock < minimum
  }
}
