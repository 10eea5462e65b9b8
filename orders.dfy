/**
 * The order store: `crearPedido` appends the request body as a new row,
 * `obtenerPedidos` lists every row. A database that is down is an input.
 */
module Orders {
  import opened Common
  import opened Http
  import Catalog

  /** The `Pedido` columns a request may fill; each is nullable. `total` is in cents. */
  datatype PedidoBody = PedidoBody(
    clienteNombre: Option<string>,
    clienteTelefono: Option<string>,
    clienteDireccion: Option<string>,
    observaciones: Option<string>,
    productos: Option<string>,
    total: Option<int>)

  /** A stored order: its autoincrement id and the columns as sent. */
  datatype Pedido = Pedido(id: int, fields: PedidoBody)

  const CreateFailed := Reply(500, NoCode, "Error al crear pedido")
  const ListFailed := Reply(500, NoCode, "Error al obtener pedidos")

  /** Whether the `DECIMAL(10, 2)` total column can hold the value sent. */
  predicate TotalFits(b: PedidoBody) {
    b.total.None? || -Catalog.PrecioLimit < b.total.value < Catalog.PrecioLimit
  }

  class OrderStore {
    var pedidos: seq<Pedido>
    var nextId: int

    /** Rows in insertion order, with strictly increasing ids below the next autoincrement value. */
    ghost predicate Valid()
      reads this
    {
      && nextId >= 1
      && (forall i :: 0 <= i < |pedidos| ==> 1 <= pedidos[i].id < nextId)
      && (forall i, j :: 0 <= i < j < |pedidos| ==> pedidos[i].id < pedidos[j].id)
    }

    constructor ()
      ensures Valid() && pedidos == [] && nextId == 1
    {
      pedidos := [];
      nextId := 1;
    }

    /**
     * `crearPedido`: on success exactly one order, built from the body, is
     * appended and returned with 201; existing orders are untouched. A database
     * failure, or a total the column cannot hold, answers 500 and changes nothing.
     */
    method CrearPedido(body: PedidoBody, dbUp: bool) returns (r: Response<Pedido>)
      requires Valid()
      modifies this`pedidos, this`nextId
      ensures Valid()
      ensures !dbUp || !TotalFits(body) ==> r == Failure(CreateFailed) && pedidos == old(pedidos) && nextId == old(nextId)
      ensures dbUp && TotalFits(body) ==>
        && r == Success(201, Pedido(old(nextId), body))
        && pedidos == old(pedidos) + [Pedido(old(nextId), body)]
        && nextId == old(nextId) + 1
    {
      if !dbUp || !TotalFits(body) {
        return Failure(CreateFailed);
      }
      var p := Pedido(nextId, body);
      pedidos := pedidos + [p];
      nextId := nextId + 1;
      r := Success(201, p);
    }

    /** `obtenerPedidos`: every stored order, unfiltered and in storage order, or 500. */
    function ObtenerPedidos(dbUp: bool): (r: Response<seq<Pedido>>)
      reads this
      ensures r.Success? <==> dbUp
      ensures r.Success? ==> r.status == 200 && r.body == pedidos
      ensures r.Failure? ==> r.reply == ListFailed
    {
      if dbUp then Success(200, pedidos) else Failure(ListFailed)
    }
  }

  /** Two orders created in a row are both listed afterwards, older first, after all earlier ones. */
  method CreateTwiceThenList(store: OrderStore, a: PedidoBody, b: PedidoBody)
    returns (listed: seq<Pedido>)
    requires store.Valid() && TotalFits(a) && TotalFits(b)
    modifies store
    ensures |listed| == |old(store.pedidos)| + 2
    ensures listed[..|old(store.pedidos)|] == old(store.pedidos)
    ensures listed[|listed| - 2].fields == a && listed[|listed| - 1].fields == b
    ensures listed[|listed| - 2].id < listed[|listed| - 1].id
  {
    var r1 := store.CrearPedido(a, true);
    var r2 := store.CrearPedido(b, true);
    var all := store.ObtenerPedidos(true);
    listed := all.body;
  }
}
