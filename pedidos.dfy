/** Order composition: how a creation request becomes a priced order. Each
    requested line is resolved against the product table in request order,
    the product's current name and price are copied into the line, and the
    order total is the running sum of the line subtotals. */
module Pedidos {
  import opened Results
  import opened Fechas
  import opened Models

  const CLIENTE_NO_ENCONTRADO: Error := NotFound("Cliente no encontrado")
  const FECHA_INVALIDA: Error := InvalidArgument("Formato de fecha inválido. Use YYYY-MM-DD")

  function ProductoNoEncontrado(productoId: string): Error {
    NotFound("Producto " + productoId + " no encontrado")
  }

  /** The line recorded for one requested item of product `p`. */
  function Detalle(p: Producto, item: LineaSolicitada): DetalleProducto {
    DetalleProducto(item.productoId, p.nombre, item.cantidad, p.precio, p.precio * item.cantidad)
  }

  predicate TodosPresentes(productos: map<string, Producto>, items: seq<LineaSolicitada>) {
    forall i :: 0 <= i < |items| ==> items[i].productoId in productos
  }

  /** The first requested product id that the product table lacks. */
  function PrimerFaltante(productos: map<string, Producto>, items: seq<LineaSolicitada>): (r: Option<string>)
    ensures r.None? <==> TodosPresentes(productos, items)
    ensures r.Some? ==> r.value !in productos
    ensures r.Some? ==> exists i :: 0 <= i < |items| && items[i].productoId == r.value && TodosPresentes(productos, items[..i])
  {
    if items == [] then None
    else if items[0].productoId !in productos then
      assert TodosPresentes(productos, items[..0]);
      Some(items[0].productoId)
    else
      var r := PrimerFaltante(productos, items[1..]);
      if r.Some? then
        var i :| 0 <= i < |items[1..]| && items[1..][i].productoId == r.value && TodosPresentes(productos, items[1..][..i]);
        assert items[..i + 1] == [items[0]] + items[1..][..i];
        r
      else
        assert forall i :: 1 <= i < |items| ==> items[i] == items[1..][i - 1];
        r
  }

  /** When every item before position `i` is present and item `i` is not, the
      first missing id is that of item `i`. */
  lemma PrimerFaltanteEn(productos: map<string, Producto>, items: seq<LineaSolicitada>, i: int)
    requires 0 <= i < |items|
    requires TodosPresentes(productos, items[..i])
    requires items[i].productoId !in productos
    ensures PrimerFaltante(productos, items) == Some(items[i].productoId)
  {
  }

  /** One line per requested item, in request order. */
  function Lineas(productos: map<string, Producto>, items: seq<LineaSolicitada>): seq<DetalleProducto>
    requires TodosPresentes(productos, items)
  {
    seq(|items|, i requires 0 <= i < |items| => Detalle(productos[items[i].productoId], items[i]))
  }

  /** Extending the checked prefix by one present item appends that item's line. */
  lemma LineasAlAnadir(productos: map<string, Producto>, items: seq<LineaSolicitada>, i: int)
    requires 0 <= i < |items| && TodosPresentes(productos, items[..i])
    requires items[i].productoId in productos
    ensures TodosPresentes(productos, items[..i + 1])
    ensures Lineas(productos, items[..i + 1])
            == Lineas(productos, items[..i]) + [Detalle(productos[items[i].productoId], items[i])]
  {
  }

  /** The sum of the subtotals, accumulated from 0 from the first line to the last. */
  function SumaSubtotales(lineas: seq<DetalleProducto>): int {
    if lineas == [] then 0 else SumaSubtotales(lineas[..|lineas| - 1]) + lineas[|lineas| - 1].subtotal
  }

  /** An independent reference for the order total: the sum of price times
      quantity, added from the last item to the first. */
  function SumaPrecios(productos: map<string, Producto>, items: seq<LineaSolicitada>): int
    requires TodosPresentes(productos, items)
  {
    if items == [] then 0
    else
      assert TodosPresentes(productos, items[1..]) by {
        assert forall j :: 0 <= j < |items| - 1 ==> items[1..][j] == items[j + 1];
      }
      productos[items[0].productoId].precio * items[0].cantidad + SumaPrecios(productos, items[1..])
  }

  /** The lines of an order, or the error for the first product that is missing. */
  function ComponerLineas(productos: map<string, Producto>, items: seq<LineaSolicitada>): Result<seq<DetalleProducto>> {
    match PrimerFaltante(productos, items)
    case Some(x) => Err(ProductoNoEncontrado(x))
    case None => Ok(Lineas(productos, items))
  }

  /** What a stored order keeps true: a valid status, each line's subtotal is
      its unit price times its quantity, and the total is the sum of the lines. */
  predicate PedidoCoherente(p: Pedido) {
    && EstadoValido(p.estado)
    && (forall i :: 0 <= i < |p.productos| ==> p.productos[i].subtotal == p.productos[i].precioUnitario * p.productos[i].cantidad)
    && p.total == SumaSubtotales(p.productos)
  }

  /** The order that creation builds under the new id `id` at instant `ahora`,
      or the error it reports. The checks run in the source's order: customer,
      then date, then the products line by line. */
  function ComponerPedido(clientes: map<string, Cliente>, productos: map<string, Producto>,
                          req: PedidoCreate, id: string, ahora: Timestamp): (r: Result<Pedido>)
    ensures r.Ok? <==> req.clienteId in clientes && ParseFecha(req.fechaEntregaEstimada).Some?
                       && TodosPresentes(productos, req.productos)
    ensures req.clienteId !in clientes ==> r == Err(CLIENTE_NO_ENCONTRADO)
    ensures req.clienteId in clientes && ParseFecha(req.fechaEntregaEstimada).None? ==> r == Err(FECHA_INVALIDA)
    ensures req.clienteId in clientes && ParseFecha(req.fechaEntregaEstimada).Some? && !TodosPresentes(productos, req.productos)
            ==> exists i :: 0 <= i < |req.productos| && req.productos[i].productoId !in productos
                  && TodosPresentes(productos, req.productos[..i])
                  && r == Err(ProductoNoEncontrado(req.productos[i].productoId))
  {
    if req.clienteId !in clientes then Err(CLIENTE_NO_ENCONTRADO)
    else match ParseFecha(req.fechaEntregaEstimada)
      case None => Err(FECHA_INVALIDA)
      case Some(fecha) =>
        match ComponerLineas(productos, req.productos)
        case Err(e) => Err(e)
        case Ok(lineas) =>
          Ok(Pedido(id, req.clienteId, clientes[req.clienteId].nombre, ahora, fecha,
                    PENDIENTE, lineas, SumaSubtotales(lineas)))
  }

  lemma {:induction false} SumaSubtotalesConcat(a: seq<DetalleProducto>, b: seq<DetalleProducto>)
    ensures SumaSubtotales(a + b) == SumaSubtotales(a) + SumaSubtotales(b)
    decreases |b|
  {
    if b == [] {
      assert a + b == a;
    } else {
      var b' := b[..|b| - 1];
      assert (a + b)[..|a + b| - 1] == a + b';
      SumaSubtotalesConcat(a, b');
    }
  }

  /** The running total of the lines equals the reference sum of price times
      quantity: the order of accumulation does not change the total. */
  lemma {:induction false} SumaLineas(productos: map<string, Producto>, items: seq<LineaSolicitada>)
    requires TodosPresentes(productos, items)
    ensures SumaSubtotales(Lineas(productos, items)) == SumaPrecios(productos, items)
  {
    if items != [] {
      var rest := items[1..];
      assert TodosPresentes(productos, rest) by {
        assert forall j :: 0 <= j < |rest| ==> rest[j] == items[j + 1];
      }
      var head := Detalle(productos[items[0].productoId], items[0]);
      assert Lineas(productos, items) == [head] + Lineas(productos, rest);
      SumaSubtotalesConcat([head], Lineas(productos, rest));
      assert [head][..0] == [];
      SumaLineas(productos, rest);
    }
  }

  /** A composed order: new id and status "pendiente", the customer's id and
      its current name, one snapshot line per item in request order, and a
      total equal to the sum of price times quantity; it is coherent. */
  lemma {:induction false} PedidoCompuesto(clientes: map<string, Cliente>, productos: map<string, Producto>,
                                           req: PedidoCreate, id: string, ahora: Timestamp)
    requires ComponerPedido(clientes, productos, req, id, ahora).Ok?
    ensures var p := ComponerPedido(clientes, productos, req, id, ahora).value;
      && TodosPresentes(productos, req.productos)
      && p.id == id
      && p.clienteId == req.clienteId
      && p.nombreCliente == clientes[req.clienteId].nombre
      && p.fechaPedido == ahora
      && Some(p.fechaEntregaEstimada) == ParseFecha(req.fechaEntregaEstimada)
      && p.estado == PENDIENTE
      && |p.productos| == |req.productos|
      && (forall i :: 0 <= i < |p.productos| ==>
            var item, linea := req.productos[i], p.productos[i];
            && linea.productoId == item.productoId
            && linea.cantidad == item.cantidad
            && linea.nombreProducto == productos[item.productoId].nombre
            && linea.precioUnitario == productos[item.productoId].precio
            && linea.subtotal == linea.precioUnitario * linea.cantidad)
      && p.total == SumaPrecios(productos, req.productos)
      && PedidoCoherente(p)
  {
    SumaLineas(productos, req.productos);
  }
}
