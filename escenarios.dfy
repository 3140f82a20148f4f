/** A client of the store: the customer, product and order steps of the
    back end's test suite, run on a fresh store through the endpoints'
    contracts only. */
module Escenarios {
  import opened Results
  import opened Fechas
  import opened Models
  import opened Pedidos
  import opened Estadisticas
  import opened Server

  /** The five product categories, as named and as written in lower case. */
  const CATEGORIAS: seq<string> := ["Pan", "Pastelería", "Bollería", "Repostería", "Otros"]
  const EN_MINUSCULAS: seq<string> := ["pan", "pastelería", "bollería", "repostería", "otros"]

  /** The composition of the test order (2 × 2.50, 1 × 3.25, 3 × 4.00) on the
      tables as they are when it is made. */
  lemma ComposicionEscenario(clientes: map<string, Cliente>, productos: map<string, Producto>,
                             req: PedidoCreate, ahora: Timestamp, id: string, entrega: Fecha)
    requires FechaValida(entrega) && req.fechaEntregaEstimada == FormatFecha(entrega)
    requires req.clienteId in clientes && |req.productos| == 3
    requires req.productos[0].productoId in productos && productos[req.productos[0].productoId].precio == 250
    requires req.productos[1].productoId in productos && productos[req.productos[1].productoId].precio == 325
    requires req.productos[2].productoId in productos && productos[req.productos[2].productoId].precio == 400
    requires req.productos[0].cantidad == 2 && req.productos[1].cantidad == 1 && req.productos[2].cantidad == 3
    ensures var r := ComponerPedido(clientes, productos, req, id, ahora);
      && r.Ok? && r.value.total == 2025 && |r.value.productos| == 3
      && r.value.productos[0].subtotal == 500 && r.value.productos[1].subtotal == 325
      && r.value.productos[2].subtotal == 1200
      && r.value.nombreCliente == clientes[req.clienteId].nombre && r.value.estado == PENDIENTE
      && r.value.fechaEntregaEstimada == entrega
  {
    ParseFormatFecha(entrega);
    assert TodosPresentes(productos, req.productos);
    PedidoCompuesto(clientes, productos, req, id, ahora);
    var items := req.productos;
    assert items[1..][1..][1..] == [];
    assert SumaPrecios(productos, items[2..]) == 1200;
    assert SumaPrecios(productos, items[1..]) == 1525;
  }

  /** The customer is created as "Juan Pérez" and then replaced by its
      updated fields. */
  method AltaCliente(store: Store, ahora: Timestamp) returns (cliente: Cliente)
    requires store.Valid() && store.clientes == map[]
    modifies store
    ensures store.Valid() && store.clientes == map[cliente.id := cliente]
    ensures cliente.nombre == "Juan Pérez Actualizado" && cliente.fechaRegistro == ahora
    ensures store.productos == old(store.productos) && store.pedidos == old(store.pedidos)
  {
    var creado := store.CrearCliente(ClienteCreate("Juan Pérez", "123456789",
                                                   Some("juan@example.com"), Some("Calle Principal 123")), ahora);
    var actualizado := store.ActualizarCliente(creado.id, ClienteCreate("Juan Pérez Actualizado", "987654321",
                                                   Some("juan.updated@example.com"), Some("Nueva Dirección 456")));
    cliente := actualizado.value;
  }

  /** One product per category, the i-th at 2.50 + 0.75 × i. */
  method AltaCatalogo(store: Store) returns (catalogo: seq<Producto>)
    requires store.Valid() && store.productos == map[]
    modifies store
    ensures store.Valid() && |catalogo| == 5 && |store.productos| == 5
    ensures forall j :: 0 <= j < 5 ==> catalogo[j].id in store.productos && store.productos[catalogo[j].id] == catalogo[j]
    ensures forall j :: 0 <= j < 5 ==> catalogo[j].precio == 250 + 75 * j && catalogo[j].categoria == CATEGORIAS[j]
    ensures store.clientes == old(store.clientes) && store.pedidos == old(store.pedidos)
  {
    catalogo := [];
    var i := 0;
    while i < 5
      invariant 0 <= i <= 5 && |catalogo| == i && |store.productos| == i
      invariant store.Valid()
      invariant forall j :: 0 <= j < i ==> catalogo[j].id in store.productos && store.productos[catalogo[j].id] == catalogo[j]
      invariant forall j :: 0 <= j < i ==> catalogo[j].precio == 250 + 75 * j && catalogo[j].categoria == CATEGORIAS[j]
      invariant store.clientes == old(store.clientes) && store.pedidos == old(store.pedidos)
    {
      var nombre := "Producto " + CATEGORIAS[i] + " " + [CaracterDigito(i + 1)];
      var descripcion := "Delicioso " + EN_MINUSCULAS[i] + " artesanal";
      var p := store.CrearProducto(ProductoCreate(nombre, 250 + 75 * i, CATEGORIAS[i], Some(descripcion), true));
      catalogo := catalogo + [p];
      i := i + 1;
    }
  }

  /** The order of the first three products: stored pending with total 20.25,
      and read back as it was stored. */
  method PedidoDePrueba(store: Store, cliente: Cliente, catalogo: seq<Producto>, entrega: Fecha, ahora: Timestamp)
    returns (pedido: Pedido)
    requires store.Valid() && store.pedidos == map[] && FechaValida(entrega)
    requires store.clientes == map[cliente.id := cliente] && |catalogo| >= 3
    requires forall j :: 0 <= j < 3 ==> catalogo[j].id in store.productos && store.productos[catalogo[j].id] == catalogo[j]
    requires catalogo[0].precio == 250 && catalogo[1].precio == 325 && catalogo[2].precio == 400
    modifies store
    ensures store.Valid() && store.pedidos == map[pedido.id := pedido]
    ensures store.ObtenerPedido(pedido.id) == Ok(pedido)
    ensures pedido.total == 2025 && |pedido.productos| == 3
    ensures pedido.productos[0].subtotal == 500 && pedido.productos[1].subtotal == 325
    ensures pedido.productos[2].subtotal == 1200
    ensures pedido.nombreCliente == cliente.nombre && pedido.estado == PENDIENTE
    ensures pedido.fechaEntregaEstimada == entrega
    ensures store.clientes == old(store.clientes) && store.productos == old(store.productos)
  {
    var req := PedidoCreate(cliente.id, FormatFecha(entrega),
      [LineaSolicitada(catalogo[0].id, 2), LineaSolicitada(catalogo[1].id, 1), LineaSolicitada(catalogo[2].id, 3)]);
    var clientes, productos := store.clientes, store.productos;
    // Composition succeeds whatever the id, so creation cannot fail.
    ComposicionEscenario(clientes, productos, req, ahora, "", entrega);
    var creado := store.CrearPedido(req, ahora);
    ComposicionEscenario(clientes, productos, req, ahora, if creado.Ok? then creado.value.id else "", entrega);
    pedido := creado.value;
  }

  /** The status goes to "en_proceso" and then to "completado"; both updates
      succeed and nothing else changes. */
  method AvanzarEstados(store: Store, pedido: Pedido) returns (primero: Result<string>, segundo: Result<string>)
    requires store.Valid() && store.pedidos == map[pedido.id := pedido]
    modifies store
    ensures primero == Ok("Estado actualizado exitosamente") && segundo == Ok("Estado actualizado exitosamente")
    ensures store.Valid() && store.pedidos == map[pedido.id := pedido.(estado := COMPLETADO)]
    ensures store.clientes == old(store.clientes) && store.productos == old(store.productos)
  {
    assert EstadoValido(EN_PROCESO) && EstadoValido(COMPLETADO);
    primero := store.ActualizarEstadoPedido(pedido.id, EN_PROCESO);
    segundo := store.ActualizarEstadoPedido(pedido.id, COMPLETADO);
  }

  /** With one order, completed, the dashboard counts it as completed and its
      total is the whole revenue. */
  method PanelTrasCompletar(store: Store, pedido: Pedido) returns (estadisticas: Estadisticas)
    requires store.Valid() && store.pedidos == map[pedido.id := pedido] && pedido.estado == COMPLETADO
    ensures estadisticas == Estadisticas(|store.clientes|, |store.productos|, 1, 0, 0, 1, pedido.total)
  {
    estadisticas := store.ObtenerEstadisticas();
    assert PENDIENTE[0] != COMPLETADO[0] && EN_PROCESO[0] != COMPLETADO[0];
    assert ConEstado(store.pedidos, COMPLETADO) == {pedido.id};
    assert ConEstado(store.pedidos, PENDIENTE) == {};
    assert ConEstado(store.pedidos, EN_PROCESO) == {};
    assert Ingresos(store.pedidos) == pedido.total by {
      SumaTotalesSin(store.pedidos, {pedido.id}, pedido.id);
    }
  }

  /** The whole sequence on a fresh store: one customer, five products, one
      order of 20.25 taken through "en_proceso" to "completado". */
  method EscenarioPanaderia(ahora: Timestamp, entrega: Fecha) returns (pedido: Pedido, estadisticas: Estadisticas)
    requires FechaValida(entrega)
    ensures pedido.total == 2025 && |pedido.productos| == 3
    ensures estadisticas == Estadisticas(1, 5, 1, 0, 0, 1, 2025)
  {
    var store := new Store();
    var cliente := AltaCliente(store, ahora);
    var catalogo := AltaCatalogo(store);
    pedido := PedidoDePrueba(store, cliente, catalogo, entrega, ahora);
    var primero, segundo := AvanzarEstados(store, pedido);
    estadisticas := PanelTrasCompletar(store, pedido.(estado := COMPLETADO));
  }
}
