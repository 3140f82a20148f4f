/** The back end's endpoints over an in-memory entity store: three tables
    keyed by record id. Each endpoint checks its conditions, reports NotFound
    or InvalidArgument, and otherwise changes at most one table. */
module Server {
  import opened Results
  import opened Fechas
  import opened Models
  import opened Pedidos
  import opened Estadisticas

  /** The 404 details of the product and order lookups by id. */
  const PRODUCTO_NO_ENCONTRADO: Error := NotFound("Producto no encontrado")
  const PEDIDO_NO_ENCONTRADO: Error := NotFound("Pedido no encontrado")

  /** A string longer than every key of `ks`, so not one of them. */
  ghost function MasLargoQueTodos(ks: set<string>): (r: string)
    ensures forall k :: k in ks ==> |k| < |r|
    decreases ks
  {
    if ks == {} then "x"
    else
      var k :| k in ks;
      var r := MasLargoQueTodos(ks - {k});
      if |k| < |r| then r else r + k
  }

  class Store {
    var clientes: map<string, Cliente>
    var productos: map<string, Producto>
    var pedidos: map<string, Pedido>

    /** Every record is stored under its own id, and every order is coherent. */
    ghost predicate Valid()
      reads this
    {
      && (forall k :: k in clientes ==> clientes[k].id == k)
      && (forall k :: k in productos ==> productos[k].id == k)
      && (forall k :: k in pedidos ==> pedidos[k].id == k && PedidoCoherente(pedidos[k]))
    }

    constructor ()
      ensures Valid()
      ensures clientes == map[] && productos == map[] && pedidos == map[]
    {
      clientes, productos, pedidos := map[], map[], map[];
    }

    // ----- clientes -----

    method CrearCliente(datos: ClienteCreate, ahora: Timestamp) returns (c: Cliente)
      requires Valid()
      modifies this
      ensures Valid()
      ensures c.id !in old(clientes) && clientes == old(clientes)[c.id := c]
      ensures c.nombre == datos.nombre && c.telefono == datos.telefono
      ensures c.email == datos.email && c.direccion == datos.direccion && c.fechaRegistro == ahora
      ensures productos == old(productos) && pedidos == old(pedidos)
    {
      ghost var largo := MasLargoQueTodos(clientes.Keys);
      var id :| id !in clientes;
      c := NuevoCliente(id, datos, ahora);
      clientes := clientes[id := c];
    }

    /** Every stored customer, each exactly once since ids are the keys. */
    function ObtenerClientes(): (r: set<Cliente>)
      requires Valid()
      reads this
      ensures forall c :: c in r <==> c.id in clientes && clientes[c.id] == c
    {
      clientes.Values
    }

    function ObtenerCliente(id: string): (r: Result<Cliente>)
      requires Valid()
      reads this
      ensures r.Ok? <==> id in clientes
      ensures r.Ok? ==> r.value == clientes[id] && r.value.id == id
      ensures r.Err? ==> r.error == CLIENTE_NO_ENCONTRADO
    {
      if id in clientes then Ok(clientes[id]) else Err(CLIENTE_NO_ENCONTRADO)
    }

    method ActualizarCliente(id: string, datos: ClienteCreate) returns (r: Result<Cliente>)
      requires Valid()
      modifies this
      ensures Valid()
      ensures id !in old(clientes) ==> r == Err(CLIENTE_NO_ENCONTRADO) && clientes == old(clientes)
      ensures id in old(clientes) ==>
        && r.Ok?
        && r.value.id == id
        && r.value.fechaRegistro == old(clientes)[id].fechaRegistro
        && r.value.nombre == datos.nombre && r.value.telefono == datos.telefono
        && r.value.email == datos.email && r.value.direccion == datos.direccion
        && clientes == old(clientes)[id := r.value]
      ensures productos == old(productos) && pedidos == old(pedidos)
    {
      if id !in clientes {
        return Err(CLIENTE_NO_ENCONTRADO);
      }
      var c := ClienteConDatos(clientes[id], datos);
      clientes := clientes[id := c];
      r := Ok(c);
    }

    /** Orders that name the customer keep their id and their copied name. */
    method EliminarCliente(id: string) returns (r: Result<string>)
      requires Valid()
      modifies this
      ensures Valid()
      ensures r.Ok? <==> id in old(clientes)
      ensures r.Ok? ==> r.value == "Cliente eliminado exitosamente" && clientes == old(clientes) - {id}
      ensures r.Ok? ==> ObtenerCliente(id) == Err(CLIENTE_NO_ENCONTRADO)
      ensures r.Err? ==> r.error == CLIENTE_NO_ENCONTRADO && clientes == old(clientes)
      ensures productos == old(productos) && pedidos == old(pedidos)
    {
      if id !in clientes {
        return Err(CLIENTE_NO_ENCONTRADO);
      }
      clientes := clientes - {id};
      r := Ok("Cliente eliminado exitosamente");
    }

    // ----- productos -----

    method CrearProducto(datos: ProductoCreate) returns (p: Producto)
      requires Valid()
      modifies this
      ensures Valid()
      ensures p.id !in old(productos) && productos == old(productos)[p.id := p]
      ensures p.nombre == datos.nombre && p.precio == datos.precio && p.categoria == datos.categoria
      ensures p.descripcion == datos.descripcion && p.disponible == datos.disponible
      ensures clientes == old(clientes) && pedidos == old(pedidos)
    {
      ghost var largo := MasLargoQueTodos(productos.Keys);
      var id :| id !in productos;
      p := NuevoProducto(id, datos);
      productos := productos[id := p];
    }

    /** Every stored product, each exactly once since ids are the keys. */
    function ObtenerProductos(): (r: set<Producto>)
      requires Valid()
      reads this
      ensures forall p :: p in r <==> p.id in productos && productos[p.id] == p
    {
      productos.Values
    }

    function ObtenerProducto(id: string): (r: Result<Producto>)
      requires Valid()
      reads this
      ensures r.Ok? <==> id in productos
      ensures r.Ok? ==> r.value == productos[id] && r.value.id == id
      ensures r.Err? ==> r.error == PRODUCTO_NO_ENCONTRADO
    {
      if id in productos then Ok(productos[id]) else Err(PRODUCTO_NO_ENCONTRADO)
    }

    /** Orders already made keep the name and price they copied. */
    method ActualizarProducto(id: string, datos: ProductoCreate) returns (r: Result<Producto>)
      requires Valid()
      modifies this
      ensures Valid()
      ensures id !in old(productos) ==> r == Err(PRODUCTO_NO_ENCONTRADO) && productos == old(productos)
      ensures id in old(productos) ==>
        && r.Ok?
        && r.value.id == id
        && r.value.nombre == datos.nombre && r.value.precio == datos.precio
        && r.value.categoria == datos.categoria && r.value.descripcion == datos.descripcion
        && r.value.disponible == datos.disponible
        && productos == old(productos)[id := r.value]
      ensures clientes == old(clientes) && pedidos == old(pedidos)
    {
      if id !in productos {
        return Err(PRODUCTO_NO_ENCONTRADO);
      }
      var p := ProductoConDatos(productos[id], datos);
      productos := productos[id := p];
      r := Ok(p);
    }

    /** Orders that name the product keep their lines. */
    method EliminarProducto(id: string) returns (r: Result<string>)
      requires Valid()
      modifies this
      ensures Valid()
      ensures r.Ok? <==> id in old(productos)
      ensures r.Ok? ==> r.value == "Producto eliminado exitosamente" && productos == old(productos) - {id}
      ensures r.Ok? ==> ObtenerProducto(id) == Err(PRODUCTO_NO_ENCONTRADO)
      ensures r.Err? ==> r.error == PRODUCTO_NO_ENCONTRADO && productos == old(productos)
      ensures clientes == old(clientes) && pedidos == old(pedidos)
    {
      if id !in productos {
        return Err(PRODUCTO_NO_ENCONTRADO);
      }
      productos := productos - {id};
      r := Ok("Producto eliminado exitosamente");
    }

    // ----- pedidos -----

    /** The loop of order creation: resolves each requested line in order,
        copying the product's name and price, and sums the subtotals. It stops
        at the first product that is missing. */
    method ProcesarProductos(items: seq<LineaSolicitada>) returns (r: Result<seq<DetalleProducto>>, total: int)
      ensures r == ComponerLineas(productos, items)
      ensures r.Ok? ==> total == SumaSubtotales(r.value)
    {
      var detalle: seq<DetalleProducto> := [];
      total := 0;
      var i := 0;
      while i < |items|
        invariant 0 <= i <= |items|
        invariant TodosPresentes(productos, items[..i])
        invariant detalle == Lineas(productos, items[..i])
        invariant total == SumaSubtotales(detalle)
      {
        var item := items[i];
        if item.productoId !in productos {
          PrimerFaltanteEn(productos, items, i);
          return Err(ProductoNoEncontrado(item.productoId)), total;
        }
        var producto := productos[item.productoId];
        var subtotal := producto.precio * item.cantidad;
        var linea := DetalleProducto(item.productoId, producto.nombre, item.cantidad, producto.precio, subtotal);
        LineasAlAnadir(productos, items, i);
        detalle := detalle + [linea];
        assert detalle[..|detalle| - 1] == Lineas(productos, items[..i]);
        total := total + subtotal;
        i := i + 1;
      }
      assert items[..i] == items;
      r := Ok(detalle);
    }

    /** Everything order creation does before its one write: the customer
        lookup, the date check, the line loop and the choice of a new id. */
    method PrepararPedido(req: PedidoCreate, ahora: Timestamp) returns (r: Result<Pedido>)
      ensures r.Ok? ==> r.value.id !in pedidos
      ensures r.Ok? ==> r == ComponerPedido(clientes, productos, req, r.value.id, ahora)
      ensures r.Err? ==> forall id :: ComponerPedido(clientes, productos, req, id, ahora) == r
    {
      if req.clienteId !in clientes {
        return Err(CLIENTE_NO_ENCONTRADO);
      }
      var cliente := clientes[req.clienteId];
      var fecha := ParseFecha(req.fechaEntregaEstimada);
      if fecha.None? {
        return Err(FECHA_INVALIDA);
      }
      var lineas, total := ProcesarProductos(req.productos);
      if lineas.Err? {
        return Err(lineas.error);
      }
      ghost var largo := MasLargoQueTodos(pedidos.Keys);
      var id :| id !in pedidos;
      r := Ok(Pedido(id, req.clienteId, cliente.nombre, ahora, fecha.value, PENDIENTE, lineas.value, total));
    }

    /** Order creation. On success exactly one order is added, under an id not
        in the order table; on every failure nothing changes. */
    method CrearPedido(req: PedidoCreate, ahora: Timestamp) returns (r: Result<Pedido>)
      requires Valid()
      modifies this
      ensures Valid()
      ensures clientes == old(clientes) && productos == old(productos)
      ensures r.Ok? ==> r.value.id !in old(pedidos) && pedidos == old(pedidos)[r.value.id := r.value]
      ensures r.Ok? ==> r == ComponerPedido(old(clientes), old(productos), req, r.value.id, ahora)
      ensures r.Err? ==> pedidos == old(pedidos)
      ensures r.Err? ==> forall id :: ComponerPedido(old(clientes), old(productos), req, id, ahora) == r
      ensures Ingresos(pedidos) == Ingresos(old(pedidos))
    {
      r := PrepararPedido(req, ahora);
      if r.Ok? {
        var pedido := r.value;
        PedidoCompuesto(clientes, productos, req, pedido.id, ahora);
        assert PENDIENTE[0] != COMPLETADO[0];
        IngresosAlInsertar(pedidos, pedido.id, pedido);
        pedidos := pedidos[pedido.id := pedido];
      }
    }

    /** Every stored order, each exactly once since ids are the keys. */
    function ObtenerPedidos(): (r: set<Pedido>)
      requires Valid()
      reads this
      ensures forall p :: p in r <==> p.id in pedidos && pedidos[p.id] == p
    {
      pedidos.Values
    }

    function ObtenerPedido(id: string): (r: Result<Pedido>)
      requires Valid()
      reads this
      ensures r.Ok? <==> id in pedidos
      ensures r.Ok? ==> r.value == pedidos[id] && r.value.id == id && PedidoCoherente(r.value)
      ensures r.Err? ==> r.error == PEDIDO_NO_ENCONTRADO
    {
      if id in pedidos then Ok(pedidos[id]) else Err(PEDIDO_NO_ENCONTRADO)
    }

    /** Status update: the order must exist (checked first) and the status be
        one of the four valid ones; only that order's status changes. */
    method ActualizarEstadoPedido(id: string, estado: string) returns (r: Result<string>)
      requires Valid()
      modifies this
      ensures Valid()
      ensures id !in old(pedidos) ==> r == Err(PEDIDO_NO_ENCONTRADO)
      ensures id in old(pedidos) && !EstadoValido(estado) ==> r == Err(InvalidArgument("Estado no válido"))
      ensures r.Ok? <==> id in old(pedidos) && EstadoValido(estado)
      ensures r.Ok? ==> r.value == "Estado actualizado exitosamente"
                        && pedidos == old(pedidos)[id := old(pedidos)[id].(estado := estado)]
      ensures r.Ok? ==> var p := old(pedidos)[id];
        Ingresos(pedidos) == Ingresos(old(pedidos)) - (if p.estado == COMPLETADO then p.total else 0)
                                                    + (if estado == COMPLETADO then p.total else 0)
      ensures r.Err? ==> pedidos == old(pedidos)
      ensures clientes == old(clientes) && productos == old(productos)
    {
      if id !in pedidos {
        return Err(PEDIDO_NO_ENCONTRADO);
      }
      if estado !in ESTADOS_VALIDOS {
        return Err(InvalidArgument("Estado no válido"));
      }
      IngresosAlCambiarEstado(pedidos, id, estado);
      pedidos := pedidos[id := pedidos[id].(estado := estado)];
      r := Ok("Estado actualizado exitosamente");
    }

    method EliminarPedido(id: string) returns (r: Result<string>)
      requires Valid()
      modifies this
      ensures Valid()
      ensures r.Ok? <==> id in old(pedidos)
      ensures r.Ok? ==> r.value == "Pedido eliminado exitosamente" && pedidos == old(pedidos) - {id}
      ensures r.Ok? ==> ObtenerPedido(id) == Err(PEDIDO_NO_ENCONTRADO)
      ensures r.Ok? ==> var p := old(pedidos)[id];
        Ingresos(pedidos) == Ingresos(old(pedidos)) - (if p.estado == COMPLETADO then p.total else 0)
      ensures r.Err? ==> r.error == PEDIDO_NO_ENCONTRADO && pedidos == old(pedidos)
      ensures clientes == old(clientes) && productos == old(productos)
    {
      if id !in pedidos {
        return Err(PEDIDO_NO_ENCONTRADO);
      }
      IngresosAlEliminar(pedidos, id);
      pedidos := pedidos - {id};
      r := Ok("Pedido eliminado exitosamente");
    }

    // ----- dashboard -----

    /** The dashboard figures, read from the current tables; nothing changes. */
    method ObtenerEstadisticas() returns (s: Estadisticas)
      ensures s == EstadisticasDe(clientes, productos, pedidos)
    {
      var completados := ConEstado(pedidos, COMPLETADO);
      var ingresos := 0;
      var restantes := completados;
      while restantes != {}
        invariant restantes <= completados
        invariant ingresos + SumaTotales(pedidos, restantes) == Ingresos(pedidos)
        decreases restantes
      {
        var k :| k in restantes;
        SumaTotalesSin(pedidos, restantes, k);
        ingresos := ingresos + pedidos[k].total;
        restantes := restantes - {k};
      }
      s := Estadisticas(
        |clientes|, |productos|, |pedidos|,
        |ConEstado(pedidos, PENDIENTE)|, |ConEstado(pedidos, EN_PROCESO)|, |completados|,
        ingresos);
    }
  }
}
