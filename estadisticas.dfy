/** Dashboard statistics: table sizes, orders per status, and revenue, which
    is the sum of the totals of the completed orders. */
module Estadisticas {
  import opened Models

  datatype Estadisticas = Estadisticas(
    totalClientes: nat,
    totalProductos: nat,
    totalPedidos: nat,
    pedidosPendientes: nat,
    pedidosEnProceso: nat,
    pedidosCompletados: nat,
    ingresosTotales: int)

  /** The ids of the orders whose status is `estado`. */
  function ConEstado(pedidos: map<string, Pedido>, estado: string): set<string>
  {
    set k | k in pedidos && pedidos[k].estado == estado
  }

  /** The sum of the totals of the orders named by `ids`. */
  ghost function SumaTotales(pedidos: map<string, Pedido>, ids: set<string>): int
    requires ids <= pedidos.Keys
    decreases ids
  {
    if ids == {} then 0
    else
      var k :| k in ids;
      pedidos[k].total + SumaTotales(pedidos, ids - {k})
  }

  ghost function Ingresos(pedidos: map<string, Pedido>): int {
    SumaTotales(pedidos, ConEstado(pedidos, COMPLETADO))
  }

  ghost function EstadisticasDe(clientes: map<string, Cliente>, productos: map<string, Producto>,
                                pedidos: map<string, Pedido>): Estadisticas {
    Estadisticas(
      |clientes|, |productos|, |pedidos|,
      |ConEstado(pedidos, PENDIENTE)|, |ConEstado(pedidos, EN_PROCESO)|, |ConEstado(pedidos, COMPLETADO)|,
      Ingresos(pedidos))
  }

  /** The sum does not depend on which order is taken out first. */
  lemma {:induction false} SumaTotalesSin(pedidos: map<string, Pedido>, ids: set<string>, k: string)
    requires ids <= pedidos.Keys && k in ids
    ensures SumaTotales(pedidos, ids) == pedidos[k].total + SumaTotales(pedidos, ids - {k})
    decreases ids
  {
    var j :| j in ids && SumaTotales(pedidos, ids) == pedidos[j].total + SumaTotales(pedidos, ids - {j});
    if j != k {
      SumaTotalesSin(pedidos, ids - {j}, k);
      SumaTotalesSin(pedidos, ids - {k}, j);
      assert ids - {j} - {k} == ids - {k} - {j};
    }
  }

  /** The sum only reads the orders it names. */
  lemma {:induction false} SumaTotalesIgual(a: map<string, Pedido>, b: map<string, Pedido>, ids: set<string>)
    requires ids <= a.Keys && ids <= b.Keys
    requires forall k :: k in ids ==> a[k].total == b[k].total
    ensures SumaTotales(a, ids) == SumaTotales(b, ids)
    decreases ids
  {
    if ids != {} {
      var k :| k in ids && SumaTotales(a, ids) == a[k].total + SumaTotales(a, ids - {k});
      SumaTotalesSin(b, ids, k);
      SumaTotalesIgual(a, b, ids - {k});
    }
  }

  /** Adding an order that is not completed leaves the revenue unchanged. */
  lemma IngresosAlInsertar(pedidos: map<string, Pedido>, k: string, p: Pedido)
    requires k !in pedidos && p.estado != COMPLETADO
    ensures Ingresos(pedidos[k := p]) == Ingresos(pedidos)
  {
    assert ConEstado(pedidos[k := p], COMPLETADO) == ConEstado(pedidos, COMPLETADO);
    SumaTotalesIgual(pedidos[k := p], pedidos, ConEstado(pedidos, COMPLETADO));
  }

  /** Removing an order takes its total out of the revenue exactly when it was completed. */
  lemma IngresosAlEliminar(pedidos: map<string, Pedido>, k: string)
    requires k in pedidos
    ensures Ingresos(pedidos - {k}) == Ingresos(pedidos) - (if pedidos[k].estado == COMPLETADO then pedidos[k].total else 0)
  {
    var antes, despues := ConEstado(pedidos, COMPLETADO), ConEstado(pedidos - {k}, COMPLETADO);
    assert despues == antes - {k};
    SumaTotalesIgual(pedidos - {k}, pedidos, despues);
    if pedidos[k].estado == COMPLETADO {
      SumaTotalesSin(pedidos, antes, k);
    } else {
      assert despues == antes;
    }
  }

  /** Giving order `k` the status `estado` moves its total into or out of the
      revenue according to whether it becomes or stops being completed. */
  lemma IngresosAlCambiarEstado(pedidos: map<string, Pedido>, k: string, estado: string)
    requires k in pedidos
    ensures var p := pedidos[k];
      Ingresos(pedidos[k := p.(estado := estado)])
        == Ingresos(pedidos) - (if p.estado == COMPLETADO then p.total else 0) + (if estado == COMPLETADO then p.total else 0)
  {
    var p := pedidos[k];
    var nuevos := pedidos[k := p.(estado := estado)];
    var resto := ConEstado(pedidos, COMPLETADO) - {k};
    assert resto == ConEstado(nuevos, COMPLETADO) - {k};
    SumaTotalesIgual(nuevos, pedidos, resto);
    if p.estado == COMPLETADO {
      SumaTotalesSin(pedidos, ConEstado(pedidos, COMPLETADO), k);
    } else {
      assert resto == ConEstado(pedidos, COMPLETADO);
    }
    if estado == COMPLETADO {
      SumaTotalesSin(nuevos, ConEstado(nuevos, COMPLETADO), k);
    } else {
      assert resto == ConEstado(nuevos, COMPLETADO);
    }
  }

  lemma CardinalDisjunta(a: set<string>, b: set<string>)
    requires a !! b
    ensures |a + b| == |a| + |b|
  {
  }

  lemma CardinalSubconjunto(a: set<string>, b: set<string>)
    requires a <= b
    ensures |a| <= |b|
  {
    assert b == a + (b - a);
    CardinalDisjunta(a, b - a);
  }

  lemma ConEstadoDisjuntos(pedidos: map<string, Pedido>, e1: string, e2: string)
    requires e1 != e2
    ensures ConEstado(pedidos, e1) !! ConEstado(pedidos, e2)
  {
  }

  /** The sets of ids counted for the four statuses, joined. */
  lemma CuatroEstados(pedidos: map<string, Pedido>)
    ensures var todos := ConEstado(pedidos, PENDIENTE) + ConEstado(pedidos, EN_PROCESO)
                         + ConEstado(pedidos, COMPLETADO) + ConEstado(pedidos, CANCELADO);
      && |todos| == |ConEstado(pedidos, PENDIENTE)| + |ConEstado(pedidos, EN_PROCESO)|
                    + |ConEstado(pedidos, COMPLETADO)| + |ConEstado(pedidos, CANCELADO)|
      && todos <= pedidos.Keys
  {
    var a, b, c, d := ConEstado(pedidos, PENDIENTE), ConEstado(pedidos, EN_PROCESO),
                      ConEstado(pedidos, COMPLETADO), ConEstado(pedidos, CANCELADO);
    assert PENDIENTE[0] != EN_PROCESO[0] && PENDIENTE[0] != COMPLETADO[0] && PENDIENTE[0] != CANCELADO[0];
    assert EN_PROCESO[0] != COMPLETADO[0] && EN_PROCESO[0] != CANCELADO[0];
    assert COMPLETADO[2] != CANCELADO[2];
    ConEstadoDisjuntos(pedidos, PENDIENTE, EN_PROCESO);
    ConEstadoDisjuntos(pedidos, PENDIENTE, COMPLETADO);
    ConEstadoDisjuntos(pedidos, EN_PROCESO, COMPLETADO);
    ConEstadoDisjuntos(pedidos, PENDIENTE, CANCELADO);
    ConEstadoDisjuntos(pedidos, EN_PROCESO, CANCELADO);
    ConEstadoDisjuntos(pedidos, COMPLETADO, CANCELADO);
    CardinalDisjunta(a, b);
    CardinalDisjunta(a + b, c);
    CardinalDisjunta(a + b + c, d);
  }

  /** The three reported status counts never exceed the number of orders, and
      when every status is one of the four valid ones, the cancelled orders
      make up exactly the difference. */
  lemma ConteosPorEstado(pedidos: map<string, Pedido>)
    ensures |ConEstado(pedidos, PENDIENTE)| + |ConEstado(pedidos, EN_PROCESO)| + |ConEstado(pedidos, COMPLETADO)| <= |pedidos|
    ensures (forall k :: k in pedidos ==> EstadoValido(pedidos[k].estado)) ==>
      |ConEstado(pedidos, PENDIENTE)| + |ConEstado(pedidos, EN_PROCESO)| + |ConEstado(pedidos, COMPLETADO)|
        + |ConEstado(pedidos, CANCELADO)| == |pedidos|
  {
    CuatroEstados(pedidos);
    var todos := ConEstado(pedidos, PENDIENTE) + ConEstado(pedidos, EN_PROCESO)
                 + ConEstado(pedidos, COMPLETADO) + ConEstado(pedidos, CANCELADO);
    CardinalSubconjunto(todos, pedidos.Keys);
    if forall k :: k in pedidos ==> EstadoValido(pedidos[k].estado) {
      CuatroEstadosCubren(pedidos);
      assert |pedidos.Keys| == |pedidos|;
    }
  }

  lemma CuatroEstadosCubren(pedidos: map<string, Pedido>)
    requires forall k :: k in pedidos ==> EstadoValido(pedidos[k].estado)
    ensures pedidos.Keys == ConEstado(pedidos, PENDIENTE) + ConEstado(pedidos, EN_PROCESO)
                            + ConEstado(pedidos, COMPLETADO) + ConEstado(pedidos, CANCELADO)
  {
    forall k | k in pedidos
      ensures k in ConEstado(pedidos, PENDIENTE) + ConEstado(pedidos, EN_PROCESO)
                   + ConEstado(pedidos, COMPLETADO) + ConEstado(pedidos, CANCELADO)
    {
      assert pedidos[k].estado in ESTADOS_VALIDOS;
    }
  }

  /** Five orders with statuses pending, pending, in progress, completed (10)
      and completed (5): five orders, two pending, one in progress, two
      completed, and a revenue of 15. */
  lemma EjemploAgregacion(clientes: map<string, Cliente>, productos: map<string, Producto>, base: Pedido)
    ensures var pedidos := map[
        "a" := base.(estado := PENDIENTE), "b" := base.(estado := PENDIENTE),
        "c" := base.(estado := EN_PROCESO),
        "d" := base.(estado := COMPLETADO, total := 10), "e" := base.(estado := COMPLETADO, total := 5)];
      var s := EstadisticasDe(clientes, productos, pedidos);
      s.totalPedidos == 5 && s.pedidosPendientes == 2 && s.pedidosEnProceso == 1
      && s.pedidosCompletados == 2 && s.ingresosTotales == 15
  {
    var pedidos := map[
        "a" := base.(estado := PENDIENTE), "b" := base.(estado := PENDIENTE),
        "c" := base.(estado := EN_PROCESO),
        "d" := base.(estado := COMPLETADO, total := 10), "e" := base.(estado := COMPLETADO, total := 5)];
    assert PENDIENTE[0] != EN_PROCESO[0] && PENDIENTE[0] != COMPLETADO[0] && EN_PROCESO[0] != COMPLETADO[0];
    assert pedidos.Keys == {"a", "b", "c", "d", "e"};
    assert ConEstado(pedidos, PENDIENTE) == {"a", "b"};
    assert ConEstado(pedidos, EN_PROCESO) == {"c"};
    assert ConEstado(pedidos, COMPLETADO) == {"d", "e"};
    SumaTotalesSin(pedidos, {"d", "e"}, "d");
    assert {"d", "e"} - {"d"} == {"e"};
    SumaTotalesSin(pedidos, {"e"}, "e");
    assert {"e"} - {"e"} == {};
  }
}
