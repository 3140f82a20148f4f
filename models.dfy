/** The records the back end stores: customers, products, order lines and
    orders, together with the request bodies that create them. Prices are
    integer cents. */
module Models {
  import opened Results
  import opened Fechas

  /** An instant read from the server clock; the model never inspects it. */
  datatype Timestamp = Timestamp(ticks: int)

  datatype Cliente = Cliente(
    id: string,
    nombre: string,
    telefono: string,
    email: Option<string>,
    direccion: Option<string>,
    fechaRegistro: Timestamp)

  /** The editable fields of a customer (the body of create and update). */
  datatype ClienteCreate = ClienteCreate(
    nombre: string,
    telefono: string,
    email: Option<string>,
    direccion: Option<string>)

  datatype Producto = Producto(
    id: string,
    nombre: string,
    precio: int,
    categoria: string,
    descripcion: Option<string>,
    disponible: bool)

  /** The editable fields of a product (the body of create and update). */
  datatype ProductoCreate = ProductoCreate(
    nombre: string,
    precio: int,
    categoria: string,
    descripcion: Option<string>,
    disponible: bool)

  /** One priced line of an order, copied from the product when the order is made. */
  datatype DetalleProducto = DetalleProducto(
    productoId: string,
    nombreProducto: string,
    cantidad: int,
    precioUnitario: int,
    subtotal: int)

  datatype Pedido = Pedido(
    id: string,
    clienteId: string,
    nombreCliente: string,
    fechaPedido: Timestamp,
    fechaEntregaEstimada: Fecha,
    estado: string,
    productos: seq<DetalleProducto>,
    total: int)

  /** One requested line: a product id and a quantity. */
  datatype LineaSolicitada = LineaSolicitada(productoId: string, cantidad: int)

  /** The body of an order creation request; the date is still text. */
  datatype PedidoCreate = PedidoCreate(
    clienteId: string,
    fechaEntregaEstimada: string,
    productos: seq<LineaSolicitada>)

  const PENDIENTE: string := "pendiente"
  const EN_PROCESO: string := "en_proceso"
  const COMPLETADO: string := "completado"
  const CANCELADO: string := "cancelado"

  /** The statuses an order may be given. */
  const ESTADOS_VALIDOS: seq<string> := [PENDIENTE, EN_PROCESO, COMPLETADO, CANCELADO]

  predicate EstadoValido(estado: string) {
    estado in ESTADOS_VALIDOS
  }

  function NuevoCliente(id: string, datos: ClienteCreate, ahora: Timestamp): Cliente {
    Cliente(id, datos.nombre, datos.telefono, datos.email, datos.direccion, ahora)
  }

  /** A customer with every editable field replaced. */
  function ClienteConDatos(c: Cliente, datos: ClienteCreate): Cliente {
    c.(nombre := datos.nombre, telefono := datos.telefono, email := datos.email, direccion := datos.direccion)
  }

  function NuevoProducto(id: string, datos: ProductoCreate): Producto {
    Producto(id, datos.nombre, datos.precio, datos.categoria, datos.descripcion, datos.disponible)
  }

  /** A product with every editable field replaced. */
  function ProductoConDatos(p: Producto, datos: ProductoCreate): Producto {
    p.(nombre := datos.nombre, precio := datos.precio, categoria := datos.categoria,
       descripcion := datos.descripcion, disponible := datos.disponible)
  }
}
