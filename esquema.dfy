/**
 * The order tables: `pedidos` (the order header), `pedido_producto` (one
 * row per order line) and `pagos_pedido` (payments), with the enum columns,
 * their defaults, and the relations the line columns are documented to keep.
 */
module Esquema {
  import opened Listas

  type ProductId = int
  type PedidoId = int
  type ClienteId = int
  type UserId = int

  /** The `estado` enum column of `pedidos`. */
  datatype Estado = Pendiente | Espera | Pagado | Cancelado

  /** Column defaults of `pedidos`. */
  const EstadoPorDefecto: Estado := Pendiente
  const TotalPorDefecto: real := 0.0
  const MontoPagadoPorDefecto: real := 0.0

  /** The string the enum column stores for each state. */
  function NombreEstado(e: Estado): string
  {
    match e
    case Pendiente => "pendiente"
    case Espera => "espera"
    case Pagado => "pagado"
    case Cancelado => "cancelado"
  }

  /** Reading the enum column: exactly the four names are states, and each reads back as itself. */
  function EstadoDeNombre(s: string): (r: Option<Estado>)
    ensures r.Some? ==> NombreEstado(r.value) == s
    ensures r.None? <==> forall e: Estado :: NombreEstado(e) != s
  {
    if s == "pendiente" then Some(Pendiente)
    else if s == "espera" then Some(Espera)
    else if s == "pagado" then Some(Pagado)
    else if s == "cancelado" then Some(Cancelado)
    else None
  }

  /** A row of `pedidos`. `total` and `montoPagado` are exact amounts. */
  datatype Pedido = Pedido(
    clienteId: ClienteId,
    userId: UserId,
    total: real,
    montoPagado: real,
    estado: Estado)

  /** A row of `pedido_producto` with every column the migration declares. */
  datatype PedidoProducto = PedidoProducto(
    pedidoId: PedidoId,
    productoId: ProductId,
    cantidad: int,
    precio: real,
    isvPorcentaje: real,
    isvTotal: real,
    total: real,
    totalConIsv: real)

  /** The relations the migration's comments document between the line columns. */
  predicate ColumnasDocumentadas(r: PedidoProducto)
  {
    && r.total == r.cantidad as real * r.precio
    && r.isvTotal == r.cantidad as real * r.precio * r.isvPorcentaje / 100.0
    && r.totalConIsv == r.total + r.isvTotal
  }

  /** A line row filled in as documented; its tax-inclusive total is the subtotal scaled by 1 + rate/100. */
  function FilaPivote(pedidoId: PedidoId, productoId: ProductId, cantidad: int, precio: real, isvPorcentaje: real)
    : (r: PedidoProducto)
    ensures ColumnasDocumentadas(r)
    ensures r.pedidoId == pedidoId && r.productoId == productoId
    ensures r.cantidad == cantidad && r.precio == precio && r.isvPorcentaje == isvPorcentaje
    ensures r.totalConIsv == cantidad as real * precio * (1.0 + isvPorcentaje / 100.0)
  {
    var total := cantidad as real * precio;
    var isvTotal := cantidad as real * precio * isvPorcentaje / 100.0;
    PedidoProducto(pedidoId, productoId, cantidad, precio, isvPorcentaje, isvTotal, total, total + isvTotal)
  }

  /**
   * The `pedido_producto` columns the order controller writes and reads back
   * (`cantidad`, `precio`, `total`), for one product of one order.
   */
  datatype LineaPedido = LineaPedido(productoId: ProductId, cantidad: int, precio: real, total: real)

  /** The `tipo_pago` enum column of `pagos_pedido`. */
  datatype TipoPago = Efectivo | Tarjeta | Transferencia

  const TipoPagoPorDefecto: TipoPago := Efectivo

  function NombreTipoPago(t: TipoPago): string
  {
    match t
    case Efectivo => "efectivo"
    case Tarjeta => "tarjeta"
    case Transferencia => "transferencia"
  }

  /** Reading the payment-type column: exactly the three names are payment types. */
  function TipoPagoDeNombre(s: string): (r: Option<TipoPago>)
    ensures r.Some? ==> NombreTipoPago(r.value) == s
    ensures r.None? <==> forall t: TipoPago :: NombreTipoPago(t) != s
  {
    if s == "efectivo" then Some(Efectivo)
    else if s == "tarjeta" then Some(Tarjeta)
    else if s == "transferencia" then Some(Transferencia)
    else None
  }

  /** A row of `pagos_pedido`; the date is kept as a day number. */
  datatype PagoPedido = PagoPedido(
    userId: UserId,
    clienteId: ClienteId,
    pedidoId: PedidoId,
    fechaPago: int,
    monto: real,
    tipoPago: TipoPago,
    pagoTotal: bool)

  function NoEsDelPedido(id: PedidoId): PagoPedido -> bool
  {
    (p: PagoPedido) => p.pedidoId != id
  }

  /** `onDelete('cascade')` from `pedidos` to `pagos_pedido`: the payments of the deleted order go. */
  function Cascada(pagos: seq<PagoPedido>, id: PedidoId): (r: seq<PagoPedido>)
    ensures forall p :: p in r <==> p in pagos && p.pedidoId != id
  {
    Filter(pagos, NoEsDelPedido(id))
  }

  /** Deleting an order nothing refers to leaves the payment table as it was. */
  lemma CascadaSinReferencias(pagos: seq<PagoPedido>, id: PedidoId)
    requires forall p :: p in pagos ==> p.pedidoId != id
    ensures Cascada(pagos, id) == pagos
  {
    FilterKeepsAll(pagos, NoEsDelPedido(id));
  }
}
