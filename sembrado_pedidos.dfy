/**
 * The seeder that fills a development database with products and orders.
 *
 * Every random choice it makes is an input here: the price and stock drawn
 * for each product, and for each order its initial status, its customer,
 * how many products to take, the random order of the product table and
 * the fraction of the total that is paid.
 */
module SembradoPedidos {
  import opened Listas
  import opened Esquema
  import PC = PedidoController

  /** The fixed user every seeded product and order belongs to. */
  const UsuarioSemilla: UserId := 4

  const ProductosPorSembrar: nat := 20
  const PedidosPorSembrar: nat := 50

  /** The draws for one product: its price and its stock. */
  datatype SorteoProducto = SorteoProducto(precio: real, stock: int)

  /** Within the ranges the seeder draws from: price 10 to 500, stock 10 to 30. */
  predicate SorteoProductoValido(s: SorteoProducto)
  {
    10.0 <= s.precio <= 500.0 && 10 <= s.stock <= 30
  }

  /** The draws for one order. */
  datatype SorteoPedido = SorteoPedido(
    estadoInicial: Estado,
    clienteId: ClienteId,
    cuantos: int,
    orden: seq<ProductId>,
    fraccionPagada: real)

  /**
   * Within what the seeder draws: a status among the three live ones, one
   * of the existing customers, 1 to 5 products, a shuffle of the whole
   * product table, and a fraction between 0 and 1.
   */
  predicate SorteoPedidoValido(s: SorteoPedido, clientes: set<ClienteId>, productos: set<ProductId>)
  {
    && s.estadoInicial != Cancelado
    && s.clienteId in clientes
    && 1 <= s.cuantos <= 5
    && Distinct(s.orden)
    && (forall p :: p in s.orden ==> p in productos)
    && (forall p :: p in productos ==> p in s.orden)
    && 0.0 <= s.fraccionPagada <= 1.0
  }

  function ConStock(stock: map<ProductId, int>): ProductId -> bool
  {
    (p: ProductId) => p in stock && stock[p] >= 1
  }

  /**
   * The products an order takes: the first `cuantos` of the shuffled table
   * that have stock left, or all of those when fewer have stock.
   */
  function Disponibles(stock: map<ProductId, int>, orden: seq<ProductId>, cuantos: int): (r: seq<ProductId>)
    requires Distinct(orden)
    ensures Distinct(r)
    ensures forall i :: 0 <= i < |r| ==> r[i] in orden && r[i] in stock && stock[r[i]] >= 1
    ensures cuantos >= 0 ==>
      |r| == (if cuantos < |Filter(orden, ConStock(stock))| then cuantos else |Filter(orden, ConStock(stock))|)
    ensures cuantos >= 1 && (exists p :: p in orden && p in stock && stock[p] >= 1) ==> |r| >= 1
    ensures forall i, j :: 0 <= i < j < |orden| && orden[j] in r && orden[i] in stock && stock[orden[i]] >= 1 ==>
      orden[i] in r
    ensures (forall p :: p in stock ==> stock[p] < 1) ==> r == []
  {
    var conStock := Filter(orden, ConStock(stock));
    FilterDistinct(orden, ConStock(stock));
    FilterIndices(orden, ConStock(stock));
    NadaConStock(stock, orden);
    var r := if cuantos < 0 || |conStock| <= cuantos then conStock else conStock[..cuantos];
    assert r == conStock[..|r|];
    TomaCerrada(stock, orden, |r|);
    r
  }

  /** Taking a prefix of the stocked products never skips one that comes earlier in the shuffle. */
  lemma TomaCerrada(stock: map<ProductId, int>, orden: seq<ProductId>, k: nat)
    requires Distinct(orden) && k <= |Filter(orden, ConStock(stock))|
    ensures forall i, j ::
      (0 <= i < j < |orden| && orden[j] in Filter(orden, ConStock(stock))[..k] && orden[i] in stock && stock[orden[i]] >= 1)
      ==> orden[i] in Filter(orden, ConStock(stock))[..k]
  {
    forall i, j | 0 <= i < j < |orden| && orden[j] in Filter(orden, ConStock(stock))[..k] &&
      orden[i] in stock && stock[orden[i]] >= 1
      ensures orden[i] in Filter(orden, ConStock(stock))[..k]
    {
      FilterPrefixClosed(orden, ConStock(stock), k, i, j);
    }
  }

  lemma NadaConStock(stock: map<ProductId, int>, orden: seq<ProductId>)
    ensures (forall p :: p in stock ==> stock[p] < 1) ==> Filter(orden, ConStock(stock)) == []
  {
    if forall p :: p in stock ==> stock[p] < 1 {
      FilterNone(orden, ConStock(stock));
    }
  }

  /** The ids an auto-increment column hands out next, `n` of them from `desde` on. */
  function Consecutivos(desde: int, n: nat): set<int>
  {
    if n == 0 then {} else Consecutivos(desde, n - 1) + {desde + n - 1}
  }

  /** Those are `n` distinct ids, all from `desde` up to `desde + n - 1`. */
  lemma {:induction false} ConsecutivosCuenta(desde: int, n: nat)
    ensures |Consecutivos(desde, n)| == n
    ensures forall x :: x in Consecutivos(desde, n) <==> desde <= x < desde + n
  {
    if n > 0 {
      ConsecutivosCuenta(desde, n - 1);
      assert desde + n - 1 !in Consecutivos(desde, n - 1);
    }
  }

  /** What the seeder relies on: each product has a non-negative price next to its non-negative stock. */
  predicate PreciosCubren(stock: map<ProductId, int>, precios: map<ProductId, real>)
  {
    && precios.Keys == stock.Keys
    && (forall p :: p in precios ==> precios[p] >= 0.0)
    && (forall p :: p in stock ==> stock[p] >= 0)
  }

  /**
   * The lines of a seeded order: one unit of each product taken, at the
   * product's price. Reserving them always succeeds.
   */
  function LineasSembradas(stock: map<ProductId, int>, precios: map<ProductId, real>, orden: seq<ProductId>, cuantos: int): (items: seq<PC.Item>)
    requires Distinct(orden) && PreciosCubren(stock, precios)
    ensures PC.ProductosEn(items, stock) && PC.Reservar(stock, items).Ok?
    ensures PC.Total(items) >= 0.0
  {
    var elegidos := Disponibles(stock, orden, cuantos);
    var items := seq(|elegidos|, i requires 0 <= i < |elegidos| => PC.Item(elegidos[i], 1, precios[elegidos[i]]));
    ReservaPosible(stock, items);
    PC.TotalNoNegativo(items);
    items
  }

  /**
   * The seeded lines follow the products taken, in order, one unit each at
   * the product's price; they name distinct products with a unit in stock,
   * at most `cuantos` of them, and none when no product has stock.
   */
  lemma LineasSembradasValidas(stock: map<ProductId, int>, precios: map<ProductId, real>, orden: seq<ProductId>, cuantos: int)
    requires Distinct(orden) && PreciosCubren(stock, precios)
    ensures |LineasSembradas(stock, precios, orden, cuantos)| == |Disponibles(stock, orden, cuantos)|
    ensures forall i :: 0 <= i < |LineasSembradas(stock, precios, orden, cuantos)| ==>
      var it := LineasSembradas(stock, precios, orden, cuantos)[i];
      && it.id == Disponibles(stock, orden, cuantos)[i]
      && it.id in stock && stock[it.id] >= 1
      && it.cantidad == 1 && it.id in precios && it.precio == precios[it.id] && it.precio >= 0.0
    ensures PC.IdsDistintos(LineasSembradas(stock, precios, orden, cuantos))
    ensures cuantos >= 0 ==> |LineasSembradas(stock, precios, orden, cuantos)| <= cuantos
    ensures (forall p :: p in stock ==> stock[p] < 1) ==> LineasSembradas(stock, precios, orden, cuantos) == []
  {
  }

  /** Distinct lines of one unit each, on products with a unit in stock, can all be reserved. */
  lemma ReservaPosible(stock: map<ProductId, int>, items: seq<PC.Item>)
    requires PC.IdsDistintos(items)
    requires forall i :: 0 <= i < |items| ==> items[i].id in stock && stock[items[i].id] >= 1 && items[i].cantidad == 1
    requires forall p :: p in stock ==> stock[p] >= 0
    ensures PC.Reservar(stock, items).Ok?
  {
    forall p | p in stock ensures PC.Unidades(items, p) <= stock[p] {
      PC.UnidadesDistintas(items, p);
    }
    PC.ReservarExito(stock, items);
  }

  /** The amount paid: the drawn fraction of the total, so between nothing and all of it. */
  function MontoSorteado(fraccion: real, total: real): (m: real)
    requires 0.0 <= fraccion <= 1.0 && total >= 0.0
    ensures 0.0 <= m <= total
  {
    assert fraccion * total <= 1.0 * total;
    fraccion * total
  }

  /** The new order's header, once its lines are in: the total, the drawn fraction of it paid, and the controller's status rule. */
  function Cabecera(s: SorteoPedido, items: seq<PC.Item>): (p: Pedido)
    requires 0.0 <= s.fraccionPagada <= 1.0 && PC.Total(items) >= 0.0
    ensures p.clienteId == s.clienteId && p.userId == UsuarioSemilla && p.total == PC.Total(items)
    ensures 0.0 <= p.montoPagado <= p.total
    ensures p.estado == Pagado <==> p.montoPagado >= p.total
    ensures p.estado == Espera <==> 0.0 < p.montoPagado < p.total
    ensures p.estado == Pendiente <==> p.montoPagado <= 0.0 && p.montoPagado < p.total
  {
    var total := PC.Total(items);
    var montoPagado := MontoSorteado(s.fraccionPagada, total);
    Pedido(s.clienteId, UsuarioSemilla, total, montoPagado, PC.EstadoDe(montoPagado, total))
  }

  /**
   * One seeded order, as the tables before and after it: a fresh order
   * holding the seeded lines and the header above; each product taken
   * loses one unit; nothing else changes.
   */
  function Sembrar(t: PC.Tablas, precios: map<ProductId, real>, s: SorteoPedido): (r: (PedidoId, PC.Tablas))
    requires PreciosCubren(t.stock, precios) && Distinct(s.orden) && 0.0 <= s.fraccionPagada <= 1.0
  {
    (t.siguienteId, Asentar(t, s, LineasSembradas(t.stock, precios, s.orden, s.cuantos)))
  }

  /** The tables once an order with the given lines is in, under the next free id. */
  function Asentar(t: PC.Tablas, s: SorteoPedido, items: seq<PC.Item>): PC.Tablas
    requires PC.ProductosEn(items, t.stock) && PC.Reservar(t.stock, items).Ok?
    requires 0.0 <= s.fraccionPagada <= 1.0 && PC.Total(items) >= 0.0
  {
    var id := t.siguienteId;
    t.(stock := PC.Reservar(t.stock, items).value,
       pedidos := t.pedidos[id := Cabecera(s, items)],
       lineas := t.lineas[id := PC.Filas(items)],
       siguienteId := id + 1)
  }

  /** The same order as a request to `store`: the drawn customer, the seeded lines and the amount paid. */
  function SolicitudSembrada(stock: map<ProductId, int>, precios: map<ProductId, real>, s: SorteoPedido): PC.Solicitud
    requires PreciosCubren(stock, precios) && Distinct(s.orden) && 0.0 <= s.fraccionPagada <= 1.0
  {
    var items := LineasSembradas(stock, precios, s.orden, s.cuantos);
    PC.Solicitud(s.clienteId, items, MontoSorteado(s.fraccionPagada, PC.Total(items)))
  }

  /** The order insert: a fresh order with a zero total, nothing paid, the drawn status and no rows. */
  function Insertar(t: PC.Tablas, clienteId: ClienteId, estado: Estado): PC.Tablas
  {
    t.(pedidos := t.pedidos[t.siguienteId := Pedido(clienteId, UsuarioSemilla, 0.0, 0.0, estado)],
       lineas := t.lineas[t.siguienteId := []],
       siguienteId := t.siguienteId + 1)
  }

  /** The product loop's effect: the order's rows written and one unit taken from each product's stock. */
  function EscribirFilas(t: PC.Tablas, id: PedidoId, items: seq<PC.Item>): PC.Tablas
    requires PC.ProductosEn(items, t.stock) && PC.Reservar(t.stock, items).Ok?
  {
    t.(stock := PC.Reservar(t.stock, items).value, lineas := t.lineas[id := PC.Filas(items)])
  }

  /** The closing update of the order's total, amount paid and status. */
  function Cerrar(t: PC.Tablas, id: PedidoId, total: real, montoPagado: real): PC.Tablas
    requires id in t.pedidos
  {
    t.(pedidos := t.pedidos[id := t.pedidos[id].(total := total, montoPagado := montoPagado, estado := PC.EstadoDe(montoPagado, total))])
  }

  /** Writing an order's lines is the insert, then the product loop, then the closing update. */
  lemma AsentarPorPasos(t: PC.Tablas, s: SorteoPedido, items: seq<PC.Item>)
    requires PC.ProductosEn(items, t.stock) && PC.Reservar(t.stock, items).Ok?
    requires 0.0 <= s.fraccionPagada <= 1.0 && PC.Total(items) >= 0.0
    ensures Asentar(t, s, items)
         == Cerrar(EscribirFilas(Insertar(t, s.clienteId, s.estadoInicial), t.siguienteId, items),
                   t.siguienteId, PC.Total(items), MontoSorteado(s.fraccionPagada, PC.Total(items)))
  {
    var id := t.siguienteId;
    var t2 := EscribirFilas(Insertar(t, s.clienteId, s.estadoInicial), id, items);
    var total := PC.Total(items);
    var t3 := Cerrar(t2, id, total, MontoSorteado(s.fraccionPagada, total));
    assert t3.pedidos[id] == Cabecera(s, items);
  }

  /**
   * When the seeder asks for at least one product and some product of the
   * shuffle has stock, the order it writes is exactly what `store` writes
   * for the same customer, lines and amount paid.
   */
  lemma SembrarComoAlmacenar(t: PC.Tablas, precios: map<ProductId, real>, s: SorteoPedido)
    requires PC.TablasValidas(t) && PreciosCubren(t.stock, precios)
    requires Distinct(s.orden) && 0.0 <= s.fraccionPagada <= 1.0 && s.clienteId in t.clientes
    requires s.cuantos >= 1 && exists p :: p in s.orden && p in t.stock && t.stock[p] >= 1
    ensures (PC.Ok(Sembrar(t, precios, s).0), Sembrar(t, precios, s).1)
         == PC.Almacenar(t, UsuarioSemilla, SolicitudSembrada(t.stock, precios, s))
  {
    var items := LineasSembradas(t.stock, precios, s.orden, s.cuantos);
    assert |Disponibles(t.stock, s.orden, s.cuantos)| >= 1;
    LineasSembradasValidas(t.stock, precios, s.orden, s.cuantos);
    var total := PC.Total(items);
    var req := PC.Solicitud(s.clienteId, items, MontoSorteado(s.fraccionPagada, total));
    assert PC.SolicitudValida(req, t.clientes, t.stock);
    var cabecera := Cabecera(s, items);
    assert cabecera == Pedido(s.clienteId, UsuarioSemilla, total, req.montoPagado, PC.EstadoDe(req.montoPagado, total));
    var despues := Sembrar(t, precios, s).1;
    assert despues.stock == PC.Reservar(t.stock, items).value;
    assert PC.Almacenar(t, UsuarioSemilla, req).1 == despues;
    assert PC.Almacenar(t, UsuarioSemilla, req).0 == PC.Ok(Sembrar(t, precios, s).0);
    assert req == SolicitudSembrada(t.stock, precios, s);
  }

  /**
   * When no product has stock left, the seeded order has no rows, a zero
   * total, nothing paid and status `pagado`, and no stock changes.
   */
  lemma SembrarVacio(t: PC.Tablas, precios: map<ProductId, real>, s: SorteoPedido)
    requires PreciosCubren(t.stock, precios) && Distinct(s.orden) && 0.0 <= s.fraccionPagada <= 1.0
    requires forall p :: p in t.stock ==> t.stock[p] == 0
    ensures Sembrar(t, precios, s).1
         == t.(pedidos := t.pedidos[t.siguienteId := Pedido(s.clienteId, UsuarioSemilla, 0.0, 0.0, Pagado)],
               lineas := t.lineas[t.siguienteId := []],
               siguienteId := t.siguienteId + 1)
  {
    var items := LineasSembradas(t.stock, precios, s.orden, s.cuantos);
    assert Disponibles(t.stock, s.orden, s.cuantos) == [];
    LineasSembradasValidas(t.stock, precios, s.orden, s.cuantos);
    assert items == [];
    assert PC.Filas(items) == [] && PC.Reservar(t.stock, items).value == t.stock;
    assert Cabecera(s, items) == Pedido(s.clienteId, UsuarioSemilla, 0.0, 0.0, Pagado);
  }

  /** Seeding an order adds exactly one order, under a fresh id, and leaves the earlier orders alone. */
  lemma SembrarAgregaUno(t: PC.Tablas, precios: map<ProductId, real>, s: SorteoPedido)
    requires PC.TablasValidas(t) && PreciosCubren(t.stock, precios) && Distinct(s.orden) && 0.0 <= s.fraccionPagada <= 1.0
    ensures t.siguienteId !in t.pedidos
    ensures Sembrar(t, precios, s).1.siguienteId == t.siguienteId + 1
    ensures Sembrar(t, precios, s).1.pedidos.Keys == t.pedidos.Keys + {t.siguienteId}
    ensures forall o :: o in t.pedidos ==> Sembrar(t, precios, s).1.pedidos[o] == t.pedidos[o]
  {
  }

  /**
   * What the seeder keeps true: the order tables are consistent, every
   * product has a price, and product ids stay below the next one handed out.
   */
  ghost predicate TablasSemilla(t: PC.Tablas, precios: map<ProductId, real>, siguienteProducto: ProductId)
  {
    && PC.TablasValidas(t)
    && PreciosCubren(t.stock, precios)
    && (forall p :: p in t.stock ==> p < siguienteProducto)
  }

  /** Seeding an order keeps every product, and leaves no stock below zero. */
  lemma SembrarStock(t: PC.Tablas, precios: map<ProductId, real>, s: SorteoPedido)
    requires PreciosCubren(t.stock, precios) && Distinct(s.orden) && 0.0 <= s.fraccionPagada <= 1.0
    ensures Sembrar(t, precios, s).1.stock.Keys == t.stock.Keys
    ensures forall p :: p in Sembrar(t, precios, s).1.stock ==> Sembrar(t, precios, s).1.stock[p] >= 0
  {
    var items := LineasSembradas(t.stock, precios, s.orden, s.cuantos);
    PC.ReservarEfecto(t.stock, items);
  }

  /** Seeding an order keeps every table consistent and every product priced. */
  lemma SembrarValido(t: PC.Tablas, precios: map<ProductId, real>, siguienteProducto: ProductId, s: SorteoPedido)
    requires TablasSemilla(t, precios, siguienteProducto) && Distinct(s.orden) && 0.0 <= s.fraccionPagada <= 1.0
    ensures TablasSemilla(Sembrar(t, precios, s).1, precios, siguienteProducto)
    ensures Sembrar(t, precios, s).1.stock.Keys == t.stock.Keys
    ensures Sembrar(t, precios, s).1.clientes == t.clientes && Sembrar(t, precios, s).1.pagos == t.pagos
  {
    var items := LineasSembradas(t.stock, precios, s.orden, s.cuantos);
    LineasSembradasValidas(t.stock, precios, s.orden, s.cuantos);
    SembrarStock(t, precios, s);
    var r := Sembrar(t, precios, s).1;
    assert PC.FilasValidas(PC.Filas(items), r.stock);
    assert forall id :: id in t.lineas ==> PC.FilasValidas(t.lineas[id], r.stock);
  }

  /** The tables as the seeder writes them, with each product's price next to its stock. */
  class BaseSemilla {
    var clientes: set<ClienteId>
    var categorias: seq<int>
    var precios: map<ProductId, real>
    var stock: map<ProductId, int>
    var pedidos: map<PedidoId, Pedido>
    var lineas: map<PedidoId, seq<LineaPedido>>
    var pagos: seq<PagoPedido>
    var siguientePedido: PedidoId
    var siguienteProducto: ProductId

    /** The order tables, as the controller sees them. */
    function Tablas(): PC.Tablas
      reads this
    {
      PC.Tablas(clientes, stock, pedidos, lineas, pagos, siguientePedido)
    }

    ghost predicate Valid()
      reads this
    {
      TablasSemilla(Tablas(), precios, siguienteProducto)
    }

    constructor (clientes0: set<ClienteId>, categorias0: seq<int>)
      ensures Valid()
      ensures clientes == clientes0 && categorias == categorias0
      ensures precios == map[] && stock == map[] && pedidos == map[] && lineas == map[] && pagos == []
    {
      clientes := clientes0;
      categorias := categorias0;
      precios := map[];
      stock := map[];
      pedidos := map[];
      lineas := map[];
      pagos := [];
      siguientePedido := 1;
      siguienteProducto := 1;
    }

    /** One product insert: a fresh id with the drawn price and stock. */
    method CrearProducto(s: SorteoProducto) returns (id: ProductId)
      requires Valid() && SorteoProductoValido(s)
      modifies this
      ensures Valid()
      ensures id == old(siguienteProducto) && id !in old(stock) && siguienteProducto == id + 1
      ensures precios == old(precios)[id := s.precio] && stock == old(stock)[id := s.stock]
      ensures Tablas() == old(Tablas()).(stock := stock)
      ensures clientes == old(clientes) && categorias == old(categorias)
    {
      id := siguienteProducto;
      precios := precios[id := s.precio];
      stock := stock[id := s.stock];
      siguienteProducto := id + 1;
    }

    /**
     * One seeded order: insert the order with a zero total, take the
     * available products, write one quantity-1 row for each, decrement its
     * stock, add its price to the total, then draw the amount paid and set
     * the status by the controller's rule.
     */
    method SembrarPedido(s: SorteoPedido) returns (id: PedidoId)
      requires Valid() && Distinct(s.orden) && 0.0 <= s.fraccionPagada <= 1.0
      modifies this
      ensures Valid()
      ensures precios == old(precios) && categorias == old(categorias) && siguienteProducto == old(siguienteProducto)
      ensures (id, Tablas()) == Sembrar(old(Tablas()), old(precios), s)
      ensures id == old(siguientePedido) && siguientePedido == id + 1
      ensures id !in old(pedidos) && pedidos.Keys == old(pedidos).Keys + {id}
      ensures forall o :: o in old(pedidos) ==> pedidos[o] == old(pedidos)[o]
      ensures stock.Keys == old(stock).Keys && clientes == old(clientes)
    {
      ghost var inicial := Tablas();
      id := InsertarPedido(s.clienteId, s.estadoInicial);
      var items := LineasSembradas(stock, precios, s.orden, s.cuantos);
      var total := EscribirLineas(id, items);
      var montoPagado := MontoSorteado(s.fraccionPagada, total);
      CerrarPedido(id, total, montoPagado);
      AsentarPorPasos(inicial, s, items);
      SembrarValido(inicial, precios, siguienteProducto, s);
      SembrarAgregaUno(inicial, precios, s);
    }

    /** The order insert: a fresh id, a zero total, nothing paid, the drawn status and no rows yet. */
    method InsertarPedido(clienteId: ClienteId, estado: Estado) returns (id: PedidoId)
      modifies this
      ensures id == old(siguientePedido)
      ensures Tablas() == Insertar(old(Tablas()), clienteId, estado)
      ensures categorias == old(categorias) && precios == old(precios) && siguienteProducto == old(siguienteProducto)
    {
      id := siguientePedido;
      pedidos := pedidos[id := Pedido(clienteId, UsuarioSemilla, 0.0, 0.0, estado)];
      lineas := lineas[id := []];
      siguientePedido := id + 1;
    }

    /** The closing update: the order's total, amount paid and the status the controller's rule gives them. */
    method CerrarPedido(id: PedidoId, total: real, montoPagado: real)
      requires id in pedidos
      modifies this
      ensures Tablas() == Cerrar(old(Tablas()), id, total, montoPagado)
      ensures categorias == old(categorias) && precios == old(precios) && siguienteProducto == old(siguienteProducto)
    {
      pedidos := pedidos[id := pedidos[id].(total := total, montoPagado := montoPagado, estado := PC.EstadoDe(montoPagado, total))];
    }

    /**
     * The loop over the products taken: for each, a row with its quantity,
     * price and subtotal, a decrement of its stock, and its subtotal added
     * to the running total.
     */
    method EscribirLineas(id: PedidoId, items: seq<PC.Item>) returns (total: real)
      requires id in lineas && lineas[id] == []
      requires PC.ProductosEn(items, stock) && PC.Reservar(stock, items).Ok?
      modifies this
      ensures Tablas() == EscribirFilas(old(Tablas()), id, items)
      ensures total == PC.Total(items)
      ensures categorias == old(categorias) && precios == old(precios) && siguienteProducto == old(siguienteProducto)
    {
      total := 0.0;
      var i := 0;
      assert PC.Filas(items[..0]) == [] && items[..0] == [];
      while i < |items|
        invariant 0 <= i <= |items|
        invariant PC.ProductosEn(items[i..], stock)
        invariant PC.Reservar(stock, items[i..]) == PC.Reservar(old(stock), items)
        invariant lineas == old(lineas)[id := PC.Filas(items[..i])]
        invariant total == PC.Total(items[..i])
        invariant clientes == old(clientes) && categorias == old(categorias) && precios == old(precios)
        invariant pedidos == old(pedidos) && pagos == old(pagos)
        invariant siguientePedido == old(siguientePedido) && siguienteProducto == old(siguienteProducto)
      {
        var producto := items[i];
        assert items[i..][0] == producto && items[i..][1..] == items[i + 1..];
        var subtotal := producto.cantidad as real * producto.precio;
        var fila := LineaPedido(producto.id, producto.cantidad, producto.precio, subtotal);
        assert fila == PC.Fila(producto);
        lineas := lineas[id := lineas[id] + [fila]];
        assert PC.Filas(items[..i + 1]) == PC.Filas(items[..i]) + [fila];
        stock := stock[producto.id := stock[producto.id] - producto.cantidad];
        PC.TotalConcat(items[..i], [producto]);
        assert items[..i + 1] == items[..i] + [producto];
        total := total + subtotal;
        i := i + 1;
      }
      assert items[..i] == items && items[i..] == [];
    }

    /** The product loop: one insert per draw. */
    method CrearProductos(productos: seq<SorteoProducto>)
      requires Valid()
      requires forall i :: 0 <= i < |productos| ==> SorteoProductoValido(productos[i])
      modifies this
      ensures Valid()
      ensures stock.Keys == old(stock).Keys + Consecutivos(old(siguienteProducto), |productos|)
      ensures siguienteProducto == old(siguienteProducto) + |productos|
      ensures pedidos == old(pedidos) && lineas == old(lineas) && siguientePedido == old(siguientePedido)
      ensures clientes == old(clientes) && categorias == old(categorias)
    {
      var i := 0;
      while i < |productos|
        invariant 0 <= i <= |productos|
        invariant Valid()
        invariant stock.Keys == old(stock).Keys + Consecutivos(old(siguienteProducto), i)
        invariant siguienteProducto == old(siguienteProducto) + i
        invariant pedidos == old(pedidos) && lineas == old(lineas) && siguientePedido == old(siguientePedido)
        invariant clientes == old(clientes) && categorias == old(categorias)
      {
        var nuevo := CrearProducto(productos[i]);
        assert Consecutivos(old(siguienteProducto), i + 1) == Consecutivos(old(siguienteProducto), i) + {nuevo};
        i := i + 1;
      }
    }

    /** The order loop: one seeded order per draw, under consecutive fresh ids; earlier orders are never touched. */
    method SembrarPedidos(sorteos: seq<SorteoPedido>)
      requires Valid()
      requires forall i :: 0 <= i < |sorteos| ==> Distinct(sorteos[i].orden) && 0.0 <= sorteos[i].fraccionPagada <= 1.0
      modifies this
      ensures Valid()
      ensures stock.Keys == old(stock).Keys && clientes == old(clientes)
      ensures siguientePedido == old(siguientePedido) + |sorteos|
      ensures forall id :: id in pedidos <==> id in old(pedidos) || old(siguientePedido) <= id < siguientePedido
      ensures forall id :: id in old(pedidos) ==> pedidos[id] == old(pedidos)[id]
    {
      var k := 0;
      while k < |sorteos|
        invariant 0 <= k <= |sorteos|
        invariant Valid()
        invariant stock.Keys == old(stock).Keys && clientes == old(clientes)
        invariant siguientePedido == old(siguientePedido) + k
        invariant forall id :: id in pedidos <==> id in old(pedidos) || old(siguientePedido) <= id < siguientePedido
        invariant forall id :: id in old(pedidos) ==> pedidos[id] == old(pedidos)[id]
      {
        var nuevo := SembrarPedido(sorteos[k]);
        k := k + 1;
      }
    }

    /**
     * The whole seeder: without categories or customers, or without sample
     * images, nothing is written; otherwise 20 products, then 50 orders.
     */
    method Run(hayImagenes: bool, productos: seq<SorteoProducto>, sorteos: seq<SorteoPedido>)
      requires Valid()
      requires |productos| == ProductosPorSembrar && |sorteos| == PedidosPorSembrar
      requires forall i :: 0 <= i < |productos| ==> SorteoProductoValido(productos[i])
      requires forall i :: 0 <= i < |sorteos| ==> SorteoPedidoValido(sorteos[i], clientes, stock.Keys + Consecutivos(siguienteProducto, ProductosPorSembrar))
      modifies this
      ensures Valid()
      ensures old(|categorias| == 0 || clientes == {} || !hayImagenes) ==> unchanged(this)
      ensures !old(|categorias| == 0 || clientes == {} || !hayImagenes) ==>
        && stock.Keys == old(stock).Keys + Consecutivos(old(siguienteProducto), ProductosPorSembrar)
        && siguientePedido == old(siguientePedido) + PedidosPorSembrar
        && (forall id :: id in pedidos <==> id in old(pedidos) || old(siguientePedido) <= id < siguientePedido)
      ensures forall id :: id in old(pedidos) ==> id in pedidos && pedidos[id] == old(pedidos)[id]
    {
      if |categorias| == 0 || clientes == {} || !hayImagenes {
        return;
      }
      CrearProductos(productos);
      SembrarPedidos(sorteos);
    }
  }
}
