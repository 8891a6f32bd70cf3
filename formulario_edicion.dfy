/**
 * The edit-order page: the form it loads from an existing order, the
 * handlers that add, re-quantify and remove lines, the totals it shows,
 * and how what it submits meets `update`.
 *
 * The form state is a value: each handler returns the state React would
 * hold after `setData`.
 */
module FormularioEdicion {
  import opened Listas
  import opened Esquema
  import PC = PedidoController

  /** A catalog product as the page reads it: price, current stock and a tax rate. */
  datatype ProductoCatalogo = ProductoCatalogo(id: ProductId, precio: real, stock: int, isv: real)

  /** A product of the order being edited, with the pivot columns the page reads; the rate may be absent. */
  datatype ProductoDelPedido = ProductoDelPedido(id: ProductId, cantidad: int, precio: real, isvPorcentaje: Option<real>)

  /** One line of the form. */
  datatype Linea = Linea(id: ProductId, cantidad: int, precio: real, isv: real)

  datatype Formulario = Formulario(clienteId: ClienteId, productos: seq<Linea>, montoPagado: real)

  const IdDeLinea: Linea -> ProductId := (l: Linea) => l.id

  /** No product is listed twice. */
  predicate IdsUnicos(ls: seq<Linea>)
  {
    DistinctBy(ls, IdDeLinea)
  }

  function CatalogoConId(id: ProductId): ProductoCatalogo -> bool
  {
    (c: ProductoCatalogo) => c.id == id
  }

  function OriginalConId(id: ProductId): ProductoDelPedido -> bool
  {
    (o: ProductoDelPedido) => o.id == id
  }

  function LineaConId(id: ProductId): Linea -> bool
  {
    (l: Linea) => l.id == id
  }

  function LineaSinId(id: ProductId): Linea -> bool
  {
    (l: Linea) => l.id != id
  }

  // ---------------------------------------------------------------------------
  // Loading the form
  // ---------------------------------------------------------------------------

  function LineaInicial(o: ProductoDelPedido): Linea
  {
    Linea(o.id, o.cantidad, o.precio, match o.isvPorcentaje case Some(r) => r case None => 0.0)
  }

  /** The form as the page first fills it from the order: one line per order product, a missing rate read as 0. */
  function FormularioInicial(clienteId: ClienteId, productos: seq<ProductoDelPedido>, montoPagado: real): Formulario
  {
    Formulario(clienteId, seq(|productos|, i requires 0 <= i < |productos| => LineaInicial(productos[i])), montoPagado)
  }

  /** The order's rows as the page receives them: the loaded pivot holds no tax rate. */
  function DelPedido(rows: seq<LineaPedido>): seq<ProductoDelPedido>
  {
    seq(|rows|, i requires 0 <= i < |rows| => ProductoDelPedido(rows[i].productoId, rows[i].cantidad, rows[i].precio, None))
  }

  // ---------------------------------------------------------------------------
  // What the form submits
  // ---------------------------------------------------------------------------

  function Items(ls: seq<Linea>): seq<PC.Item>
  {
    seq(|ls|, i requires 0 <= i < |ls| => PC.Item(ls[i].id, ls[i].cantidad, ls[i].precio))
  }

  /** The `PUT` body: the tax rate of each line is sent along but `update` does not read it. */
  function Enviar(f: Formulario): PC.Solicitud
  {
    PC.Solicitud(f.clienteId, Items(f.productos), f.montoPagado)
  }

  /**
   * Opening an order in the edit page and saving it without changes leaves
   * its rows exactly as they were, when each product appears once and each
   * row's total is its quantity times its price.
   */
  lemma GuardarSinCambios(clienteId: ClienteId, rows: seq<LineaPedido>, montoPagado: real)
    requires PC.FilasDistintas(rows) && PC.TotalesCoherentes(rows)
    ensures PC.Sincronizar(rows, PC.DatosSync(Enviar(FormularioInicial(clienteId, DelPedido(rows), montoPagado)).productos))
         == rows
  {
    assert Enviar(FormularioInicial(clienteId, DelPedido(rows), montoPagado)).productos == PC.ItemsDeFilas(rows);
    PC.SincronizarIdentidad(rows);
  }

  // ---------------------------------------------------------------------------
  // Handlers
  // ---------------------------------------------------------------------------

  /**
   * `agregarProducto`: a catalog product the form does not list yet is
   * appended with quantity 1 and the catalog's price and rate; anything
   * else leaves the form as it was.
   */
  function AgregarProducto(catalogo: seq<ProductoCatalogo>, f: Formulario, prodId: ProductId): (g: Formulario)
    ensures g.clienteId == f.clienteId && g.montoPagado == f.montoPagado
    ensures g != f <==>
      (exists c :: c in catalogo && c.id == prodId) && (forall l :: l in f.productos ==> l.id != prodId)
    ensures g != f ==>
      g.productos == f.productos + [Linea(prodId, 1, Find(catalogo, CatalogoConId(prodId)).value.precio,
                                          Find(catalogo, CatalogoConId(prodId)).value.isv)]
    ensures IdsUnicos(f.productos) ==> IdsUnicos(g.productos)
  {
    match Find(catalogo, CatalogoConId(prodId))
    case None => f
    case Some(producto) =>
      if Find(f.productos, LineaConId(prodId)).Some? then f
      else
        var g := f.(productos := f.productos + [Linea(producto.id, 1, producto.precio, producto.isv)]);
        assert |g.productos| != |f.productos|;
        g
  }

  /** `cantidadOriginal`: the quantity the order held of a product when the page loaded, or 0. */
  function CantidadOriginal(original: seq<ProductoDelPedido>, id: ProductId): (c: int)
    ensures (forall o :: o in original ==> o.id != id) ==> c == 0
    ensures (exists o :: o in original && o.id == id) ==>
      exists o :: o in original && o.id == id && c == o.cantidad
  {
    match Find(original, OriginalConId(id))
    case None => 0
    case Some(o) => o.cantidad
  }

  /** `stockDisponible`: the catalog stock plus what the order already holds of the product. */
  function StockDisponible(catalogo: seq<ProductoCatalogo>, original: seq<ProductoDelPedido>, id: ProductId): Option<int>
  {
    match Find(catalogo, CatalogoConId(id))
    case None => None
    case Some(prod) => Some(prod.stock + CantidadOriginal(original, id))
  }

  /** The guard of `actualizarCantidad`: a known product, at least 1, at most the available stock. */
  predicate CantidadAceptada(catalogo: seq<ProductoCatalogo>, original: seq<ProductoDelPedido>, id: ProductId, cantidad: int)
  {
    StockDisponible(catalogo, original, id).Some? && 1 <= cantidad <= StockDisponible(catalogo, original, id).value
  }

  /** Every line is a catalog product and asks for no more than the stock available to it. */
  predicate DentroDelStock(catalogo: seq<ProductoCatalogo>, original: seq<ProductoDelPedido>, f: Formulario)
  {
    forall l :: l in f.productos ==> LineaDentroDelStock(catalogo, original, l)
  }

  predicate LineaDentroDelStock(catalogo: seq<ProductoCatalogo>, original: seq<ProductoDelPedido>, l: Linea)
  {
    StockDisponible(catalogo, original, l.id).Some? && l.cantidad <= StockDisponible(catalogo, original, l.id).value
  }

  function ConCantidad(l: Linea, id: ProductId, cantidad: int): Linea
  {
    if l.id == id then l.(cantidad := cantidad) else l
  }

  /**
   * `actualizarCantidad`: when the guard accepts, every line of that
   * product takes the new quantity and nothing else changes; otherwise the
   * form stays as it was. Lines within stock stay within stock.
   */
  function ActualizarCantidad(catalogo: seq<ProductoCatalogo>, original: seq<ProductoDelPedido>, f: Formulario,
                              id: ProductId, cantidad: int): (g: Formulario)
    ensures !CantidadAceptada(catalogo, original, id, cantidad) ==> g == f
    ensures g.clienteId == f.clienteId && g.montoPagado == f.montoPagado
    ensures |g.productos| == |f.productos|
    ensures forall i :: 0 <= i < |f.productos| ==>
      && g.productos[i].id == f.productos[i].id
      && g.productos[i].precio == f.productos[i].precio
      && g.productos[i].isv == f.productos[i].isv
      && (g.productos[i].cantidad == f.productos[i].cantidad || (g.productos[i].id == id && g.productos[i].cantidad == cantidad))
    ensures CantidadAceptada(catalogo, original, id, cantidad) ==>
      forall i :: 0 <= i < |f.productos| && f.productos[i].id == id ==> g.productos[i].cantidad == cantidad
    ensures IdsUnicos(f.productos) ==> IdsUnicos(g.productos)
    ensures DentroDelStock(catalogo, original, f) ==> DentroDelStock(catalogo, original, g)
  {
    if !CantidadAceptada(catalogo, original, id, cantidad) then f
    else f.(productos := seq(|f.productos|, i requires 0 <= i < |f.productos| => ConCantidad(f.productos[i], id, cantidad)))
  }

  /** `eliminarProducto`: the lines of that product go; the others stay, in their order, still unique and within stock; with no such line the form is unchanged. */
  function EliminarProducto(catalogo: seq<ProductoCatalogo>, original: seq<ProductoDelPedido>, f: Formulario, id: ProductId)
    : (g: Formulario)
    ensures g.clienteId == f.clienteId && g.montoPagado == f.montoPagado
    ensures forall l :: l in g.productos ==> l in f.productos && l.id != id
    ensures forall l :: l in f.productos && l.id != id ==> l in g.productos
    ensures g.productos == Filter(f.productos, LineaSinId(id))
    ensures (forall l :: l in f.productos ==> l.id != id) ==> g == f
    ensures IdsUnicos(f.productos) ==> IdsUnicos(g.productos)
    ensures DentroDelStock(catalogo, original, f) ==> DentroDelStock(catalogo, original, g)
  {
    FilterDistinctBy(f.productos, IdDeLinea, LineaSinId(id));
    if forall l :: l in f.productos ==> l.id != id then
      FilterKeepsAll(f.productos, LineaSinId(id));
      f.(productos := Filter(f.productos, LineaSinId(id)))
    else
      f.(productos := Filter(f.productos, LineaSinId(id)))
  }

  /** `stockVisual`: the stock shown for a line, what remains available after it. */
  function StockVisual(catalogo: seq<ProductoCatalogo>, original: seq<ProductoDelPedido>, l: Linea): Option<int>
  {
    match StockDisponible(catalogo, original, l.id)
    case None => None
    case Some(disponible) => Some(disponible - l.cantidad)
  }

  /** A form whose lines are within stock never shows a negative stock. */
  lemma StockVisualNoNegativo(catalogo: seq<ProductoCatalogo>, original: seq<ProductoDelPedido>, f: Formulario)
    requires DentroDelStock(catalogo, original, f)
    ensures forall l :: l in f.productos ==>
      StockVisual(catalogo, original, l).Some? && StockVisual(catalogo, original, l).value >= 0
  {
  }

  // ---------------------------------------------------------------------------
  // Totals shown on the page
  // ---------------------------------------------------------------------------

  function IsvUnitario(l: Linea): real
  {
    l.precio * (l.isv / 100.0)
  }

  /** `calcularTotal`: the sum over the lines of (price + unit tax) * quantity. */
  function CalcularTotal(ls: seq<Linea>): real
  {
    if ls == [] then 0.0
    else (ls[0].precio + IsvUnitario(ls[0])) * ls[0].cantidad as real + CalcularTotal(ls[1..])
  }

  /** `calcularISVTotal`: the sum over the lines of unit tax * quantity. */
  function CalcularIsvTotal(ls: seq<Linea>): real
  {
    if ls == [] then 0.0 else IsvUnitario(ls[0]) * ls[0].cantidad as real + CalcularIsvTotal(ls[1..])
  }

  /**
   * The total the page shows is the total `update` will store plus the tax
   * the page shows: the server never adds the tax.
   */
  lemma {:induction false} TotalMostrado(ls: seq<Linea>)
    ensures CalcularTotal(ls) == PC.Total(Items(ls)) + CalcularIsvTotal(ls)
  {
    if ls != [] {
      assert Items(ls)[1..] == Items(ls[1..]);
      TotalMostrado(ls[1..]);
      var l := ls[0];
      assert (l.precio + IsvUnitario(l)) * l.cantidad as real
          == l.cantidad as real * l.precio + IsvUnitario(l) * l.cantidad as real;
    }
  }

  /** Lines without a tax rate show no tax, and the page's total is then the server's. */
  lemma {:induction false} SinIsv(ls: seq<Linea>)
    requires forall i :: 0 <= i < |ls| ==> ls[i].isv == 0.0
    ensures CalcularIsvTotal(ls) == 0.0
    ensures CalcularTotal(ls) == PC.Total(Items(ls))
  {
    if ls != [] {
      SinIsv(ls[1..]);
      TotalMostrado(ls);
    }
  }

  /** A form freshly loaded from an order shows no tax, since the loaded rows carry no rate. */
  lemma InicialSinIsv(clienteId: ClienteId, rows: seq<LineaPedido>, montoPagado: real)
    ensures CalcularIsvTotal(FormularioInicial(clienteId, DelPedido(rows), montoPagado).productos) == 0.0
  {
    SinIsv(FormularioInicial(clienteId, DelPedido(rows), montoPagado).productos);
  }

  // ---------------------------------------------------------------------------
  // The form's stock bound and `update`
  // ---------------------------------------------------------------------------

  /** The page's catalog shows the stock the server holds. */
  predicate CatalogoAlDia(catalogo: seq<ProductoCatalogo>, stock: map<ProductId, int>)
  {
    forall i :: 0 <= i < |catalogo| ==> catalogo[i].id in stock && catalogo[i].stock == stock[catalogo[i].id]
  }

  /**
   * The page bounds each line by stock plus what the order already holds,
   * which presumes an update that gives the order's rows back before
   * taking the rows it writes. Under that reconciled update every form the
   * page lets through fits in stock; `update` as written does not reconcile.
   */
  lemma FormularioCabeEnStock(catalogo: seq<ProductoCatalogo>, stock: map<ProductId, int>,
                              rows: seq<LineaPedido>, f: Formulario)
    requires CatalogoAlDia(catalogo, stock)
    requires forall p :: p in stock ==> stock[p] >= 0
    requires PC.FilasDistintas(rows) && PC.ProductosFilasEn(rows, stock)
    requires forall i :: 0 <= i < |rows| ==> rows[i].cantidad >= 0
    requires IdsUnicos(f.productos) && DentroDelStock(catalogo, DelPedido(rows), f)
    requires forall i :: 0 <= i < |f.productos| ==> f.productos[i].cantidad >= 0
    ensures PC.ProductosEn(Items(f.productos), stock)
    ensures PC.ProductosFilasEn(PC.Sincronizar(rows, PC.DatosSync(Items(f.productos))), stock)
    ensures PC.StockReconciliado(stock, rows, PC.Sincronizar(rows, PC.DatosSync(Items(f.productos)))).Ok?
  {
    var items := Items(f.productos);
    var original := DelPedido(rows);
    assert PC.IdsDistintos(items);
    forall i | 0 <= i < |items| ensures items[i].id in stock {
      assert f.productos[i] in f.productos;
      assert LineaDentroDelStock(catalogo, original, f.productos[i]);
      var c := Find(catalogo, CatalogoConId(items[i].id)).value;
      var k :| 0 <= k < |catalogo| && catalogo[k] == c;
    }
    forall p | p in stock
      ensures PC.Unidades(items, p) <= stock[p] + PC.UnidadesFilas(rows, p)
    {
      PC.UnidadesDistintas(items, p);
      PC.UnidadesFilasDistintas(rows, p);
      PC.UnidadesFilasNoNegativas(rows);
      if i :| 0 <= i < |items| && items[i].id == p {
        assert f.productos[i] in f.productos;
        assert LineaDentroDelStock(catalogo, original, f.productos[i]);
        var c := Find(catalogo, CatalogoConId(p)).value;
        var k :| 0 <= k < |catalogo| && catalogo[k] == c;
        assert c.stock == stock[p];
        if j :| 0 <= j < |rows| && rows[j].productoId == p {
          assert original[j].id == p;
          var o := Find(original, OriginalConId(p)).value;
          var m :| 0 <= m < |original| && original[m] == o;
          assert original[m].id == rows[m].productoId;
          assert m == j;
          assert CantidadOriginal(original, p) == rows[j].cantidad;
        } else {
          assert forall o :: o in original ==> o.id != p;
          assert CantidadOriginal(original, p) == 0;
        }
        assert items[i].cantidad <= stock[p] + CantidadOriginal(original, p);
      }
    }
    PC.SincronizadoCabe(stock, rows, items);
  }
}
