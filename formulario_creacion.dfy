/**
 * The new-order page: an empty form, the handlers that add, re-quantify
 * and remove lines, the total it shows, and how what it submits meets
 * `store`.
 *
 * The form state is a value: each handler returns the state React would
 * hold after `setData`.
 */
module FormularioCreacion {
  import opened Listas
  import opened Esquema
  import PC = PedidoController

  /** A catalog product as the page reads it. */
  datatype Producto = Producto(id: ProductId, precio: real, stock: int)

  /** One line of the form. */
  datatype Linea = Linea(id: ProductId, cantidad: int, precio: real)

  /** The form; no customer is chosen until the user picks one. */
  datatype Formulario = Formulario(clienteId: Option<ClienteId>, productos: seq<Linea>, montoPagado: real)

  /** The form as the page opens: no customer, no lines, nothing paid. */
  const FormularioInicial: Formulario := Formulario(None, [], 0.0)

  const IdDeLinea: Linea -> ProductId := (l: Linea) => l.id

  /** No product is listed twice. */
  predicate IdsUnicos(ls: seq<Linea>)
  {
    DistinctBy(ls, IdDeLinea)
  }

  function ProductoConId(id: ProductId): Producto -> bool
  {
    (p: Producto) => p.id == id
  }

  function LineaConId(id: ProductId): Linea -> bool
  {
    (l: Linea) => l.id == id
  }

  function LineaSinId(id: ProductId): Linea -> bool
  {
    (l: Linea) => l.id != id
  }

  /** A line asks for a catalog product and no more than its stock. */
  predicate LineaDentroDelStock(catalogo: seq<Producto>, l: Linea)
  {
    Find(catalogo, ProductoConId(l.id)).Some? && l.cantidad <= Find(catalogo, ProductoConId(l.id)).value.stock
  }

  predicate DentroDelStock(catalogo: seq<Producto>, f: Formulario)
  {
    forall l :: l in f.productos ==> LineaDentroDelStock(catalogo, l)
  }

  /**
   * `agregarProducto`: a catalog product with stock that the form does not
   * list yet is appended with quantity 1 and the catalog's price; anything
   * else leaves the form as it was.
   */
  function AgregarProducto(catalogo: seq<Producto>, f: Formulario, prodId: ProductId): (g: Formulario)
    ensures g.clienteId == f.clienteId && g.montoPagado == f.montoPagado
    ensures g != f <==>
      && Find(catalogo, ProductoConId(prodId)).Some?
      && Find(catalogo, ProductoConId(prodId)).value.stock > 0
      && (forall l :: l in f.productos ==> l.id != prodId)
    ensures g != f ==>
      g.productos == f.productos + [Linea(prodId, 1, Find(catalogo, ProductoConId(prodId)).value.precio)]
    ensures IdsUnicos(f.productos) ==> IdsUnicos(g.productos)
    ensures DentroDelStock(catalogo, f) ==> DentroDelStock(catalogo, g)
  {
    match Find(catalogo, ProductoConId(prodId))
    case None => f
    case Some(producto) =>
      if producto.stock <= 0 then f
      else if Find(f.productos, LineaConId(prodId)).Some? then f
      else
        var g := f.(productos := f.productos + [Linea(producto.id, 1, producto.precio)]);
        assert |g.productos| != |f.productos|;
        g
  }

  function ConCantidad(l: Linea, id: ProductId, cantidad: int): Linea
  {
    if l.id == id then l.(cantidad := cantidad) else l
  }

  /**
   * `actualizarCantidad`: a quantity above the product's stock, or for a
   * product outside the catalog, is ignored; any other quantity, zero and
   * negatives included, replaces the quantity of that product's lines.
   */
  function ActualizarCantidad(catalogo: seq<Producto>, f: Formulario, id: ProductId, cantidad: int): (g: Formulario)
    ensures g.clienteId == f.clienteId && g.montoPagado == f.montoPagado
    ensures |g.productos| == |f.productos|
    ensures (Find(catalogo, ProductoConId(id)).None? || cantidad > Find(catalogo, ProductoConId(id)).value.stock) ==> g == f
    ensures forall i :: 0 <= i < |f.productos| ==>
      && g.productos[i].id == f.productos[i].id
      && g.productos[i].precio == f.productos[i].precio
      && (g.productos[i].cantidad == f.productos[i].cantidad || (g.productos[i].id == id && g.productos[i].cantidad == cantidad))
    ensures Find(catalogo, ProductoConId(id)).Some? && cantidad <= Find(catalogo, ProductoConId(id)).value.stock ==>
      forall i :: 0 <= i < |f.productos| && f.productos[i].id == id ==> g.productos[i].cantidad == cantidad
    ensures IdsUnicos(f.productos) ==> IdsUnicos(g.productos)
    ensures DentroDelStock(catalogo, f) ==> DentroDelStock(catalogo, g)
  {
    match Find(catalogo, ProductoConId(id))
    case None => f
    case Some(prod) =>
      if cantidad > prod.stock then f
      else f.(productos := seq(|f.productos|, i requires 0 <= i < |f.productos| => ConCantidad(f.productos[i], id, cantidad)))
  }

  /**
   * Unlike the edit page, nothing stops a quantity below 1: the page
   * accepts 0 for a listed product, and `store` then rejects the request.
   */
  lemma CantidadCeroAceptada()
    ensures
      var catalogo := [Producto(3, 50.0, 4)];
      var f := Formulario(Some(1), [Linea(3, 1, 50.0)], 0.0);
      var g := ActualizarCantidad(catalogo, f, 3, 0);
      && g.productos == [Linea(3, 0, 50.0)]
      && !PC.SolicitudValida(PC.Solicitud(1, Items(g.productos), 0.0), {1}, map[3 := 4])
  {
    var catalogo := [Producto(3, 50.0, 4)];
    assert Find(catalogo, ProductoConId(3)) == Some(Producto(3, 50.0, 4));
    var f := Formulario(Some(1), [Linea(3, 1, 50.0)], 0.0);
    var g := ActualizarCantidad(catalogo, f, 3, 0);
    assert g.productos[0] == Linea(3, 0, 50.0);
    assert Items(g.productos)[0].cantidad == 0;
  }

  /** `eliminarProducto`: the lines of that product go; the others stay, in their order, still unique and within stock; with no such line the form is unchanged. */
  function EliminarProducto(catalogo: seq<Producto>, f: Formulario, id: ProductId): (g: Formulario)
    ensures g.clienteId == f.clienteId && g.montoPagado == f.montoPagado
    ensures forall l :: l in g.productos ==> l in f.productos && l.id != id
    ensures forall l :: l in f.productos && l.id != id ==> l in g.productos
    ensures g.productos == Filter(f.productos, LineaSinId(id))
    ensures (forall l :: l in f.productos ==> l.id != id) ==> g == f
    ensures IdsUnicos(f.productos) ==> IdsUnicos(g.productos)
    ensures DentroDelStock(catalogo, f) ==> DentroDelStock(catalogo, g)
  {
    FilterDistinctBy(f.productos, IdDeLinea, LineaSinId(id));
    if forall l :: l in f.productos ==> l.id != id then
      FilterKeepsAll(f.productos, LineaSinId(id));
      f.(productos := Filter(f.productos, LineaSinId(id)))
    else
      f.(productos := Filter(f.productos, LineaSinId(id)))
  }

  // ---------------------------------------------------------------------------
  // What the form submits and shows
  // ---------------------------------------------------------------------------

  function Items(ls: seq<Linea>): seq<PC.Item>
  {
    seq(|ls|, i requires 0 <= i < |ls| => PC.Item(ls[i].id, ls[i].cantidad, ls[i].precio))
  }

  /** `calcularTotal`: the sum over the lines of price * quantity. */
  function CalcularTotal(ls: seq<Linea>): real
  {
    if ls == [] then 0.0 else ls[0].precio * ls[0].cantidad as real + CalcularTotal(ls[1..])
  }

  /** The total the new-order page shows is the total `store` will record. */
  lemma {:induction false} TotalMostrado(ls: seq<Linea>)
    ensures CalcularTotal(ls) == PC.Total(Items(ls))
  {
    if ls != [] {
      assert Items(ls)[1..] == Items(ls[1..]);
      TotalMostrado(ls[1..]);
    }
  }

  /** The page's catalog shows the stock the server holds. */
  predicate CatalogoAlDia(catalogo: seq<Producto>, stock: map<ProductId, int>)
  {
    forall i :: 0 <= i < |catalogo| ==> catalogo[i].id in stock && catalogo[i].stock == stock[catalogo[i].id]
  }

  /**
   * A form the page built, against a catalog that still shows the server's
   * stock, gets past every stock check of `store`.
   */
  lemma FormularioCabeEnStock(catalogo: seq<Producto>, stock: map<ProductId, int>, f: Formulario)
    requires CatalogoAlDia(catalogo, stock)
    requires forall p :: p in stock ==> stock[p] >= 0
    requires IdsUnicos(f.productos) && DentroDelStock(catalogo, f)
    requires forall i :: 0 <= i < |f.productos| ==> f.productos[i].cantidad >= 0
    ensures PC.ProductosEn(Items(f.productos), stock)
    ensures PC.Reservar(stock, Items(f.productos)).Ok?
  {
    var items := Items(f.productos);
    assert PC.IdsDistintos(items);
    forall i | 0 <= i < |items| ensures items[i].id in stock && items[i].cantidad <= stock[items[i].id] {
      assert f.productos[i] in f.productos;
      assert LineaDentroDelStock(catalogo, f.productos[i]);
      var c := Find(catalogo, ProductoConId(items[i].id)).value;
      var k :| 0 <= k < |catalogo| && catalogo[k] == c;
    }
    forall p | p in stock ensures PC.Unidades(items, p) <= stock[p] {
      PC.UnidadesDistintas(items, p);
    }
    PC.ReservarExito(stock, items);
  }
}
