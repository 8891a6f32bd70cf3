/**
 * The order controller: `store`, `update`, `destroy` and `marcarComoPagado`
 * over the order, line, payment and product-stock tables.
 *
 * The first half states each operation as a function from the tables before
 * the request to the response and the tables after it (`Almacenar`,
 * `Actualizar`, `Eliminar`, `MarcarPagado`), built from the pieces the
 * controller shares: the order total, the three-way status rule, the
 * line-by-line stock reservation, and the `sync` of an order's lines. The
 * second half is the controller itself, a class over those tables whose
 * methods run the source's loops and are proved to compute those functions.
 */
module PedidoController {
  import opened Listas
  import opened Esquema

  /** One entry of the submitted `productos` array. */
  datatype Item = Item(id: ProductId, cantidad: int, precio: real)

  /** The validated fields of a create or update request. */
  datatype Solicitud = Solicitud(clienteId: ClienteId, productos: seq<Item>, montoPagado: real)

  /** Why a request was answered without committing anything. */
  datatype Error = Validacion | StockInsuficiente(productoId: ProductId) | NoEncontrado

  datatype Result<+T> = Ok(value: T) | Err(error: Error)

  // ---------------------------------------------------------------------------
  // Validation rules
  // ---------------------------------------------------------------------------

  /** `productos.*.id` exists, `cantidad` is an integer >= 1, `precio` is >= 0. */
  predicate ItemValido(it: Item, stock: map<ProductId, int>)
  {
    it.id in stock && it.cantidad >= 1 && it.precio >= 0.0
  }

  /** The `validate` rules shared by `store` and `update`; a product exists when it has a stock entry. */
  predicate SolicitudValida(req: Solicitud, clientes: set<ClienteId>, stock: map<ProductId, int>)
  {
    && req.clienteId in clientes
    && |req.productos| >= 1
    && (forall i :: 0 <= i < |req.productos| ==> ItemValido(req.productos[i], stock))
    && req.montoPagado >= 0.0
  }

  // ---------------------------------------------------------------------------
  // Order total and status
  // ---------------------------------------------------------------------------

  function Subtotal(it: Item): real
  {
    it.cantidad as real * it.precio
  }

  /** The order total: the sum over the submitted lines of cantidad * precio, with no tax. */
  function Total(items: seq<Item>): real
  {
    if items == [] then 0.0 else Subtotal(items[0]) + Total(items[1..])
  }

  lemma {:induction false} TotalConcat(a: seq<Item>, b: seq<Item>)
    ensures Total(a + b) == Total(a) + Total(b)
  {
    if a == [] {
      assert a + b == b;
    } else {
      assert (a + b)[1..] == a[1..] + b;
      TotalConcat(a[1..], b);
    }
  }

  /** Lines that pass validation never give a negative total. */
  lemma {:induction false} TotalNoNegativo(items: seq<Item>)
    requires forall i :: 0 <= i < |items| ==> items[i].cantidad >= 1 && items[i].precio >= 0.0
    ensures Total(items) >= 0.0
  {
    if items != [] {
      assert items[0].cantidad as real * items[0].precio >= 0.0;
      TotalNoNegativo(items[1..]);
    }
  }

  /**
   * The status rule: `pagado` once the amount paid covers the total, `espera`
   * for a partial payment, `pendiente` when nothing is paid. `cancelado` is
   * never produced.
   */
  function EstadoDe(montoPagado: real, total: real): (e: Estado)
    ensures e == Pagado <==> montoPagado >= total
    ensures e == Espera <==> 0.0 < montoPagado < total
    ensures e == Pendiente <==> montoPagado <= 0.0 && montoPagado < total
  {
    if montoPagado >= total then Pagado
    else if montoPagado > 0.0 then Espera
    else Pendiente
  }

  /** Paying more never moves an order back from `pagado`, nor forward into `pendiente`. */
  lemma EstadoMonotono(m1: real, m2: real, total: real)
    requires m1 <= m2
    ensures EstadoDe(m1, total) == Pagado ==> EstadoDe(m2, total) == Pagado
    ensures EstadoDe(m2, total) == Pendiente ==> EstadoDe(m1, total) == Pendiente
  {
  }

  // ---------------------------------------------------------------------------
  // Stock reservation (`store`) and release (`destroy`)
  // ---------------------------------------------------------------------------

  predicate ProductosEn(items: seq<Item>, stock: map<ProductId, int>)
  {
    forall i :: 0 <= i < |items| ==> items[i].id in stock
  }

  /** Units of product `p` the lines ask for. */
  function Unidades(items: seq<Item>, p: ProductId): int
  {
    if items == [] then 0
    else (if items[0].id == p then items[0].cantidad else 0) + Unidades(items[1..], p)
  }

  lemma {:induction false} UnidadesNoNegativas(items: seq<Item>, p: ProductId)
    requires forall i :: 0 <= i < |items| ==> items[i].cantidad >= 0
    ensures Unidades(items, p) >= 0
  {
    if items != [] {
      UnidadesNoNegativas(items[1..], p);
    }
  }

  /**
   * The stock loop of `store`: each line is checked against the stock left
   * by the lines before it, and either the whole list is reserved or the
   * first line that does not fit names its product.
   */
  function Reservar(stock: map<ProductId, int>, items: seq<Item>): Result<map<ProductId, int>>
    requires ProductosEn(items, stock)
    decreases |items|
  {
    if items == [] then Ok(stock)
    else
      var it := items[0];
      if it.cantidad > stock[it.id] then Err(StockInsuficiente(it.id))
      else Reservar(stock[it.id := stock[it.id] - it.cantidad], items[1..])
  }

  /**
   * A successful reservation takes from each product exactly the units its
   * lines ask for, leaves every other product alone, and never leaves a
   * stock below zero.
   */
  lemma {:induction false} ReservarEfecto(stock: map<ProductId, int>, items: seq<Item>)
    requires ProductosEn(items, stock)
    ensures Reservar(stock, items).Ok? ==>
      && Reservar(stock, items).value.Keys == stock.Keys
      && (forall p :: p in stock ==> Reservar(stock, items).value[p] == stock[p] - Unidades(items, p))
    ensures Reservar(stock, items).Ok? && (forall p :: p in stock ==> stock[p] >= 0) ==>
      forall p :: p in stock ==> Reservar(stock, items).value[p] >= 0
    decreases |items|
  {
    if items != [] {
      var it := items[0];
      if it.cantidad <= stock[it.id] {
        var s1 := stock[it.id := stock[it.id] - it.cantidad];
        assert ProductosEn(items[1..], s1);
        ReservarEfecto(s1, items[1..]);
      }
    }
  }

  /** A failed reservation names a product whose lines ask for more than its stock. */
  lemma {:induction false} ReservarFalla(stock: map<ProductId, int>, items: seq<Item>)
    requires ProductosEn(items, stock)
    requires forall i :: 0 <= i < |items| ==> items[i].cantidad >= 0
    ensures Reservar(stock, items).Err? ==>
      && Reservar(stock, items).error.StockInsuficiente?
      && Reservar(stock, items).error.productoId in stock
      && Unidades(items, Reservar(stock, items).error.productoId) > stock[Reservar(stock, items).error.productoId]
    decreases |items|
  {
    if items != [] {
      var it := items[0];
      if it.cantidad > stock[it.id] {
        UnidadesNoNegativas(items[1..], it.id);
      } else {
        var s1 := stock[it.id := stock[it.id] - it.cantidad];
        assert ProductosEn(items[1..], s1);
        ReservarFalla(s1, items[1..]);
      }
    }
  }

  /**
   * Whether `store` gets past its stock checks does not depend on the order
   * of the lines: it succeeds exactly when no product is asked for more
   * units in total than it has.
   */
  lemma ReservarExito(stock: map<ProductId, int>, items: seq<Item>)
    requires ProductosEn(items, stock)
    requires forall i :: 0 <= i < |items| ==> items[i].cantidad >= 0
    requires forall p :: p in stock ==> stock[p] >= 0
    ensures Reservar(stock, items).Ok? <==> forall p :: p in stock ==> Unidades(items, p) <= stock[p]
  {
    ReservarEfecto(stock, items);
    ReservarFalla(stock, items);
  }

  /** The pivot row `store` attaches for one line. */
  function Fila(it: Item): LineaPedido
  {
    LineaPedido(it.id, it.cantidad, it.precio, Subtotal(it))
  }

  /** The pivot rows `store` attaches, one per submitted line, in order. */
  function Filas(items: seq<Item>): seq<LineaPedido>
  {
    seq(|items|, i requires 0 <= i < |items| => Fila(items[i]))
  }

  /** Sum of the `total` column over some pivot rows. */
  function SumaFilas(rows: seq<LineaPedido>): real
  {
    if rows == [] then 0.0 else rows[0].total + SumaFilas(rows[1..])
  }

  /** Units of product `p` held by some pivot rows. */
  function UnidadesFilas(rows: seq<LineaPedido>, p: ProductId): int
  {
    if rows == [] then 0
    else (if rows[0].productoId == p then rows[0].cantidad else 0) + UnidadesFilas(rows[1..], p)
  }

  /** The rows `store` writes add up to the total it writes on the order. */
  lemma {:induction false} FilasSuman(items: seq<Item>)
    ensures |Filas(items)| == |items|
    ensures SumaFilas(Filas(items)) == Total(items)
  {
    if items != [] {
      assert Filas(items)[1..] == Filas(items[1..]);
      FilasSuman(items[1..]);
    }
  }

  /** The rows `store` writes hold, per product, the units the lines asked for. */
  lemma {:induction false} FilasUnidades(items: seq<Item>, p: ProductId)
    ensures UnidadesFilas(Filas(items), p) == Unidades(items, p)
  {
    if items != [] {
      assert Filas(items)[1..] == Filas(items[1..]);
      FilasUnidades(items[1..], p);
    }
  }

  predicate ProductosFilasEn(rows: seq<LineaPedido>, stock: map<ProductId, int>)
  {
    forall i :: 0 <= i < |rows| ==> rows[i].productoId in stock
  }

  /** The stock loop of `destroy`: every row gives its units back to its product. */
  function Liberar(stock: map<ProductId, int>, rows: seq<LineaPedido>): map<ProductId, int>
    requires ProductosFilasEn(rows, stock)
    decreases |rows|
  {
    if rows == [] then stock
    else
      var r := rows[0];
      Liberar(stock[r.productoId := stock[r.productoId] + r.cantidad], rows[1..])
  }

  /** Giving rows back raises each product's stock by exactly the units its rows hold. */
  lemma {:induction false} LiberarEfecto(stock: map<ProductId, int>, rows: seq<LineaPedido>)
    requires ProductosFilasEn(rows, stock)
    ensures Liberar(stock, rows).Keys == stock.Keys
    ensures forall p :: p in stock ==> Liberar(stock, rows)[p] == stock[p] + UnidadesFilas(rows, p)
    decreases |rows|
  {
    if rows != [] {
      var r := rows[0];
      var s1 := stock[r.productoId := stock[r.productoId] + r.cantidad];
      assert ProductosFilasEn(rows[1..], s1);
      LiberarEfecto(s1, rows[1..]);
    }
  }

  /** Giving back the rows of a successful reservation restores every stock. */
  lemma ReservarLiberar(stock: map<ProductId, int>, items: seq<Item>)
    requires ProductosEn(items, stock)
    ensures Reservar(stock, items).Ok? ==>
      ProductosFilasEn(Filas(items), Reservar(stock, items).value) &&
      Liberar(Reservar(stock, items).value, Filas(items)) == stock
  {
    ReservarEfecto(stock, items);
    if Reservar(stock, items).Ok? {
      var s := Reservar(stock, items).value;
      assert ProductosFilasEn(Filas(items), s);
      LiberarEfecto(s, Filas(items));
      forall p | p in stock
        ensures Liberar(s, Filas(items))[p] == stock[p]
      {
        FilasUnidades(items, p);
      }
    }
  }

  // ---------------------------------------------------------------------------
  // `update`: the `$syncData` array and `sync`
  // ---------------------------------------------------------------------------

  /** The pivot attributes `update` writes for one product. */
  datatype Atributos = Atributos(cantidad: int, precio: real, total: real)

  /** A PHP array keyed by product id: its keys in insertion order and its value per key. */
  datatype ArregloSync = ArregloSync(claves: seq<ProductId>, valores: map<ProductId, Atributos>)

  predicate BienFormado(d: ArregloSync)
  {
    && (forall i, j :: 0 <= i < j < |d.claves| ==> d.claves[i] != d.claves[j])
    && (forall k :: k in d.valores ==> k in d.claves)
    && (forall k :: k in d.claves ==> k in d.valores)
  }

  /** `$syncData[$k] = $v`: an existing key keeps its place and takes the new value; a new key goes last. */
  function Poner(d: ArregloSync, k: ProductId, v: Atributos): ArregloSync
  {
    if k in d.valores then d.(valores := d.valores[k := v])
    else ArregloSync(d.claves + [k], d.valores[k := v])
  }

  function AtributosDe(it: Item): Atributos
  {
    Atributos(it.cantidad, it.precio, Subtotal(it))
  }

  /** The `$syncData` that the loop of `update` builds from the submitted lines, one line at a time. */
  function DatosSync(items: seq<Item>): ArregloSync
    decreases |items|
  {
    if items == [] then ArregloSync([], map[])
    else
      var n := |items| - 1;
      Poner(DatosSync(items[..n]), items[n].id, AtributosDe(items[n]))
  }

  /** Line `j` is the last submitted line for its product. */
  predicate UltimaAparicion(items: seq<Item>, j: int)
    requires 0 <= j < |items|
  {
    forall j2 :: j < j2 < |items| ==> items[j2].id != items[j].id
  }

  function IdsSolicitados(items: seq<Item>): set<ProductId>
  {
    set i | 0 <= i < |items| :: items[i].id
  }

  /** Assigning into a well-formed array keeps it well formed and sets exactly that key. */
  lemma PonerEfecto(d: ArregloSync, k: ProductId, v: Atributos)
    requires BienFormado(d)
    ensures BienFormado(Poner(d, k, v))
    ensures Poner(d, k, v).valores == d.valores[k := v]
  {
  }

  /** `$syncData` has one key per submitted product. */
  lemma {:induction false} DatosSyncClaves(items: seq<Item>)
    ensures BienFormado(DatosSync(items))
    ensures DatosSync(items).valores.Keys == IdsSolicitados(items)
    decreases |items|
  {
    if items != [] {
      var n := |items| - 1;
      DatosSyncClaves(items[..n]);
      PonerEfecto(DatosSync(items[..n]), items[n].id, AtributosDe(items[n]));
      IdsSolicitadosUltimo(items);
    }
  }

  /** For a product named on several lines, `$syncData` holds the attributes of the last one. */
  lemma {:induction false} DatosSyncUltimaGana(items: seq<Item>, j: int)
    requires 0 <= j < |items| && UltimaAparicion(items, j)
    ensures items[j].id in DatosSync(items).valores
    ensures DatosSync(items).valores[items[j].id] == AtributosDe(items[j])
    decreases |items|
  {
    var n := |items| - 1;
    var pre := items[..n];
    DatosSyncClaves(pre);
    PonerEfecto(DatosSync(pre), items[n].id, AtributosDe(items[n]));
    if j < n {
      assert pre[j] == items[j];
      assert UltimaAparicion(pre, j);
      DatosSyncUltimaGana(pre, j);
    }
  }

  /**
   * `$syncData` has one key per submitted product, and for a product named
   * twice the later line wins.
   */
  lemma DatosSyncCorrecto(items: seq<Item>)
    ensures BienFormado(DatosSync(items))
    ensures DatosSync(items).valores.Keys == IdsSolicitados(items)
    ensures forall j :: 0 <= j < |items| && UltimaAparicion(items, j) ==>
      DatosSync(items).valores[items[j].id] == AtributosDe(items[j])
  {
    DatosSyncClaves(items);
    forall j | 0 <= j < |items| && UltimaAparicion(items, j)
      ensures DatosSync(items).valores[items[j].id] == AtributosDe(items[j])
    {
      DatosSyncUltimaGana(items, j);
    }
  }

  lemma IdsSolicitadosUltimo(items: seq<Item>)
    requires items != []
    ensures IdsSolicitados(items) == IdsSolicitados(items[..|items| - 1]) + {items[|items| - 1].id}
  {
    var n := |items| - 1;
    var pre := items[..n];
    forall k | k in IdsSolicitados(items) ensures k in IdsSolicitados(pre) + {items[n].id} {
      var i :| 0 <= i < |items| && items[i].id == k;
      if i < n { assert pre[i] == items[i]; }
    }
    forall k | k in IdsSolicitados(pre) ensures k in IdsSolicitados(items) {
      var i :| 0 <= i < |pre| && pre[i].id == k;
      assert items[i] == pre[i];
    }
  }

  function ConAtributos(k: ProductId, a: Atributos): LineaPedido
  {
    LineaPedido(k, a.cantidad, a.precio, a.total)
  }

  function IdsDe(rows: seq<LineaPedido>): set<ProductId>
  {
    if rows == [] then {} else {rows[0].productoId} + IdsDe(rows[1..])
  }

  lemma {:induction false} IdsDeConcat(a: seq<LineaPedido>, b: seq<LineaPedido>)
    ensures IdsDe(a + b) == IdsDe(a) + IdsDe(b)
  {
    if a == [] {
      assert a + b == b;
    } else {
      assert (a + b)[1..] == a[1..] + b;
      IdsDeConcat(a[1..], b);
    }
  }

  /** The rows of an order that `sync` keeps: those whose product is submitted again, with the new attributes. */
  function Conservar(actual: seq<LineaPedido>, valores: map<ProductId, Atributos>): seq<LineaPedido>
  {
    if actual == [] then []
    else
      var k := actual[0].productoId;
      (if k in valores then [ConAtributos(k, valores[k])] else []) + Conservar(actual[1..], valores)
  }

  /** The rows `sync` attaches: submitted products the order did not hold, in key order. */
  function Adjuntar(claves: seq<ProductId>, valores: map<ProductId, Atributos>, existentes: set<ProductId>)
    : seq<LineaPedido>
  {
    if claves == [] then []
    else
      var k := claves[0];
      (if k !in existentes && k in valores then [ConAtributos(k, valores[k])] else [])
        + Adjuntar(claves[1..], valores, existentes)
  }

  /** `$pedido->productos()->sync($syncData)`: detach, update in place, attach. */
  function Sincronizar(actual: seq<LineaPedido>, d: ArregloSync): seq<LineaPedido>
  {
    Conservar(actual, d.valores) + Adjuntar(d.claves, d.valores, IdsDe(actual))
  }

  /** Every row of a synchronised line set carries the attributes of its key. */
  predicate FilasSegun(rows: seq<LineaPedido>, valores: map<ProductId, Atributos>)
  {
    forall r :: r in rows ==> r.productoId in valores && r == ConAtributos(r.productoId, valores[r.productoId])
  }

  lemma {:induction false} ConservarEfecto(actual: seq<LineaPedido>, valores: map<ProductId, Atributos>)
    ensures IdsDe(Conservar(actual, valores)) == IdsDe(actual) * valores.Keys
    ensures FilasSegun(Conservar(actual, valores), valores)
  {
    if actual != [] {
      ConservarEfecto(actual[1..], valores);
      var k := actual[0].productoId;
      var cabeza := if k in valores then [ConAtributos(k, valores[k])] else [];
      IdsDeConcat(cabeza, Conservar(actual[1..], valores));
    }
  }

  lemma {:induction false} AdjuntarEfecto(claves: seq<ProductId>, valores: map<ProductId, Atributos>, existentes: set<ProductId>)
    ensures IdsDe(Adjuntar(claves, valores, existentes)) == (set k | k in claves) * valores.Keys - existentes
    ensures FilasSegun(Adjuntar(claves, valores, existentes), valores)
  {
    if claves != [] {
      AdjuntarEfecto(claves[1..], valores, existentes);
      var k := claves[0];
      var cabeza := if k !in existentes && k in valores then [ConAtributos(k, valores[k])] else [];
      IdsDeConcat(cabeza, Adjuntar(claves[1..], valores, existentes));
      assert (set x | x in claves) == {k} + (set x | x in claves[1..]);
    }
  }

  /**
   * After `sync` the order holds exactly the submitted products, each row
   * with the attributes `$syncData` gives its product.
   */
  lemma SincronizarEfecto(actual: seq<LineaPedido>, d: ArregloSync)
    requires BienFormado(d)
    ensures IdsDe(Sincronizar(actual, d)) == d.valores.Keys
    ensures FilasSegun(Sincronizar(actual, d), d.valores)
  {
    ConservarEfecto(actual, d.valores);
    AdjuntarEfecto(d.claves, d.valores, IdsDe(actual));
    IdsDeConcat(Conservar(actual, d.valores), Adjuntar(d.claves, d.valores, IdsDe(actual)));
    assert (set k | k in d.claves) == d.valores.Keys by {
      forall k | k in d.valores.Keys ensures k in (set x | x in d.claves) {
        assert k in d.claves;
      }
    }
  }

  /** Submitting an order's own rows again: each row becomes a line with its quantity and price. */
  function ItemsDeFilas(rows: seq<LineaPedido>): seq<Item>
  {
    seq(|rows|, i requires 0 <= i < |rows| => Item(rows[i].productoId, rows[i].cantidad, rows[i].precio))
  }

  predicate FilasDistintas(rows: seq<LineaPedido>)
  {
    forall i, j :: 0 <= i < j < |rows| ==> rows[i].productoId != rows[j].productoId
  }

  /** The `total` column of a row is its quantity times its price, as `store` and `update` write it. */
  predicate TotalesCoherentes(rows: seq<LineaPedido>)
  {
    forall i :: 0 <= i < |rows| ==> rows[i].total == rows[i].cantidad as real * rows[i].precio
  }

  lemma {:induction false} ConservarIdentidad(actual: seq<LineaPedido>, valores: map<ProductId, Atributos>)
    requires forall r :: r in actual ==> r.productoId in valores && ConAtributos(r.productoId, valores[r.productoId]) == r
    ensures Conservar(actual, valores) == actual
  {
    if actual != [] {
      assert actual[0] in actual;
      ConservarIdentidad(actual[1..], valores);
    }
  }

  lemma {:induction false} AdjuntarVacio(claves: seq<ProductId>, valores: map<ProductId, Atributos>, existentes: set<ProductId>)
    requires forall k :: k in claves ==> k in existentes
    ensures Adjuntar(claves, valores, existentes) == []
  {
    if claves != [] {
      assert claves[0] in claves;
      AdjuntarVacio(claves[1..], valores, existentes);
    }
  }

  lemma {:induction false} IdsDeFilas(rows: seq<LineaPedido>)
    ensures IdsDe(rows) == IdsSolicitados(ItemsDeFilas(rows))
  {
    if rows != [] {
      IdsDeFilas(rows[1..]);
      assert ItemsDeFilas(rows[1..]) == ItemsDeFilas(rows)[1..];
      var a := IdsSolicitados(ItemsDeFilas(rows));
      var b := IdsSolicitados(ItemsDeFilas(rows[1..]));
      forall k | k in a ensures k in {rows[0].productoId} + b {
        var i :| 0 <= i < |rows| && ItemsDeFilas(rows)[i].id == k;
        if i > 0 { assert ItemsDeFilas(rows[1..])[i - 1].id == k; }
      }
      forall k | k in b ensures k in a {
        var i :| 0 <= i < |rows| - 1 && ItemsDeFilas(rows[1..])[i].id == k;
        assert ItemsDeFilas(rows)[i + 1].id == k;
      }
      assert ItemsDeFilas(rows)[0].id == rows[0].productoId;
    }
  }

  /**
   * Submitting an order's rows back unchanged through `update`'s `sync`
   * leaves them exactly as they were, provided each product appears once
   * and each row's total is its quantity times its price.
   */
  lemma SincronizarIdentidad(rows: seq<LineaPedido>)
    requires FilasDistintas(rows) && TotalesCoherentes(rows)
    ensures Sincronizar(rows, DatosSync(ItemsDeFilas(rows))) == rows
  {
    var d := DatosSync(ItemsDeFilas(rows));
    ValoresDeFilas(rows);
    ClavesDeFilas(rows);
    ConservarIdentidad(rows, d.valores);
    AdjuntarVacio(d.claves, d.valores, IdsDe(rows));
  }

  /** The sync array built from an order's own rows gives each row back its own attributes. */
  lemma ValoresDeFilas(rows: seq<LineaPedido>)
    requires FilasDistintas(rows) && TotalesCoherentes(rows)
    ensures forall r :: r in rows ==>
      r.productoId in DatosSync(ItemsDeFilas(rows)).valores
      && ConAtributos(r.productoId, DatosSync(ItemsDeFilas(rows)).valores[r.productoId]) == r
  {
    var items := ItemsDeFilas(rows);
    var d := DatosSync(items);
    forall r | r in rows
      ensures r.productoId in d.valores && ConAtributos(r.productoId, d.valores[r.productoId]) == r
    {
      var j :| 0 <= j < |rows| && rows[j] == r;
      assert UltimaAparicion(items, j);
      DatosSyncUltimaGana(items, j);
    }
  }

  /** The sync array built from an order's own rows names only products the order already has. */
  lemma ClavesDeFilas(rows: seq<LineaPedido>)
    ensures forall k :: k in DatosSync(ItemsDeFilas(rows)).claves ==> k in IdsDe(rows)
  {
    DatosSyncClaves(ItemsDeFilas(rows));
    IdsDeFilas(rows);
  }

  lemma {:induction false} IdsDeMiembro(rows: seq<LineaPedido>, p: ProductId)
    ensures p in IdsDe(rows) <==> exists j :: 0 <= j < |rows| && rows[j].productoId == p
  {
    if rows != [] {
      IdsDeMiembro(rows[1..], p);
      if exists j :: 0 <= j < |rows| && rows[j].productoId == p {
        var j :| 0 <= j < |rows| && rows[j].productoId == p;
        if j > 0 { assert rows[1..][j - 1].productoId == p; }
      }
      if exists j :: 0 <= j < |rows[1..]| && rows[1..][j].productoId == p {
        var j :| 0 <= j < |rows[1..]| && rows[1..][j].productoId == p;
        assert rows[j + 1].productoId == p;
      }
    }
  }

  lemma {:induction false} UnidadesFilasConcat(a: seq<LineaPedido>, b: seq<LineaPedido>, p: ProductId)
    ensures UnidadesFilas(a + b, p) == UnidadesFilas(a, p) + UnidadesFilas(b, p)
  {
    if a == [] {
      assert a + b == b;
    } else {
      assert (a + b)[1..] == a[1..] + b;
      UnidadesFilasConcat(a[1..], b, p);
    }
  }

  /** With one row per product, the rows `sync` keeps hold of a product the units `$syncData` gives it, if it held the product. */
  lemma {:induction false} ConservarUnidades(actual: seq<LineaPedido>, valores: map<ProductId, Atributos>, p: ProductId)
    requires FilasDistintas(actual)
    ensures UnidadesFilas(Conservar(actual, valores), p)
         == if p in IdsDe(actual) && p in valores then valores[p].cantidad else 0
  {
    if actual != [] {
      var resto := actual[1..];
      assert FilasDistintas(resto) by {
        forall i, j | 0 <= i < j < |resto| ensures resto[i].productoId != resto[j].productoId {
          assert resto[i] == actual[i + 1] && resto[j] == actual[j + 1];
        }
      }
      ConservarUnidades(resto, valores, p);
      var k := actual[0].productoId;
      var cabeza := if k in valores then [ConAtributos(k, valores[k])] else [];
      UnidadesFilasConcat(cabeza, Conservar(resto, valores), p);
      if k == p {
        IdsDeMiembro(resto, p);
      }
    }
  }

  /** The rows `sync` attaches hold of a product the units `$syncData` gives it, if the order did not hold it. */
  lemma {:induction false} AdjuntarUnidades(claves: seq<ProductId>, valores: map<ProductId, Atributos>,
                                            existentes: set<ProductId>, p: ProductId)
    requires forall i, j :: 0 <= i < j < |claves| ==> claves[i] != claves[j]
    ensures UnidadesFilas(Adjuntar(claves, valores, existentes), p)
         == if p in claves && p !in existentes && p in valores then valores[p].cantidad else 0
  {
    if claves != [] {
      var resto := claves[1..];
      assert forall i, j :: 0 <= i < j < |resto| ==> resto[i] != resto[j] by {
        forall i, j | 0 <= i < j < |resto| ensures resto[i] != resto[j] {
          assert resto[i] == claves[i + 1] && resto[j] == claves[j + 1];
        }
      }
      AdjuntarUnidades(resto, valores, existentes, p);
      var k := claves[0];
      var cabeza := if k !in existentes && k in valores then [ConAtributos(k, valores[k])] else [];
      UnidadesFilasConcat(cabeza, Adjuntar(resto, valores, existentes), p);
      if p in resto {
        var j :| 0 <= j < |resto| && resto[j] == p;
        assert claves[j + 1] == p;
      }
      assert p in claves <==> p == k || p in resto;
    }
  }

  /**
   * With one row per product before the update and one line per product
   * submitted, the rows `sync` leaves hold of each product exactly the
   * units submitted for it.
   */
  lemma SincronizarUnidades(actual: seq<LineaPedido>, items: seq<Item>, p: ProductId)
    requires FilasDistintas(actual) && IdsDistintos(items)
    ensures UnidadesFilas(Sincronizar(actual, DatosSync(items)), p) == Unidades(items, p)
  {
    var d := DatosSync(items);
    DatosSyncCorrecto(items);
    UnidadesFilasConcat(Conservar(actual, d.valores), Adjuntar(d.claves, d.valores, IdsDe(actual)), p);
    ConservarUnidades(actual, d.valores, p);
    AdjuntarUnidades(d.claves, d.valores, IdsDe(actual), p);
    UnidadesDistintas(items, p);
    if p in d.valores {
      assert p in IdsSolicitados(items);
      var j :| 0 <= j < |items| && items[j].id == p;
      assert UltimaAparicion(items, j);
    }
  }

  /** With one line per product, every row `sync` leaves is the row of a submitted line. */
  lemma SincronizarFilas(actual: seq<LineaPedido>, items: seq<Item>)
    requires IdsDistintos(items)
    ensures forall r :: r in Sincronizar(actual, DatosSync(items)) ==>
      exists j :: 0 <= j < |items| && r == Fila(items[j])
  {
    var d := DatosSync(items);
    DatosSyncCorrecto(items);
    SincronizarEfecto(actual, d);
    forall r | r in Sincronizar(actual, d) ensures exists j :: 0 <= j < |items| && r == Fila(items[j]) {
      assert r.productoId in IdsSolicitados(items);
      var j :| 0 <= j < |items| && items[j].id == r.productoId;
      assert UltimaAparicion(items, j);
    }
  }

  predicate IdsDistintos(items: seq<Item>)
  {
    forall i, j :: 0 <= i < j < |items| ==> items[i].id != items[j].id
  }

  /** With one line per product, the units asked of a product are that line's quantity, or none. */
  lemma {:induction false} UnidadesDistintas(items: seq<Item>, p: ProductId)
    requires IdsDistintos(items)
    ensures forall i :: 0 <= i < |items| && items[i].id == p ==> Unidades(items, p) == items[i].cantidad
    ensures (forall i :: 0 <= i < |items| ==> items[i].id != p) ==> Unidades(items, p) == 0
  {
    if items != [] {
      UnidadesDistintas(items[1..], p);
      forall i | 0 <= i < |items| && items[i].id == p ensures Unidades(items, p) == items[i].cantidad {
        if i > 0 {
          assert items[1..][i - 1] == items[i];
        }
      }
    }
  }

  /** With one row per product, the units an order holds of a product are that row's quantity, or none. */
  lemma {:induction false} UnidadesFilasDistintas(rows: seq<LineaPedido>, p: ProductId)
    requires FilasDistintas(rows)
    ensures forall i :: 0 <= i < |rows| && rows[i].productoId == p ==> UnidadesFilas(rows, p) == rows[i].cantidad
    ensures (forall i :: 0 <= i < |rows| ==> rows[i].productoId != p) ==> UnidadesFilas(rows, p) == 0
  {
    if rows != [] {
      UnidadesFilasDistintas(rows[1..], p);
      forall i | 0 <= i < |rows| && rows[i].productoId == p ensures UnidadesFilas(rows, p) == rows[i].cantidad {
        if i > 0 {
          assert rows[1..][i - 1] == rows[i];
        }
      }
    }
  }

  // ---------------------------------------------------------------------------
  // `index`: the orders listed to a user
  // ---------------------------------------------------------------------------

  /** The `filtro` query parameter; any other value lists every order, like `todos`. */
  predicate PasaFiltro(filtro: string, p: Pedido)
  {
    if filtro == "pagado" then p.estado == Pagado
    else if filtro == "no_pagado" then p.estado != Pagado
    else true
  }

  function DelUsuarioConFiltro(userId: UserId, filtro: string): Pedido -> bool
  {
    (p: Pedido) => p.userId == userId && PasaFiltro(filtro, p)
  }

  /**
   * `index`: the orders of the signed-in user, narrowed by the filter. The
   * rows are given in the order the query sorts them.
   */
  function Listar(pedidos: seq<Pedido>, userId: UserId, filtro: string): (r: seq<Pedido>)
    ensures forall p :: p in r ==> p in pedidos && p.userId == userId
    ensures filtro == "pagado" ==> forall p :: p in r ==> p.estado == Pagado
    ensures filtro == "no_pagado" ==> forall p :: p in r ==> p.estado != Pagado
    ensures forall p :: p in pedidos && p.userId == userId && PasaFiltro(filtro, p) ==> p in r
  {
    Filter(pedidos, DelUsuarioConFiltro(userId, filtro))
  }

  /** Every order of the user shows up under exactly one of `pagado` and `no_pagado`, and under `todos`. */
  lemma ListarParticion(pedidos: seq<Pedido>, userId: UserId, p: Pedido)
    requires p in pedidos && p.userId == userId
    ensures p in Listar(pedidos, userId, "todos")
    ensures p in Listar(pedidos, userId, "pagado") <==> p !in Listar(pedidos, userId, "no_pagado")
  {
  }

  // ---------------------------------------------------------------------------
  // The tables and the four operations as functions
  // ---------------------------------------------------------------------------

  /** The rows the order operations read and write. A product exists when it has a stock entry. */
  datatype Tablas = Tablas(
    clientes: set<ClienteId>,
    stock: map<ProductId, int>,
    pedidos: map<PedidoId, Pedido>,
    lineas: map<PedidoId, seq<LineaPedido>>,
    pagos: seq<PagoPedido>,
    siguienteId: PedidoId)

  predicate FilasValidas(rows: seq<LineaPedido>, stock: map<ProductId, int>)
  {
    forall i :: 0 <= i < |rows| ==> rows[i].productoId in stock && rows[i].cantidad >= 1
  }

  /**
   * What the order operations keep true of the tables: lines belong to
   * existing orders and name existing products, payments name existing
   * orders, no stock is negative, and the next id is unused.
   */
  ghost predicate TablasValidas(t: Tablas)
  {
    && t.lineas.Keys == t.pedidos.Keys
    && (forall p :: p in t.stock ==> t.stock[p] >= 0)
    && (forall id :: id in t.pedidos ==> id < t.siguienteId)
    && (forall id :: id in t.lineas ==> FilasValidas(t.lineas[id], t.stock))
    && (forall pago :: pago in t.pagos ==> pago.pedidoId in t.pedidos)
  }

  /**
   * `store`: a rejected request or a line that does not fit in stock
   * leaves every table as it was; otherwise a new order with its lines is
   * recorded and the stock reserved.
   */
  function Almacenar(t: Tablas, userId: UserId, req: Solicitud): (r: (Result<PedidoId>, Tablas))
    requires TablasValidas(t)
    ensures r.0.Err? ==> r.1 == t
    ensures TablasValidas(r.1)
  {
    if !SolicitudValida(req, t.clientes, t.stock) then (Err(Validacion), t)
    else
      match Reservar(t.stock, req.productos)
      case Err(e) => (Err(e), t)
      case Ok(stock) =>
        ReservarEfecto(t.stock, req.productos);
        var id := t.siguienteId;
        var total := Total(req.productos);
        var pedido := Pedido(req.clienteId, userId, total, req.montoPagado, EstadoDe(req.montoPagado, total));
        (Ok(id), t.(stock := stock,
                    pedidos := t.pedidos[id := pedido],
                    lineas := t.lineas[id := Filas(req.productos)],
                    siguienteId := id + 1))
  }

  /**
   * `update`: header fields and status recomputed, line set replaced by
   * `sync`; stock is not touched.
   */
  function Actualizar(t: Tablas, id: PedidoId, req: Solicitud): (r: (Result<PedidoId>, Tablas))
    requires TablasValidas(t)
    ensures r.0.Err? ==> r.1 == t
    ensures TablasValidas(r.1)
    ensures r.1.stock == t.stock
  {
    if id !in t.pedidos then (Err(NoEncontrado), t)
    else if !SolicitudValida(req, t.clientes, t.stock) then (Err(Validacion), t)
    else
      var total := Total(req.productos);
      var pedido := t.pedidos[id].(clienteId := req.clienteId, total := total,
                                   montoPagado := req.montoPagado,
                                   estado := EstadoDe(req.montoPagado, total));
      var d := DatosSync(req.productos);
      DatosSyncCorrecto(req.productos);
      SincronizarEfecto(t.lineas[id], d);
      var filas := Sincronizar(t.lineas[id], d);
      assert FilasValidas(filas, t.stock) by {
        forall i | 0 <= i < |filas| ensures filas[i].productoId in t.stock && filas[i].cantidad >= 1 {
          assert filas[i] in filas;
          var k := filas[i].productoId;
          assert k in IdsSolicitados(req.productos);
          var j :| 0 <= j < |req.productos| && req.productos[j].id == k;
          LineaMasTardia(req.productos, j);
        }
      }
      (Ok(id), t.(pedidos := t.pedidos[id := pedido], lineas := t.lineas[id := filas]))
  }

  /** Every submitted product has a last line naming it. */
  lemma {:induction false} LineaMasTardia(items: seq<Item>, j: int)
    requires 0 <= j < |items|
    ensures exists l :: j <= l < |items| && items[l].id == items[j].id && UltimaAparicion(items, l)
    decreases |items| - j
  {
    if !UltimaAparicion(items, j) {
      var j2 :| j < j2 < |items| && items[j2].id == items[j].id;
      LineaMasTardia(items, j2);
    }
  }

  /** `destroy`: every line's units go back to stock, and the order, its lines and its payments go. */
  function Eliminar(t: Tablas, id: PedidoId): (r: (Result<PedidoId>, Tablas))
    requires TablasValidas(t)
    ensures r.0.Err? ==> r.1 == t
    ensures TablasValidas(r.1)
  {
    if id !in t.pedidos then (Err(NoEncontrado), t)
    else
      var filas := t.lineas[id];
      assert ProductosFilasEn(filas, t.stock);
      LiberarEfecto(t.stock, filas);
      UnidadesFilasNoNegativas(filas);
      (Ok(id), t.(stock := Liberar(t.stock, filas),
                  pedidos := t.pedidos - {id},
                  lineas := t.lineas - {id},
                  pagos := Cascada(t.pagos, id)))
  }

  /** Rows that hold no negative quantity hold no negative number of units of any product. */
  lemma {:induction false} UnidadesFilasNoNegativas(rows: seq<LineaPedido>)
    ensures (forall i :: 0 <= i < |rows| ==> rows[i].cantidad >= 0) ==> forall p :: UnidadesFilas(rows, p) >= 0
  {
    if rows != [] {
      UnidadesFilasNoNegativas(rows[1..]);
      assert (forall i :: 0 <= i < |rows| ==> rows[i].cantidad >= 0) ==>
        forall i :: 0 <= i < |rows[1..]| ==> rows[1..][i].cantidad >= 0;
    }
  }

  /** `marcarComoPagado`: the amount paid becomes the total and the status `pagado`. */
  function MarcarPagado(t: Tablas, id: PedidoId): (r: (Result<PedidoId>, Tablas))
    requires TablasValidas(t)
    ensures r.0.Err? ==> r.1 == t
    ensures TablasValidas(r.1)
    ensures r.0.Ok? <==> id in t.pedidos
    ensures r.0.Err? ==> r.0.error == NoEncontrado
    ensures r.1.stock == t.stock && r.1.lineas == t.lineas && r.1.pedidos.Keys == t.pedidos.Keys
    ensures r.1.pagos == t.pagos && r.1.clientes == t.clientes && r.1.siguienteId == t.siguienteId
    ensures r.0.Ok? ==>
      && r.0.value == id
      && r.1.pedidos[id].montoPagado == t.pedidos[id].total
      && r.1.pedidos[id].estado == Pagado
      && r.1.pedidos[id].estado == EstadoDe(r.1.pedidos[id].montoPagado, r.1.pedidos[id].total)
      && r.1.pedidos[id].total == t.pedidos[id].total
      && r.1.pedidos[id].clienteId == t.pedidos[id].clienteId
      && r.1.pedidos[id].userId == t.pedidos[id].userId
    ensures forall o :: o in t.pedidos && o != id ==> r.1.pedidos[o] == t.pedidos[o]
  {
    if id !in t.pedidos then (Err(NoEncontrado), t)
    else
      var p := t.pedidos[id];
      (Ok(id), t.(pedidos := t.pedidos[id := p.(montoPagado := p.total, estado := Pagado)]))
  }

  // ---------------------------------------------------------------------------
  // What the operations do to the tables
  // ---------------------------------------------------------------------------

  /**
   * `store` answers a validation error exactly when the request breaks a
   * rule, and otherwise succeeds exactly when every product has the units
   * asked of it. A new order gets a fresh id, its header carries the total
   * of its lines and the status of that total, its rows add up to that
   * total, and each product loses the units its lines asked for.
   */
  lemma AlmacenarResultado(t: Tablas, userId: UserId, req: Solicitud)
    requires TablasValidas(t)
    ensures Almacenar(t, userId, req).0 == Err(Validacion) <==> !SolicitudValida(req, t.clientes, t.stock)
    ensures SolicitudValida(req, t.clientes, t.stock) ==>
      (Almacenar(t, userId, req).0.Ok? <==> forall p :: p in t.stock ==> Unidades(req.productos, p) <= t.stock[p])
    ensures Almacenar(t, userId, req).0.Ok? ==>
      var id := Almacenar(t, userId, req).0.value;
      var t' := Almacenar(t, userId, req).1;
      && id !in t.pedidos && id in t'.pedidos
      && t'.pedidos[id].clienteId == req.clienteId
      && t'.pedidos[id].userId == userId
      && t'.pedidos[id].montoPagado == req.montoPagado
      && t'.pedidos[id].total == Total(req.productos) >= 0.0
      && t'.pedidos[id].estado == EstadoDe(req.montoPagado, t'.pedidos[id].total)
      && id in t'.lineas && |t'.lineas[id]| == |req.productos|
      && (forall i :: 0 <= i < |req.productos| ==>
            && t'.lineas[id][i].productoId == req.productos[i].id
            && t'.lineas[id][i].cantidad == req.productos[i].cantidad
            && t'.lineas[id][i].precio == req.productos[i].precio
            && t'.lineas[id][i].total == req.productos[i].cantidad as real * req.productos[i].precio)
      && SumaFilas(t'.lineas[id]) == t'.pedidos[id].total
      && (forall other :: other in t.lineas ==> other in t'.lineas && t'.lineas[other] == t.lineas[other])
      && t'.clientes == t.clientes
      && t'.stock.Keys == t.stock.Keys
      && (forall p :: p in t.stock ==> t'.stock[p] == t.stock[p] - Unidades(req.productos, p))
      && (forall other :: other in t.pedidos ==> other in t'.pedidos && t'.pedidos[other] == t.pedidos[other])
      && t'.pagos == t.pagos
  {
    if SolicitudValida(req, t.clientes, t.stock) {
      ReservarExito(t.stock, req.productos);
      ReservarEfecto(t.stock, req.productos);
      ReservarFalla(t.stock, req.productos);
      FilasSuman(req.productos);
      TotalNoNegativo(req.productos);
    }
  }

  /**
   * Deleting an order right after storing it leaves every table as it was;
   * only the id counter has moved on.
   */
  lemma AlmacenarLuegoEliminar(t: Tablas, userId: UserId, req: Solicitud)
    requires TablasValidas(t)
    requires Almacenar(t, userId, req).0.Ok?
    ensures Eliminar(Almacenar(t, userId, req).1, Almacenar(t, userId, req).0.value)
         == (Ok(t.siguienteId), t.(siguienteId := t.siguienteId + 1))
  {
    var (r, t1) := Almacenar(t, userId, req);
    var id := r.value;
    ReservarLiberar(t.stock, req.productos);
    assert t1.pedidos - {id} == t.pedidos;
    assert t1.lineas - {id} == t.lineas;
    CascadaSinReferencias(t.pagos, id);
  }

  /**
   * `update` answers not-found exactly for an unknown order and a
   * validation error exactly for a broken rule. On success the order holds
   * exactly the submitted products, each row with the quantity, price and
   * subtotal of the last line naming it, the header carries the new total
   * and its status, and no other order's lines change.
   */
  lemma ActualizarResultado(t: Tablas, id: PedidoId, req: Solicitud)
    requires TablasValidas(t)
    ensures Actualizar(t, id, req).0 == Err(NoEncontrado) <==> id !in t.pedidos
    ensures Actualizar(t, id, req).0 == Err(Validacion) <==>
      id in t.pedidos && !SolicitudValida(req, t.clientes, t.stock)
    ensures Actualizar(t, id, req).0.Ok? ==>
      var t' := Actualizar(t, id, req).1;
      && id in t'.lineas && id in t'.pedidos
      && IdsDe(t'.lineas[id]) == IdsSolicitados(req.productos)
      && (forall j, row ::
            (0 <= j < |req.productos| && UltimaAparicion(req.productos, j) &&
             row in t'.lineas[id] && row.productoId == req.productos[j].id)
            ==> row == Fila(req.productos[j]))
      && t'.pedidos[id].clienteId == req.clienteId
      && t'.pedidos[id].montoPagado == req.montoPagado
      && t'.pedidos[id].total == Total(req.productos)
      && t'.pedidos[id].estado == EstadoDe(req.montoPagado, Total(req.productos))
      && t'.pedidos[id].userId == t.pedidos[id].userId
      && t'.pedidos.Keys == t.pedidos.Keys
      && (forall other :: other in t.pedidos && other != id ==> t'.pedidos[other] == t.pedidos[other])
      && (forall other :: other in t.lineas && other != id ==> t'.lineas[other] == t.lineas[other])
      && t'.pagos == t.pagos && t'.clientes == t.clientes && t'.stock == t.stock
  {
    if id in t.pedidos && SolicitudValida(req, t.clientes, t.stock) {
      var d := DatosSync(req.productos);
      DatosSyncCorrecto(req.productos);
      SincronizarEfecto(t.lineas[id], d);
    }
  }

  /**
   * `destroy` answers not-found exactly for an unknown order; otherwise each
   * product gets back the units the order's rows held, and the order, its
   * rows and its payments are gone while everything else stays.
   */
  lemma EliminarResultado(t: Tablas, id: PedidoId)
    requires TablasValidas(t)
    ensures Eliminar(t, id).0 == Err(NoEncontrado) <==> id !in t.pedidos
    ensures Eliminar(t, id).0.Ok? ==>
      var t' := Eliminar(t, id).1;
      && t'.stock.Keys == t.stock.Keys
      && (forall p :: p in t.stock ==> t'.stock[p] == t.stock[p] + UnidadesFilas(t.lineas[id], p))
      && id !in t'.pedidos && id !in t'.lineas
      && (forall other :: other in t.pedidos && other != id ==> other in t'.pedidos && t'.pedidos[other] == t.pedidos[other])
      && (forall other :: other in t.lineas && other != id ==> other in t'.lineas && t'.lineas[other] == t.lineas[other])
      && (forall pago :: pago in t'.pagos <==> pago in t.pagos && pago.pedidoId != id)
      && t'.clientes == t.clientes
  {
    if id in t.pedidos {
      assert ProductosFilasEn(t.lineas[id], t.stock);
      LiberarEfecto(t.stock, t.lineas[id]);
    }
  }

  // ---------------------------------------------------------------------------
  // `update` and stock
  // ---------------------------------------------------------------------------

  /**
   * `update` rewrites an order's lines without touching stock, while
   * `destroy` gives back whatever the rows hold at that moment. Raising a
   * line's quantity through `update` and then deleting the order therefore
   * creates stock: 10 units, an order for 2, the order raised to 5, the
   * order deleted, and 13 units are on hand.
   */
  lemma ActualizarNoReconciliaStock()
    ensures
      var t0 := Tablas({1}, map[7 := 10], map[], map[], [], 1);
      var (r1, t1) := Almacenar(t0, 4, Solicitud(1, [Item(7, 2, 100.0)], 0.0));
      var (r2, t2) := Actualizar(t1, 1, Solicitud(1, [Item(7, 5, 100.0)], 0.0));
      var (r3, t3) := Eliminar(t2, 1);
      r1 == Ok(1) && r2 == Ok(1) && r3 == Ok(1) && t3.stock == map[7 := 13]
  {
    var t0 := Tablas({1}, map[7 := 10], map[], map[], [], 1);
    var alta := Solicitud(1, [Item(7, 2, 100.0)], 0.0);
    var cambio := Solicitud(1, [Item(7, 5, 100.0)], 0.0);
    var s0 := map[7 := 10];
    assert alta.productos[0] == Item(7, 2, 100.0) && alta.productos[1..] == [];
    assert s0[7 := s0[7] - 2] == map[7 := 8];
    assert Reservar(s0, alta.productos) == Reservar(map[7 := 8], alta.productos[1..]);
    assert SolicitudValida(alta, t0.clientes, t0.stock);
    var (r1, t1) := Almacenar(t0, 4, alta);
    assert r1 == Ok(1);
    assert t1.stock == map[7 := 8];
    assert t1.lineas[1] == [Fila(Item(7, 2, 100.0))];
    assert cambio.productos[..0] == [];
    var a := AtributosDe(Item(7, 5, 100.0));
    assert DatosSync(cambio.productos) == ArregloSync([7], map[7 := a]);
    assert SolicitudValida(cambio, t1.clientes, t1.stock);
    var fila := Fila(Item(7, 2, 100.0));
    assert IdsDe([fila]) == {7};
    assert Conservar([fila], map[7 := a]) == [ConAtributos(7, a)];
    assert Adjuntar([7], map[7 := a], {7}) == [];
    var (r2, t2) := Actualizar(t1, 1, cambio);
    assert r2 == Ok(1);
    assert t2.lineas[1] == [LineaPedido(7, 5, 100.0, 500.0)];
    assert t2.stock == map[7 := 8];
    var (r3, t3) := Eliminar(t2, 1);
    assert r3 == Ok(1);
    assert map[7 := 8][7 := 8 + 5] == map[7 := 13];
    assert t3.stock == Liberar(map[7 := 13], []);
  }

  /**
   * The stock an update would leave if it first gave back the order's
   * current rows and then reserved the rows it writes against that.
   */
  function StockReconciliado(stock: map<ProductId, int>, actuales: seq<LineaPedido>, nuevas: seq<LineaPedido>)
    : (r: Result<map<ProductId, int>>)
    requires ProductosFilasEn(actuales, stock) && ProductosFilasEn(nuevas, stock)
    ensures r.Ok? ==> r.value.Keys == stock.Keys
    ensures r.Ok? ==> forall p :: p in stock ==>
      r.value[p] + UnidadesFilas(nuevas, p) == stock[p] + UnidadesFilas(actuales, p)
    ensures r.Ok? && (forall p :: p in stock ==> stock[p] >= 0) && (forall i :: 0 <= i < |actuales| ==> actuales[i].cantidad >= 0)
      ==> forall p :: p in stock ==> r.value[p] >= 0
  {
    LiberarEfecto(stock, actuales);
    UnidadesFilasNoNegativas(actuales);
    var liberado := Liberar(stock, actuales);
    var items := ItemsDeFilas(nuevas);
    assert ProductosEn(items, liberado);
    ReservarEfecto(liberado, items);
    forall p | p in stock ensures Unidades(items, p) == UnidadesFilas(nuevas, p) {
      UnidadesDeFilas(nuevas, p);
    }
    Reservar(liberado, items)
  }

  /** Submitting rows as lines asks, per product, for the units the rows hold. */
  lemma {:induction false} UnidadesDeFilas(rows: seq<LineaPedido>, p: ProductId)
    ensures Unidades(ItemsDeFilas(rows), p) == UnidadesFilas(rows, p)
  {
    if rows != [] {
      assert ItemsDeFilas(rows)[1..] == ItemsDeFilas(rows[1..]);
      UnidadesDeFilas(rows[1..], p);
    }
  }

  /**
   * A reconciled update succeeds exactly when no product is asked for more
   * than its stock plus what the order already holds of it, and deleting
   * the order afterwards gives back exactly the stock the order started
   * from: no units are created or lost.
   */
  lemma StockReconciliadoCorrecto(stock: map<ProductId, int>, actuales: seq<LineaPedido>, nuevas: seq<LineaPedido>)
    requires ProductosFilasEn(actuales, stock) && ProductosFilasEn(nuevas, stock)
    requires forall p :: p in stock ==> stock[p] >= 0
    requires forall i :: 0 <= i < |actuales| ==> actuales[i].cantidad >= 0
    requires forall i :: 0 <= i < |nuevas| ==> nuevas[i].cantidad >= 0
    ensures StockReconciliado(stock, actuales, nuevas).Ok? <==>
      forall p :: p in stock ==> UnidadesFilas(nuevas, p) <= stock[p] + UnidadesFilas(actuales, p)
    ensures StockReconciliado(stock, actuales, nuevas).Ok? ==>
      ProductosFilasEn(nuevas, StockReconciliado(stock, actuales, nuevas).value) &&
      Liberar(StockReconciliado(stock, actuales, nuevas).value, nuevas) == Liberar(stock, actuales)
  {
    LiberarEfecto(stock, actuales);
    UnidadesFilasNoNegativas(actuales);
    var liberado := Liberar(stock, actuales);
    var items := ItemsDeFilas(nuevas);
    assert ProductosEn(items, liberado);
    forall p | p in stock ensures Unidades(items, p) == UnidadesFilas(nuevas, p) {
      UnidadesDeFilas(nuevas, p);
    }
    ReservarExito(liberado, items);
    assert StockReconciliado(stock, actuales, nuevas) == Reservar(liberado, items);
    assert (forall p :: p in liberado ==> Unidades(items, p) <= liberado[p]) <==>
      forall p :: p in stock ==> UnidadesFilas(nuevas, p) <= stock[p] + UnidadesFilas(actuales, p);
    if StockReconciliado(stock, actuales, nuevas).Ok? {
      var s := StockReconciliado(stock, actuales, nuevas).value;
      assert ProductosFilasEn(nuevas, s);
      LiberarEfecto(s, nuevas);
      var antes := Liberar(stock, actuales);
      var despues := Liberar(s, nuevas);
      assert despues.Keys == antes.Keys;
      assert forall p :: p in despues ==> despues[p] == antes[p];
    }
  }

  /**
   * With one row per product before the update and one line per product
   * submitted, the reconciled update fits in stock exactly when no product
   * is asked for more than its stock plus what the order holds of it.
   */
  lemma SincronizadoCabe(stock: map<ProductId, int>, rows: seq<LineaPedido>, items: seq<Item>)
    requires ProductosFilasEn(rows, stock) && ProductosEn(items, stock)
    requires FilasDistintas(rows) && IdsDistintos(items)
    requires forall p :: p in stock ==> stock[p] >= 0
    requires forall i :: 0 <= i < |rows| ==> rows[i].cantidad >= 0
    requires forall i :: 0 <= i < |items| ==> items[i].cantidad >= 0
    ensures ProductosFilasEn(Sincronizar(rows, DatosSync(items)), stock)
    ensures StockReconciliado(stock, rows, Sincronizar(rows, DatosSync(items))).Ok? <==>
      forall p :: p in stock ==> Unidades(items, p) <= stock[p] + UnidadesFilas(rows, p)
  {
    var nuevas := Sincronizar(rows, DatosSync(items));
    SincronizarFilas(rows, items);
    forall i | 0 <= i < |nuevas| ensures nuevas[i].productoId in stock && nuevas[i].cantidad >= 0 {
      assert nuevas[i] in nuevas;
    }
    forall p | p in stock ensures UnidadesFilas(nuevas, p) == Unidades(items, p) {
      SincronizarUnidades(rows, items, p);
    }
    StockReconciliadoCorrecto(stock, rows, nuevas);
  }

  /**
   * `update` as the edit page presumes it: the order's rows are given back
   * to stock and the rows `sync` writes are reserved against that; a
   * product that falls short rejects the request and changes nothing.
   */
  function ActualizarConciliado(t: Tablas, id: PedidoId, req: Solicitud): (r: (Result<PedidoId>, Tablas))
    requires TablasValidas(t)
    ensures r.0.Err? ==> r.1 == t
    ensures TablasValidas(r.1)
    ensures r.0.Ok? ==> Actualizar(t, id, req).0.Ok? && r.1 == Actualizar(t, id, req).1.(stock := r.1.stock)
  {
    match Actualizar(t, id, req)
    case (Err(e), _) => (Err(e), t)
    case (Ok(_), t1) =>
      var nuevas := t1.lineas[id];
      assert FilasValidas(nuevas, t.stock);
      assert FilasValidas(t.lineas[id], t.stock);
      match StockReconciliado(t.stock, t.lineas[id], nuevas)
      case Err(e) => (Err(e), t)
      case Ok(stock) =>
        var t2 := t1.(stock := stock);
        assert forall k :: k in t2.lineas ==> FilasValidas(t2.lineas[k], t2.stock) by {
          forall k | k in t2.lineas ensures FilasValidas(t2.lineas[k], t2.stock) {
            assert FilasValidas(t1.lineas[k], t1.stock);
          }
        }
        (Ok(id), t2)
  }

  /**
   * Under the reconciled update, deleting an order gives back the same
   * stock whether or not it was updated first.
   */
  lemma ActualizarConciliadoConserva(t: Tablas, id: PedidoId, req: Solicitud)
    requires TablasValidas(t)
    requires ActualizarConciliado(t, id, req).0.Ok?
    ensures Eliminar(ActualizarConciliado(t, id, req).1, id).1.stock == Eliminar(t, id).1.stock
  {
    var t1 := Actualizar(t, id, req).1;
    var t2 := ActualizarConciliado(t, id, req).1;
    var nuevas := t1.lineas[id];
    assert FilasValidas(nuevas, t.stock) && FilasValidas(t.lineas[id], t.stock);
    StockReconciliadoCorrecto(t.stock, t.lineas[id], nuevas);
    assert t2.stock == StockReconciliado(t.stock, t.lineas[id], nuevas).value;
    assert t2.lineas[id] == nuevas;
  }

  // ---------------------------------------------------------------------------
  // The controller over the tables
  // ---------------------------------------------------------------------------

  /** The tables as the controller changes them, one statement at a time. */
  class BaseDeDatos {
    var clientes: set<ClienteId>
    var stock: map<ProductId, int>
    var pedidos: map<PedidoId, Pedido>
    var lineas: map<PedidoId, seq<LineaPedido>>
    var pagos: seq<PagoPedido>
    var siguienteId: PedidoId

    /** The current contents of every table, as a value. */
    function Instantanea(): Tablas
      reads this
    {
      Tablas(clientes, stock, pedidos, lineas, pagos, siguienteId)
    }

    ghost predicate Valid()
      reads this
    {
      TablasValidas(Instantanea())
    }

    /** Empty order tables over existing customers and product stock. */
    constructor (clientes0: set<ClienteId>, stock0: map<ProductId, int>)
      requires forall p :: p in stock0 ==> stock0[p] >= 0
      ensures Valid()
      ensures Instantanea() == Tablas(clientes0, stock0, map[], map[], [], 1)
    {
      clientes := clientes0;
      stock := stock0;
      pedidos := map[];
      lineas := map[];
      pagos := [];
      siguienteId := 1;
    }

    /** `DB::rollBack()`: every table goes back to the state saved when the transaction began. */
    method Restaurar(t: Tablas)
      modifies this
      ensures Instantanea() == t
    {
      clientes := t.clientes;
      stock := t.stock;
      pedidos := t.pedidos;
      lineas := t.lineas;
      pagos := t.pagos;
      siguienteId := t.siguienteId;
    }

    /**
     * `store`: validate, then inside a transaction create the order, and for
     * each line check the product's stock, attach the row and decrement the
     * stock; a line that does not fit rolls everything back.
     */
    method Store(userId: UserId, req: Solicitud) returns (r: Result<PedidoId>)
      requires Valid()
      modifies this
      ensures Valid()
      ensures (r, Instantanea()) == Almacenar(old(Instantanea()), userId, req)
    {
      if !SolicitudValida(req, clientes, stock) {
        return Err(Validacion);
      }
      var inicial := Instantanea();
      var items := req.productos;
      var total := Total(items);
      var pedido := Pedido(req.clienteId, userId, total, req.montoPagado, EstadoDe(req.montoPagado, total));
      var id := siguienteId;
      pedidos := pedidos[id := pedido];
      lineas := lineas[id := []];
      siguienteId := id + 1;
      var falla := AdjuntarLineas(id, items);
      if falla.Some? {
        Restaurar(inicial);
        return Err(StockInsuficiente(falla.value));
      }
      assert Instantanea() == Almacenar(inicial, userId, req).1;
      return Ok(id);
    }

    /**
     * The line loop of `store`: for each line, check the product's stock,
     * attach the row and decrement the stock; stop at the first line that
     * does not fit and name its product.
     */
    method AdjuntarLineas(id: PedidoId, items: seq<Item>) returns (falla: Option<ProductId>)
      requires id in lineas && lineas[id] == []
      requires ProductosEn(items, stock)
      modifies this
      ensures falla.None? <==> Reservar(old(stock), items).Ok?
      ensures falla.None? ==> stock == Reservar(old(stock), items).value && lineas == old(lineas)[id := Filas(items)]
      ensures falla.Some? ==> Reservar(old(stock), items) == Err(StockInsuficiente(falla.value))
      ensures clientes == old(clientes) && pedidos == old(pedidos) && pagos == old(pagos) && siguienteId == old(siguienteId)
    {
      var i := 0;
      assert Filas(items[..0]) == [];
      while i < |items|
        invariant 0 <= i <= |items|
        invariant ProductosEn(items[i..], stock)
        invariant Reservar(stock, items[i..]) == Reservar(old(stock), items)
        invariant lineas == old(lineas)[id := Filas(items[..i])]
        invariant clientes == old(clientes) && pedidos == old(pedidos) && pagos == old(pagos) && siguienteId == old(siguienteId)
      {
        var it := items[i];
        assert items[i..][0] == it && items[i..][1..] == items[i + 1..];
        if it.cantidad > stock[it.id] {
          return Some(it.id);
        }
        assert Filas(items[..i + 1]) == Filas(items[..i]) + [Fila(it)];
        lineas := lineas[id := lineas[id] + [Fila(it)]];
        stock := stock[it.id := stock[it.id] - it.cantidad];
        i := i + 1;
      }
      assert items[..i] == items && items[i..] == [];
      return None;
    }

    /**
     * `update`: find the order, validate, rewrite the header with the new
     * total and status, build `$syncData` and `sync` the lines.
     */
    method Update(id: PedidoId, req: Solicitud) returns (r: Result<PedidoId>)
      requires Valid()
      modifies this
      ensures Valid()
      ensures (r, Instantanea()) == Actualizar(old(Instantanea()), id, req)
    {
      if id !in pedidos {
        return Err(NoEncontrado);
      }
      if !SolicitudValida(req, clientes, stock) {
        return Err(Validacion);
      }
      ghost var inicial := Instantanea();
      var total := Total(req.productos);
      pedidos := pedidos[id := pedidos[id].(clienteId := req.clienteId, total := total,
                                            montoPagado := req.montoPagado,
                                            estado := EstadoDe(req.montoPagado, total))];
      var d := ConstruirSyncData(req.productos);
      lineas := lineas[id := Sincronizar(lineas[id], d)];
      assert Instantanea() == Actualizar(inicial, id, req).1;
      return Ok(id);
    }

    /**
     * `destroy`: find the order, give each row's units back to its product,
     * then delete the order; the rows and its payments go with it.
     */
    method Destroy(id: PedidoId) returns (r: Result<PedidoId>)
      requires Valid()
      modifies this
      ensures Valid()
      ensures (r, Instantanea()) == Eliminar(old(Instantanea()), id)
    {
      if id !in pedidos {
        return Err(NoEncontrado);
      }
      ghost var inicial := Instantanea();
      var filas := lineas[id];
      assert ProductosFilasEn(filas, stock);
      var i := 0;
      while i < |filas|
        invariant 0 <= i <= |filas|
        invariant stock.Keys == inicial.stock.Keys
        invariant ProductosFilasEn(filas[i..], stock)
        invariant Liberar(stock, filas[i..]) == Liberar(inicial.stock, filas)
        invariant Instantanea() == inicial.(stock := stock)
      {
        var fila := filas[i];
        assert filas[i..][0] == fila && filas[i..][1..] == filas[i + 1..];
        stock := stock[fila.productoId := stock[fila.productoId] + fila.cantidad];
        i := i + 1;
      }
      assert filas[i..] == [];
      pedidos := pedidos - {id};
      lineas := lineas - {id};
      pagos := Cascada(pagos, id);
      assert Instantanea() == Eliminar(inicial, id).1;
      return Ok(id);
    }

    /** `marcarComoPagado`: the amount paid becomes the order's total and the status `pagado`. */
    method MarcarComoPagado(id: PedidoId) returns (r: Result<PedidoId>)
      requires Valid()
      modifies this
      ensures Valid()
      ensures (r, Instantanea()) == MarcarPagado(old(Instantanea()), id)
    {
      if id !in pedidos {
        return Err(NoEncontrado);
      }
      var p := pedidos[id];
      pedidos := pedidos[id := p.(montoPagado := p.total, estado := Pagado)];
      return Ok(id);
    }
  }

  /** The loop of `update` that fills `$syncData`, one submitted line at a time. */
  method ConstruirSyncData(items: seq<Item>) returns (d: ArregloSync)
    ensures d == DatosSync(items)
    ensures BienFormado(d) && d.valores.Keys == IdsSolicitados(items)
  {
    d := ArregloSync([], map[]);
    var i := 0;
    while i < |items|
      invariant 0 <= i <= |items|
      invariant d == DatosSync(items[..i])
    {
      assert items[..i + 1][..i] == items[..i];
      var it := items[i];
      if it.id in d.valores {
        d := d.(valores := d.valores[it.id := AtributosDe(it)]);
      } else {
        d := ArregloSync(d.claves + [it.id], d.valores[it.id := AtributosDe(it)]);
      }
      i := i + 1;
    }
    assert items[..i] == items;
    DatosSyncClaves(items);
  }
}
