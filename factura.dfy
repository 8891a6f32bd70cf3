/**
 * The invoice page: the grand total and the tax broken down by the two
 * rates it prints (15 % and 18 %), computed from an order's line rows.
 */
module Factura {
  import opened Listas
  import opened Esquema
  import PC = PedidoController

  /** The grand total: the sum of the tax-inclusive totals of the rows. */
  function TotalFactura(rows: seq<PedidoProducto>): real
  {
    if rows == [] then 0.0 else rows[0].totalConIsv + TotalFactura(rows[1..])
  }

  /** The sum of the tax column over some rows. */
  function SumaIsv(rows: seq<PedidoProducto>): real
  {
    if rows == [] then 0.0 else rows[0].isvTotal + SumaIsv(rows[1..])
  }

  /** The sum of the untaxed totals of the rows. */
  function SumaSubtotales(rows: seq<PedidoProducto>): real
  {
    if rows == [] then 0.0 else rows[0].total + SumaSubtotales(rows[1..])
  }

  function TasaEs(tasa: real): PedidoProducto -> bool
  {
    (r: PedidoProducto) => r.isvPorcentaje == tasa
  }

  /** The tax collected at one rate: the rows whose rate is exactly that one, summed. */
  function IsvConTasa(rows: seq<PedidoProducto>, tasa: real): real
  {
    SumaIsv(Filter(rows, TasaEs(tasa)))
  }

  function Isv15(rows: seq<PedidoProducto>): real
  {
    IsvConTasa(rows, 15.0)
  }

  function Isv18(rows: seq<PedidoProducto>): real
  {
    IsvConTasa(rows, 18.0)
  }

  lemma {:induction false} SumaIsvConcat(a: seq<PedidoProducto>, b: seq<PedidoProducto>)
    ensures SumaIsv(a + b) == SumaIsv(a) + SumaIsv(b)
  {
    if a == [] {
      assert a + b == b;
    } else {
      assert (a + b)[1..] == a[1..] + b;
      SumaIsvConcat(a[1..], b);
    }
  }

  /** The tax at one rate is the first row's tax when it has that rate, plus the tax at that rate of the rest. */
  lemma IsvConTasaPaso(rows: seq<PedidoProducto>, tasa: real)
    requires rows != []
    ensures IsvConTasa(rows, tasa)
         == (if rows[0].isvPorcentaje == tasa then rows[0].isvTotal else 0.0) + IsvConTasa(rows[1..], tasa)
  {
    var cabeza := if TasaEs(tasa)(rows[0]) then [rows[0]] else [];
    assert Filter(rows, TasaEs(tasa)) == cabeza + Filter(rows[1..], TasaEs(tasa));
    SumaIsvConcat(cabeza, Filter(rows[1..], TasaEs(tasa)));
  }

  /** Rows filled in as the migration documents them: the grand total is the untaxed total plus the tax. */
  lemma {:induction false} TotalDocumentado(rows: seq<PedidoProducto>)
    requires forall i :: 0 <= i < |rows| ==> ColumnasDocumentadas(rows[i])
    ensures TotalFactura(rows) == SumaSubtotales(rows) + SumaIsv(rows)
  {
    if rows != [] {
      TotalDocumentado(rows[1..]);
    }
  }

  /** When every row is taxed at 15 % or 18 %, the two printed tax lines add up to all the tax. */
  lemma {:induction false} DesgloseIsv(rows: seq<PedidoProducto>)
    requires forall i :: 0 <= i < |rows| ==> rows[i].isvPorcentaje == 15.0 || rows[i].isvPorcentaje == 18.0
    ensures Isv15(rows) + Isv18(rows) == SumaIsv(rows)
  {
    if rows != [] {
      DesgloseIsv(rows[1..]);
      IsvConTasaPaso(rows, 15.0);
      IsvConTasaPaso(rows, 18.0);
    }
  }

  /** A row at another rate counts in the grand total but in neither printed tax line. */
  lemma OtraTasaNoSeImprime(r: PedidoProducto)
    requires r.isvPorcentaje != 15.0 && r.isvPorcentaje != 18.0
    ensures Isv15([r]) == 0.0 && Isv18([r]) == 0.0
    ensures TotalFactura([r]) == r.totalConIsv
  {
    IsvConTasaPaso([r], 15.0);
    IsvConTasaPaso([r], 18.0);
  }

  /** The rows for an order's lines, each filled in as documented at its own rate. */
  function FilasFactura(pedidoId: PedidoId, items: seq<PC.Item>, tasas: seq<real>): seq<PedidoProducto>
    requires |tasas| == |items|
  {
    seq(|items|, i requires 0 <= i < |items| =>
      FilaPivote(pedidoId, items[i].id, items[i].cantidad, items[i].precio, tasas[i]))
  }

  /**
   * For documented rows of an order's lines, the invoice's untaxed base is
   * the total the controller stores on the order, and the grand total is
   * that total plus the tax, never less than it when quantities, prices and
   * rates are not negative. Marking the order paid records the untaxed
   * total, so the tax is what the recorded payment falls short of the
   * invoice.
   */
  lemma {:induction false} FacturaFrenteAlTotal(pedidoId: PedidoId, items: seq<PC.Item>, tasas: seq<real>)
    requires |tasas| == |items|
    ensures SumaSubtotales(FilasFactura(pedidoId, items, tasas)) == PC.Total(items)
    ensures TotalFactura(FilasFactura(pedidoId, items, tasas)) == PC.Total(items) + SumaIsv(FilasFactura(pedidoId, items, tasas))
    ensures (forall i :: 0 <= i < |items| ==> items[i].cantidad >= 0 && items[i].precio >= 0.0 && tasas[i] >= 0.0) ==>
      SumaIsv(FilasFactura(pedidoId, items, tasas)) >= 0.0
  {
    var rows := FilasFactura(pedidoId, items, tasas);
    if items != [] {
      assert rows[1..] == FilasFactura(pedidoId, items[1..], tasas[1..]);
      FacturaFrenteAlTotal(pedidoId, items[1..], tasas[1..]);
      var it := items[0];
      if it.cantidad >= 0 && it.precio >= 0.0 && tasas[0] >= 0.0 {
        assert it.cantidad as real * it.precio >= 0.0;
        assert it.cantidad as real * it.precio * tasas[0] >= 0.0;
      }
    }
  }
}
