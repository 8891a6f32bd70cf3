/**
 * The order list page: the status badge of each row and which row actions
 * it offers, and how those follow from what the controller stores.
 */
module ListadoPedidos {
  import opened Esquema
  import PC = PedidoController

  datatype Color = Gris | Amarillo | Verde | Rojo

  /** A status badge with its label and colour, or a status string shown as it came. */
  datatype Insignia = Etiqueta(texto: string, color: Color) | Crudo(valor: string)

  /** `estadoBadge`: the four enum states get a label and a colour each; any other string is shown raw. */
  function EstadoBadge(estado: string): (b: Insignia)
    ensures b.Etiqueta? <==> EstadoDeNombre(estado).Some?
    ensures b.Crudo? ==> b.valor == estado
  {
    match estado
    case "pendiente" => Etiqueta("Pendiente", Gris)
    case "espera" => Etiqueta("Espera", Amarillo)
    case "pagado" => Etiqueta("Pagado", Verde)
    case "cancelado" => Etiqueta("Cancelado", Rojo)
    case _ => Crudo(estado)
  }

  /** Different states never share a badge: neither the label nor the colour repeats. */
  lemma InsigniasDistintas(e1: Estado, e2: Estado)
    requires e1 != e2
    ensures EstadoBadge(NombreEstado(e1)).Etiqueta? && EstadoBadge(NombreEstado(e2)).Etiqueta?
    ensures EstadoBadge(NombreEstado(e1)).texto != EstadoBadge(NombreEstado(e2)).texto
    ensures EstadoBadge(NombreEstado(e1)).color != EstadoBadge(NombreEstado(e2)).color
  {
  }

  /** The buttons of one row: pay in full, edit, delete, invoice. */
  datatype Acciones = Acciones(pagar: bool, editar: bool, eliminar: bool, factura: bool)

  /** The row actions: pay, edit and delete while the order is not `pagado`; the invoice once it is. */
  function AccionesPara(estado: string): (a: Acciones)
    ensures a.pagar == a.editar == a.eliminar
    ensures a.pagar <==> estado != "pagado"
    ensures a.factura <==> estado == "pagado"
  {
    var noPagado := estado != "pagado";
    Acciones(noPagado, noPagado, noPagado, !noPagado)
  }

  /** A cancelled order is treated as unpaid: it can still be paid, edited and deleted. */
  lemma CanceladoSigueAbierto()
    ensures AccionesPara(NombreEstado(Cancelado)) == Acciones(true, true, true, false)
  {
  }

  /**
   * Marking an order paid turns its row's buttons into the invoice link and
   * its badge into `Pagado`.
   */
  lemma PagarMuestraFactura(t: PC.Tablas, id: PedidoId)
    requires PC.TablasValidas(t) && id in t.pedidos
    ensures PC.MarcarPagado(t, id).0.Ok?
    ensures id in PC.MarcarPagado(t, id).1.pedidos
    ensures AccionesPara(NombreEstado(PC.MarcarPagado(t, id).1.pedidos[id].estado)) == Acciones(false, false, false, true)
    ensures EstadoBadge(NombreEstado(PC.MarcarPagado(t, id).1.pedidos[id].estado)) == Etiqueta("Pagado", Verde)
  {
  }

  /**
   * An order stored with the amount paid covering its total is listed with
   * the invoice link right away; one stored short of it offers payment.
   */
  lemma AlmacenarMuestraAcciones(t: PC.Tablas, userId: UserId, req: PC.Solicitud)
    requires PC.TablasValidas(t)
    requires PC.Almacenar(t, userId, req).0.Ok?
    ensures PC.Almacenar(t, userId, req).0.value in PC.Almacenar(t, userId, req).1.pedidos
    ensures
      var p := PC.Almacenar(t, userId, req).1.pedidos[PC.Almacenar(t, userId, req).0.value];
      AccionesPara(NombreEstado(p.estado)).factura <==> req.montoPagado >= PC.Total(req.productos)
  {
    PC.AlmacenarResultado(t, userId, req);
  }

  /** Every row listed under `no_pagado` offers payment, and every row under `pagado` the invoice. */
  lemma FiltroCoincideConAcciones(pedidos: seq<Pedido>, userId: UserId)
    ensures forall p :: p in PC.Listar(pedidos, userId, "no_pagado") ==> AccionesPara(NombreEstado(p.estado)).pagar
    ensures forall p :: p in PC.Listar(pedidos, userId, "pagado") ==> AccionesPara(NombreEstado(p.estado)).factura
  {
    forall p | p in PC.Listar(pedidos, userId, "no_pagado")
      ensures AccionesPara(NombreEstado(p.estado)).pagar
    {
      assert p.estado != Pagado;
    }
  }
}
