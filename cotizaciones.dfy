/** Quotes and quote lines. */
module Cotizaciones {
  import opened Wrappers
  import Inventario

  /** `Cotizacion.ESTADO_CHOICES`. */
  datatype Estado = Pendiente | Revisada | Aprobada | Rechazada | Convertida

  const EstadoPorDefecto: Estado := Pendiente
  const VigenciaPorDefecto: int := 15

  function Valor(e: Estado): string {
    match e
    case Pendiente => "pendiente"
    case Revisada => "revisada"
    case Aprobada => "aprobada"
    case Rechazada => "rechazada"
    case Convertida => "convertida"
  }

  function Etiqueta(e: Estado): string {
    match e
    case Pendiente => "Pendiente de revisión"
    case Revisada => "Revisada"
    case Aprobada => "Aprobada"
    case Rechazada => "Rechazada"
    case Convertida => "Convertida a pedido"
  }

  /** Reading a stored value back: the choices are exactly these five values. */
  function DesdeValor(s: string): (r: Option<Estado>)
    ensures r.Some? ==> Valor(r.value) == s
    ensures (exists e :: Valor(e) == s) ==> r.Some?
  {
    if s == "pendiente" then Some(Pendiente)
    else if s == "revisada" then Some(Revisada)
    else if s == "aprobada" then Some(Aprobada)
    else if s == "rechazada" then Some(Rechazada)
    else if s == "convertida" then Some(Convertida)
    else None
  }

  /** `get_estado_display()`. */
  function Display(s: string): (r: string)
    ensures forall e :: Valor(e) == s ==> r == Etiqueta(e)
    ensures DesdeValor(s).None? ==> r == s
  {
    match DesdeValor(s)
    case Some(e) => Etiqueta(e)
    case None => s
  }

  /** A quote line. `precioUnitario` is nullable; `cantidad` is a
      `PositiveIntegerField`. */
  datatype DetalleCotizacion = DetalleCotizacion(producto: Inventario.Producto, cantidad: nat, precioUnitario: Option<real>, notas: string)

  /** A new line: quantity 1 and no price of its own. */
  function NuevoDetalle(producto: Inventario.Producto): (d: DetalleCotizacion)
    ensures d.cantidad == 1 && d.precioUnitario == None && d.producto == producto
  {
    DetalleCotizacion(producto, 1, None, "")
  }

  /** `DetalleCotizacion.subtotal`: `if self.precio_unitario:` treats both
      `None` and zero as "no price set". */
  function Subtotal(d: DetalleCotizacion): real {
    if d.precioUnitario.Some? && d.precioUnitario.value != 0.0
    then d.precioUnitario.value * d.cantidad as real
    else d.producto.precio * d.cantidad as real
  }

  /** The quoted price applies when it is set and non-zero; otherwise the
      catalogue price does. */
  lemma SubtotalPriceRule(d: DetalleCotizacion)
    ensures var precio := if d.precioUnitario.Some? && d.precioUnitario.value != 0.0
                          then d.precioUnitario.value else d.producto.precio;
            Subtotal(d) == precio * d.cantidad as real
    ensures d.precioUnitario == Some(0.0) ==> Subtotal(d) == Subtotal(d.(precioUnitario := None))
  {
  }

  datatype Cotizacion = Cotizacion(id: Option<nat>, estado: Estado, vigencia: int, notasCliente: string, items: seq<DetalleCotizacion>)

  /** A new quote: state `'pendiente'`, 15 days of validity, no lines. */
  function NuevaCotizacion(notasCliente: string): (c: Cotizacion)
    ensures c.estado == Pendiente && c.vigencia == 15 && c.items == [] && c.id == None
  {
    Cotizacion(None, EstadoPorDefecto, VigenciaPorDefecto, notasCliente, [])
  }

  /** `sum(item.subtotal for item in items)`. */
  function SumaSubtotales(items: seq<DetalleCotizacion>): real {
    if items == [] then 0.0 else SumaSubtotales(items[..|items| - 1]) + Subtotal(items[|items| - 1])
  }

  /** `Cotizacion.total`. */
  function Total(c: Cotizacion): real {
    SumaSubtotales(c.items)
  }

  /** `Cotizacion.num_items`: `self.items.count()`. */
  function NumItems(c: Cotizacion): nat {
    |c.items|
  }

  /** The total splits over any division of the lines. */
  lemma {:induction false} SumaSubtotalesConcat(a: seq<DetalleCotizacion>, b: seq<DetalleCotizacion>)
    ensures SumaSubtotales(a + b) == SumaSubtotales(a) + SumaSubtotales(b)
    decreases |b|
  {
    if b == [] {
      assert a + b == a;
    } else {
      assert (a + b)[..|a + b| - 1] == a + b[..|b| - 1];
      SumaSubtotalesConcat(a, b[..|b| - 1]);
    }
  }

  /** A quote with no lines totals 0; adding a line adds one to `num_items`
      and that line's subtotal to `total`. */
  lemma TotalAndCount(c: Cotizacion, d: DetalleCotizacion)
    ensures c.items == [] ==> Total(c) == 0.0 && NumItems(c) == 0
    ensures var c' := c.(items := c.items + [d]);
            NumItems(c') == NumItems(c) + 1 && Total(c') == Total(c) + Subtotal(d)
  {
    SumaSubtotalesConcat(c.items, [d]);
    assert SumaSubtotales([d]) == Subtotal(d) by {
      assert [d][..0] == [];
    }
  }

  /** With no negative prices, a total is never negative. */
  lemma {:induction false} TotalNonNegative(items: seq<DetalleCotizacion>)
    requires forall d :: d in items ==> d.producto.precio >= 0.0 && (d.precioUnitario.Some? ==> d.precioUnitario.value >= 0.0)
    ensures SumaSubtotales(items) >= 0.0
    decreases |items|
  {
    if items != [] {
      TotalNonNegative(items[..|items| - 1]);
    }
  }
}
