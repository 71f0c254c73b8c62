/** Clients, orders and order lines. */
module Pedidos {
  import opened Wrappers
  import Text
  import Inventario

  /** `Pedido.ESTADO_CHOICES`. */
  datatype Estado = Pendiente | EnProceso | Completado | Cancelado

  const EstadoPorDefecto: Estado := Pendiente

  /** The value stored in the `estado` column. */
  function Valor(e: Estado): string {
    match e
    case Pendiente => "pendiente"
    case EnProceso => "en_proceso"
    case Completado => "completado"
    case Cancelado => "cancelado"
  }

  /** The human-readable label of a choice. */
  function Etiqueta(e: Estado): string {
    match e
    case Pendiente => "Pendiente"
    case EnProceso => "En proceso"
    case Completado => "Completado"
    case Cancelado => "Cancelado"
  }

  /** Reading a stored value back: the choices are exactly these four values. */
  function DesdeValor(s: string): (r: Option<Estado>)
    ensures r.Some? ==> Valor(r.value) == s
    ensures (exists e :: Valor(e) == s) ==> r.Some?
  {
    if s == "pendiente" then Some(Pendiente)
    else if s == "en_proceso" then Some(EnProceso)
    else if s == "completado" then Some(Completado)
    else if s == "cancelado" then Some(Cancelado)
    else None
  }

  /** `get_estado_display()`: the label of a known value, the value itself
      otherwise. */
  function Display(s: string): (r: string)
    ensures forall e :: Valor(e) == s ==> r == Etiqueta(e)
    ensures DesdeValor(s).None? ==> r == s
  {
    match DesdeValor(s)
    case Some(e) => Etiqueta(e)
    case None => s
  }

  datatype Cliente = Cliente(nombre: string, apellido: string, email: string, telefono: string, direccion: string)

  /** `Cliente.__str__`: `"<nombre> <apellido>"`. */
  function ClienteLabel(c: Cliente): (r: string)
    ensures |r| == |c.nombre| + 1 + |c.apellido|
    ensures r[..|c.nombre|] == c.nombre && r[|c.nombre|] == ' ' && r[|c.nombre| + 1..] == c.apellido
  {
    c.nombre + " " + c.apellido
  }

  datatype Pedido = Pedido(id: Option<nat>, cliente: Cliente, estado: Estado, observaciones: Option<string>)

  /** A new order: state `'pendiente'` unless given. */
  function NuevoPedido(cliente: Cliente): (p: Pedido)
    ensures p.estado == Pendiente && p.id == None && p.cliente == cliente
  {
    Pedido(None, cliente, EstadoPorDefecto, None)
  }

  /** `str(self.id)`: the key, or `"None"` before the first save. */
  function IdString(id: Option<nat>): string {
    match id
    case Some(n) => Text.NatToString(n)
    case None => "None"
  }

  /** `Pedido.__str__`: `"Pedido #<id> - <cliente>"`. */
  function PedidoLabel(p: Pedido): (r: string)
    ensures |r| == 8 + |IdString(p.id)| + 3 + |ClienteLabel(p.cliente)|
    ensures r[..8] == "Pedido #"
    ensures r[8..8 + |IdString(p.id)|] == IdString(p.id)
    ensures r[8 + |IdString(p.id)|..8 + |IdString(p.id)| + 3] == " - "
    ensures r[8 + |IdString(p.id)| + 3..] == ClienteLabel(p.cliente)
  {
    "Pedido #" + IdString(p.id) + " - " + ClienteLabel(p.cliente)
  }

  /** The number after `#` in a saved order's label is its key. */
  lemma PedidoLabelShowsId(p: Pedido, n: nat)
    requires p.id == Some(n)
    ensures Text.ParseNat(PedidoLabel(p)[8..8 + |Text.NatToString(n)|]) == Some(n)
  {
    Text.ParseNatToString(n);
  }

  /** An order line; `cantidad` is a `PositiveIntegerField`, so never negative. */
  datatype DetallePedido = DetallePedido(producto: Inventario.Producto, cantidad: nat, precioUnitario: real)

  /** `DetallePedido.subtotal()`. */
  function Subtotal(d: DetallePedido): real {
    d.cantidad as real * d.precioUnitario
  }

  /** `DetallePedido.__str__`: `"<cantidad> x <producto.nombre>"`. */
  function DetalleLabel(d: DetallePedido): (r: string)
    ensures |r| == |Text.NatToString(d.cantidad)| + 3 + |d.producto.nombre|
    ensures Text.ParseNat(r[..|Text.NatToString(d.cantidad)|]) == Some(d.cantidad)
    ensures r[|Text.NatToString(d.cantidad)|..] == " x " + d.producto.nombre
  {
    Text.ParseNatToString(d.cantidad);
    var r := Text.NatToString(d.cantidad) + " x " + d.producto.nombre;
    assert r[..|Text.NatToString(d.cantidad)|] == Text.NatToString(d.cantidad);
    r
  }
}
