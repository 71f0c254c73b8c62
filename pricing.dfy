/** How the four kinds of line price a product: the cart line, the quotation
    line, the order line and the invoice item all come to price times
    quantity when the line carries the catalogue price. */
module Pricing {
  import opened Wrappers
  import Inventario
  import Carrito
  import Cotizaciones
  import Pedidos
  import VentasModels

  /** `cantidad` units of `p` at its catalogue price cost the same in the
      cart, in a quotation (with or without a price of its own, since a zero
      price falls back to the catalogue price, which is then zero too), in an
      order and on an invoice. */
  lemma CatalogPriceAgrees(p: Inventario.Producto, cantidad: nat, notas: string, id: nat, producto: nat, subtotal: real)
    ensures var esperado := p.precio * cantidad as real;
            Carrito.Subtotal(p.precio, cantidad) == esperado &&
            Cotizaciones.Subtotal(Cotizaciones.DetalleCotizacion(p, cantidad, None, notas)) == esperado &&
            Cotizaciones.Subtotal(Cotizaciones.DetalleCotizacion(p, cantidad, Some(p.precio), notas)) == esperado &&
            Pedidos.Subtotal(Pedidos.DetallePedido(p, cantidad, p.precio)) == esperado &&
            VentasModels.ConSubtotal(VentasModels.ItemFactura(id, producto, cantidad, p.precio, subtotal)).subtotal == esperado
  {
  }

  /** A quotation line with a price of its own overrides the catalogue only
      when that price is not zero; an order line always uses its own. */
  lemma OwnPriceRules(p: Inventario.Producto, cantidad: nat, precio: real, notas: string)
    ensures precio != 0.0 ==>
              Cotizaciones.Subtotal(Cotizaciones.DetalleCotizacion(p, cantidad, Some(precio), notas)) == precio * cantidad as real
    ensures precio == 0.0 ==>
              Cotizaciones.Subtotal(Cotizaciones.DetalleCotizacion(p, cantidad, Some(precio), notas)) == p.precio * cantidad as real
    ensures Pedidos.Subtotal(Pedidos.DetallePedido(p, cantidad, precio)) == precio * cantidad as real
  {
  }
}
