/** The stock receivers of the sales app: an item saved or deleted on a paid
    invoice moves its product's stock, and saving an invoice moves the stock
    of all its items. Each receiver runs AFTER the row is written, so a
    re-read of "the previous row" sees the row just saved. */
module VentasSignals {
  import opened Wrappers
  import opened VentasModels

  /** `if producto.stock < 0: producto.stock = 0`. */
  function Piso(x: int): (r: int)
    ensures r >= 0 && (x >= 0 ==> r == x)
  {
    if x < 0 then 0 else x
  }

  /** The `stock` column of the product table, by product key. */
  class Almacen {
    var stock: map<nat, int>

    constructor (stock: map<nat, int>)
      ensures this.stock == stock
    {
      this.stock := stock;
    }
  }

  /** Every item's product is in the table (the foreign key is `PROTECT`). */
  predicate ProductosEn(stock: map<nat, int>, items: seq<ItemFactura>) {
    forall it :: it in items ==> it.producto in stock
  }

  /** The quantity of the stored row with key `id`, as
      `ItemFactura.objects.get(pk=id)` reads it; `None` when the lookup fails. */
  function CantidadGuardada(items: seq<ItemFactura>, id: nat): Option<int> {
    if items == [] then None
    else if items[0].id == id then Some(items[0].cantidad)
    else CantidadGuardada(items[1..], id)
  }

  /** After a save, re-reading the row gives back what was saved. */
  lemma {:induction false} CantidadGuardadaTrasGuardar(items: seq<ItemFactura>, item: ItemFactura)
    ensures CantidadGuardada(UpsertItem(items, item), item.id) == Some(item.cantidad)
    decreases |items|
  {
    if items != [] && items[0].id != item.id {
      CantidadGuardadaTrasGuardar(items[1..], item);
    }
  }

  /** `actualizar_stock_al_guardar` on the stock table: nothing unless the
      invoice is paid; a new item lowers its product's stock by its quantity;
      an updated item moves it by the re-read quantity minus the new one (the
      whole quantity when the re-read fails); the result is floored at 0. */
  function AjusteAlGuardar(stock: map<nat, int>, estado: Estado, item: ItemFactura, created: bool, anterior: Option<int>): (r: map<nat, int>)
    requires item.producto in stock
    ensures r.Keys == stock.Keys
  {
    if estado != Pagada then stock
    else
      var p := item.producto;
      var ajustado :=
        if created then stock[p] - item.cantidad
        else match anterior
          case Some(q) => stock[p] + (q - item.cantidad)
          case None => stock[p] - item.cantidad;
      stock[p := Piso(ajustado)]
  }

  /** `restaurar_stock_al_eliminar`: a deleted item of a paid invoice gives its
      quantity back, with no upper bound. */
  function ReponerAlEliminar(stock: map<nat, int>, estado: Estado, item: ItemFactura): (r: map<nat, int>)
    requires item.producto in stock
    ensures r.Keys == stock.Keys
  {
    if estado == Pagada then stock[item.producto := stock[item.producto] + item.cantidad] else stock
  }

  /** The paid branch of `manejar_cambio_estado_factura`: each item in turn
      lowers its product's stock, floored at 0. */
  function DescontarTodos(stock: map<nat, int>, items: seq<ItemFactura>): (r: map<nat, int>)
    requires ProductosEn(stock, items)
    ensures r.Keys == stock.Keys
    decreases |items|
  {
    if items == [] then stock
    else
      var s := DescontarTodos(stock, items[..|items| - 1]);
      var it := items[|items| - 1];
      s[it.producto := Piso(s[it.producto] - it.cantidad)]
  }

  /** The cancelled branch: each item gives its quantity back. */
  function ReponerTodos(stock: map<nat, int>, items: seq<ItemFactura>): (r: map<nat, int>)
    requires ProductosEn(stock, items)
    ensures r.Keys == stock.Keys
    decreases |items|
  {
    if items == [] then stock
    else
      var s := ReponerTodos(stock, items[..|items| - 1]);
      var it := items[|items| - 1];
      s[it.producto := s[it.producto] + it.cantidad]
  }

  /** `manejar_cambio_estado_factura`: a paid invoice deducts all its items on
      every save; a cancelled one gives them back only when the re-read
      stored invoice (`almacenada`, `None` if the lookup failed) is paid. */
  function AlGuardarFactura(stock: map<nat, int>, estado: Estado, almacenada: Option<Estado>, items: seq<ItemFactura>): map<nat, int>
    requires ProductosEn(stock, items)
  {
    if estado == Pagada then DescontarTodos(stock, items)
    else if estado == Cancelada && almacenada == Some(Pagada) then ReponerTodos(stock, items)
    else stock
  }

  /** The total quantity the items hold of product `p`. */
  function CantidadDe(items: seq<ItemFactura>, p: nat): int {
    if items == [] then 0
    else CantidadDe(items[..|items| - 1], p) + (if items[|items| - 1].producto == p then items[|items| - 1].cantidad else 0)
  }

  /** The item receiver touches only its product and does nothing unless the
      invoice is paid. On a paid invoice it never leaves the stock negative;
      a new item, or an update whose re-read failed, takes the whole quantity;
      an update with re-read quantity `q` moves the stock by `q` minus the new
      quantity; both are floored at 0. */
  lemma AjusteAlGuardarEfecto(stock: map<nat, int>, estado: Estado, item: ItemFactura, created: bool, anterior: Option<int>)
    requires item.producto in stock
    ensures var r := AjusteAlGuardar(stock, estado, item, created, anterior);
            r.Keys == stock.Keys &&
            (forall q :: q in stock && q != item.producto ==> r[q] == stock[q]) &&
            (estado != Pagada ==> r == stock) &&
            (estado == Pagada ==> r[item.producto] >= 0)
    ensures var r := AjusteAlGuardar(stock, estado, item, created, anterior);
            var p := item.producto;
            estado == Pagada && (created || anterior.None?) ==>
              (stock[p] >= item.cantidad ==> r[p] == stock[p] - item.cantidad) &&
              (stock[p] < item.cantidad ==> r[p] == 0)
    ensures var r := AjusteAlGuardar(stock, estado, item, created, anterior);
            var p := item.producto;
            estado == Pagada && !created && anterior.Some? ==>
              (stock[p] + anterior.value >= item.cantidad ==> r[p] == stock[p] + (anterior.value - item.cantidad)) &&
              (stock[p] + anterior.value < item.cantidad ==> r[p] == 0)
  {
  }

  /** Because the re-read happens after the save, the re-read quantity is the
      new one, and an updated item leaves a non-negative stock as it was. */
  lemma AjusteTrasRelectura(stock: map<nat, int>, estado: Estado, items: seq<ItemFactura>, item: ItemFactura)
    requires item.producto in stock && stock[item.producto] >= 0
    ensures AjusteAlGuardar(stock, estado, item, false, CantidadGuardada(UpsertItem(items, item), item.id)) == stock
  {
    CantidadGuardadaTrasGuardar(items, item);
    assert stock[item.producto := stock[item.producto]] == stock;
  }

  /** The delete receiver gives a paid invoice's item quantity back to its
      product, uncapped, and touches nothing else; otherwise it does nothing. */
  lemma ReponerAlEliminarEfecto(stock: map<nat, int>, estado: Estado, item: ItemFactura)
    requires item.producto in stock
    ensures var r := ReponerAlEliminar(stock, estado, item);
            (estado == Pagada ==>
               r[item.producto] == stock[item.producto] + item.cantidad &&
               forall q :: q in stock && q != item.producto ==> r[q] == stock[q]) &&
            (estado != Pagada ==> r == stock)
  {
  }

  /** Deleting a new item of a paid invoice undoes its deduction when the
      stock covered it; when the floor applied, the stock ends at the item's
      quantity, above where it started. */
  lemma ReponerDeshaceAlta(stock: map<nat, int>, item: ItemFactura, anterior: Option<int>)
    requires item.producto in stock
    ensures var s := AjusteAlGuardar(stock, Pagada, item, true, anterior);
            stock[item.producto] >= item.cantidad ==> ReponerAlEliminar(s, Pagada, item) == stock
    ensures var s := AjusteAlGuardar(stock, Pagada, item, true, anterior);
            stock[item.producto] < item.cantidad ==>
              ReponerAlEliminar(s, Pagada, item) == stock[item.producto := item.cantidad]
  {
    var p := item.producto;
    if stock[p] >= item.cantidad {
      assert stock[p := stock[p] - item.cantidad][p := stock[p]] == stock;
    }
  }

  /** Deducting all items of a paid invoice: only their products change, each
      ends at 0 or more, and when the stock covers the non-negative quantities
      each product loses exactly the quantity the items hold of it. */
  lemma {:induction false} DescontarTodosEfecto(stock: map<nat, int>, items: seq<ItemFactura>, p: nat)
    requires ProductosEn(stock, items) && p in stock
    ensures (forall k :: 0 <= k < |items| ==> items[k].producto != p) ==> DescontarTodos(stock, items)[p] == stock[p]
    ensures (exists k :: 0 <= k < |items| && items[k].producto == p) ==> DescontarTodos(stock, items)[p] >= 0
    ensures (forall k :: 0 <= k < |items| ==> items[k].cantidad >= 0) && stock[p] >= CantidadDe(items, p) ==>
              DescontarTodos(stock, items)[p] == stock[p] - CantidadDe(items, p)
    decreases |items|
  {
    if items != [] {
      var init := items[..|items| - 1];
      assert ProductosEn(stock, init);
      DescontarTodosEfecto(stock, init, p);
      if (forall k :: 0 <= k < |items| ==> items[k].cantidad >= 0) {
        assert forall k :: 0 <= k < |init| ==> init[k].cantidad >= 0;
        CantidadDeNonNegative(init, p);
      }
      if exists k :: 0 <= k < |items| && items[k].producto == p {
        var k :| 0 <= k < |items| && items[k].producto == p;
        if k < |items| - 1 {
          assert init[k].producto == p;
        }
      }
    }
  }

  lemma {:induction false} CantidadDeNonNegative(items: seq<ItemFactura>, p: nat)
    requires forall k :: 0 <= k < |items| ==> items[k].cantidad >= 0
    ensures CantidadDe(items, p) >= 0
    decreases |items|
  {
    if items != [] {
      CantidadDeNonNegative(items[..|items| - 1], p);
    }
  }

  /** Giving back all items: each product gains exactly the quantity the
      items hold of it. */
  lemma {:induction false} ReponerTodosEfecto(stock: map<nat, int>, items: seq<ItemFactura>, p: nat)
    requires ProductosEn(stock, items) && p in stock
    ensures ReponerTodos(stock, items)[p] == stock[p] + CantidadDe(items, p)
    decreases |items|
  {
    if items != [] {
      var init := items[..|items| - 1];
      assert ProductosEn(stock, init);
      ReponerTodosEfecto(stock, init, p);
    }
  }

  /** The invoice receiver reads the invoice after its own save, so saving a
      cancelled invoice never gives stock back, and each save of a paid
      invoice deducts again: two saves in a row deduct twice. */
  lemma AlGuardarFacturaTrasGuardar(stock: map<nat, int>, items: seq<ItemFactura>, p: nat)
    requires ProductosEn(stock, items) && p in stock
    requires forall k :: 0 <= k < |items| ==> items[k].cantidad >= 0
    ensures AlGuardarFactura(stock, Cancelada, Some(Cancelada), items) == stock
    ensures stock[p] >= 2 * CantidadDe(items, p) ==>
              var once := AlGuardarFactura(stock, Pagada, Some(Pagada), items);
              ProductosEn(once, items) &&
              AlGuardarFactura(once, Pagada, Some(Pagada), items)[p] == stock[p] - 2 * CantidadDe(items, p)
  {
    if stock[p] >= 2 * CantidadDe(items, p) {
      CantidadDeNonNegative(items, p);
      var once := DescontarTodos(stock, items);
      DescontarTodosEfecto(stock, items, p);
      DescontarTodosEfecto(once, items, p);
    }
  }

  /** `actualizar_stock_al_guardar`. */
  method ActualizarStockAlGuardar(almacen: Almacen, estado: Estado, item: ItemFactura, created: bool, anterior: Option<int>)
    requires item.producto in almacen.stock
    modifies almacen
    ensures almacen.stock == AjusteAlGuardar(old(almacen.stock), estado, item, created, anterior)
  {
    if estado == Pagada {
      var stock := almacen.stock[item.producto];
      if created {
        stock := stock - item.cantidad;
      } else {
        match anterior
        case Some(q) =>
          var diferencia := q - item.cantidad;
          stock := stock + diferencia;
        case None =>
          stock := stock - item.cantidad;
      }
      if stock < 0 {
        stock := 0;
      }
      almacen.stock := almacen.stock[item.producto := stock];
    }
  }

  /** `restaurar_stock_al_eliminar`. */
  method RestaurarStockAlEliminar(almacen: Almacen, estado: Estado, item: ItemFactura)
    requires item.producto in almacen.stock
    modifies almacen
    ensures almacen.stock == ReponerAlEliminar(old(almacen.stock), estado, item)
  {
    if estado == Pagada {
      almacen.stock := almacen.stock[item.producto := almacen.stock[item.producto] + item.cantidad];
    }
  }

  /** `manejar_cambio_estado_factura`, with the result of re-reading the
      stored invoice. */
  method ManejarCambioEstadoFactura(almacen: Almacen, factura: Factura, almacenada: Option<Estado>)
    requires ProductosEn(almacen.stock, factura.items)
    modifies almacen
    ensures almacen.stock == AlGuardarFactura(old(almacen.stock), factura.estado, almacenada, factura.items)
  {
    if factura.estado == Pagada {
      DescontarItems(almacen, factura.items);
    } else if factura.estado == Cancelada {
      if almacenada == Some(Pagada) {
        ReponerItems(almacen, factura.items);
      }
    }
  }

  /** The paid branch: `for item in instance.items.all()`, lowering and
      flooring each product's stock. */
  method DescontarItems(almacen: Almacen, items: seq<ItemFactura>)
    requires ProductosEn(almacen.stock, items)
    modifies almacen
    ensures almacen.stock == DescontarTodos(old(almacen.stock), items)
  {
    var i := 0;
    while i < |items|
      invariant 0 <= i <= |items|
      invariant ProductosEn(old(almacen.stock), items[..i])
      invariant almacen.stock == DescontarTodos(old(almacen.stock), items[..i])
    {
      assert items[..i + 1][..i] == items[..i];
      var item := items[i];
      var stock := almacen.stock[item.producto] - item.cantidad;
      if stock < 0 {
        stock := 0;
      }
      almacen.stock := almacen.stock[item.producto := stock];
      i := i + 1;
    }
    assert items[..i] == items;
  }

  /** The cancelled branch: each item's quantity goes back to its product. */
  method ReponerItems(almacen: Almacen, items: seq<ItemFactura>)
    requires ProductosEn(almacen.stock, items)
    modifies almacen
    ensures almacen.stock == ReponerTodos(old(almacen.stock), items)
  {
    var i := 0;
    while i < |items|
      invariant 0 <= i <= |items|
      invariant ProductosEn(old(almacen.stock), items[..i])
      invariant almacen.stock == ReponerTodos(old(almacen.stock), items[..i])
    {
      assert items[..i + 1][..i] == items[..i];
      var item := items[i];
      almacen.stock := almacen.stock[item.producto := almacen.stock[item.producto] + item.cantidad];
      i := i + 1;
    }
    assert items[..i] == items;
  }

  /** `Factura.save()` followed by its receiver, which re-reads the invoice
      it has just written. */
  method GuardarFactura(almacen: Almacen, factura: Factura)
    requires ProductosEn(almacen.stock, factura.items)
    modifies almacen
    ensures almacen.stock == AlGuardarFactura(old(almacen.stock), factura.estado, Some(factura.estado), factura.items)
    ensures factura.estado == Cancelada ==> almacen.stock == old(almacen.stock)
  {
    ManejarCambioEstadoFactura(almacen, factura, Some(factura.estado));
  }

  /** `ItemFactura.save` with the receivers in Django's order: subtotal, row
      written, item receiver, totals recomputed, invoice saved, invoice
      receiver. */
  method GuardarItemConSenales(almacen: Almacen, factura: Factura, item: ItemFactura)
    requires item.producto in almacen.stock && ProductosEn(almacen.stock, factura.items)
    requires factura.Valid()
    modifies almacen, factura`items, factura`subtotal, factura`valorIva, factura`total
    ensures factura.Valid()
    ensures factura.items == UpsertItem(old(factura.items), ConSubtotal(item))
    ensures factura.TotalesAlDia()
    ensures almacen.stock ==
      AlGuardarFactura(
        AjusteAlGuardar(old(almacen.stock), factura.estado, ConSubtotal(item), !TieneItem(old(factura.items), item.id), Some(item.cantidad)),
        factura.estado, Some(factura.estado), factura.items)
  {
    var conSubtotal := ConSubtotal(item);
    var created := factura.PersistirItem(conSubtotal);
    CantidadGuardadaTrasGuardar(old(factura.items), conSubtotal);
    var anterior := CantidadGuardada(factura.items, conSubtotal.id);
    ActualizarStockAlGuardar(almacen, factura.estado, conSubtotal, created, anterior);
    factura.CalcularTotales();
    assert ProductosEn(almacen.stock, factura.items) by {
      forall k | 0 <= k < |factura.items| ensures factura.items[k].producto in almacen.stock {
        assert factura.items[k] == conSubtotal || factura.items[k] in old(factura.items);
      }
    }
    GuardarFactura(almacen, factura);
  }

  /** A new item on a paid invoice is deducted twice: once by the item
      receiver and once more, with every other item, by the invoice receiver
      that runs when the totals are saved. */
  lemma NuevoItemEnPagada(stock: map<nat, int>, items: seq<ItemFactura>, item: ItemFactura)
    requires item.producto in stock && ProductosEn(stock, items)
    requires !TieneItem(items, item.id)
    requires item.cantidad >= 0 && forall k :: 0 <= k < |items| ==> items[k].cantidad >= 0
    requires stock[item.producto] >= 2 * item.cantidad + CantidadDe(items, item.producto)
    ensures var r := AlGuardarFactura(AjusteAlGuardar(stock, Pagada, item, true, Some(item.cantidad)),
                                      Pagada, Some(Pagada), UpsertItem(items, item));
            item.producto in r &&
            r[item.producto] == stock[item.producto] - 2 * item.cantidad - CantidadDe(items, item.producto)
  {
    var p := item.producto;
    var s1 := AjusteAlGuardar(stock, Pagada, item, true, Some(item.cantidad));
    CantidadDeNonNegative(items, p);
    assert s1[p] == stock[p] - item.cantidad;
    UpsertItemShape(items, item);
    DescontarUltimo(s1, items, item);
  }

  lemma DescontarUltimo(s1: map<nat, int>, items: seq<ItemFactura>, item: ItemFactura)
    requires item.producto in s1 && ProductosEn(s1, items)
    requires item.cantidad >= 0 && forall k :: 0 <= k < |items| ==> items[k].cantidad >= 0
    requires s1[item.producto] >= item.cantidad + CantidadDe(items, item.producto)
    ensures ProductosEn(s1, items + [item])
    ensures DescontarTodos(s1, items + [item])[item.producto] == s1[item.producto] - item.cantidad - CantidadDe(items, item.producto)
  {
    var p := item.producto;
    var all := items + [item];
    assert all[..|all| - 1] == items;
    assert CantidadDe(all, p) == CantidadDe(items, p) + item.cantidad;
    assert forall k :: 0 <= k < |all| ==> all[k].cantidad >= 0 by {
      forall k | 0 <= k < |all| ensures all[k].cantidad >= 0 {
        if k < |items| { assert all[k] == items[k]; }
      }
    }
    DescontarTodosEfecto(s1, all, p);
  }

  /** `ItemFactura.delete` with the receivers in Django's order: row deleted,
      delete receiver, totals recomputed, invoice saved, invoice receiver. */
  method EliminarItemConSenales(almacen: Almacen, factura: Factura, item: ItemFactura)
    requires item in factura.items && factura.Valid()
    requires ProductosEn(almacen.stock, factura.items)
    modifies almacen, factura`items, factura`subtotal, factura`valorIva, factura`total
    ensures factura.Valid()
    ensures factura.items == QuitarItem(old(factura.items), item.id)
    ensures factura.TotalesAlDia()
    ensures almacen.stock ==
      AlGuardarFactura(ReponerAlEliminar(old(almacen.stock), factura.estado, item),
                       factura.estado, Some(factura.estado), factura.items)
  {
    QuitarItemUnique(factura.items, item.id);
    factura.items := QuitarItem(factura.items, item.id);
    RestaurarStockAlEliminar(almacen, factura.estado, item);
    factura.CalcularTotales();
    assert ProductosEn(almacen.stock, factura.items) by {
      forall k | 0 <= k < |factura.items| ensures factura.items[k].producto in almacen.stock {
        assert factura.items[k] in old(factura.items);
      }
    }
    GuardarFactura(almacen, factura);
  }
}
